/** The weight-to-style lookup used to colour pros and cons. */
module Weights {
  import opened JsObject

  const HighStyle := "text-red-600 bg-red-50"
  const MediumStyle := "text-yellow-600 bg-yellow-50"
  const LowStyle := "text-green-600 bg-green-50"

  /** The own properties of the `colors` object. */
  const Colors: map<string, string> := map["high" := HighStyle, "medium" := MediumStyle, "low" := LowStyle]

  /** The style for a weight: the weight's own entry in `Colors`, and the
      medium style for every other text. */
  function WeightColor(weight: string): (style: string)
    ensures style == HighStyle <==> weight == "high"
    ensures style == LowStyle <==> weight == "low"
    ensures style == MediumStyle <==> weight != "high" && weight != "low"
  {
    if weight in Colors then Colors[weight] else Colors["medium"]
  }

  // ---------------------------------------------------------------------
  // The lookup as JavaScript evaluates `colors[weight] || colors.medium`

  /** What reading a property of a plain object can give: nothing, one of
      its own strings, or a member inherited from `Object.prototype`. */
  datatype JsValue = Undefined | Str(s: string) | Inherited(name: string)

  /** `obj[key]` on an object literal whose own properties are `own`. */
  function PropertyGet(own: map<string, string>, key: string): JsValue
  {
    if key in own then Str(own[key])
    else if key in PrototypeMembers then Inherited(key)
    else Undefined
  }

  /** JavaScript truthiness: `undefined` and "" are falsy, functions and
      objects are truthy. */
  predicate Truthy(v: JsValue)
  {
    match v
    case Undefined => false
    case Str(s) => s != ""
    case Inherited(_) => true
  }

  function Or(a: JsValue, b: JsValue): JsValue
  {
    if Truthy(a) then a else b
  }

  /** `getWeightColor` exactly as written. */
  function WeightColorAsWritten(weight: string): (r: JsValue)
    ensures r != Undefined
    ensures r.Str? ==> r.s == HighStyle || r.s == MediumStyle || r.s == LowStyle
    ensures r.Inherited? <==> weight in PrototypeMembers
    ensures r.Inherited? ==> r.name == weight
  {
    Or(PropertyGet(Colors, weight), PropertyGet(Colors, "medium"))
  }

  /** For every weight that is not an inherited member name, the lookup as
      written gives the style `WeightColor` gives. */
  lemma AsWrittenAgreesOnOrdinaryWeights(weight: string)
    requires weight !in PrototypeMembers
    ensures WeightColorAsWritten(weight) == Str(WeightColor(weight))
  {
  }

  /** For an inherited member name the lookup as written yields that member,
      not the medium style the fallback was meant to give. */
  lemma AsWrittenMissesInheritedNames(weight: string)
    requires weight in PrototypeMembers
    ensures WeightColorAsWritten(weight) == Inherited(weight)
    ensures WeightColorAsWritten(weight) != Str(WeightColor(weight))
  {
  }

  /** The weight "toString" gets the inherited function, not a style. */
  lemma ToStringWeight()
    ensures WeightColorAsWritten("toString") == Inherited("toString")
    ensures WeightColor("toString") == MediumStyle
  {
  }
}
