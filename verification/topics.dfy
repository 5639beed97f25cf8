/** The records of a comparison dataset: a topic holds a title, its options
    and a recommendation; an option holds weighted pros and cons, the uses it
    suits and a generic table of metrics. */
module Topics {

  /** One pro or con. The weight is free text; the dataset uses "high",
      "medium" and "low". */
  datatype Point = Point(text: string, weight: string)

  /** One `[key, value]` pair of `Object.entries(option.metrics)`. */
  datatype Metric = Metric(key: string, value: string)

  /** One option of a topic. `score` is the text JavaScript prints for the
      score number (7.5 prints "7.5", 8.0 prints "8"). `metrics` is kept in
      the object's own enumeration order. */
  datatype Option = Option(
    name: string,
    score: string,
    pros: seq<Point>,
    cons: seq<Point>,
    bestFor: seq<string>,
    metrics: seq<Metric>)

  datatype Recommendation = Recommendation(context: string, choice: string, reasoning: string)

  datatype Topic = Topic(title: string, options: seq<Option>, recommendation: Recommendation)

  predicate NoNewline(s: string)
  {
    '\n' !in s
  }

  predicate PointIsOneLine(p: Point)
  {
    NoNewline(p.text) && NoNewline(p.weight)
  }

  predicate OptionIsOneLine(o: Option)
  {
    NoNewline(o.name) && NoNewline(o.score)
    && (forall k :: 0 <= k < |o.pros| ==> PointIsOneLine(o.pros[k]))
    && (forall k :: 0 <= k < |o.cons| ==> PointIsOneLine(o.cons[k]))
    && (forall k :: 0 <= k < |o.bestFor| ==> NoNewline(o.bestFor[k]))
    && (forall k :: 0 <= k < |o.metrics| ==> NoNewline(o.metrics[k].key) && NoNewline(o.metrics[k].value))
  }

  /** No text field of the topic holds a line break, so that every field
      prints on the line its label starts. */
  predicate TopicIsOneLine(t: Topic)
  {
    NoNewline(t.title)
    && (forall i :: 0 <= i < |t.options| ==> OptionIsOneLine(t.options[i]))
    && NoNewline(t.recommendation.context)
    && NoNewline(t.recommendation.choice)
    && NoNewline(t.recommendation.reasoning)
  }
}
