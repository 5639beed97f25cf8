/** The fixed table of comparison topics the component shows, keyed and
    ordered as the `comparisons` object literal lists them, with the lookup
    `comparisons[key]`. */
module Dataset {
  import opened Topics
  import opened JsObject

  datatype Entry = Entry(key: string, topic: Topic)

  /** The result of reading `comparisons[key]`: the topic of an own entry,
      a member every object literal inherits from `Object.prototype`, or
      `undefined`. */
  datatype Found = Missing | Defined(topic: Topic) | InheritedMember(name: string)

  /** `Object.keys(table)`: the keys in table order. */
  function Keys(table: seq<Entry>): seq<string>
  {
    seq(|table|, i requires 0 <= i < |table| => table[i].key)
  }

  predicate UniqueKeys(table: seq<Entry>)
  {
    forall i, j :: 0 <= i < j < |table| ==> table[i].key != table[j].key
  }

  /** The own entry stored under `key`, searched in table order. */
  function OwnLookup(table: seq<Entry>, key: string): (r: Found)
    ensures r.Defined? <==> key in Keys(table)
    ensures !r.InheritedMember?
    ensures r.Defined? ==> exists i :: 0 <= i < |table| && table[i] == Entry(key, r.topic)
  {
    if |table| == 0 then Missing
    else if table[0].key == key then assert Keys(table)[0] == key; Defined(table[0].topic)
    else
      var r := OwnLookup(table[1..], key);
      assert Keys(table) == [table[0].key] + Keys(table[1..]);
      assert r.Defined? ==> exists i :: 0 <= i < |table| && table[i] == Entry(key, r.topic) by {
        if r.Defined? {
          var i :| 0 <= i < |table[1..]| && table[1..][i] == Entry(key, r.topic);
          assert table[i + 1] == Entry(key, r.topic);
        }
      }
      r
  }

  /** `table[key]` on the object literal: the topic stored under an own key;
      otherwise the inherited member of that name, if `Object.prototype` has
      one; otherwise `undefined`. */
  function Get(table: seq<Entry>, key: string): (r: Found)
    ensures r.Defined? <==> key in Keys(table)
    ensures r.Defined? ==> exists i :: 0 <= i < |table| && table[i] == Entry(key, r.topic)
    ensures r.InheritedMember? <==> key !in Keys(table) && key in PrototypeMembers
    ensures r.InheritedMember? ==> r.name == key
    ensures r.Missing? <==> key !in Keys(table) && key !in PrototypeMembers
  {
    var own := OwnLookup(table, key);
    if own.Defined? then own
    else if key in PrototypeMembers then InheritedMember(key)
    else Missing
  }

  /** The `comparisons` object literal. */
  const Comparisons: seq<Entry> := [Entry("api", ApiTopic), Entry("cloud", CloudTopic), Entry("stack", StackTopic)]

  /** `comparisons.api` */
  const ApiTopic: Topic :=
    Topic("REST API vs GraphQL",
      [
        Option("REST API", "7.5",
          [Point("Simple and widely understood", "high"), Point("Better caching with HTTP", "high"), Point("Mature tooling ecosystem", "medium"), Point("Easy to version and maintain", "medium")],
          [Point("Over-fetching or under-fetching data", "high"), Point("Multiple endpoints needed", "medium"), Point("Can require multiple round trips", "medium")],
          ["Simple CRUD operations", "Public APIs", "Mobile apps with bandwidth constraints"],
          [Metric("complexity", "Low"), Metric("performance", "Good"), Metric("scalability", "Excellent"), Metric("learningCurve", "Easy")]),
        Option("GraphQL", "7.8",
          [Point("Precise data fetching", "high"), Point("Single endpoint for all queries", "high"), Point("Strong typing and introspection", "medium"), Point("Real-time subscriptions built-in", "medium")],
          [Point("Steeper learning curve", "high"), Point("Complex caching strategies", "high"), Point("Potential for expensive queries", "medium"), Point("Overkill for simple use cases", "low")],
          ["Complex data requirements", "Rapid frontend iteration", "Multiple client types"],
          [Metric("complexity", "High"), Metric("performance", "Excellent"), Metric("scalability", "Good"), Metric("learningCurve", "Moderate")])
      ],
      Recommendation("For a startup MVP with limited resources",
        "REST API",
        "Lower complexity and faster initial development. You can always migrate to GraphQL later when data requirements become more complex."))

  /** `comparisons.cloud` */
  const CloudTopic: Topic :=
    Topic("AWS vs Google Cloud vs Azure",
      [
        Option("AWS", "8.5",
          [Point("Largest market share and community", "high"), Point("Most comprehensive service catalog", "high"), Point("Best third-party integrations", "medium"), Point("Mature documentation", "medium")],
          [Point("Can be expensive at scale", "high"), Point("Complex pricing structure", "medium"), Point("Steeper learning curve", "medium")],
          ["Enterprise applications", "Startups needing comprehensive services", "Heavy compute workloads"],
          [Metric("complexity", "High"), Metric("cost", "$$$"), Metric("performance", "Excellent"), Metric("ecosystem", "Largest")]),
        Option("Google Cloud", "7.8",
          [Point("Best for data analytics and ML", "high"), Point("Competitive pricing", "high"), Point("Excellent Kubernetes support", "medium"), Point("Simple, clean interface", "low")],
          [Point("Smaller service catalog than AWS", "medium"), Point("Less enterprise adoption", "medium"), Point("Fewer third-party integrations", "low")],
          ["Data-heavy applications", "Machine learning projects", "Container-based workloads"],
          [Metric("complexity", "Medium"), Metric("cost", "$$"), Metric("performance", "Excellent"), Metric("ecosystem", "Growing")]),
        Option("Azure", "8.2",
          [Point("Best Microsoft integration", "high"), Point("Strong hybrid cloud support", "high"), Point("Good enterprise features", "medium"), Point("Competitive enterprise pricing", "medium")],
          [Point("Less intuitive interface", "medium"), Point("Inconsistent documentation", "medium"), Point("Smaller community vs AWS", "low")],
          ["Microsoft-heavy organizations", "Hybrid cloud deployments", "Enterprise .NET applications"],
          [Metric("complexity", "Medium"), Metric("cost", "$$"), Metric("performance", "Excellent"), Metric("ecosystem", "Enterprise")])
      ],
      Recommendation("For a Python-based ML startup",
        "Google Cloud",
        "Superior ML tools (Vertex AI, BigQuery ML), competitive pricing, and excellent support for modern development practices."))

  /** `comparisons.stack` */
  const StackTopic: Topic :=
    Topic("Tech Stack Comparison",
      [
        Option("React + Node.js + PostgreSQL", "8.3",
          [Point("Full JavaScript stack", "high"), Point("Large talent pool", "high"), Point("Excellent for real-time apps", "medium"), Point("Rich ecosystem of libraries", "medium")],
          [Point("JavaScript fatigue (too many choices)", "medium"), Point("Not ideal for CPU-intensive tasks", "medium"), Point("Callback complexity potential", "low")],
          ["Real-time applications", "Rapid prototyping", "Teams with JS expertise"],
          [Metric("complexity", "Medium"), Metric("performance", "Good"), Metric("hiring", "Easy"), Metric("maturity", "Very Mature")]),
        Option("Next.js + Prisma + PostgreSQL", "8.7",
          [Point("Built-in SSR and SSG", "high"), Point("Excellent SEO capabilities", "high"), Point("Type-safe database access", "medium"), Point("Great developer experience", "medium")],
          [Point("Vendor lock-in to Vercel patterns", "medium"), Point("Learning curve for full-stack features", "medium"), Point("Can be overkill for simple apps", "low")],
          ["SEO-critical apps", "E-commerce platforms", "Content-heavy sites"],
          [Metric("complexity", "Medium"), Metric("performance", "Excellent"), Metric("hiring", "Moderate"), Metric("maturity", "Mature")]),
        Option("Django + PostgreSQL + React", "8",
          [Point("Batteries-included framework", "high"), Point("Excellent admin interface", "high"), Point("Strong security defaults", "medium"), Point("Great for data-driven apps", "medium")],
          [Point("Monolithic architecture", "medium"), Point("Less flexible than micro-frameworks", "medium"), Point("Python can be slower than compiled languages", "low")],
          ["Content management systems", "Data science integration", "Rapid MVP development"],
          [Metric("complexity", "Low"), Metric("performance", "Good"), Metric("hiring", "Moderate"), Metric("maturity", "Very Mature")])
      ],
      Recommendation("For a SaaS product with complex business logic",
        "Next.js + Prisma + PostgreSQL",
        "Combines modern developer experience with production-ready features. Type safety across the stack reduces bugs, and Next.js handles both marketing pages and app logic efficiently."))

  /** The recommendation of a topic names one of its own options. */
  predicate ChoiceIsAnOption(t: Topic)
  {
    exists j :: 0 <= j < |t.options| && t.options[j].name == t.recommendation.choice
  }

  /** `comparisons.api`: two options, REST API first, and REST API recommended. */
  lemma ApiTopicSummary()
    ensures ApiTopic.title == "REST API vs GraphQL"
    ensures |ApiTopic.options| == 2
    ensures ApiTopic.options[0].name == "REST API" && ApiTopic.options[0].score == "7.5"
    ensures ApiTopic.options[1].name == "GraphQL" && ApiTopic.options[1].score == "7.8"
    ensures ApiTopic.recommendation.choice == ApiTopic.options[0].name
    ensures ChoiceIsAnOption(ApiTopic)
  {
    assert ApiTopic.options[0].name == ApiTopic.recommendation.choice;
  }

  /** `comparisons.cloud`: AWS, Google Cloud and Azure, and Google Cloud recommended. */
  lemma CloudTopicSummary()
    ensures CloudTopic.title == "AWS vs Google Cloud vs Azure"
    ensures |CloudTopic.options| == 3
    ensures CloudTopic.options[0].name == "AWS" && CloudTopic.options[0].score == "8.5"
    ensures CloudTopic.options[1].name == "Google Cloud" && CloudTopic.options[1].score == "7.8"
    ensures CloudTopic.options[2].name == "Azure" && CloudTopic.options[2].score == "8.2"
    ensures CloudTopic.recommendation.choice == CloudTopic.options[1].name
    ensures ChoiceIsAnOption(CloudTopic)
  {
    assert CloudTopic.options[1].name == CloudTopic.recommendation.choice;
  }

  /** `comparisons.stack`: three stacks, the Next.js one recommended. The score
      8.0 is kept as the text "8" that JavaScript prints for it. */
  lemma StackTopicSummary()
    ensures StackTopic.title == "Tech Stack Comparison"
    ensures |StackTopic.options| == 3
    ensures StackTopic.options[0].name == "React + Node.js + PostgreSQL" && StackTopic.options[0].score == "8.3"
    ensures StackTopic.options[1].name == "Next.js + Prisma + PostgreSQL" && StackTopic.options[1].score == "8.7"
    ensures StackTopic.options[2].name == "Django + PostgreSQL + React" && StackTopic.options[2].score == "8"
    ensures StackTopic.recommendation.choice == StackTopic.options[1].name
    ensures ChoiceIsAnOption(StackTopic)
  {
    assert StackTopic.options[1].name == StackTopic.recommendation.choice;
  }

  /** `comparisons` holds the three topics in source order, and every
      topic's recommendation is one of its options. */
  lemma ComparisonsSummary()
    ensures |Comparisons| == 3
    ensures Comparisons[0].topic == ApiTopic && Comparisons[1].topic == CloudTopic && Comparisons[2].topic == StackTopic
    ensures forall i :: 0 <= i < |Comparisons| ==> ChoiceIsAnOption(Comparisons[i].topic)
  {
    ApiTopicSummary();
    CloudTopicSummary();
    StackTopicSummary();
    forall i | 0 <= i < |Comparisons|
      ensures ChoiceIsAnOption(Comparisons[i].topic)
    {
      assert i == 0 || i == 1 || i == 2;
    }
  }
}
