/** The plain-text report the download button produces for one topic, and the
    name of the file it is saved under.

    `Report` follows the template literal character for character.
    `ReportLines` describes the same text line by line; the lemmas prove the
    two agree and say where each part of the topic lands. */
module Reports {
  import opened Text
  import opened Topics

  const Check := "\U{2713}"
  const Cross := "\U{2717}"
  const Bullet := "\U{2022}"

  /** The header of option number `idx` (counting from 0). */
  function OptionHeader(o: Option, idx: nat): string
  {
    NatToString(idx + 1) + ". " + o.name + " (Score: " + o.score + "/10)"
  }

  /** The rule under an option header; its length comes from the name only. */
  function Underline(o: Option): string
  {
    Repeat('=', |o.name| + 20)
  }

  function ProLine(p: Point): string
  {
    "  " + Check + " " + p.text + " [" + p.weight + " priority]"
  }

  function ConLine(p: Point): string
  {
    "  " + Cross + " " + p.text + " [" + p.weight + " impact]"
  }

  function BestForLine(use: string): string
  {
    "  " + Bullet + " " + use
  }

  function MetricLine(m: Metric): string
  {
    "  " + m.key + ": " + m.value
  }

  function ProLines(pros: seq<Point>): seq<string>
  {
    seq(|pros|, k requires 0 <= k < |pros| => ProLine(pros[k]))
  }

  function ConLines(cons: seq<Point>): seq<string>
  {
    seq(|cons|, k requires 0 <= k < |cons| => ConLine(cons[k]))
  }

  function BestForLines(uses: seq<string>): seq<string>
  {
    seq(|uses|, k requires 0 <= k < |uses| => BestForLine(uses[k]))
  }

  function MetricLines(metrics: seq<Metric>): seq<string>
  {
    seq(|metrics|, k requires 0 <= k < |metrics| => MetricLine(metrics[k]))
  }

  /** The inner template for one option, as `options.map((option, idx) => ...)` builds it. */
  function OptionBlock(o: Option, idx: nat): (r: string)
    ensures EndsWith(r, "\n\nKEY METRICS:\n" + Join(MetricLines(o.metrics), "\n") + "\n")
  {
    var front := "\n" + OptionHeader(o, idx) + "\n" + Underline(o) + "\n\nSTRENGTHS:\n"
      + Join(ProLines(o.pros), "\n")
      + "\n\nWEAKNESSES:\n" + Join(ConLines(o.cons), "\n")
      + "\n\nBEST FOR:\n" + Join(BestForLines(o.bestFor), "\n");
    EndsWithLastThree(front, "\n\nKEY METRICS:\n", Join(MetricLines(o.metrics), "\n"), "\n");
    front + "\n\nKEY METRICS:\n" + Join(MetricLines(o.metrics), "\n") + "\n"
  }

  function OptionBlocks(options: seq<Option>): seq<string>
  {
    seq(|options|, i requires 0 <= i < |options| => OptionBlock(options[i], i))
  }

  const ReportHeading := "TRADE-OFF ANALYSIS REPORT"
  /** The rule under the report heading: 24 '=' under a 25-character heading. */
  const ReportRule := "========================"
  const RecommendationHeading := "RECOMMENDATION"
  const RecommendationRule := "=============="

  /** The whole report; `date` is the locale-formatted date of the download. */
  function Report(t: Topic, date: string): (r: string)
    ensures EndsWith(r, "\n" + "Reasoning: " + t.recommendation.reasoning + "\n")
  {
    var front := "\n" + ReportHeading + "\n" + ReportRule + "\n" + t.title + "\n"
      + "Generated: " + date + "\n" + "\n"
      + Join(OptionBlocks(t.options), "\n\n") + "\n" + "\n"
      + RecommendationHeading + "\n" + RecommendationRule + "\n"
      + "Context: " + t.recommendation.context + "\n"
      + "Suggested Choice: " + t.recommendation.choice;
    EndsWithLastFour(front, "\n", "Reasoning: ", t.recommendation.reasoning, "\n");
    front + "\n" + "Reasoning: " + t.recommendation.reasoning + "\n"
  }

  /** `tradeoff-analysis-<key>-<millis>.txt` */
  function FileName(key: string, millis: nat): (r: string)
    ensures |r| == |"tradeoff-analysis-"| + |key| + 1 + |NatToString(millis)| + |".txt"|
    ensures r[..18] == "tradeoff-analysis-"
    ensures r[18..18 + |key|] == key
    ensures r[18 + |key|] == '-'
    ensures r[19 + |key|..|r| - 4] == NatToString(millis)
    ensures r[|r| - 4..] == ".txt"
  {
    "tradeoff-analysis-" + key + "-" + NatToString(millis) + ".txt"
  }

  // ---------------------------------------------------------------------
  // The report, line by line

  /** The lines an item list prints as: one per item, or one empty line when
      the list is empty (joining no items gives the empty string). */
  function Section(items: seq<string>): seq<string>
  {
    if items == [] then [""] else items
  }

  function BlockLines(o: Option, idx: nat): seq<string>
  {
    ["", OptionHeader(o, idx), Underline(o), "", "STRENGTHS:"] + Section(ProLines(o.pros))
    + ["", "WEAKNESSES:"] + Section(ConLines(o.cons))
    + ["", "BEST FOR:"] + Section(BestForLines(o.bestFor))
    + ["", "KEY METRICS:"] + Section(MetricLines(o.metrics))
    + [""]
  }

  function Blocks(options: seq<Option>): seq<seq<string>>
  {
    seq(|options|, i requires 0 <= i < |options| => BlockLines(options[i], i))
  }

  /** The blocks one after another with one empty line between neighbours. */
  function Interleave(blocks: seq<seq<string>>): seq<string>
  {
    if |blocks| == 0 then [""]
    else if |blocks| == 1 then blocks[0]
    else blocks[0] + [""] + Interleave(blocks[1..])
  }

  /** Where block `i` starts inside `Interleave(blocks)`. */
  function Offset(blocks: seq<seq<string>>, i: nat): nat
    requires i <= |blocks|
  {
    if i == 0 then 0 else |blocks[0]| + 1 + Offset(blocks[1..], i - 1)
  }

  function HeadLines(t: Topic, date: string): seq<string>
  {
    ["", ReportHeading, ReportRule, t.title, "Generated: " + date, ""]
  }

  function TailLines(r: Recommendation): seq<string>
  {
    ["", RecommendationHeading, RecommendationRule, "Context: " + r.context,
     "Suggested Choice: " + r.choice, "Reasoning: " + r.reasoning, ""]
  }

  function ReportLines(t: Topic, date: string): seq<string>
  {
    HeadLines(t, date) + Interleave(Blocks(t.options)) + TailLines(t.recommendation)
  }

  /** The line where the block of option `i` starts in `ReportLines`. */
  function BlockStart(t: Topic, i: nat): nat
    requires i < |t.options|
  {
    |HeadLines(t, "")| + Offset(Blocks(t.options), i)
  }
}
