# Trade-off Analyzer: report serialiser, weight styles and tab state

The Trade-off Analyzer is a single React component (`app.jsx`) that shows a
fixed table of technology comparisons ("REST API vs GraphQL", "AWS vs Google
Cloud vs Azure", "Tech Stack Comparison"). The user picks one topic with a tab. Each option
shows its weighted pros and cons with a coloured badge. The user can download
the topic as a plain-text report.

This project models the logic behind that component:

- `Topics` (`topics.dfy`): the records of the table. A topic has a title,
  options and a recommendation. An option has a name, a score, weighted pros
  and cons, the uses it suits, and its metrics as ordered `key: value`
  entries.
- `Dataset` (`dataset.dfy`): the `comparisons` table with its three keys in
  source order, and the lookup `comparisons[key]` on that plain object. The
  lookup has three outcomes:
  - an own key gives its topic;
  - a name every object inherits from `Object.prototype`, such as
    "toString", gives that inherited member (`JsObject` in `js_object.dfy`
    lists these names);
  - any other key gives `undefined`.
- `Weights` (`weights.dfy`): `getWeightColor`, the weight-to-badge-style
  lookup with its fallback to the medium style. It also models the lookup as
  JavaScript evaluates it on a plain object (see Findings).
- `Text` (`text.dfy`): the string primitives the template uses:
  - `Array.prototype.join`
  - `String.prototype.repeat`
  - decimal printing of a natural number
  - reading text back line by line
- `Reports` (`reports.dfy`): the report template of `downloadReport`, written
  as one string expression in the template's own order. It also builds the
  download file name. `ReportLines` is an independent line-by-line
  description of the same report.
- `ReportFacts` (`report_facts.dfy`): what the template guarantees:
  - The text is `ReportLines` joined by newlines.
  - The text reads back into exactly those lines when no field holds a line
    break.
  - The option blocks appear in order, one empty line apart.
  - Each block has a fixed layout, with one line per pro, con, use and metric.
  - The date is the only input besides the topic.
  - Downloads of different topics, or at different clock readings, get
    different file names.
- `Analyzer` (`analyzer.dfy`): the component itself, a class with the
  `activeTab` state cell.
  - Its invariant is that the active key is a key of the table, so the
    current topic is always defined.
  - The tab strip highlights exactly one tab.
  - The download returns the file name and the report of the current topic.
  - It also holds the concrete opening of the `api` report.

The date (`new Date().toLocaleDateString()`) is a string parameter. The clock
(`Date.now()`) is a natural-number parameter. The score is kept as the text
JavaScript prints for it.

Two details of the output:

- The rule under an option header is `name.length + 20` characters of `'='`.
  It matches the header's length only when the position number and the score
  text are five characters together (`ReportFacts.UnderlineVersusHeader`).
- The rule under the report heading is 24 `'='` under the 25-character
  heading `TRADE-OFF ANALYSIS REPORT`.

## Model

| member | source | states |
|---|---|---|
| Weights.WeightColor | app.jsx:224-231 | "high" gets the high style, "low" the low style, and each of these happens for exactly that weight. Every other weight gets the medium style. |
| Weights.WeightColorAsWritten | app.jsx:230 | `colors[weight] \|\| colors.medium` is never `undefined`. A style it gives is one of the three styles. It gives an inherited member exactly when the weight names one, and then it is that member. |
| Weights.AsWrittenAgreesOnOrdinaryWeights | app.jsx:230 | For any weight that is not a member inherited from `Object.prototype`, `colors[weight] \|\| colors.medium` gives the same style as `WeightColor`. |
| Weights.AsWrittenMissesInheritedNames | app.jsx:230 | For an inherited member name, the lookup as written yields that inherited member, which is not the style the fallback promises. |
| Weights.ToStringWeight | app.jsx:230 | The weight "toString" gets the inherited function as written, where the medium style is intended. |
| Text.Join | app.jsx:245-255 | `parts.join(sep)` is as long as all the parts together plus one separator between each pair of neighbours. The empty array joins to the empty string. |
| Text.JoinedLengthCounts | app.jsx:245-255 | Joining n > 0 parts yields their characters plus exactly n - 1 separators. |
| Text.Repeat | app.jsx:242 | `'='.repeat(n)` has length n and every character is `'='`. |
| Text.NatToString | app.jsx:241 | The printed position number is a non-empty run of decimal digits, with no leading zero except for 0 itself. |
| Text.ParseNatToString | app.jsx:268 | The decimal text of the clock reading reads back to the same number, so the printing is injective. |
| Text.SplitJoin | app.jsx:245 | Joining one-line strings with `'\n'` and splitting the result at line breaks gives the strings back. |
| Text.JoinConcat | app.jsx:255 | Joining two non-empty lists is joining each and putting one separator between them. |
| Reports.OptionBlock | app.jsx:240-255 | The template of one option ends with an empty line, the KEY METRICS heading, the joined metric lines and a final newline. |
| Reports.Report | app.jsx:234-262 | The report template ends with the line `Reasoning: <reasoning>` and a final newline. |
| Reports.FileName | app.jsx:268 | The file name is `tradeoff-analysis-`, then the key, a `-`, the decimal text of the clock reading and `.txt`: each piece is stated at its position, and the length is that of the pieces together. |
| ReportFacts.BlockAsLines | app.jsx:240-255 | The inner template of one option is its block of lines joined by newlines. An empty item list prints as one empty line. |
| ReportFacts.ReportAsLines | app.jsx:234-262 | The whole report template is `ReportLines` joined by newlines: the heading lines, the option blocks one empty line apart, then the recommendation lines. |
| ReportFacts.ReportTextLines | app.jsx:234-262 | When no field of the topic and not the date holds a line break, the report text reads back line by line as exactly `ReportLines`. |
| ReportFacts.FrameOfReport | app.jsx:234-262 | The report opens with the heading, its rule, the title and `Generated: <date>`. It closes with RECOMMENDATION, its rule, and the context, choice and reasoning verbatim after `Context:`, `Suggested Choice:` and `Reasoning:`, then a final empty line. |
| ReportFacts.BlockInReport | app.jsx:240-255 | The block of option i appears unchanged in the report at line `BlockStart(t, i)`. |
| ReportFacts.BlocksInOrder | app.jsx:240-255 | Block i+1 starts right after block i and one empty line, so blocks appear in the order of `options`. |
| ReportFacts.BlockLayout | app.jsx:240-254 | A block is an empty line, then `<i+1>. <name> (Score: <score>/10)`, then a rule of only `'='` whose length is the name's length plus 20. Then come the STRENGTHS, WEAKNESSES, BEST FOR and KEY METRICS sections in that order, each heading after an empty line and followed by its items, and a closing empty line. |
| ReportFacts.UnderlineVersusHeader | app.jsx:241-242 | The header's length is the name's length plus the score's plus the number's plus 15. The rule matches it exactly when the number and score text are five characters together. |
| ReportFacts.PointsInReport | app.jsx:244-248 | Pro k of option i is line `BlockStart + 5 + k`, formatted `  ✓ <text> [<weight> priority]`. Con k comes after the strengths and the WEAKNESSES heading, formatted `  ✗ <text> [<weight> impact]`. Each sits on a line of its own, in stored order, with the weight printed raw. |
| ReportFacts.ListsInReport | app.jsx:250-254 | Use k of option i is the k-th line after the BEST FOR heading, formatted `  • <use>`. Metric k is the k-th line after the KEY METRICS heading, formatted `  <key>: <value>`. Each list keeps its stored order, with nothing added or dropped. |
| ReportFacts.FirstOptionOpening | app.jsx:237-245 | In any report whose first option has a strength, line 3 is the title and line 4 is `Generated: <date>`. Line 7 is the first option's header and line 11 its first strength. |
| ReportFacts.DateIsOnlyVaryingInput | app.jsx:238 | Two reports of the same topic are the same text exactly when their date texts are equal. |
| ReportFacts.FileNameInjective | app.jsx:268 | Equal file names `tradeoff-analysis-<key>-<millis>.txt` imply equal keys and equal clock readings, so repeated downloads at different times get different names. |
| Dataset.OwnLookup | app.jsx:12-222 | The own properties of the object literal: a key finds a topic exactly when it is one of the table's keys, and then it finds an entry stored under that key. |
| Dataset.Get | app.jsx:222 | `comparisons[key]` on the plain object. An own key gives the topic stored under it. A key that is not the table's own but names an `Object.prototype` member gives that inherited member. Every other key gives `undefined`. Each outcome happens exactly in its case. |
| Dataset.ApiTopicSummary | app.jsx:13-67 | `comparisons.api` is titled "REST API vs GraphQL" and has two options, REST API (score 7.5) and GraphQL (7.8). Its recommendation is REST API, one of its own options. |
| Dataset.CloudTopicSummary | app.jsx:68-143 | `comparisons.cloud` is titled "AWS vs Google Cloud vs Azure" and has the options AWS (8.5), Google Cloud (7.8) and Azure (8.2). Its recommendation is Google Cloud. |
| Dataset.StackTopicSummary | app.jsx:144-219 | `comparisons.stack` is titled "Tech Stack Comparison" and has three stacks scored 8.3, 8.7 and 8.0, which prints as "8". Its recommendation is the Next.js stack. |
| Dataset.ComparisonsSummary | app.jsx:12-220 | `comparisons` holds the api, cloud and stack topics in source order, and every topic's recommended choice names one of its own options. |
| Analyzer.ComparisonKeys | app.jsx:12-220 | The table's keys are "api", "cloud" and "stack" in this order, with no duplicates. |
| Analyzer.InheritedNamesAreNotTopics | app.jsx:222 | A name inherited from `Object.prototype` is not a key of the table, and `comparisons[name]` gives the inherited member. The tab invariant therefore never lets `activeTab` be such a name. |
| Analyzer.TableWeightsListed | app.jsx:12-220 | Every pro and con weight in the table is an own key of the style map, so the shipped data never reaches the inherited-member case. |
| Analyzer.ApiReportOpening | app.jsx:13-20 | The report of the `api` topic shows `REST API vs GraphQL`, then `1. REST API (Score: 7.5/10)`, then `  ✓ Simple and widely understood [high priority]` at lines 3, 7 and 11. |
| Analyzer.TradeoffAnalyzer.constructor | app.jsx:5 | The active tab starts as "api", a key of the table. |
| Analyzer.TradeoffAnalyzer.Select | app.jsx:286-289 | A tab button sets the active tab to its key, which is enumerated from the table, so the invariant is kept. |
| Analyzer.TradeoffAnalyzer.Current | app.jsx:222 | While the invariant holds, `comparisons[activeTab]` is defined and is the topic stored under the active key. |
| Analyzer.TradeoffAnalyzer.Tabs | app.jsx:286-298 | There is one tab per table entry in table order, carrying its key and title. A tab is highlighted exactly when its key is the active one. At most one tab is highlighted, and under the invariant exactly one is. |
| Analyzer.TradeoffAnalyzer.DownloadReport | app.jsx:233-270 | The download is named `tradeoff-analysis-<activeTab>-<millis>.txt`, and its body is the report of the current topic for the given date text. |

## Left out

- JSX rendering, the Tailwind class strings other than the weight styles, and the icons (app.jsx:272-423). They are presentation and state nothing.
- The browser side of the download: `Blob`, `URL.createObjectURL`, creating and clicking the link (app.jsx:264-269). These are foreign I/O. `DownloadReport` returns the file name and the text instead.
- `new Date().toLocaleDateString()` and `Date.now()`. They depend on the locale and the clock, so they are a string parameter and a natural-number parameter.
- JavaScript's number formatting of `score` (for example 8.0 prints as "8"). It is floating-point formatting, so the score is stored as the printed text.
- The `filters` state (app.jsx:6-10). It is declared but never read or updated.
- `name.length` counts UTF-16 code units, while `|name|` counts characters. All names in the table are ASCII, where the two agree.
- `Object.entries` lists integer-like keys first, in numeric order. The metrics are kept as an ordered list in the table's own order, which is the enumeration order for the non-numeric keys the table uses.
- Analyzer.TradeoffAnalyzer.Select: requires the key to be one of the table's keys. `setActiveTab` itself accepts any string, but its only caller passes keys enumerated from the table.
- ReportFacts.ReportTextLines: holds only for topics and dates without line breaks. A field holding a line break spreads over several lines of the text. `ReportFacts.ReportAsLines` holds for every topic.

## Findings

| source | as written | input that shows it | evidently intended | confidence | as-written member | corrected member |
|---|---|---|---|---|---|---|
| app.jsx:230 | `colors[weight] \|\| colors.medium` reads a property of a plain object literal, so a weight naming an `Object.prototype` member finds that inherited member. | weight "toString": `colors["toString"]` is the inherited function, which is truthy, so it is returned instead of a style. | Every weight other than "high" and "low" gets the medium style. | not executed | Weights.WeightColorAsWritten, Weights.ToStringWeight | Weights.WeightColor |
