/** What the report template guarantees: the text is exactly the lines of
    `ReportLines` joined by newlines, each option's block sits at a known
    line and has a fixed layout, the date is the only input besides the
    topic, and downloads of different topics, or at different clock
    readings, get different file names. */
module ReportFacts {
  import opened Text
  import opened Topics
  import opened Reports

  lemma JoinSection(items: seq<string>)
    ensures Join(Section(items), "\n") == Join(items, "\n")
  {
  }

  /** Appending a labelled item list to some lines: the heading line and the
      list's joined items follow the text so far. */
  lemma JoinLabelled(acc: seq<string>, heading: string, items: seq<string>)
    requires |acc| > 0
    ensures Join(acc + ["", heading] + Section(items), "\n")
         == Join(acc, "\n") + "\n\n" + heading + "\n" + Join(items, "\n")
  {
    var front, rest := Join(acc, "\n"), Join(items, "\n");
    calc {
      Join(acc + ["", heading] + Section(items), "\n");
    == { JoinConcat(acc + ["", heading], Section(items), "\n"); JoinSection(items); }
      Join(acc + ["", heading], "\n") + "\n" + rest;
    == { JoinConcat(acc, ["", heading], "\n"); JoinPair("", heading, "\n"); }
      front + "\n" + ("" + "\n" + heading) + "\n" + rest;
    == { BlankLineBefore(front, heading); }
      front + "\n\n" + heading + "\n" + rest;
    }
  }

  lemma BlankLineBefore(front: string, heading: string)
    ensures front + "\n" + ("" + "\n" + heading) == front + "\n\n" + heading
  {
    assert "" + "\n" + heading == "\n" + heading;
  }

  lemma JoinBlockTop(header: string, rule: string, l1: seq<string>)
    ensures Join(["", header, rule, "", "STRENGTHS:"] + Section(l1), "\n")
         == "\n" + header + "\n" + rule + "\n\nSTRENGTHS:\n" + Join(l1, "\n")
  {
    var p1 := ["", header, rule, "", "STRENGTHS:"];
    var top := "\n" + header + "\n" + rule;
    calc {
      Join(p1 + Section(l1), "\n");
    == { JoinConcat(p1, Section(l1), "\n"); JoinSection(l1); }
      Join(p1, "\n") + "\n" + Join(l1, "\n");
    == { JoinBlockOpening(header, rule); }
      top + "\n\nSTRENGTHS:" + "\n" + Join(l1, "\n");
    == { NewlineAfterLabel(top); }
      top + "\n\nSTRENGTHS:\n" + Join(l1, "\n");
    }
  }

  lemma JoinBlockOpening(header: string, rule: string)
    ensures Join(["", header, rule, "", "STRENGTHS:"], "\n") == "\n" + header + "\n" + rule + "\n\nSTRENGTHS:"
  {
    JoinCons("", ["STRENGTHS:"], "\n");
    JoinCons(rule, ["", "STRENGTHS:"], "\n");
    JoinCons(header, [rule, "", "STRENGTHS:"], "\n");
    JoinCons("", [header, rule, "", "STRENGTHS:"], "\n");
  }

  lemma NewlineAfterLabel(top: string)
    ensures top + "\n\nSTRENGTHS:" + "\n" == top + "\n\nSTRENGTHS:\n"
  {
  }

  /** Spelling a label's surrounding line breaks as one literal. */
  lemma Relabel(front: string, heading: string, labelled: string, rest: string)
    requires labelled == "\n\n" + heading + "\n"
    ensures front + "\n\n" + heading + "\n" + rest == front + labelled + rest
  {
    assert front + "\n\n" + heading + "\n" == front + ("\n\n" + heading + "\n");
  }

  /** Adding one labelled section to lines whose join is known. */
  lemma ExtendBlock(acc: seq<string>, joined: string, heading: string, labelled: string, items: seq<string>)
    requires |acc| > 0 && Join(acc, "\n") == joined
    requires labelled == "\n\n" + heading + "\n"
    ensures Join(acc + ["", heading] + Section(items), "\n") == joined + labelled + Join(items, "\n")
  {
    JoinLabelled(acc, heading, items);
    Relabel(joined, heading, labelled, Join(items, "\n"));
  }

  lemma JoinBlockTwo(header: string, rule: string, l1: seq<string>, l2: seq<string>)
    ensures Join(["", header, rule, "", "STRENGTHS:"] + Section(l1)
                 + ["", "WEAKNESSES:"] + Section(l2), "\n")
         == "\n" + header + "\n" + rule + "\n\nSTRENGTHS:\n" + Join(l1, "\n")
            + "\n\nWEAKNESSES:\n" + Join(l2, "\n")
  {
    JoinBlockTop(header, rule, l1);
    ExtendBlock(["", header, rule, "", "STRENGTHS:"] + Section(l1),
                "\n" + header + "\n" + rule + "\n\nSTRENGTHS:\n" + Join(l1, "\n"),
                "WEAKNESSES:", "\n\nWEAKNESSES:\n", l2);
  }

  lemma JoinBlockThree(header: string, rule: string, l1: seq<string>, l2: seq<string>, l3: seq<string>)
    ensures Join(["", header, rule, "", "STRENGTHS:"] + Section(l1)
                 + ["", "WEAKNESSES:"] + Section(l2)
                 + ["", "BEST FOR:"] + Section(l3), "\n")
         == "\n" + header + "\n" + rule + "\n\nSTRENGTHS:\n" + Join(l1, "\n")
            + "\n\nWEAKNESSES:\n" + Join(l2, "\n")
            + "\n\nBEST FOR:\n" + Join(l3, "\n")
  {
    JoinBlockTwo(header, rule, l1, l2);
    ExtendBlock(["", header, rule, "", "STRENGTHS:"] + Section(l1) + ["", "WEAKNESSES:"] + Section(l2),
                "\n" + header + "\n" + rule + "\n\nSTRENGTHS:\n" + Join(l1, "\n") + "\n\nWEAKNESSES:\n" + Join(l2, "\n"),
                "BEST FOR:", "\n\nBEST FOR:\n", l3);
  }

  lemma JoinBlockFour(header: string, rule: string, l1: seq<string>, l2: seq<string>, l3: seq<string>, l4: seq<string>)
    ensures Join(["", header, rule, "", "STRENGTHS:"] + Section(l1)
                 + ["", "WEAKNESSES:"] + Section(l2)
                 + ["", "BEST FOR:"] + Section(l3)
                 + ["", "KEY METRICS:"] + Section(l4), "\n")
         == "\n" + header + "\n" + rule + "\n\nSTRENGTHS:\n" + Join(l1, "\n")
            + "\n\nWEAKNESSES:\n" + Join(l2, "\n")
            + "\n\nBEST FOR:\n" + Join(l3, "\n")
            + "\n\nKEY METRICS:\n" + Join(l4, "\n")
  {
    JoinBlockThree(header, rule, l1, l2, l3);
    ExtendBlock(["", header, rule, "", "STRENGTHS:"] + Section(l1) + ["", "WEAKNESSES:"] + Section(l2) + ["", "BEST FOR:"] + Section(l3),
                "\n" + header + "\n" + rule + "\n\nSTRENGTHS:\n" + Join(l1, "\n") + "\n\nWEAKNESSES:\n" + Join(l2, "\n") + "\n\nBEST FOR:\n" + Join(l3, "\n"),
                "KEY METRICS:", "\n\nKEY METRICS:\n", l4);
  }

  /** The option template is the block's lines joined by newlines. */
  lemma BlockAsLines(o: Option, idx: nat)
    ensures OptionBlock(o, idx) == Join(BlockLines(o, idx), "\n")
  {
    var l1, l2, l3, l4 := ProLines(o.pros), ConLines(o.cons), BestForLines(o.bestFor), MetricLines(o.metrics);
    JoinBlockFour(OptionHeader(o, idx), Underline(o), l1, l2, l3, l4);
    JoinConcat(["", OptionHeader(o, idx), Underline(o), "", "STRENGTHS:"] + Section(l1)
               + ["", "WEAKNESSES:"] + Section(l2)
               + ["", "BEST FOR:"] + Section(l3)
               + ["", "KEY METRICS:"] + Section(l4), [""], "\n");
  }

  /** Joining the option blocks with a blank line between them is joining
      the interleaved lines. */
  lemma {:induction false} JoinInterleave(strs: seq<string>, blocks: seq<seq<string>>)
    requires |strs| == |blocks|
    requires forall k :: 0 <= k < |blocks| ==> |blocks[k]| > 0 && strs[k] == Join(blocks[k], "\n")
    ensures Join(strs, "\n\n") == Join(Interleave(blocks), "\n")
  {
    if |blocks| > 1 {
      JoinInterleave(strs[1..], blocks[1..]);
      var rest := Interleave(blocks[1..]);
      JoinConcat(blocks[0], [""], "\n");
      JoinConcat(blocks[0] + [""], rest, "\n");
    }
  }

  lemma JoinHead(t: Topic, date: string)
    ensures Join(HeadLines(t, date), "\n")
         == "\n" + ReportHeading + "\n" + ReportRule + "\n" + t.title + "\n" + ("Generated: " + date) + "\n"
  {
    var g := "Generated: " + date;
    JoinSix("", ReportHeading, ReportRule, t.title, g, "", "\n");
    assert "" + "\n" == "\n";
    var front := "\n" + ReportHeading + "\n" + ReportRule + "\n" + t.title + "\n" + g + "\n";
    assert front + "" == front;
  }

  lemma JoinSix(a: string, b: string, c: string, d: string, e: string, f: string, sep: string)
    ensures Join([a, b, c, d, e, f], sep) == a + sep + b + sep + c + sep + d + sep + e + sep + f
  {
    JoinSnoc([a], b, sep);
    assert [a] + [b] == [a, b];
    JoinSnoc([a, b], c, sep);
    assert [a, b] + [c] == [a, b, c];
    JoinSnoc([a, b, c], d, sep);
    assert [a, b, c] + [d] == [a, b, c, d];
    JoinSnoc([a, b, c, d], e, sep);
    assert [a, b, c, d] + [e] == [a, b, c, d, e];
    JoinSnoc([a, b, c, d, e], f, sep);
    assert [a, b, c, d, e] + [f] == [a, b, c, d, e, f];
  }

  lemma BodyAsLines(options: seq<Option>)
    ensures Join(OptionBlocks(options), "\n\n") == Join(Interleave(Blocks(options)), "\n")
  {
    forall k | 0 <= k < |options|
      ensures |Blocks(options)[k]| > 0 && OptionBlocks(options)[k] == Join(Blocks(options)[k], "\n")
    {
      BlockAsLines(options[k], k);
    }
    JoinInterleave(OptionBlocks(options), Blocks(options));
  }

  lemma TailLinesInOrder(r: Recommendation)
    ensures TailLines(r)
         == [""] + [RecommendationHeading] + [RecommendationRule] + ["Context: " + r.context]
            + ["Suggested Choice: " + r.choice] + ["Reasoning: " + r.reasoning] + [""]
  {
  }

  /** The report template is `ReportLines` joined by newlines. */
  lemma ReportAsLines(t: Topic, date: string)
    ensures Report(t, date) == Join(ReportLines(t, date), "\n")
  {
    var r := t.recommendation;
    var head := HeadLines(t, date);
    var body := Interleave(Blocks(t.options));
    var c, s, e := "Context: " + r.context, "Suggested Choice: " + r.choice, "Reasoning: " + r.reasoning;
    var b := Join(OptionBlocks(t.options), "\n\n");
    var pre := "\n" + ReportHeading + "\n" + ReportRule + "\n" + t.title + "\n";
    var r0 := pre + "Generated: " + date + "\n" + "\n" + b;
    var x0 := head + body;
    assert Join(x0, "\n") == r0 by {
      JoinHead(t, date);
      BodyAsLines(t.options);
      JoinConcat(head, body, "\n");
      Reassociate(pre, "Generated: ", date);
    }
    var x1 := x0 + [""];
    var x2 := x1 + [RecommendationHeading];
    var x3 := x2 + [RecommendationRule];
    var r1 := r0 + "\n" + "";
    assert Join(x1, "\n") == r1 by { JoinSnoc(x0, "", "\n"); }
    var r2 := r1 + "\n" + RecommendationHeading;
    assert Join(x2, "\n") == r2 by { JoinSnoc(x1, RecommendationHeading, "\n"); }
    var r3 := r2 + "\n" + RecommendationRule;
    assert Join(x3, "\n") == r3 by { JoinSnoc(x2, RecommendationRule, "\n"); }
    assert r1 == r0 + "\n";
    var x4 := x3 + [c];
    var r4 := r3 + "\n" + "Context: " + r.context;
    assert Join(x4, "\n") == r4 by {
      JoinSnoc(x3, c, "\n");
      Reassociate(r3 + "\n", "Context: ", r.context);
    }
    var x5 := x4 + [s];
    var r5 := r4 + "\n" + "Suggested Choice: " + r.choice;
    assert Join(x5, "\n") == r5 by {
      JoinSnoc(x4, s, "\n");
      Reassociate(r4 + "\n", "Suggested Choice: ", r.choice);
    }
    var x6 := x5 + [e];
    var r6 := r5 + "\n" + "Reasoning: " + r.reasoning;
    assert Join(x6, "\n") == r6 by {
      JoinSnoc(x5, e, "\n");
      Reassociate(r5 + "\n", "Reasoning: ", r.reasoning);
    }
    assert Join(x6 + [""], "\n") == r6 + "\n" by {
      JoinSnoc(x6, "", "\n");
    }
    var t1 := [""];
    var t2 := t1 + [RecommendationHeading];
    var t3 := t2 + [RecommendationRule];
    var t4 := t3 + [c];
    var t5 := t4 + [s];
    var t6 := t5 + [e];
    TailLinesInOrder(r);
    AppendAssociative(x0, t1, [RecommendationHeading]);
    AppendAssociative(x0, t2, [RecommendationRule]);
    AppendAssociative(x0, t3, [c]);
    AppendAssociative(x0, t4, [s]);
    AppendAssociative(x0, t5, [e]);
    AppendAssociative(x0, t6, [""]);
  }

  /** `lines` stand in `ls` unchanged, one per line, from line `start` on. */
  predicate LinesAt(ls: seq<string>, start: nat, lines: seq<string>)
  {
    start + |lines| <= |ls| && forall k :: 0 <= k < |lines| ==> ls[start + k] == lines[k]
  }

  lemma LinesAtSelf(ls: seq<string>)
    ensures LinesAt(ls, 0, ls)
  {
    forall k | 0 <= k < |ls|
      ensures ls[0 + k] == ls[k]
    {
    }
  }

  /** Lines keep their place when more lines follow. */
  lemma LinesAtBefore(ls: seq<string>, more: seq<string>, start: nat, lines: seq<string>)
    requires LinesAt(ls, start, lines)
    ensures LinesAt(ls + more, start, lines)
  {
    forall k | 0 <= k < |lines|
      ensures (ls + more)[start + k] == lines[k]
    {
      assert (ls + more)[start + k] == ls[start + k];
    }
  }

  /** Lines move down by `|front|` when `front` is put before them. */
  lemma LinesAtAfter(front: seq<string>, ls: seq<string>, start: nat, lines: seq<string>)
    requires LinesAt(ls, start, lines)
    ensures LinesAt(front + ls, |front| + start, lines)
  {
    forall k | 0 <= k < |lines|
      ensures (front + ls)[|front| + start + k] == lines[k]
    {
      assert (front + ls)[|front| + start + k] == ls[start + k];
    }
  }

  /** Block `i` appears unchanged, at `Offset(blocks, i)`, in the interleaving. */
  lemma {:induction false} InterleaveAt(blocks: seq<seq<string>>, i: nat)
    requires i < |blocks|
    ensures LinesAt(Interleave(blocks), Offset(blocks, i), blocks[i])
  {
    if i == 0 {
      LinesAtSelf(blocks[0]);
      if |blocks| > 1 {
        LinesAtBefore(blocks[0], [""], 0, blocks[0]);
        LinesAtBefore(blocks[0] + [""], Interleave(blocks[1..]), 0, blocks[0]);
      }
    } else {
      var rest := blocks[1..];
      InterleaveAt(rest, i - 1);
      assert blocks[i] == rest[i - 1];
      LinesAtAfter(blocks[0] + [""], Interleave(rest), Offset(rest, i - 1), rest[i - 1]);
    }
  }

  /** Block `i` of the report is the lines of option `i`, at `BlockStart`. */
  lemma BlockInReport(t: Topic, date: string, i: nat)
    requires i < |t.options|
    ensures LinesAt(ReportLines(t, date), BlockStart(t, i), BlockLines(t.options[i], i))
  {
    BlockAmidLines(HeadLines(t, date), Blocks(t.options), TailLines(t.recommendation), i);
    assert Blocks(t.options)[i] == BlockLines(t.options[i], i);
  }

  /** Block `i` stands unchanged in the interleaving with lines around it. */
  lemma BlockAmidLines(head: seq<string>, blocks: seq<seq<string>>, tail: seq<string>, i: nat)
    requires i < |blocks|
    ensures LinesAt(head + Interleave(blocks) + tail, |head| + Offset(blocks, i), blocks[i])
  {
    InterleaveAt(blocks, i);
    LinesAtAfter(head, Interleave(blocks), Offset(blocks, i), blocks[i]);
    LinesAtBefore(head + Interleave(blocks), tail, |head| + Offset(blocks, i), blocks[i]);
  }

  lemma IndexOfMiddle(a: seq<string>, b: seq<string>, c: seq<string>, k: nat)
    requires k < |b|
    ensures |a| + k < |a + b + c| && (a + b + c)[|a| + k] == b[k]
  {
  }

  /** Consecutive options follow each other, one empty line apart. */
  lemma BlocksInOrder(t: Topic, date: string, i: nat)
    requires i + 1 < |t.options|
    ensures BlockStart(t, i + 1) == BlockStart(t, i) + |BlockLines(t.options[i], i)| + 1
    ensures BlockStart(t, i + 1) - 1 < |ReportLines(t, date)|
    ensures ReportLines(t, date)[BlockStart(t, i + 1) - 1] == ""
  {
    var blocks := Blocks(t.options);
    var head := HeadLines(t, date);
    BlockGap(head, blocks, TailLines(t.recommendation), i);
    assert blocks[i] == BlockLines(t.options[i], i);
    assert BlockStart(t, i + 1) - 1 == |head| + Offset(blocks, i + 1) - 1;
  }

  lemma BlockGap(head: seq<string>, blocks: seq<seq<string>>, tail: seq<string>, i: nat)
    requires i + 1 < |blocks|
    ensures Offset(blocks, i + 1) == Offset(blocks, i) + |blocks[i]| + 1
    ensures |head| + Offset(blocks, i + 1) - 1 < |head + Interleave(blocks) + tail|
    ensures (head + Interleave(blocks) + tail)[|head| + Offset(blocks, i + 1) - 1] == ""
  {
    OffsetNext(blocks, i);
    InterleaveGap(blocks, i);
    IndexOfMiddle(head, Interleave(blocks), tail, Offset(blocks, i) + |blocks[i]|);
  }

  lemma {:induction false} OffsetNext(blocks: seq<seq<string>>, i: nat)
    requires i + 1 <= |blocks|
    ensures Offset(blocks, i + 1) == Offset(blocks, i) + |blocks[i]| + 1
  {
    if i > 0 {
      OffsetNext(blocks[1..], i - 1);
    }
  }

  /** The line right after block `i` is empty when another block follows. */
  lemma {:induction false} InterleaveGap(blocks: seq<seq<string>>, i: nat)
    requires i + 1 < |blocks|
    ensures Offset(blocks, i) + |blocks[i]| < |Interleave(blocks)|
    ensures Interleave(blocks)[Offset(blocks, i) + |blocks[i]|] == ""
  {
    if i > 0 {
      InterleaveGap(blocks[1..], i - 1);
    }
  }

  /** At line `at` of `ls` stand an empty line, the heading, and then the items. */
  predicate LabelledAt(ls: seq<string>, at: nat, heading: string, items: seq<string>)
  {
    at + 2 + |items| <= |ls|
    && ls[at] == "" && ls[at + 1] == heading
    && LinesAt(ls, at + 2, items)
  }

  lemma LayoutOf(header: string, rule: string, p: seq<string>, c: seq<string>, b: seq<string>, m: seq<string>)
    ensures var ls := ["", header, rule, "", "STRENGTHS:"] + p + ["", "WEAKNESSES:"] + c
                      + ["", "BEST FOR:"] + b + ["", "KEY METRICS:"] + m + [""];
      && |ls| == 12 + |p| + |c| + |b| + |m|
      && ls[0] == "" && ls[1] == header && ls[2] == rule
      && LabelledAt(ls, 3, "STRENGTHS:", p)
      && LabelledAt(ls, 5 + |p|, "WEAKNESSES:", c)
      && LabelledAt(ls, 7 + |p| + |c|, "BEST FOR:", b)
      && LabelledAt(ls, 9 + |p| + |c| + |b|, "KEY METRICS:", m)
      && ls[|ls| - 1] == ""
  {
    var s1 := ["", header, rule, "", "STRENGTHS:"] + p;
    var h2 := s1 + ["", "WEAKNESSES:"];
    var s2 := h2 + c;
    var h3 := s2 + ["", "BEST FOR:"];
    var s3 := h3 + b;
    var h4 := s3 + ["", "KEY METRICS:"];
    var s4 := h4 + m;
    var ls := s4 + [""];
    assert LabelledAt(ls, 3, "STRENGTHS:", p) by {
      LabelledAtEnd(["", header, rule, "", "STRENGTHS:"], "STRENGTHS:", p);
      assert s1 <= ls;
      Grown(s1, ls, 3, "STRENGTHS:", p);
    }
    assert LabelledAt(ls, 5 + |p|, "WEAKNESSES:", c) by {
      LabelledAtEnd(h2, "WEAKNESSES:", c);
      assert s2 <= ls;
      Grown(s2, ls, 5 + |p|, "WEAKNESSES:", c);
    }
    assert LabelledAt(ls, 7 + |p| + |c|, "BEST FOR:", b) by {
      LabelledAtEnd(h3, "BEST FOR:", b);
      assert s3 <= ls;
      Grown(s3, ls, 7 + |p| + |c|, "BEST FOR:", b);
    }
    assert LabelledAt(ls, 9 + |p| + |c| + |b|, "KEY METRICS:", m) by {
      LabelledAtEnd(h4, "KEY METRICS:", m);
      Grown(s4, ls, 9 + |p| + |c| + |b|, "KEY METRICS:", m);
    }
  }

  /** Items placed right after an empty line and a heading form a labelled section. */
  lemma LabelledAtEnd(front: seq<string>, heading: string, items: seq<string>)
    requires |front| >= 2 && front[|front| - 2] == "" && front[|front| - 1] == heading
    ensures LabelledAt(front + items, |front| - 2, heading, items)
  {
  }

  /** A labelled section stays where it is when lines are added after it. */
  lemma Grown(ls: seq<string>, ext: seq<string>, at: nat, heading: string, items: seq<string>)
    requires ls <= ext && LabelledAt(ls, at, heading, items)
    ensures LabelledAt(ext, at, heading, items)
  {
    forall k | 0 <= k < |items|
      ensures ext[at + 2 + k] == items[k]
    {
      assert ext[at + 2 + k] == ls[at + 2 + k];
    }
  }

  /** The layout of one option block: a blank line, the numbered header,
      a rule of '=' as long as the name plus 20, then the four labelled
      sections in the order STRENGTHS, WEAKNESSES, BEST FOR, KEY METRICS,
      each holding its item lines, and a closing empty line. */
  lemma BlockLayout(o: Option, idx: nat)
    ensures var ls := BlockLines(o, idx);
      var p, c, b, m := Section(ProLines(o.pros)), Section(ConLines(o.cons)),
                        Section(BestForLines(o.bestFor)), Section(MetricLines(o.metrics));
      && |ls| == 12 + |p| + |c| + |b| + |m|
      && ls[0] == ""
      && ls[1] == NatToString(idx + 1) + ". " + o.name + " (Score: " + o.score + "/10)"
      && |ls[2]| == |o.name| + 20
      && (forall k :: 0 <= k < |ls[2]| ==> ls[2][k] == '=')
      && LabelledAt(ls, 3, "STRENGTHS:", p)
      && LabelledAt(ls, 5 + |p|, "WEAKNESSES:", c)
      && LabelledAt(ls, 7 + |p| + |c|, "BEST FOR:", b)
      && LabelledAt(ls, 9 + |p| + |c| + |b|, "KEY METRICS:", m)
      && ls[|ls| - 1] == ""
  {
    LayoutOf(OptionHeader(o, idx), Underline(o), Section(ProLines(o.pros)), Section(ConLines(o.cons)),
             Section(BestForLines(o.bestFor)), Section(MetricLines(o.metrics)));
  }

  /** Where the title, the date, the first header and the first strength sit
      in any report whose first option has a strength. */
  lemma FirstOptionOpening(t: Topic, date: string)
    requires |t.options| > 0 && |t.options[0].pros| > 0
    ensures var ls := ReportLines(t, date);
      && |ls| > 11
      && ls[3] == t.title
      && ls[4] == "Generated: " + date
      && ls[7] == OptionHeader(t.options[0], 0)
      && ls[11] == ProLine(t.options[0].pros[0])
  {
    var o := t.options[0];
    FrameOfReport(t, date);
    assert BlockStart(t, 0) == 6;
    BlockOpening(o, 0);
    LineOfBlock(t, date, 0, 1);
    LineOfBlock(t, date, 0, 5);
  }

  /** Line `k` of block `i` is line `BlockStart(t, i) + k` of the report. */
  lemma LineOfBlock(t: Topic, date: string, i: nat, k: nat)
    requires i < |t.options| && k < |BlockLines(t.options[i], i)|
    ensures BlockStart(t, i) + k < |ReportLines(t, date)|
    ensures ReportLines(t, date)[BlockStart(t, i) + k] == BlockLines(t.options[i], i)[k]
  {
    BlockInReport(t, date, i);
  }

  /** A block opens with an empty line and the header, and its first strength
      follows the rule, an empty line and the STRENGTHS heading. */
  lemma BlockOpening(o: Option, idx: nat)
    requires |o.pros| > 0
    ensures |BlockLines(o, idx)| > 5
    ensures BlockLines(o, idx)[1] == OptionHeader(o, idx)
    ensures BlockLines(o, idx)[5] == ProLine(o.pros[0])
  {
    assert Section(ProLines(o.pros))[0] == ProLine(o.pros[0]);
  }

  /** The report opens with the heading, its rule, the title and the date
      line, and closes with the recommendation block: its heading and rule,
      then context, choice and reasoning verbatim after their labels. */
  lemma FrameOfReport(t: Topic, date: string)
    ensures var ls, r := ReportLines(t, date), t.recommendation;
      && |ls| >= 13
      && ls[1] == ReportHeading && ls[2] == ReportRule
      && ls[3] == t.title && ls[4] == "Generated: " + date && ls[5] == ""
      && ls[|ls| - 7] == "" && ls[|ls| - 6] == RecommendationHeading && ls[|ls| - 5] == RecommendationRule
      && ls[|ls| - 4] == "Context: " + r.context
      && ls[|ls| - 3] == "Suggested Choice: " + r.choice
      && ls[|ls| - 2] == "Reasoning: " + r.reasoning
      && ls[|ls| - 1] == ""
  {
    var head, body, tail := HeadLines(t, date), Interleave(Blocks(t.options)), TailLines(t.recommendation);
    assert |body| > 0;
    EndsOfLines(head, body, tail);
  }

  /** The first six and the last seven lines of `head + body + tail`. */
  lemma EndsOfLines(head: seq<string>, body: seq<string>, tail: seq<string>)
    requires |head| == 6 && |tail| == 7
    ensures var ls := head + body + tail;
      && (forall k :: 0 <= k < 6 ==> ls[k] == head[k])
      && (forall k :: 0 <= k < 7 ==> ls[|head| + |body| + k] == tail[k])
  {
  }

  /** The strengths of `o` fill the lines from `s + 5` on, one `ProLine`
      each in stored order; the weaknesses, one `ConLine` each, follow the
      strengths section, an empty line and the WEAKNESSES heading. */
  predicate PointsAt(ls: seq<string>, s: nat, o: Option)
  {
    var p := |Section(ProLines(o.pros))|;
    s + 7 + p + |o.cons| <= |ls|
    && (forall k :: 0 <= k < |o.pros| ==> ls[s + 5 + k] == ProLine(o.pros[k]))
    && (forall k :: 0 <= k < |o.cons| ==> ls[s + 7 + p + k] == ConLine(o.cons[k]))
  }

  /** The uses of `o` follow the first two sections, an empty line and the
      BEST FOR heading, one `BestForLine` each in stored order; the metric
      entries, one `MetricLine` each, follow the uses section, an empty line
      and the KEY METRICS heading. */
  predicate ListsAt(ls: seq<string>, s: nat, o: Option)
  {
    var p, c, b := |Section(ProLines(o.pros))|, |Section(ConLines(o.cons))|, |Section(BestForLines(o.bestFor))|;
    s + 11 + p + c + b + |o.metrics| <= |ls|
    && (forall k :: 0 <= k < |o.bestFor| ==> ls[s + 9 + p + c + k] == BestForLine(o.bestFor[k]))
    && (forall k :: 0 <= k < |o.metrics| ==> ls[s + 11 + p + c + b + k] == MetricLine(o.metrics[k]))
  }

  /** Every strength and every weakness of option `i` is printed on a line of
      its own, in stored order, with its weight raw. */
  lemma PointsInReport(t: Topic, date: string, i: nat)
    requires i < |t.options|
    ensures PointsAt(ReportLines(t, date), BlockStart(t, i), t.options[i])
  {
    BlockInReport(t, date, i);
    PointsOfBlock(ReportLines(t, date), BlockStart(t, i), t.options[i], i);
  }

  /** Every use and every metric entry of option `i` is printed on a line
      of its own, in stored order, nothing added or dropped. */
  lemma ListsInReport(t: Topic, date: string, i: nat)
    requires i < |t.options|
    ensures ListsAt(ReportLines(t, date), BlockStart(t, i), t.options[i])
  {
    BlockInReport(t, date, i);
    ListsOfBlock(ReportLines(t, date), BlockStart(t, i), t.options[i], i);
  }

  /** Wherever the block of `o` stands in `ls`, its points stand as `PointsAt` says. */
  lemma PointsOfBlock(ls: seq<string>, s: nat, o: Option, idx: nat)
    requires LinesAt(ls, s, BlockLines(o, idx))
    ensures PointsAt(ls, s, o)
  {
    var p := |Section(ProLines(o.pros))|;
    forall k | 0 <= k < |o.pros|
      ensures ls[s + 5 + k] == ProLine(o.pros[k])
    {
      ProInBlock(o, idx, k);
    }
    forall k | 0 <= k < |o.cons|
      ensures ls[s + 7 + p + k] == ConLine(o.cons[k])
    {
      ConInBlock(o, idx, k);
    }
  }

  /** Wherever the block of `o` stands in `ls`, its lists stand as `ListsAt` says. */
  lemma ListsOfBlock(ls: seq<string>, s: nat, o: Option, idx: nat)
    requires LinesAt(ls, s, BlockLines(o, idx))
    ensures ListsAt(ls, s, o)
  {
    var p, c, b := |Section(ProLines(o.pros))|, |Section(ConLines(o.cons))|, |Section(BestForLines(o.bestFor))|;
    forall k | 0 <= k < |o.bestFor|
      ensures ls[s + 9 + p + c + k] == BestForLine(o.bestFor[k])
    {
      UseInBlock(o, idx, k);
    }
    forall k | 0 <= k < |o.metrics|
      ensures ls[s + 11 + p + c + b + k] == MetricLine(o.metrics[k])
    {
      MetricInBlock(o, idx, k);
    }
  }

  /** Where pro, con, use and metric `k` of `o` sit inside its block. */
  lemma ProInBlock(o: Option, idx: nat, k: nat)
    requires k < |o.pros|
    ensures 5 + k < |BlockLines(o, idx)|
    ensures BlockLines(o, idx)[5 + k] == ProLine(o.pros[k])
  {
    assert Section(ProLines(o.pros))[k] == ProLine(o.pros[k]);
  }

  lemma ConInBlock(o: Option, idx: nat, k: nat)
    requires k < |o.cons|
    ensures 7 + |Section(ProLines(o.pros))| + k < |BlockLines(o, idx)|
    ensures BlockLines(o, idx)[7 + |Section(ProLines(o.pros))| + k] == ConLine(o.cons[k])
  {
    assert Section(ConLines(o.cons))[k] == ConLine(o.cons[k]);
  }

  lemma UseInBlock(o: Option, idx: nat, k: nat)
    requires k < |o.bestFor|
    ensures 9 + |Section(ProLines(o.pros))| + |Section(ConLines(o.cons))| + k < |BlockLines(o, idx)|
    ensures BlockLines(o, idx)[9 + |Section(ProLines(o.pros))| + |Section(ConLines(o.cons))| + k]
      == BestForLine(o.bestFor[k])
  {
    assert Section(BestForLines(o.bestFor))[k] == BestForLine(o.bestFor[k]);
  }

  lemma MetricInBlock(o: Option, idx: nat, k: nat)
    requires k < |o.metrics|
    ensures 11 + |Section(ProLines(o.pros))| + |Section(ConLines(o.cons))|
      + |Section(BestForLines(o.bestFor))| + k < |BlockLines(o, idx)|
    ensures BlockLines(o, idx)[11 + |Section(ProLines(o.pros))| + |Section(ConLines(o.cons))|
      + |Section(BestForLines(o.bestFor))| + k] == MetricLine(o.metrics[k])
  {
    assert Section(MetricLines(o.metrics))[k] == MetricLine(o.metrics[k]);
  }

  // ---------------------------------------------------------------------
  // Reading the text back as lines

  predicate AllOneLine(ls: seq<string>)
  {
    forall j :: 0 <= j < |ls| ==> '\n' !in ls[j]
  }

  lemma AllOneLineAppend(a: seq<string>, b: seq<string>)
    requires AllOneLine(a) && AllOneLine(b)
    ensures AllOneLine(a + b)
  {
    forall j | 0 <= j < |a + b|
      ensures '\n' !in (a + b)[j]
    {
      if j >= |a| {
        assert (a + b)[j] == b[j - |a|];
      }
    }
  }

  lemma NumberIsOneLine(n: nat)
    ensures '\n' !in NatToString(n)
  {
  }

  lemma LayoutIsOneLine(header: string, rule: string, p: seq<string>, c: seq<string>, b: seq<string>, m: seq<string>)
    requires '\n' !in header && '\n' !in rule
    requires AllOneLine(p) && AllOneLine(c) && AllOneLine(b) && AllOneLine(m)
    ensures AllOneLine(["", header, rule, "", "STRENGTHS:"] + p + ["", "WEAKNESSES:"] + c
                       + ["", "BEST FOR:"] + b + ["", "KEY METRICS:"] + m + [""])
  {
    var s1 := ["", header, rule, "", "STRENGTHS:"];
    var s2 := s1 + p;
    var s3 := s2 + ["", "WEAKNESSES:"];
    var s4 := s3 + c;
    var s5 := s4 + ["", "BEST FOR:"];
    var s6 := s5 + b;
    var s7 := s6 + ["", "KEY METRICS:"];
    var s8 := s7 + m;
    AllOneLineAppend(s1, p);
    AllOneLineAppend(s2, ["", "WEAKNESSES:"]);
    AllOneLineAppend(s3, c);
    AllOneLineAppend(s4, ["", "BEST FOR:"]);
    AllOneLineAppend(s5, b);
    AllOneLineAppend(s6, ["", "KEY METRICS:"]);
    AllOneLineAppend(s7, m);
    AllOneLineAppend(s8, [""]);
  }

  lemma SectionsAreOneLine(o: Option)
    requires OptionIsOneLine(o)
    ensures AllOneLine(Section(ProLines(o.pros))) && AllOneLine(Section(ConLines(o.cons)))
    ensures AllOneLine(Section(BestForLines(o.bestFor))) && AllOneLine(Section(MetricLines(o.metrics)))
  {
    ProsAreOneLine(o.pros);
    ConsAreOneLine(o.cons);
    UsesAreOneLine(o.bestFor);
    MetricsAreOneLine(o.metrics);
  }

  lemma ProsAreOneLine(pros: seq<Point>)
    requires forall k :: 0 <= k < |pros| ==> PointIsOneLine(pros[k])
    ensures AllOneLine(Section(ProLines(pros)))
  {
    forall j | 0 <= j < |ProLines(pros)|
      ensures '\n' !in ProLines(pros)[j]
    {
      assert PointIsOneLine(pros[j]);
    }
  }

  lemma ConsAreOneLine(cons: seq<Point>)
    requires forall k :: 0 <= k < |cons| ==> PointIsOneLine(cons[k])
    ensures AllOneLine(Section(ConLines(cons)))
  {
    forall j | 0 <= j < |ConLines(cons)|
      ensures '\n' !in ConLines(cons)[j]
    {
      assert PointIsOneLine(cons[j]);
    }
  }

  lemma UsesAreOneLine(uses: seq<string>)
    requires forall k :: 0 <= k < |uses| ==> NoNewline(uses[k])
    ensures AllOneLine(Section(BestForLines(uses)))
  {
  }

  lemma MetricsAreOneLine(metrics: seq<Metric>)
    requires forall k :: 0 <= k < |metrics| ==> NoNewline(metrics[k].key) && NoNewline(metrics[k].value)
    ensures AllOneLine(Section(MetricLines(metrics)))
  {
  }

  lemma BlockIsOneLine(o: Option, idx: nat)
    requires OptionIsOneLine(o)
    ensures AllOneLine(BlockLines(o, idx))
  {
    NumberIsOneLine(idx + 1);
    assert '\n' !in Underline(o);
    SectionsAreOneLine(o);
    LayoutIsOneLine(OptionHeader(o, idx), Underline(o), Section(ProLines(o.pros)), Section(ConLines(o.cons)),
                    Section(BestForLines(o.bestFor)), Section(MetricLines(o.metrics)));
  }

  lemma {:induction false} InterleaveIsOneLine(blocks: seq<seq<string>>)
    requires forall k :: 0 <= k < |blocks| ==> AllOneLine(blocks[k])
    ensures AllOneLine(Interleave(blocks))
  {
    if |blocks| > 1 {
      InterleaveIsOneLine(blocks[1..]);
      AllOneLineAppend(blocks[0], [""]);
      AllOneLineAppend(blocks[0] + [""], Interleave(blocks[1..]));
    }
  }

  lemma HeadAndTailAreOneLine(t: Topic, date: string)
    requires TopicIsOneLine(t) && NoNewline(date)
    ensures AllOneLine(HeadLines(t, date)) && AllOneLine(TailLines(t.recommendation))
  {
  }

  lemma BodyIsOneLine(t: Topic)
    requires TopicIsOneLine(t)
    ensures AllOneLine(Interleave(Blocks(t.options)))
  {
    var blocks := Blocks(t.options);
    forall k | 0 <= k < |blocks|
      ensures AllOneLine(blocks[k])
    {
      BlockIsOneLine(t.options[k], k);
    }
    InterleaveIsOneLine(blocks);
  }

  /** Read back line by line, the report text gives exactly `ReportLines`,
      provided no field of the topic and not the date holds a line break. */
  lemma ReportTextLines(t: Topic, date: string)
    requires TopicIsOneLine(t) && NoNewline(date)
    ensures SplitLines(Report(t, date)) == ReportLines(t, date)
  {
    var head, body, tail := HeadLines(t, date), Interleave(Blocks(t.options)), TailLines(t.recommendation);
    HeadAndTailAreOneLine(t, date);
    BodyIsOneLine(t);
    AllOneLineAppend(head, body);
    AllOneLineAppend(head + body, tail);
    ReportAsLines(t, date);
    SplitJoin(head + body + tail);
  }

  // ---------------------------------------------------------------------
  // The date is the only input besides the topic

  /** The report is a text fixed by the topic, the date, and a text fixed by the topic. */
  lemma ReportAroundDate(t: Topic, date: string)
    ensures Report(t, date)
         == Join(["", ReportHeading, ReportRule, t.title], "\n") + "\n" + "Generated: " + date
            + ("\n" + Join([""] + Interleave(Blocks(t.options)) + TailLines(t.recommendation), "\n"))
  {
    var a := ["", ReportHeading, ReportRule, t.title];
    var b := [""] + Interleave(Blocks(t.options)) + TailLines(t.recommendation);
    var g := "Generated: " + date;
    var ja, jb := Join(a, "\n"), Join(b, "\n");
    calc {
      Report(t, date);
    == { ReportAsLines(t, date); LinesAroundDate(t, date); }
      Join(a + ([g] + b), "\n");
    == { JoinConcat(a, [g] + b, "\n"); }
      ja + "\n" + Join([g] + b, "\n");
    == { JoinCons(g, b, "\n"); Reassociate(g, "\n", jb); }
      ja + "\n" + (g + ("\n" + jb));
    == { Reassociate(ja + "\n", g, "\n" + jb); Reassociate(ja + "\n", "Generated: ", date); }
      ja + "\n" + "Generated: " + date + ("\n" + jb);
    }
  }

  lemma LinesAroundDate(t: Topic, date: string)
    ensures ReportLines(t, date)
         == ["", ReportHeading, ReportRule, t.title]
            + (["Generated: " + date] + ([""] + Interleave(Blocks(t.options)) + TailLines(t.recommendation)))
  {
  }

  /** Two reports of one topic are the same text exactly when their dates are. */
  lemma DateIsOnlyVaryingInput(t: Topic, d1: string, d2: string)
    ensures Report(t, d1) == Report(t, d2) <==> d1 == d2
  {
    var pre := Join(["", ReportHeading, ReportRule, t.title], "\n") + "\n" + "Generated: ";
    var post := "\n" + Join([""] + Interleave(Blocks(t.options)) + TailLines(t.recommendation), "\n");
    ReportAroundDate(t, d1);
    ReportAroundDate(t, d2);
    if Report(t, d1) == Report(t, d2) {
      assert |d1| == |d2|;
      assert d1 == (pre + d1 + post)[|pre|..|pre| + |d1|];
      assert d2 == (pre + d2 + post)[|pre|..|pre| + |d2|];
    }
  }

  // ---------------------------------------------------------------------
  // Download file names

  lemma SplitAtLastDash(k1: string, n1: string, k2: string, n2: string)
    requires '-' !in n1 && '-' !in n2
    requires k1 + "-" + n1 == k2 + "-" + n2
    ensures k1 == k2 && n1 == n2
  {
    var w := k1 + "-" + n1;
    if |n1| < |n2| {
      NoDashAmongDigits(k2, n2, |k1|);
      DashBeforeDigits(k1, n1);
      assert false;
    } else if |n2| < |n1| {
      NoDashAmongDigits(k1, n1, |k2|);
      DashBeforeDigits(k2, n2);
      assert false;
    } else {
      assert k1 == w[..|k1|];
      assert n1 == w[|k1| + 1..];
    }
  }

  lemma DashBeforeDigits(k: string, n: string)
    ensures (k + "-" + n)[|k|] == '-'
  {
  }

  lemma NoDashAmongDigits(k: string, n: string, i: nat)
    requires '-' !in n
    requires |k| < i < |k| + 1 + |n|
    ensures (k + "-" + n)[i] != '-'
  {
    assert (k + "-" + n)[i] == n[i - |k| - 1];
  }

  /** Different topic keys or different download times give different file
      names: the name determines both. */
  lemma FileNameInjective(k1: string, m1: nat, k2: string, m2: nat)
    requires FileName(k1, m1) == FileName(k2, m2)
    ensures k1 == k2 && m1 == m2
  {
    var n1, n2 := NatToString(m1), NatToString(m2);
    FileNameMiddle(k1, m1);
    FileNameMiddle(k2, m2);
    assert '-' !in n1 by { DigitsHaveNoDash(m1); }
    assert '-' !in n2 by { DigitsHaveNoDash(m2); }
    SplitAtLastDash(k1, n1, k2, n2);
    NatToStringInjective(m1, m2);
  }

  /** Between the fixed prefix and `.txt` a file name holds `<key>-<millis>`. */
  lemma FileNameMiddle(k: string, m: nat)
    ensures |FileName(k, m)| >= 22
    ensures FileName(k, m)[18..|FileName(k, m)| - 4] == k + "-" + NatToString(m)
  {
    var f := FileName(k, m);
    assert f == "tradeoff-analysis-" + (k + "-" + NatToString(m)) + ".txt";
  }

  lemma DigitsHaveNoDash(n: nat)
    ensures '-' !in NatToString(n)
  {
  }

  /** The rule under an option header matches the header's length only when
      the position number and the score text are five characters together,
      as "10" and "7.5" are; for "1" and "7.5" the rule is one character
      longer than the header. The rule is sized from the name alone. */
  lemma UnderlineVersusHeader(o: Option, idx: nat)
    ensures |OptionHeader(o, idx)| == |o.name| + |o.score| + |NatToString(idx + 1)| + 15
    ensures |Underline(o)| == |OptionHeader(o, idx)| <==> |NatToString(idx + 1)| + |o.score| == 5
  {
  }
}
