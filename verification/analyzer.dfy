/** The `TradeoffAnalyzer` component's state and the actions on it: the
    active tab, switching tabs, the tab strip and the report download. */
module Analyzer {
  import opened Text
  import opened Topics
  import opened Dataset
  import opened Reports
  import opened ReportFacts
  import opened Weights
  import opened JsObject

  /** What the tab strip shows for one table entry. */
  datatype Tab = Tab(key: string, title: string, active: bool)

  lemma ComparisonKeys()
    ensures Keys(Comparisons) == ["api", "cloud", "stack"]
    ensures UniqueKeys(Comparisons)
  {
  }

  /** A name every object inherits, such as "toString", is not a key of
      the table, so `comparisons[name]` reads the inherited member; the tab
      invariant keeps `activeTab` away from such names. */
  lemma InheritedNamesAreNotTopics(name: string)
    requires name in PrototypeMembers
    ensures name !in Keys(Comparisons)
    ensures Get(Comparisons, name) == InheritedMember(name)
  {
    ComparisonKeys();
  }

  /** The report of the topic the component opens on starts with its title
      and date, then the first option's numbered header and its first
      strength, weight in brackets. */
  lemma ApiReportOpening(date: string)
    ensures var ls := ReportLines(Comparisons[0].topic, date);
      && |ls| > 11
      && ls[3] == "REST API vs GraphQL"
      && ls[4] == "Generated: " + date
      && ls[7] == "1. REST API (Score: 7.5/10)"
      && ls[11] == "  \U{2713} " + "Simple and widely understood" + " [high priority]"
  {
    var t := Comparisons[0].topic;
    assert t.title == "REST API vs GraphQL";
    var o := t.options[0];
    assert o.name == "REST API" && o.score == "7.5";
    assert o.pros[0] == Point("Simple and widely understood", "high");
    FirstOptionOpening(t, date);
    RestApiHeader(o);
    RestApiFirstStrength(o.pros[0]);
  }

  lemma RestApiHeader(o: Option)
    requires o.name == "REST API" && o.score == "7.5"
    ensures OptionHeader(o, 0) == "1. REST API (Score: 7.5/10)"
  {
    assert NatToString(1) == "1";
  }

  lemma RestApiFirstStrength(p: Point)
    requires p == Point("Simple and widely understood", "high")
    ensures ProLine(p) == "  \U{2713} " + "Simple and widely understood" + " [high priority]"
  {
    var x := "  " + Check + " " + p.text;
    assert ProLine(p) == x + " [" + p.weight + " priority]";
    assert x + " [" + p.weight + " priority]" == x + (" [" + p.weight + " priority]");
  }

  /** Every pro and con weight of the option is an own key of `Colors`. */
  predicate OptionWeightsListed(o: Option)
  {
    (forall k :: 0 <= k < |o.pros| ==> o.pros[k].weight in Colors)
    && (forall k :: 0 <= k < |o.cons| ==> o.cons[k].weight in Colors)
  }

  /** Every pro and con weight of every option of the topic is an own key of `Colors`. */
  predicate TopicWeightsListed(t: Topic)
  {
    forall j :: 0 <= j < |t.options| ==> OptionWeightsListed(t.options[j])
  }

  /** The table only uses the weights "high", "medium" and "low", so the
      badge lookup as written never reaches an inherited member on it. */
  lemma TableWeightsListed()
    ensures forall i :: 0 <= i < |Comparisons| ==> TopicWeightsListed(Comparisons[i].topic)
  {
    ApiWeightsListed();
    CloudWeightsListed();
    StackWeightsListed();
  }

  lemma ApiWeightsListed()
    ensures TopicWeightsListed(ApiTopic)
  {
    assert OptionWeightsListed(ApiTopic.options[0]);
    assert OptionWeightsListed(ApiTopic.options[1]);
  }

  lemma CloudWeightsListed()
    ensures TopicWeightsListed(CloudTopic)
  {
    assert OptionWeightsListed(CloudTopic.options[0]);
    assert OptionWeightsListed(CloudTopic.options[1]);
    assert OptionWeightsListed(CloudTopic.options[2]);
  }

  lemma StackWeightsListed()
    ensures TopicWeightsListed(StackTopic)
  {
    assert OptionWeightsListed(StackTopic.options[0]);
    assert OptionWeightsListed(StackTopic.options[1]);
    assert OptionWeightsListed(StackTopic.options[2]);
  }

  class TradeoffAnalyzer {
    /** The `activeTab` state cell. */
    var activeTab: string

    /** The active key names an entry of the table, so `comparisons[activeTab]`
        is defined. */
    predicate Valid()
      reads this
    {
      activeTab in Keys(Comparisons)
    }

    /** `useState('api')` */
    constructor ()
      ensures Valid() && activeTab == "api"
    {
      activeTab := "api";
      ComparisonKeys();
    }

    /** A tab button's `setActiveTab(key)`; every button carries a key of the table. */
    method Select(key: string)
      requires key in Keys(Comparisons)
      modifies this
      ensures Valid() && activeTab == key
    {
      activeTab := key;
    }

    /** `comparisons[activeTab]` */
    function Current(): (t: Topic)
      reads this
      requires Valid()
      ensures Get(Comparisons, activeTab) == Defined(t)
      ensures exists i :: 0 <= i < |Comparisons| && Comparisons[i] == Entry(activeTab, t)
    {
      Get(Comparisons, activeTab).topic
    }

    /** The tab strip: one tab per entry, in table order, with its title, and
        exactly the tab of the active key highlighted. */
    function Tabs(): (tabs: seq<Tab>)
      reads this
      ensures |tabs| == |Comparisons|
      ensures forall i :: 0 <= i < |tabs| ==>
        tabs[i].key == Comparisons[i].key && tabs[i].title == Comparisons[i].topic.title
      ensures forall i :: 0 <= i < |tabs| ==> (tabs[i].active <==> Comparisons[i].key == activeTab)
      ensures Valid() ==> exists i :: 0 <= i < |tabs| && tabs[i].active
      ensures forall i, j :: 0 <= i < j < |tabs| && tabs[i].active ==> !tabs[j].active
    {
      ComparisonKeys();
      var active := activeTab;
      var tabs := seq(|Comparisons|, i requires 0 <= i < |Comparisons| =>
        Tab(Comparisons[i].key, Comparisons[i].topic.title, Comparisons[i].key == active));
      assert Valid() ==> exists i :: 0 <= i < |tabs| && tabs[i].active by {
        if Valid() {
          var i :| 0 <= i < |Comparisons| && Keys(Comparisons)[i] == active;
          assert tabs[i].active;
        }
      }
      tabs
    }

    /** `downloadReport`: the file name and the text offered for download,
        for the current date text and clock reading. */
    method DownloadReport(date: string, millis: nat) returns (fileName: string, text: string)
      requires Valid()
      ensures fileName == FileName(activeTab, millis)
      ensures text == Report(Current(), date)
    {
      var t := Current();
      text := Report(t, date);
      fileName := FileName(activeTab, millis);
    }
  }
}
