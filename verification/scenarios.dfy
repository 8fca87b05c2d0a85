/**
 * Concrete crawls: a one-topic service answered by fixed replies.
 */
module Scenarios {
  import opened Wrappers
  import opened Failures
  import opened Json
  import opened Rest
  import opened Harvest
  import opened Tree
  import opened Crawl
  import opened Properties

  function Cfg(): AppConfig {
    AppConfig(7, "https://service", "/topics", "/procedures", "/branches",
              [RegionEntry(JNum(10), JStr("North")), RegionEntry(JNum(20), JStr("South"))])
  }

  /** A reply whose body is the given JSON array. */
  function Answer(units: seq<Json>): Exchange {
    Delivered(Response(200, Some(JArr(units))))
  }

  function TopicUnit(): Json {
    JObj(map["pTopicoID" := JNum(1), "pNombre" := JStr("Licenses")])
  }

  function ProcedureUnit(): Json {
    JObj(map["TramiteId" := JNum(5), "Nombre" := JStr("Renew")])
  }

  function BranchUnit(): Json {
    JObj(map["pSucursalID" := JNum(100), "pNombre" := JStr("Main"), "pDireccion" := JStr("1 St"), "numeroProvincia" := JNum(10)])
  }

  /** The topic endpoint, listing one topic. */
  function TopicNet(): Network {
    (uri, data) => Answer([TopicUnit()])
  }

  /** The procedure endpoint, listing one procedure for any topic. */
  function ProcedureNet(): Network {
    (uri, data) => Answer([ProcedureUnit()])
  }

  /** The branch endpoint: one branch in region 10 of topic 1, none elsewhere. */
  function BranchNet(): Network {
    (uri, data) => if data == map["topicoId" := JNum(1), "provinciaId" := JNum(10)] then Answer([BranchUnit()]) else Answer([])
  }

  function Licenses(): Topic {
    NewTopic(JNum(1), JStr("Licenses"))
  }

  /** The topic endpoint lists one topic; the run holds exactly that topic,
      with no procedures and no regions. */
  lemma CreateOneTopic()
    ensures Create(1, Cfg(), TopicNet()) == Success(Run(1, [Topic(JNum(1), JStr("Licenses"), [], [])]))
  {
    assert Reply(TopicNet(), TopicsUrl(Cfg()), TopicsRequest(Cfg())) == Success([TopicUnit()]);
    assert TopicOf(TopicUnit()) == Success(Topic(JNum(1), JStr("Licenses"), [], []));
    var r := Create(1, Cfg(), TopicNet());
    assert r.Success?;
    assert r.value.topics == [Topic(JNum(1), JStr("Licenses"), [], [])];
  }

  /** The procedure endpoint lists one procedure; after the procedures pass
      the topic holds it and its regions are untouched. */
  lemma ProceduresOfOneTopic()
    ensures LoadTopicsProcedures(Run(1, [Licenses()]), Cfg(), ProcedureNet()) ==
              Done(Run(1, [Topic(JNum(1), JStr("Licenses"), [Procedure(JNum(5), JStr("Renew"), [])], [])]))
  {
    var t := Licenses();
    var reply := Reply(ProcedureNet(), ProceduresUrl(Cfg()), ProceduresRequest(t));
    assert reply == Success([ProcedureUnit()]);
    var expected := Topic(JNum(1), JStr("Licenses"), [Procedure(JNum(5), JStr("Renew"), [])], []);
    var r := GetProcedures(t, Cfg(), ProcedureNet());
    GrewUnique(t.procedures, r.State().procedures, expected.procedures, reply, ProcedureOf, r.Thrown(), None);
    assert r == Done(expected);
    var pass := LoadTopicsProcedures(Run(1, [t]), Cfg(), ProcedureNet());
    assert pass.Done?;
    assert pass.value.topics == [expected];
  }

  function North(): Region {
    Region(JNum(10), JStr("North"), JNum(1), [Branch(JNum(100), JStr("Main"), JStr("1 St"), JNum(10), JNum(1), [])])
  }

  function South(): Region {
    Region(JNum(20), JStr("South"), JNum(1), [])
  }

  /** The branch endpoint answers region 10 of topic 1 with its one unit. */
  lemma NorthReply()
    ensures Reply(BranchNet(), BranchesUrl(Cfg()), BranchesRequest(NewRegion(JNum(10), JStr("North"), JNum(1))))
            == Success([BranchUnit()])
  {
  }

  /** Region 10 of topic 1 fetches its one branch. */
  lemma NorthBranches()
    ensures GetBranches(NewRegion(JNum(10), JStr("North"), JNum(1)), Cfg(), BranchNet()) == Done(North())
  {
    var region := NewRegion(JNum(10), JStr("North"), JNum(1));
    var reply := Reply(BranchNet(), BranchesUrl(Cfg()), BranchesRequest(region));
    NorthReply();
    var r := GetBranches(region, Cfg(), BranchNet());
    GrewUnique(region.branches, r.State().branches, North().branches, reply, BranchBuilder(JNum(1)), r.Thrown(), None);
  }

  /** Region 20 of topic 1 has no branches. */
  lemma SouthBranches()
    ensures GetBranches(NewRegion(JNum(20), JStr("South"), JNum(1)), Cfg(), BranchNet()) == Done(South())
  {
    var region := NewRegion(JNum(20), JStr("South"), JNum(1));
    assert BranchesRequest(region)["provinciaId"] == JNum(20);
    assert Reply(BranchNet(), BranchesUrl(Cfg()), BranchesRequest(region)) == Success([]);
  }

  /** The branches step on the topic generates regions 10 and 20 and
      fetches their branches. */
  lemma TwoRegionsOfTopic()
    ensures BranchTopic(Licenses(), Cfg(), BranchNet()) == Done(Topic(JNum(1), JStr("Licenses"), [], [North(), South()]))
  {
    var t := Licenses();
    FreshRegions(t, Cfg());
    assert GenerateRegions(t, Cfg()).regions == [NewRegion(JNum(10), JStr("North"), JNum(1)), NewRegion(JNum(20), JStr("South"), JNum(1))];
    NorthBranches();
    SouthBranches();
    BranchTopicDone(t, Cfg(), BranchNet(), [North(), South()]);
  }

  /** Regions 10 and 20 are generated for the topic; region 10's endpoint
      lists one branch and region 20's lists none. */
  lemma BranchesOfTwoRegions()
    ensures LoadTopicsBranches(Run(1, [Licenses()]), Cfg(), BranchNet()) ==
              Done(Run(1, [Topic(JNum(1), JStr("Licenses"), [], [North(), South()])]))
  {
    TwoRegionsOfTopic();
    LoadTopicsBranchesDone(Run(1, [Licenses()]), Cfg(), BranchNet(), [Topic(JNum(1), JStr("Licenses"), [], [North(), South()])]);
  }

  /** The topic endpoint times out: no run is created. */
  lemma CreateTimesOut()
    ensures Create(1, Cfg(), (uri, data) => Raised(Timeout)) == Failure(NoResponse)
  {
  }

  /** A branch endpoint that always times out. */
  function DownNet(): Network {
    (uri, data) => Raised(Timeout)
  }

  /** Every branch fetch against the timed-out endpoint raises the `None`
      fault and leaves the region as it was. */
  lemma DownBranches(region: Region)
    ensures GetBranches(region, Cfg(), DownNet()) == Aborted(NoResponse, region)
  {
    BranchesFailOnTransportFailure(region, Cfg(), DownNet());
  }

  /** A first branches step on the topic completes, and a second one whose
      endpoint times out raises the `None` fault. */
  lemma SecondBranchStepTimesOut()
    ensures var once := BranchTopic(Licenses(), Cfg(), BranchNet());
            && once.Done?
            && BranchTopic(once.value, Cfg(), DownNet()).Aborted?
            && BranchTopic(once.value, Cfg(), DownNet()).fault == NoResponse
  {
    TwoRegionsOfTopic();
    var g := GenerateRegions(Licenses(), Cfg()).regions;
    DownBranches(g[0]);
    var s := BranchTopic(Licenses(), Cfg(), DownNet());
    assert !GetBranches(g[0], Cfg(), DownNet()).Done?;
    var k :| StoppedAt(g, BranchesStep(Cfg(), DownNet()), k, s.fault, s.partial.regions);
    DownBranches(g[k]);
    SecondBranchPassOnTopicAborts(Licenses(), Cfg(), BranchNet(), DownNet());
  }
}
