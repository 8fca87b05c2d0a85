/**
 * The crawl run (`BCRScrapper`): its constructor, which fetches the topics,
 * and its two refresh passes. A pass visits entities in order and stops at
 * the first one whose fetch raises; entities visited earlier keep their new
 * children, the failing one keeps what it appended before raising, later
 * ones are untouched.
 */
module Crawl {
  import opened Wrappers
  import opened Failures
  import opened Json
  import opened Rest
  import opened Harvest
  import opened Tree

  /** A crawl run; its creation timestamp is not modelled. */
  datatype Run = Run(id: int, topics: seq<Topic>)

  const TopicKeys: seq<string> := ["pTopicoID", "pNombre"]

  /** The constructor call of `get_topics`' loop for one unit. */
  function TopicOf(unit: Json): (r: Result<Topic, Fault>)
    ensures r.Success? <==> unit.JObj? && "pTopicoID" in unit.fields && "pNombre" in unit.fields
    ensures r.Success? ==> r.value == NewTopic(unit.fields["pTopicoID"], unit.fields["pNombre"])
    ensures r.Failure? ==> LookupFault(unit, TopicKeys, r.error)
  {
    match Lookup(unit, TopicKeys)
    case Failure(f) => Failure(f)
    case Success(vs) => Success(NewTopic(vs[0], vs[1]))
  }

  function TopicsUrl(cfg: AppConfig): string {
    cfg.baseUrl + cfg.topicPath
  }

  /** The payload `{servicioId}` of the topic fetch. */
  function TopicsRequest(cfg: AppConfig): Payload {
    map["servicioId" := JNum(cfg.licenseServiceId)]
  }

  /** `BCRScrapper.get_topics`: appends one topic per unit of the reply, in
      order; only `topics` changes. */
  function GetTopics(run: Run, cfg: AppConfig, net: Network): (r: Step<Run>)
    ensures r.State() == run.(topics := r.State().topics)
    ensures Grew(run.topics, r.State().topics, Reply(net, TopicsUrl(cfg), TopicsRequest(cfg)), TopicOf, r.Thrown())
  {
    var c := Gather(net, TopicsUrl(cfg), TopicsRequest(cfg), TopicOf);
    GrewExtend(run.topics, c.items, Reply(net, TopicsUrl(cfg), TopicsRequest(cfg)), TopicOf, c.thrown);
    Settle(run.(topics := run.topics + c.items), c.thrown)
  }

  /** `BCRScrapper(id, config)`: a run exists only if the topic fetch
      completes, and then holds one topic per unit of the reply, in reply
      order. Otherwise the first exception of the fetch leaves the constructor. */
  function Create(id: int, cfg: AppConfig, net: Network): (r: Result<Run, Fault>)
    ensures r.Success? ==> r.value.id == id
    ensures Reply(net, TopicsUrl(cfg), TopicsRequest(cfg)).Failure? ==>
              r == Failure(Reply(net, TopicsUrl(cfg), TopicsRequest(cfg)).error)
    ensures r.Success? <==> var reply := Reply(net, TopicsUrl(cfg), TopicsRequest(cfg));
              reply.Success? && forall i :: 0 <= i < |reply.value| ==> TopicOf(reply.value[i]).Success?
    ensures r.Success? ==> var units := Reply(net, TopicsUrl(cfg), TopicsRequest(cfg)).value;
              |r.value.topics| == |units| && forall i :: 0 <= i < |units| ==> TopicOf(units[i]) == Success(r.value.topics[i])
    ensures r.Failure? && Reply(net, TopicsUrl(cfg), TopicsRequest(cfg)).Success? ==>
              var units := Reply(net, TopicsUrl(cfg), TopicsRequest(cfg)).value;
              exists k :: 0 <= k < |units| && TopicOf(units[k]) == Failure(r.error)
                          && forall i :: 0 <= i < k ==> TopicOf(units[i]).Success?
  {
    var s := GetTopics(Run(id, []), cfg, net);
    var reply := Reply(net, TopicsUrl(cfg), TopicsRequest(cfg));
    GrewFromEmpty(s.State().topics, reply, TopicOf, s.Thrown());
    match s
    case Done(run) => Success(run)
    case Aborted(f, _) => Failure(f)
  }

  // ---------------------------------------------------------------- passes

  /** The pass ran `f` on `xs[..k]` successfully, `f(xs[k])` raised `fault`
      leaving `ys[k]`, and the entities after `k` were never visited. */
  ghost predicate StoppedAt<T>(xs: seq<T>, f: T -> Step<T>, k: int, fault: Fault, ys: seq<T>) {
    && 0 <= k < |xs| == |ys|
    && (forall i :: 0 <= i < k ==> f(xs[i]) == Done(ys[i]))
    && f(xs[k]) == Aborted(fault, ys[k])
    && (forall i :: k < i < |xs| ==> ys[i] == xs[i])
  }

  /** `for x in xs: x.method()` where the method may raise: visits in order
      and stops at the first exception. Defined by what the loop has done
      once it reaches the last entity. */
  function Sweep<T>(xs: seq<T>, f: T -> Step<T>): (r: Step<seq<T>>)
    ensures |r.State()| == |xs|
    ensures r.Done? <==> forall i :: 0 <= i < |xs| ==> f(xs[i]).Done?
    ensures r.Done? ==> forall i :: 0 <= i < |xs| ==> f(xs[i]) == Done(r.value[i])
    ensures r.Aborted? ==> exists k :: StoppedAt(xs, f, k, r.fault, r.partial)
    decreases |xs|
  {
    if xs == [] then Done([])
    else
      var n := |xs| - 1;
      match Sweep(xs[..n], f)
      case Aborted(fault, ys) =>
        assert exists k :: StoppedAt(xs, f, k, fault, ys + [xs[n]]) by {
          var k :| StoppedAt(xs[..n], f, k, fault, ys);
          assert StoppedAt(xs, f, k, fault, ys + [xs[n]]);
        }
        Aborted(fault, ys + [xs[n]])
      case Done(ys) =>
        match f(xs[n])
        case Done(y) => Done(ys + [y])
        case Aborted(fault, y) =>
          assert StoppedAt(xs, f, n, fault, ys + [y]);
          Aborted(fault, ys + [y])
  }

  /** Whatever reflexive relation each single step keeps between an entity's old and
      new state, the whole pass keeps position by position. */
  lemma SweepKeeps<T>(xs: seq<T>, f: T -> Step<T>, keep: (T, T) -> bool)
    requires forall x :: keep(x, x)
    requires forall x :: keep(x, f(x).State())
    ensures forall i :: 0 <= i < |xs| ==> keep(xs[i], Sweep(xs, f).State()[i])
  {
  }

  /** `b` is `a` with at most its procedures replaced. */
  predicate OnlyProcedures(a: Topic, b: Topic) {
    b == a.(procedures := b.procedures)
  }

  /** `b` is `a` with at most its regions replaced. */
  predicate OnlyRegions(a: Topic, b: Topic) {
    b == a.(regions := b.regions)
  }

  /** `b` is `a` with at most its branches replaced. */
  predicate OnlyBranches(a: Region, b: Region) {
    b == a.(branches := b.branches)
  }

  /** The run with its topic list replaced by a pass's outcome. */
  function WithTopics(run: Run, s: Step<seq<Topic>>): (r: Step<Run>)
    ensures r.State() == run.(topics := s.State())
    ensures r.Thrown() == s.Thrown()
  {
    Settle(run.(topics := s.State()), s.Thrown())
  }

  /** One iteration of the procedures pass. */
  function ProceduresStep(cfg: AppConfig, net: Network): Topic -> Step<Topic> {
    t => GetProcedures(t, cfg, net)
  }

  /** `BCRScrapper.load_topics_procedures`: `get_procedures` on every topic
      in order, stopping at the first that raises. The topic list keeps its
      length and order and only the topics' `procedures` change. */
  function LoadTopicsProcedures(run: Run, cfg: AppConfig, net: Network): (r: Step<Run>)
    ensures r.State().id == run.id && |r.State().topics| == |run.topics|
    ensures forall i :: 0 <= i < |run.topics| ==> OnlyProcedures(run.topics[i], r.State().topics[i])
    ensures r.Done? <==> forall i :: 0 <= i < |run.topics| ==> GetProcedures(run.topics[i], cfg, net).Done?
    ensures r.Done? ==> forall i :: 0 <= i < |run.topics| ==> GetProcedures(run.topics[i], cfg, net) == Done(r.value.topics[i])
    ensures r.Aborted? ==> exists k :: StoppedAt(run.topics, ProceduresStep(cfg, net), k, r.fault, r.partial.topics)
  {
    var s := Sweep(run.topics, ProceduresStep(cfg, net));
    SweepKeeps(run.topics, ProceduresStep(cfg, net), OnlyProcedures);
    WithTopics(run, s)
  }

  /** One iteration of the inner loop of the branches pass. */
  function BranchesStep(cfg: AppConfig, net: Network): Region -> Step<Region> {
    region => GetBranches(region, cfg, net)
  }

  /** The body of the outer loop of `load_topics_branches` for one topic:
      generate its regions, then fetch branches for every region the topic
      now holds (old ones included), stopping at the first that raises. */
  function BranchTopic(t: Topic, cfg: AppConfig, net: Network): (r: Step<Topic>)
    ensures r.State() == t.(regions := r.State().regions)
    ensures |r.State().regions| == |t.regions| + |cfg.regions|
    ensures forall j :: 0 <= j < |r.State().regions| ==> OnlyBranches(GenerateRegions(t, cfg).regions[j], r.State().regions[j])
    ensures r.Done? <==> forall j :: 0 <= j < |GenerateRegions(t, cfg).regions| ==>
                           GetBranches(GenerateRegions(t, cfg).regions[j], cfg, net).Done?
    ensures r.Done? ==> forall j :: 0 <= j < |GenerateRegions(t, cfg).regions| ==>
                          GetBranches(GenerateRegions(t, cfg).regions[j], cfg, net) == Done(r.value.regions[j])
    ensures r.Aborted? ==> exists k :: StoppedAt(GenerateRegions(t, cfg).regions, BranchesStep(cfg, net), k, r.fault, r.partial.regions)
  {
    var g := GenerateRegions(t, cfg);
    var s := Sweep(g.regions, BranchesStep(cfg, net));
    SweepKeeps(g.regions, BranchesStep(cfg, net), OnlyBranches);
    Settle(g.(regions := s.State()), s.Thrown())
  }

  /** One iteration of the outer loop of the branches pass. */
  function BranchTopicStep(cfg: AppConfig, net: Network): Topic -> Step<Topic> {
    t => BranchTopic(t, cfg, net)
  }

  /** `BCRScrapper.load_topics_branches`: for every topic in order, generate
      its regions and fetch their branches, stopping at the first fetch that
      raises. Only the topics' `regions` change. */
  function LoadTopicsBranches(run: Run, cfg: AppConfig, net: Network): (r: Step<Run>)
    ensures r.State().id == run.id && |r.State().topics| == |run.topics|
    ensures forall i :: 0 <= i < |run.topics| ==> OnlyRegions(run.topics[i], r.State().topics[i])
    ensures r.Done? <==> forall i :: 0 <= i < |run.topics| ==> BranchTopic(run.topics[i], cfg, net).Done?
    ensures r.Done? ==> forall i :: 0 <= i < |run.topics| ==> BranchTopic(run.topics[i], cfg, net) == Done(r.value.topics[i])
    ensures r.Aborted? ==> exists k :: StoppedAt(run.topics, BranchTopicStep(cfg, net), k, r.fault, r.partial.topics)
  {
    var s := Sweep(run.topics, BranchTopicStep(cfg, net));
    SweepKeeps(run.topics, BranchTopicStep(cfg, net), OnlyRegions);
    WithTopics(run, s)
  }
}
