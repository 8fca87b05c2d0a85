/**
 * Properties relating several calls of the crawler: where a pass stops,
 * what a repeated branch pass does, and why the two passes commute.
 */
module Properties {
  import opened Wrappers
  import opened Failures
  import opened Json
  import opened Rest
  import opened Tree
  import opened Crawl

  // ---------------------------------------------------------------- construction

  /** A constructed run holds one fresh topic per unit of the topic reply:
      same length, same order, id from `pTopicoID`, name from `pNombre`,
      no procedures and no regions yet. */
  lemma TopicsFromResponse(id: int, cfg: AppConfig, net: Network)
    requires Create(id, cfg, net).Success?
    ensures var run := Create(id, cfg, net).value;
            var units := Reply(net, TopicsUrl(cfg), TopicsRequest(cfg)).value;
            && run.id == id
            && |run.topics| == |units|
            && forall i :: 0 <= i < |units| ==>
                 && units[i].JObj? && "pTopicoID" in units[i].fields && "pNombre" in units[i].fields
                 && run.topics[i].id == units[i].fields["pTopicoID"]
                 && run.topics[i].name == units[i].fields["pNombre"]
                 && run.topics[i].procedures == [] && run.topics[i].regions == []
  {
  }

  /** A transport failure of the topic fetch means no run is created: the
      `None` from `post_uri` makes `.json()` raise inside the constructor. */
  lemma CreateFailsOnTransportFailure(id: int, cfg: AppConfig, net: Network)
    requires net(TopicsUrl(cfg), TopicsRequest(cfg)).Raised?
    requires IsRequestException(net(TopicsUrl(cfg), TopicsRequest(cfg)).exc)
    ensures Create(id, cfg, net) == Failure(NoResponse)
  {
  }

  /** A transport failure of a region's branch fetch raises the `None.json()`
      fault before the loop, so the region keeps exactly its branches. */
  lemma BranchesFailOnTransportFailure(region: Region, cfg: AppConfig, net: Network)
    requires net(BranchesUrl(cfg), BranchesRequest(region)).Raised?
    requires IsRequestException(net(BranchesUrl(cfg), BranchesRequest(region)).exc)
    ensures GetBranches(region, cfg, net) == Aborted(NoResponse, region)
  {
    assert Reply(net, BranchesUrl(cfg), BranchesRequest(region)) == Failure(NoResponse);
  }

  /** A transport failure of a topic's procedure fetch raises the
      `None.json()` fault before the loop, so the topic is left as it was. */
  lemma ProceduresFailOnTransportFailure(t: Topic, cfg: AppConfig, net: Network)
    requires net(ProceduresUrl(cfg), ProceduresRequest(t)).Raised?
    requires IsRequestException(net(ProceduresUrl(cfg), ProceduresRequest(t)).exc)
    ensures GetProcedures(t, cfg, net) == Aborted(NoResponse, t)
  {
    assert Reply(net, ProceduresUrl(cfg), ProceduresRequest(t)) == Failure(NoResponse);
  }

  // ---------------------------------------------------------------- abort on first failure

  /** A sweep stops exactly at its first failing element. */
  lemma SweepStopsAtFirstFailure<T>(xs: seq<T>, f: T -> Step<T>, k: int)
    requires 0 <= k < |xs|
    requires forall i :: 0 <= i < k ==> f(xs[i]).Done?
    requires f(xs[k]).Aborted?
    ensures Sweep(xs, f).Aborted?
    ensures StoppedAt(xs, f, k, Sweep(xs, f).fault, Sweep(xs, f).partial)
  {
    var r := Sweep(xs, f);
    assert !f(xs[k]).Done?;
    var j :| StoppedAt(xs, f, j, r.fault, r.partial);
    assert j >= k by {
      assert f(xs[j]).Aborted?;
    }
    assert j <= k by {
      assert f(xs[k]).Aborted?;
    }
  }

  /** The procedures pass stops at the first topic whose fetch raises:
      topics before it carry their new procedures, the failing topic keeps
      only what it appended before raising, later topics are untouched.
      When the failure is a transport failure the failing topic is untouched
      too, and the pass ends with the `.json()` call on `None`. */
  lemma ProceduresAbortAtFirstFailure(run: Run, cfg: AppConfig, net: Network, k: int)
    requires 0 <= k < |run.topics|
    requires forall i :: 0 <= i < k ==> GetProcedures(run.topics[i], cfg, net).Done?
    requires GetProcedures(run.topics[k], cfg, net).Aborted?
    ensures var r := LoadTopicsProcedures(run, cfg, net);
            && r.Aborted?
            && r.fault == GetProcedures(run.topics[k], cfg, net).fault
            && (forall i :: 0 <= i < k ==> r.partial.topics[i] == GetProcedures(run.topics[i], cfg, net).value)
            && r.partial.topics[k] == GetProcedures(run.topics[k], cfg, net).partial
            && (forall i :: k < i < |run.topics| ==> r.partial.topics[i] == run.topics[i])
            && r.partial.topics[k].regions == run.topics[k].regions
    ensures var request := ProceduresRequest(run.topics[k]);
            net(ProceduresUrl(cfg), request).Raised? && IsRequestException(net(ProceduresUrl(cfg), request).exc) ==>
              LoadTopicsProcedures(run, cfg, net) == Aborted(NoResponse, LoadTopicsProcedures(run, cfg, net).partial)
              && LoadTopicsProcedures(run, cfg, net).partial.topics[k] == run.topics[k]
  {
    var f := ProceduresStep(cfg, net);
    SweepStopsAtFirstFailure(run.topics, f, k);
    var s := Sweep(run.topics, f);
    assert LoadTopicsProcedures(run, cfg, net) == WithTopics(run, s);
    assert f(run.topics[k]) == Aborted(s.fault, s.partial[k]);
  }

  /** The branches pass stops at the first topic whose region generation and
      branch fetches raise, in the same way. */
  lemma BranchesAbortAtFirstFailure(run: Run, cfg: AppConfig, net: Network, k: int)
    requires 0 <= k < |run.topics|
    requires forall i :: 0 <= i < k ==> BranchTopic(run.topics[i], cfg, net).Done?
    requires BranchTopic(run.topics[k], cfg, net).Aborted?
    ensures var r := LoadTopicsBranches(run, cfg, net);
            && r.Aborted?
            && r.fault == BranchTopic(run.topics[k], cfg, net).fault
            && (forall i :: 0 <= i < k ==> r.partial.topics[i] == BranchTopic(run.topics[i], cfg, net).value)
            && r.partial.topics[k] == BranchTopic(run.topics[k], cfg, net).partial
            && (forall i :: k < i < |run.topics| ==> r.partial.topics[i] == run.topics[i])
  {
    var f := BranchTopicStep(cfg, net);
    SweepStopsAtFirstFailure(run.topics, f, k);
    var s := Sweep(run.topics, f);
    assert LoadTopicsBranches(run, cfg, net) == WithTopics(run, s);
    assert f(run.topics[k]) == Aborted(s.fault, s.partial[k]);
  }

  // ---------------------------------------------------------------- branch ownership

  /** Each fetched branch takes its region id from the unit's
      `numeroProvincia`, so it can disagree with the id of the region that
      requested it: a region with id 10 whose reply says province 20 gets a
      branch with region id 20. */
  lemma BranchRegionIdComesFromReply(cfg: AppConfig)
    ensures var region := NewRegion(JNum(10), JStr("North"), JNum(1));
            var unit := JObj(map["pSucursalID" := JNum(100), "pNombre" := JStr("Main"),
                                 "pDireccion" := JStr("1 St"), "numeroProvincia" := JNum(20)]);
            var net: Network := (uri, data) => Delivered(Response(200, Some(JArr([unit]))));
            var r := GetBranches(region, cfg, net);
            r.Done? && |r.value.branches| == 1
            && r.value.branches[0].regionId == JNum(20) != region.id
            && r.value.branches[0].topicId == region.topicId
  {
  }

  // ---------------------------------------------------------------- repeated fetches

  /** A branch fetch appends to whatever the region already holds exactly
      what the same fetch appends to the region with no branches (the
      request depends only on the region's id and topic id). */
  lemma GetBranchesAppends(region: Region, cfg: AppConfig, net: Network)
    ensures var cur := GetBranches(region.(branches := []), cfg, net);
            GetBranches(region, cfg, net) == Settle(region.(branches := region.branches + cur.State().branches), cur.Thrown())
  {
  }

  /** A procedure fetch appends to whatever the topic already holds exactly
      what the same fetch appends to the topic with no procedures. */
  lemma GetProceduresAppends(t: Topic, cfg: AppConfig, net: Network)
    ensures var cur := GetProcedures(t.(procedures := []), cfg, net);
            GetProcedures(t, cfg, net) == Settle(t.(procedures := t.procedures + cur.State().procedures), cur.Thrown())
  {
  }

  /** Corollary for a service that answers the refetch as it answered the
      first fetch: the region ends up with its branches twice. */
  lemma RefetchDuplicatesBranches(region: Region, cfg: AppConfig, net: Network)
    requires region.branches == []
    requires GetBranches(region, cfg, net).Done?
    ensures var once := GetBranches(region, cfg, net).value;
            GetBranches(once, cfg, net) == Done(once.(branches := once.branches + once.branches))
  {
    var once := GetBranches(region, cfg, net).value;
    GetBranchesAppends(once, cfg, net);
    assert once.(branches := []) == region;
  }

  /** Corollary for a service that answers the second procedures fetch as it
      answered the first: the topic ends up with its procedures twice, so
      the refresh is not idempotent. */
  lemma RefetchDuplicatesProcedures(t: Topic, cfg: AppConfig, net: Network)
    requires t.procedures == []
    requires GetProcedures(t, cfg, net).Done?
    ensures var once := GetProcedures(t, cfg, net).value;
            GetProcedures(once, cfg, net) == Done(once.(procedures := once.procedures + once.procedures))
  {
    var once := GetProcedures(t, cfg, net).value;
    GetProceduresAppends(once, cfg, net);
    assert once.(procedures := []) == t;
  }

  // ---------------------------------------------------------------- repeated branch pass

  /** A branches step completes with the given regions when every region
      the topic holds after generation fetches to the matching one. */
  lemma BranchTopicDone(t: Topic, cfg: AppConfig, net: Network, regions: seq<Region>)
    requires |regions| == |GenerateRegions(t, cfg).regions|
    requires forall j :: 0 <= j < |regions| ==> GetBranches(GenerateRegions(t, cfg).regions[j], cfg, net) == Done(regions[j])
    ensures BranchTopic(t, cfg, net) == Done(t.(regions := regions))
  {
    var r := BranchTopic(t, cfg, net);
    assert r.Done?;
    assert r.value.regions == regions;
  }

  /** On a topic without regions, generation yields exactly the configured
      regions, fresh and scoped to the topic. */
  lemma FreshRegions(t: Topic, cfg: AppConfig)
    requires t.regions == []
    ensures forall j :: 0 <= j < |cfg.regions| ==>
              GenerateRegions(t, cfg).regions[j] == NewRegion(cfg.regions[j].id, cfg.regions[j].name, t.id)
  {
  }

  /** The regions a first branches step leaves on a topic that had none. */
  lemma FirstBranchPassOnTopic(t: Topic, cfg: AppConfig, net: Network)
    requires t.regions == []
    requires BranchTopic(t, cfg, net).Done?
    ensures var once := BranchTopic(t, cfg, net).value;
            && once.id == t.id
            && |once.regions| == |cfg.regions|
            && forall j :: 0 <= j < |cfg.regions| ==>
                 GetBranches(GenerateRegions(t, cfg).regions[j], cfg, net) == Done(once.regions[j])
  {
  }

  /** Region `region` with the branches of `fetched` appended. */
  function Extended(region: Region, fetched: Region): Region {
    region.(branches := region.branches + fetched.branches)
  }

  /** The regions a topic holds after a repeated branches step: the regions
      of the first step, each extended by what the second service returned
      for it, followed by the regions the second service alone would give. */
  function Revisited(first: seq<Region>, second: seq<Region>): (r: seq<Region>)
    requires |first| == |second|
    ensures |r| == 2 * |first|
    ensures forall j :: 0 <= j < |first| ==> r[j] == Extended(first[j], second[j])
    ensures forall j :: |first| <= j < |r| ==> r[j] == second[j - |first|]
  {
    seq(|first|, j requires 0 <= j < |first| => Extended(first[j], second[j])) + second
  }

  /** Re-fetching an old region from a second service appends what that
      service returns for the region when it is fresh. */
  lemma OldRegionRefetch(t: Topic, cfg: AppConfig, net1: Network, net2: Network, j: int)
    requires t.regions == []
    requires BranchTopic(t, cfg, net1).Done?
    requires 0 <= j < |cfg.regions|
    ensures var once := BranchTopic(t, cfg, net1).value;
            var cur := GetBranches(GenerateRegions(t, cfg).regions[j], cfg, net2);
            && j < |once.regions|
            && GetBranches(once.regions[j], cfg, net2)
               == Settle(once.regions[j].(branches := once.regions[j].branches + cur.State().branches), cur.Thrown())
  {
    FreshRegions(t, cfg);
    FirstBranchPassOnTopic(t, cfg, net1);
    var once := BranchTopic(t, cfg, net1).value;
    GetBranchesAppends(once.regions[j], cfg, net2);
    assert once.regions[j].(branches := []) == GenerateRegions(t, cfg).regions[j];
  }

  /** The `j`-th region generated by the second step is the `j`-th region
      generated by the first: the same id, name and topic, with no branches. */
  lemma NewRegionTwin(t: Topic, cfg: AppConfig, net: Network, j: int)
    requires t.regions == []
    requires BranchTopic(t, cfg, net).Done?
    requires 0 <= j < |cfg.regions|
    ensures var once := BranchTopic(t, cfg, net).value;
            && |once.regions| == |cfg.regions|
            && GenerateRegions(once, cfg).regions[|cfg.regions| + j] == GenerateRegions(t, cfg).regions[j]
  {
    FreshRegions(t, cfg);
    FirstBranchPassOnTopic(t, cfg, net);
    var once := BranchTopic(t, cfg, net).value;
    var entry := cfg.regions[j];
    assert |once.regions| == |cfg.regions| && once.id == t.id;
    assert GenerateRegions(once, cfg).regions[|once.regions| + j] == NewRegion(entry.id, entry.name, t.id);
  }

  /** What a second branches step against a service `net2` fetches for its
      `j`-th region, when `net2` would complete a first step: an old region
      gets `net2`'s branches appended, a new one gets `net2`'s branches. */
  lemma SecondPassFetch(t: Topic, cfg: AppConfig, net1: Network, net2: Network, j: int)
    requires t.regions == []
    requires BranchTopic(t, cfg, net1).Done?
    requires BranchTopic(t, cfg, net2).Done?
    requires 0 <= j < 2 * |cfg.regions|
    ensures var once := BranchTopic(t, cfg, net1).value;
            var again := BranchTopic(t, cfg, net2).value;
            && |once.regions| == |again.regions| == |cfg.regions|
            && GetBranches(GenerateRegions(once, cfg).regions[j], cfg, net2) == Done(Revisited(once.regions, again.regions)[j])
  {
    var m := |cfg.regions|;
    var once := BranchTopic(t, cfg, net1).value;
    var again := BranchTopic(t, cfg, net2).value;
    FirstBranchPassOnTopic(t, cfg, net1);
    FirstBranchPassOnTopic(t, cfg, net2);
    var g := GenerateRegions(once, cfg).regions;
    if j < m {
      OldRegionRefetch(t, cfg, net1, net2, j);
      assert g[j] == once.regions[j];
    } else {
      NewRegionTwin(t, cfg, net1, j - m);
    }
  }

  /** A second branches step, against a service `net2`, over a topic whose
      regions all came from a first step: it generates a fresh copy of the
      configured regions and fetches branches for old and new regions alike.
      When `net2` would complete a first step on the topic, each old region
      gains `net2`'s branches and each new region holds them. */
  lemma {:induction false} SecondBranchPassOnTopic(t: Topic, cfg: AppConfig, net1: Network, net2: Network)
    requires t.regions == []
    requires BranchTopic(t, cfg, net1).Done?
    requires BranchTopic(t, cfg, net2).Done?
    ensures var once := BranchTopic(t, cfg, net1).value;
            var again := BranchTopic(t, cfg, net2).value;
            && |once.regions| == |again.regions| == |cfg.regions|
            && BranchTopic(once, cfg, net2) == Done(once.(regions := Revisited(once.regions, again.regions)))
  {
    var once := BranchTopic(t, cfg, net1).value;
    var again := BranchTopic(t, cfg, net2).value;
    FirstBranchPassOnTopic(t, cfg, net1);
    FirstBranchPassOnTopic(t, cfg, net2);
    var g := GenerateRegions(once, cfg).regions;
    var regions := Revisited(once.regions, again.regions);
    forall j | 0 <= j < |g|
      ensures GetBranches(g[j], cfg, net2) == Done(regions[j])
    {
      SecondPassFetch(t, cfg, net1, net2, j);
    }
    BranchTopicDone(once, cfg, net2, regions);
  }

  /** When `net2` would make a first step on the topic raise, the second
      step raises the same exception: it fails on the old region whose fetch
      `net2` fails first, before it reaches any new region. */
  lemma SecondBranchPassOnTopicAborts(t: Topic, cfg: AppConfig, net1: Network, net2: Network)
    requires t.regions == []
    requires BranchTopic(t, cfg, net1).Done?
    requires BranchTopic(t, cfg, net2).Aborted?
    ensures var once := BranchTopic(t, cfg, net1).value;
            && BranchTopic(once, cfg, net2).Aborted?
            && BranchTopic(once, cfg, net2).fault == BranchTopic(t, cfg, net2).fault
  {
    var once := BranchTopic(t, cfg, net1).value;
    var s := BranchTopic(t, cfg, net2);
    var step := BranchesStep(cfg, net2);
    var g1 := GenerateRegions(t, cfg).regions;
    var g2 := GenerateRegions(once, cfg).regions;
    var k :| StoppedAt(g1, step, k, s.fault, s.partial.regions);
    FirstBranchPassOnTopic(t, cfg, net1);
    forall i | 0 <= i <= k
      ensures step(g2[i]).Done? <==> step(g1[i]).Done?
      ensures step(g2[i]).Aborted? ==> step(g2[i]).fault == step(g1[i]).fault
    {
      OldRegionRefetch(t, cfg, net1, net2, i);
      assert g2[i] == once.regions[i];
    }
    SweepStopsAtFirstFailure(g2, step, k);
    var r := BranchTopic(once, cfg, net2);
    var k2 :| StoppedAt(g2, step, k2, r.fault, r.partial.regions);
    assert k2 >= k by {
      assert step(g2[k2]).Aborted?;
    }
    assert k2 <= k by {
      assert step(g2[k]).Aborted?;
    }
  }

  /** The branches pass completes with the given topics when every topic's
      branches step completes with the matching one. */
  lemma LoadTopicsBranchesDone(run: Run, cfg: AppConfig, net: Network, topics: seq<Topic>)
    requires |topics| == |run.topics|
    requires forall i :: 0 <= i < |topics| ==> BranchTopic(run.topics[i], cfg, net) == Done(topics[i])
    ensures LoadTopicsBranches(run, cfg, net) == Done(run.(topics := topics))
  {
    var r := LoadTopicsBranches(run, cfg, net);
    assert r.Done?;
    assert r.value.topics == topics;
  }

  /** Running the branches pass a second time, against a service `net2`,
      on a run whose regions all came from a first pass: when `net2` would
      complete a first pass, every topic ends with 2·|REGIONS| regions, the
      first-pass regions with `net2`'s branches appended, followed by the
      regions `net2` alone would give. */
  lemma SecondBranchPass(run: Run, cfg: AppConfig, net1: Network, net2: Network)
    requires forall i :: 0 <= i < |run.topics| ==> run.topics[i].regions == []
    requires LoadTopicsBranches(run, cfg, net1).Done?
    requires LoadTopicsBranches(run, cfg, net2).Done?
    ensures var once := LoadTopicsBranches(run, cfg, net1).value;
            var again := LoadTopicsBranches(run, cfg, net2).value;
            var twice := LoadTopicsBranches(once, cfg, net2);
            && twice.Done?
            && |twice.value.topics| == |once.topics| == |again.topics| == |run.topics|
            && forall i :: 0 <= i < |run.topics| ==>
                 && |once.topics[i].regions| == |again.topics[i].regions| == |cfg.regions|
                 && twice.value.topics[i] == once.topics[i].(regions := Revisited(once.topics[i].regions, again.topics[i].regions))
  {
    var once := LoadTopicsBranches(run, cfg, net1).value;
    var again := LoadTopicsBranches(run, cfg, net2).value;
    forall i | 0 <= i < |run.topics|
      ensures |once.topics[i].regions| == |again.topics[i].regions| == |cfg.regions|
    {
      assert BranchTopic(run.topics[i], cfg, net1) == Done(once.topics[i]);
      assert BranchTopic(run.topics[i], cfg, net2) == Done(again.topics[i]);
      FirstBranchPassOnTopic(run.topics[i], cfg, net1);
      FirstBranchPassOnTopic(run.topics[i], cfg, net2);
    }
    var topics := seq(|once.topics|, i requires 0 <= i < |once.topics| =>
                        once.topics[i].(regions := Revisited(once.topics[i].regions, again.topics[i].regions)));
    forall i | 0 <= i < |run.topics|
      ensures BranchTopic(once.topics[i], cfg, net2) == Done(topics[i])
    {
      assert BranchTopic(run.topics[i], cfg, net1) == Done(once.topics[i]);
      assert BranchTopic(run.topics[i], cfg, net2) == Done(again.topics[i]);
      SecondBranchPassOnTopic(run.topics[i], cfg, net1, net2);
    }
    LoadTopicsBranchesDone(once, cfg, net2, topics);
  }

  /** Corollary for a service that answers the second pass as it answered
      the first: every old region holds its branches twice and the fresh
      copies hold them once. */
  lemma SecondBranchPassSameService(run: Run, cfg: AppConfig, net: Network)
    requires forall i :: 0 <= i < |run.topics| ==> run.topics[i].regions == []
    requires LoadTopicsBranches(run, cfg, net).Done?
    ensures var once := LoadTopicsBranches(run, cfg, net).value;
            var twice := LoadTopicsBranches(once, cfg, net);
            && twice.Done?
            && |twice.value.topics| == |once.topics| == |run.topics|
            && forall i :: 0 <= i < |run.topics| ==>
                 && |once.topics[i].regions| == |cfg.regions|
                 && twice.value.topics[i] == once.topics[i].(regions := Revisited(once.topics[i].regions, once.topics[i].regions))
  {
    SecondBranchPass(run, cfg, net, net);
  }

  // ---------------------------------------------------------------- independence of the passes

  /** The procedures fetch neither reads nor writes a topic's regions,
      whether it completes or raises. */
  lemma GetProceduresIgnoresRegions(t: Topic, regions: seq<Region>, cfg: AppConfig, net: Network)
    ensures var s := GetProcedures(t, cfg, net);
            GetProcedures(t.(regions := regions), cfg, net) == Settle(s.State().(regions := regions), s.Thrown())
  {
  }

  /** The branches step neither reads nor writes a topic's procedures,
      whether it completes or raises. */
  lemma BranchTopicIgnoresProcedures(t: Topic, procedures: seq<Procedure>, cfg: AppConfig, net: Network)
    ensures var s := BranchTopic(t, cfg, net);
            BranchTopic(t.(procedures := procedures), cfg, net) == Settle(s.State().(procedures := procedures), s.Thrown())
  {
    assert GenerateRegions(t.(procedures := procedures), cfg).regions == GenerateRegions(t, cfg).regions;
  }

  /** The two refresh passes are independent: when both complete on a run,
      running them in either order completes and yields the same run. */
  lemma PassesCommute(run: Run, cfg: AppConfig, procNet: Network, branchNet: Network)
    requires LoadTopicsProcedures(run, cfg, procNet).Done?
    requires LoadTopicsBranches(run, cfg, branchNet).Done?
    ensures var p := LoadTopicsProcedures(run, cfg, procNet).value;
            var b := LoadTopicsBranches(run, cfg, branchNet).value;
            && LoadTopicsBranches(p, cfg, branchNet).Done?
            && LoadTopicsProcedures(b, cfg, procNet).Done?
            && LoadTopicsBranches(p, cfg, branchNet).value == LoadTopicsProcedures(b, cfg, procNet).value
  {
    var p := LoadTopicsProcedures(run, cfg, procNet).value;
    var b := LoadTopicsBranches(run, cfg, branchNet).value;
    var n := |run.topics|;
    forall i | 0 <= i < n
      ensures BranchTopic(p.topics[i], cfg, branchNet) == Done(p.topics[i].(regions := b.topics[i].regions))
      ensures GetProcedures(b.topics[i], cfg, procNet) == Done(p.topics[i].(regions := b.topics[i].regions))
    {
      var t := run.topics[i];
      assert GetProcedures(t, cfg, procNet) == Done(p.topics[i]);
      assert BranchTopic(t, cfg, branchNet) == Done(b.topics[i]);
      assert OnlyProcedures(t, p.topics[i]) && OnlyRegions(t, b.topics[i]);
      BranchTopicIgnoresProcedures(t, p.topics[i].procedures, cfg, branchNet);
      GetProceduresIgnoresRegions(t, b.topics[i].regions, cfg, procNet);
    }
    var pb := LoadTopicsBranches(p, cfg, branchNet);
    var bp := LoadTopicsProcedures(b, cfg, procNet);
    assert pb.Done? && bp.Done?;
    forall i | 0 <= i < n
      ensures pb.value.topics[i] == bp.value.topics[i]
    {
      assert BranchTopic(p.topics[i], cfg, branchNet) == Done(pb.value.topics[i]);
      assert GetProcedures(b.topics[i], cfg, procNet) == Done(bp.value.topics[i]);
    }
  }
}
