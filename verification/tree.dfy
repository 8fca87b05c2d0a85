/**
 * The crawl tree (Topic → Procedure, Topic → Region → Branch → Appointment),
 * the static configuration, and the fetch/generate method of each entity.
 * Each method is a function from the receiver to its new state; a method
 * that can raise returns a `Step` carrying the state it reached.
 */
module Tree {
  import opened Wrappers
  import opened Failures
  import opened Json
  import opened Rest
  import opened Harvest

  /** One `[id, name]` entry of the configured REGIONS list. */
  datatype RegionEntry = RegionEntry(id: Json, name: Json)

  /** The values the crawler reads from its configuration file. */
  datatype AppConfig = AppConfig(
    licenseServiceId: int,
    baseUrl: string,
    topicPath: string,
    procedurePath: string,
    branchPath: string,
    regions: seq<RegionEntry>)

  datatype Date = Date(year: int, month: int, day: int)
  datatype Time = Time(hour: int, minute: int, second: int)

  /** A scheduling record; no crawl path creates one. */
  datatype Appointment = Appointment(date: Date, time: Option<Time>)

  datatype Branch = Branch(id: Json, name: Json, address: Json, regionId: Json, topicId: Json,
                           appointments: seq<Appointment>)

  datatype Region = Region(id: Json, name: Json, topicId: Json, branches: seq<Branch>)

  /** A procedure; its `branches` list is created empty and never written. */
  datatype Procedure = Procedure(id: Json, name: Json, branches: seq<Branch>)

  datatype Topic = Topic(id: Json, name: Json, procedures: seq<Procedure>, regions: seq<Region>)

  // ---------------------------------------------------------------- constructors

  /** `Appointment(_date)`: the time stays unset. */
  function NewAppointment(date: Date): (a: Appointment)
    ensures a.date == date && a.time.None?
  {
    Appointment(date, None)
  }

  /** `Branch(...)`: starts with no appointments. */
  function NewBranch(id: Json, name: Json, address: Json, regionId: Json, topicId: Json): (b: Branch)
    ensures b.id == id && b.name == name && b.address == address
    ensures b.regionId == regionId && b.topicId == topicId
    ensures b.appointments == []
  {
    Branch(id, name, address, regionId, topicId, [])
  }

  /** `Region(...)`: starts with no branches. */
  function NewRegion(id: Json, name: Json, topicId: Json): (r: Region)
    ensures r.id == id && r.name == name && r.topicId == topicId && r.branches == []
  {
    Region(id, name, topicId, [])
  }

  /** `Procedure(...)`: starts with an empty branch list. */
  function NewProcedure(id: Json, name: Json): (p: Procedure)
    ensures p.id == id && p.name == name && p.branches == []
  {
    Procedure(id, name, [])
  }

  /** `Topic(...)`: starts with no procedures and no regions. */
  function NewTopic(id: Json, name: Json): (t: Topic)
    ensures t.id == id && t.name == name && t.procedures == [] && t.regions == []
  {
    Topic(id, name, [], [])
  }

  // ---------------------------------------------------------------- Branch

  /** `Branch.add_appointment`: appends at the end, touches nothing else. */
  function AddAppointment(b: Branch, a: Appointment): (r: Branch)
    ensures r.appointments == b.appointments + [a]
    ensures r.(appointments := b.appointments) == b
  {
    b.(appointments := b.appointments + [a])
  }

  // ---------------------------------------------------------------- Region

  const BranchKeys: seq<string> := ["pSucursalID", "pNombre", "pDireccion", "numeroProvincia"]

  /** The constructor call of `Region.get_branches`' loop for one unit. The
      region id is the unit's `numeroProvincia`, not the requesting region's
      id; the topic id is the requesting region's. */
  function BranchOf(topicId: Json, unit: Json): (r: Result<Branch, Fault>)
    ensures r.Success? <==> unit.JObj? && "pSucursalID" in unit.fields && "pNombre" in unit.fields
                            && "pDireccion" in unit.fields && "numeroProvincia" in unit.fields
    ensures r.Success? ==> r.value == NewBranch(unit.fields["pSucursalID"], unit.fields["pNombre"],
                                                unit.fields["pDireccion"], unit.fields["numeroProvincia"], topicId)
    ensures r.Failure? ==> LookupFault(unit, BranchKeys, r.error)
  {
    match Lookup(unit, BranchKeys)
    case Failure(f) => Failure(f)
    case Success(vs) => Success(NewBranch(vs[0], vs[1], vs[2], vs[3], topicId))
  }

  function BranchesUrl(cfg: AppConfig): string {
    cfg.baseUrl + cfg.branchPath
  }

  /** The payload `{topicoId, provinciaId}` of a branch fetch. */
  function BranchesRequest(region: Region): Payload {
    map["topicoId" := region.topicId, "provinciaId" := region.id]
  }

  /** The unit-to-branch conversion a region's fetch uses. */
  function BranchBuilder(topicId: Json): Json -> Result<Branch, Fault> {
    u => BranchOf(topicId, u)
  }

  /** `Region.get_branches`: appends one branch per unit of the reply, in
      order; only `branches` changes. */
  function GetBranches(region: Region, cfg: AppConfig, net: Network): (r: Step<Region>)
    ensures r.State() == region.(branches := r.State().branches)
    ensures Grew(region.branches, r.State().branches,
                 Reply(net, BranchesUrl(cfg), BranchesRequest(region)), BranchBuilder(region.topicId), r.Thrown())
    ensures forall i :: |region.branches| <= i < |r.State().branches| ==>
              r.State().branches[i].topicId == region.topicId && r.State().branches[i].appointments == []
  {
    var c := Gather(net, BranchesUrl(cfg), BranchesRequest(region), BranchBuilder(region.topicId));
    GrewExtend(region.branches, c.items, Reply(net, BranchesUrl(cfg), BranchesRequest(region)), BranchBuilder(region.topicId), c.thrown);
    Settle(region.(branches := region.branches + c.items), c.thrown)
  }

  // ---------------------------------------------------------------- Topic

  const ProcedureKeys: seq<string> := ["TramiteId", "Nombre"]

  /** The constructor call of `Topic.get_procedures`' loop for one unit. */
  function ProcedureOf(unit: Json): (r: Result<Procedure, Fault>)
    ensures r.Success? <==> unit.JObj? && "TramiteId" in unit.fields && "Nombre" in unit.fields
    ensures r.Success? ==> r.value == NewProcedure(unit.fields["TramiteId"], unit.fields["Nombre"])
    ensures r.Failure? ==> LookupFault(unit, ProcedureKeys, r.error)
  {
    match Lookup(unit, ProcedureKeys)
    case Failure(f) => Failure(f)
    case Success(vs) => Success(NewProcedure(vs[0], vs[1]))
  }

  function ProceduresUrl(cfg: AppConfig): string {
    cfg.baseUrl + cfg.procedurePath
  }

  /** The payload `{topicoId}` of a procedure fetch. */
  function ProceduresRequest(t: Topic): Payload {
    map["topicoId" := t.id]
  }

  /** `Topic.get_procedures`: appends one procedure per unit of the reply,
      in order; only `procedures` changes. */
  function GetProcedures(t: Topic, cfg: AppConfig, net: Network): (r: Step<Topic>)
    ensures r.State() == t.(procedures := r.State().procedures)
    ensures Grew(t.procedures, r.State().procedures,
                 Reply(net, ProceduresUrl(cfg), ProceduresRequest(t)), ProcedureOf, r.Thrown())
  {
    var c := Gather(net, ProceduresUrl(cfg), ProceduresRequest(t), ProcedureOf);
    GrewExtend(t.procedures, c.items, Reply(net, ProceduresUrl(cfg), ProceduresRequest(t)), ProcedureOf, c.thrown);
    Settle(t.(procedures := t.procedures + c.items), c.thrown)
  }

  /** One fresh region per configuration entry, in configuration order. */
  function RegionsFor(entries: seq<RegionEntry>, topicId: Json): (rs: seq<Region>)
    ensures |rs| == |entries|
    ensures forall i :: 0 <= i < |entries| ==> rs[i] == NewRegion(entries[i].id, entries[i].name, topicId)
    decreases |entries|
  {
    if entries == [] then []
    else
      var rest := RegionsFor(entries[1..], topicId);
      assert forall i :: 1 <= i < |entries| ==> entries[i] == entries[1..][i - 1];
      [NewRegion(entries[0].id, entries[0].name, topicId)] + rest
  }

  /** `Topic.generate_regions`: appends |REGIONS| fresh regions, in
      configuration order, scoped to this topic; earlier regions are kept,
      so the operation is not idempotent. Only `regions` changes. */
  function GenerateRegions(t: Topic, cfg: AppConfig): (r: Topic)
    ensures r == t.(regions := r.regions)
    ensures |r.regions| == |t.regions| + |cfg.regions|
    ensures forall i :: 0 <= i < |t.regions| ==> r.regions[i] == t.regions[i]
    ensures forall i :: |t.regions| <= i < |r.regions| ==>
              r.regions[i] == NewRegion(cfg.regions[i - |t.regions|].id, cfg.regions[i - |t.regions|].name, t.id)
  {
    t.(regions := t.regions + RegionsFor(cfg.regions, t.id))
  }

  /** Generating twice leaves 2·|REGIONS| new regions, the configured list
      repeated; with a non-empty configuration the second call changes the
      topic. */
  lemma GenerateRegionsTwice(t: Topic, cfg: AppConfig)
    ensures var once := GenerateRegions(t, cfg);
            var twice := GenerateRegions(once, cfg);
            && |twice.regions| == |t.regions| + 2 * |cfg.regions|
            && twice.regions == once.regions + once.regions[|t.regions|..]
            && (|cfg.regions| > 0 ==> twice != once)
  {
  }
}
