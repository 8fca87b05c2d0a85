# bcr-crawler crawl core, modelled in Dafny

This project models the crawl at the heart of `scrapper/main.py`. The crawl builds a tree from a
remote licensing service. A crawl run (`BCRScrapper`) fetches the list of licensing **topics**
when it is constructed. It then offers two refresh passes:

- the procedures pass fetches every topic's **procedures**;
- the branches pass generates every topic's **regions** from the static configuration and
  fetches every region's **branches**.

Every fetch is a form POST through `Rest.post_uri`. Its JSON array reply is turned into child
entities, one per element, in reply order.

The network is an oracle. `Rest.Network` is a total function from (URL, payload) to what
`requests.post` does: it either delivers a `Response` (status code and a body that may or may
not be JSON) or raises an exception. Each fetch, the constructor and each pass take the oracle
as a parameter. Everything the code does around that call is modelled:

- `post_uri` turns every `RequestException` into `None`, and anything else escapes it.
- `.json()` raises on `None` and on a non-JSON body.
- `for unit in body` follows Python's iteration rules for JSON values.
- `unit['key']` raises TypeError on a non-object and KeyError on an absent key, taking the keys
  left to right.
- Appends already done by an interrupted loop stay in place.

A Python method that mutates its receiver and may raise is a function that returns a `Failures.Step`. A step
is either `Done(new state)` or `Aborted(exception, state reached)`, so a failed pass still shows
which topics it had already changed.

Modules: `Wrappers` (Option/Result), `Failures` (exceptions, `Step`), `Json` (JSON values,
iteration, subscripting), `Rest` (`post_uri` and the reply), `Harvest` (the shared
append loop and its reference description `Grew`), `Tree` (configuration, entities and their
methods), `Crawl` (the run, its constructor and passes), `Properties` (lemmas relating several
calls), `Scenarios` (concrete crawls).

Four behaviours of the code are worth stating plainly:

- A branch's `region_id` is the reply's `numeroProvincia`, not the id of the region that
  requested it (`Properties.BranchRegionIdComesFromReply`).
- A transport failure appends nothing. A unit that raises KeyError or TypeError part-way
  through the loop leaves the children appended before it in place (`Harvest.Grew`).
- The refresh operations are not idempotent. Running a fetch again appends whatever the new
  reply holds to the children already there (`Properties.GetProceduresAppends`,
  `Properties.GetBranchesAppends`, `Properties.SecondBranchPass`). Against a service that
  answers the same way twice, every child appears twice.
- An empty topic list does not make construction fail: the run is created with no topics.

## Model

| member | source | states |
|---|---|---|
| Json.Units | scrapper/main.py:163-164 | `for unit in body` iterates a JSON array's elements. An empty object or empty string gives no units. A non-empty object or string gives string units, which raise TypeError at their first subscript. A number, boolean or null raises TypeError as not iterable. |
| Json.Lookup | scrapper/main.py:82 | Evaluating `unit['k0'], unit['k1'], …` succeeds exactly when the unit is an object holding every key, and then yields those fields in order. Otherwise it raises TypeError for a non-object, or KeyError naming the first absent key. |
| Rest.PostUri | scrapper/main.py:193-205 | `post_uri` calls the transport once, with no retry. It returns `None` exactly when a `RequestException` (HTTPError, Timeout or any other) was raised. It passes a delivered response on unchanged, and lets a foreign exception escape. |
| Rest.DecodeBody | scrapper/main.py:162-163 | `.json()` on `None` raises (AttributeError), an undecodable body raises, and otherwise it yields the body. The status code is never consulted. |
| Rest.Reply | scrapper/main.py:160-164 | A caught transport failure ends the fetch with the `None` fault, and an uncaught one ends it with that exception. A delivered body that is not JSON raises at `.json()`. A JSON body gives exactly what iterating it gives: its units, or the TypeError of a non-iterable body. The fetch reaches its loop exactly when a JSON body was delivered that iterates cleanly. |
| Harvest.Collect | scrapper/main.py:164-166 | The append loop meets the reference description `Grew`: one child per unit in reply order, built from that unit, until the first unit that raises. The children appended before it are kept, and that unit's exception is the one reported. |
| Harvest.Gather | scrapper/main.py:160-166 | A whole fetch meets `Grew` from an empty list. If the reply failed before the loop, nothing is appended and the reply's exception is reported. |
| Tree.NewAppointment | scrapper/main.py:31-32 | A new appointment carries the given date, and its time is unset. |
| Tree.NewBranch | scrapper/main.py:43-50 | A new branch carries the given id, name, address, region id and topic id, and has no appointments. |
| Tree.AddAppointment | scrapper/main.py:52-53 | The appointment is appended at the end, and every other field of the branch is unchanged. |
| Tree.NewRegion | scrapper/main.py:68-73 | A new region carries the given id, name and topic id, and has no branches. |
| Tree.BranchOf | scrapper/main.py:81-82 | A unit becomes a branch exactly when it is an object with `pSucursalID`, `pNombre`, `pDireccion` and `numeroProvincia`. The region id comes from `numeroProvincia`, and the topic id from the requesting region. Otherwise the unit raises TypeError or the KeyError of the first absent key. |
| Tree.GetBranches | scrapper/main.py:75-83 | `get_branches` sends `{topicoId: topic_id, provinciaId: id}` to base URL + branch path. It grows `branches` as `Grew` describes. Every new branch has the region's topic id and no appointments. Id, name and topic id are unchanged. |
| Tree.NewProcedure | scrapper/main.py:92-95 | A new procedure carries the given id and name, and its branch list is empty. |
| Tree.ProcedureOf | scrapper/main.py:128-129 | A unit becomes a procedure exactly when it is an object with `TramiteId` and `Nombre`. The procedure's id and name are those fields. Otherwise the unit raises the first TypeError or KeyError. |
| Tree.GetProcedures | scrapper/main.py:122-130 | `get_procedures` sends `{topicoId: id}` to base URL + procedure path. It grows `procedures` as `Grew` describes, keeping the existing ones. Id, name and regions are unchanged. |
| Tree.NewTopic | scrapper/main.py:109-114 | A new topic carries the given id and name, and has no procedures and no regions. |
| Tree.RegionsFor | scrapper/main.py:137-138 | One fresh region per configuration entry, in configuration order. Its id is `entry[0]`, its name `entry[1]`, and its topic id the given one. |
| Tree.GenerateRegions | scrapper/main.py:135-139 | `generate_regions` keeps the existing regions and appends \|REGIONS\| fresh regions in configuration order, scoped to the topic. Nothing else changes. |
| Tree.GenerateRegionsTwice | scrapper/main.py:135-139 | Generating twice appends the configured regions twice (2·\|REGIONS\| new regions). With a non-empty configuration the second call changes the topic, so generation is not idempotent. |
| Crawl.TopicOf | scrapper/main.py:164-165 | A unit becomes a topic exactly when it is an object with `pTopicoID` and `pNombre`. The topic's id and name are those fields, and it has empty children. Otherwise the unit raises the first TypeError or KeyError. |
| Crawl.GetTopics | scrapper/main.py:158-166 | `get_topics` sends `{servicioId: LICENSE_SERVICE_ID}` to base URL + topic path. It grows `topics` as `Grew` describes, and the run id is unchanged. |
| Crawl.Create | scrapper/main.py:149-155 | A run is created exactly when the topic reply arrives and every unit is a valid topic. The run then holds one topic per unit, in reply order. Otherwise the reply's exception is reported, or the exception of the first bad unit. |
| Crawl.Sweep | scrapper/main.py:173-174 | A loop over entities whose method may raise keeps the list's length. It completes exactly when every step completes, giving every step's result. Otherwise it stops at some index `k`: earlier entities are done, entity `k` is partial, and later ones are untouched. |
| Crawl.SweepKeeps | scrapper/main.py:179-182 | Any reflexive relation that each single step keeps between an entity's old and new state, the whole loop keeps, position by position. |
| Crawl.LoadTopicsProcedures | scrapper/main.py:171-175 | The procedures pass keeps the topic list's length and order, and changes only each topic's `procedures`. It completes exactly when every topic's fetch completes, and otherwise stops at the first failing topic. |
| Crawl.BranchTopic | scrapper/main.py:179-182 | One topic's branch step generates \|REGIONS\| regions, then fetches branches for every region the topic now holds, old ones included. It stops at the first failing region and changes only `regions`. |
| Crawl.LoadTopicsBranches | scrapper/main.py:177-183 | The branches pass keeps the topic list's length and order, and changes only each topic's `regions`. It completes exactly when every topic's branch step completes, and otherwise stops at the first failing topic. |
| Properties.TopicsFromResponse | scrapper/main.py:158-166 | A constructed run has as many topics as the reply has units, in the same order. Each topic's id is `pTopicoID` and its name `pNombre`, with no procedures and no regions. |
| Properties.CreateFailsOnTransportFailure | scrapper/main.py:155 | A transport failure of the topic fetch means no run is created. The constructor raises the `None.json()` fault. |
| Properties.BranchesFailOnTransportFailure | scrapper/main.py:79-80 | For any region, configuration and service, a RequestException on the branch request makes the fetch raise the `None.json()` fault, and the region is left exactly as it was, with no branch appended. |
| Properties.ProceduresFailOnTransportFailure | scrapper/main.py:126-127 | For any topic, configuration and service, a RequestException on the procedure request makes the fetch raise the `None.json()` fault, and the topic is left exactly as it was, with no procedure appended. |
| Properties.SweepStopsAtFirstFailure | scrapper/main.py:173-174 | A loop stops exactly at its first failing entity. |
| Properties.ProceduresAbortAtFirstFailure | scrapper/main.py:171-175 | The procedures pass aborts with the first failing topic's exception. Earlier topics keep their new procedures, and later topics are untouched. After a transport failure the failing topic is untouched as well. |
| Properties.BranchesAbortAtFirstFailure | scrapper/main.py:177-183 | The branches pass aborts with the first failing topic's exception, leaving earlier topics updated and later ones untouched. |
| Properties.BranchRegionIdComesFromReply | scrapper/main.py:82 | A region with id 10 whose reply reports province 20 gets a branch with region id 20, which differs from the region's id. Its topic id is the region's topic id. |
| Properties.GetBranchesAppends | scrapper/main.py:75-83 | A branch fetch into a region that already has branches keeps them. It appends exactly what the same fetch appends into the region with no branches, and raises the same exception if that one raises. |
| Properties.GetProceduresAppends | scrapper/main.py:122-130 | A procedure fetch into a topic that already has procedures keeps them. It appends exactly what the same fetch appends into the topic with no procedures, and raises the same exception if that one raises. |
| Properties.RefetchDuplicatesBranches | scrapper/main.py:75-83 | Corollary of `GetBranchesAppends`, for a service that answers the refetch as it answered the first fetch: the region ends with its branches twice. |
| Properties.RefetchDuplicatesProcedures | scrapper/main.py:122-130 | Corollary of `GetProceduresAppends`, for a service that answers the second fetch as it answered the first: the topic ends with its procedures twice. |
| Properties.FreshRegions | scrapper/main.py:135-139 | On a topic without regions, generation yields exactly the configured regions, scoped to the topic. |
| Properties.FirstBranchPassOnTopic | scrapper/main.py:179-182 | After a first branch step on a topic without regions, the topic has \|REGIONS\| regions. Region `j` holds what the `j`-th generated region fetched. |
| Properties.OldRegionRefetch | scrapper/main.py:181-182 | In a second branch step against any service, a region created by the first step keeps its branches. It gains what that service returns for the fresh region, or raises what that fetch raises. |
| Properties.NewRegionTwin | scrapper/main.py:135-139 | In a second branch step, the `j`-th newly generated region equals the `j`-th region the first step generated: same id, name and topic id, and no branches. |
| Properties.SecondPassFetch | scrapper/main.py:180-182 | In a second branch step against a service that would complete a first step, region `j` fetches to its counterpart. An old region gains that service's branches for it; a new region holds them. |
| Properties.BranchTopicDone | scrapper/main.py:179-182 | A topic's branch step completes with the given regions when every generated region fetches to the matching one. |
| Properties.SecondBranchPassOnTopic | scrapper/main.py:179-182 | A second branch step on a topic, against a service that would complete a first step there, completes. Each first-step region gains that service's branches for it, and the fresh regions it generates hold them. |
| Properties.SecondBranchPassOnTopicAborts | scrapper/main.py:179-182 | A second branch step on a topic, against a service that would make a first step there raise, raises the same exception. |
| Properties.LoadTopicsBranchesDone | scrapper/main.py:177-183 | The branches pass completes with the given topics when every topic's step completes with the matching one. |
| Properties.SecondBranchPass | scrapper/main.py:177-183 | A first branches pass against one service and a second against another, over a run without regions, where the second service would complete a first pass. Every topic ends with 2·\|REGIONS\| regions: the first-pass regions with the second service's branches appended, then the regions that service alone would give. |
| Properties.SecondBranchPassSameService | scrapper/main.py:177-183 | Corollary of `SecondBranchPass` for a service that answers both passes alike: each first-pass region holds its branches twice, and a fresh copy of the regions follows. |
| Properties.GetProceduresIgnoresRegions | scrapper/main.py:122-130 | The procedure fetch neither reads nor writes a topic's regions, whether it completes or raises. |
| Properties.BranchTopicIgnoresProcedures | scrapper/main.py:179-182 | A topic's branch step neither reads nor writes its procedures, whether it completes or raises. |
| Properties.PassesCommute | scrapper/main.py:171-183 | When both passes complete on a run, running them in either order completes and gives the same run. |
| Scenarios.CreateOneTopic | scrapper/main.py:149-166 | A reply `[{"pTopicoID":1,"pNombre":"Licenses"}]` gives a run with one topic (1, "Licenses") and no children. |
| Scenarios.ProceduresOfOneTopic | scrapper/main.py:171-175 | A reply `[{"TramiteId":5,"Nombre":"Renew"}]` gives the topic procedure (5, "Renew"), and its regions are untouched. |
| Scenarios.NorthBranches | scrapper/main.py:75-83 | Region 10 of topic 1 gets branch (100, "Main", "1 St", region 10, topic 1). |
| Scenarios.SouthBranches | scrapper/main.py:75-83 | Region 20 of topic 1, with an empty reply, gets no branches. |
| Scenarios.TwoRegionsOfTopic | scrapper/main.py:179-182 | With REGIONS `[[10,"North"],[20,"South"]]` the topic gets region 10 with one branch and region 20 with none. |
| Scenarios.BranchesOfTwoRegions | scrapper/main.py:177-183 | The branches pass on the one-topic run produces that topic. |
| Scenarios.CreateTimesOut | scrapper/main.py:193-202 | A timeout on the topic fetch means no run is created. |
| Scenarios.SecondBranchStepTimesOut | scrapper/main.py:179-182 | After the topic's first branch step completes, a second step whose branch endpoint times out raises the `None.json()` fault. |

## Left out

- Configuration loading (`AppConfig`, configparser, `json.loads` of REGIONS) is replaced by the immutable `Tree.AppConfig` record. REGIONS entries are (id, name) pairs, so a malformed entry (too short, not a list) is not modelled.
- Entities do not store a configuration reference. The shared read-only configuration is passed to each operation instead.
- Real HTTP, the TLS `verify` flag and `warnings.filterwarnings` are foreign I/O, replaced by the `Rest.Network` oracle.
- Each stage gets its own oracle. Within one pass, though, the same request always gets the same answer, which a live service need not give.
- All `logging` calls and the `datetime.now()` timestamps are side effects or clock reads with no effect on the tree. The run's creation date is not a field.
- `__str__`/`__repr__`, the empty `Rest.get_uri` stub and the `main()` entry point are not modelled.
- Appointment date/time are plain records with no calendar validity. The never-assigned `Appointment.id` is not a field.
- JSON numbers are modelled as integers, since the crawler only copies them and floats play no part in any decision.
- Exceptions outside the transport, decoding, iteration and subscripting paths (memory errors, interrupts) are not modelled.
