/** The engine's selections are those of the one-sample memory, along every run between two
    configurations, and the report grid is the one that memory keeps. */
module EngineSelection {
  import opened Common
  import opened EngineModel
  import opened EngineMemory
  import opened EngineStock
  import opened EngineRuns

  // ---- One offer

  /** The reference after a sample was begun, given what was found. */
  function Applies(r: Recall, p: Point, s: Sample, finding: Finding, admitted: bool): Recall {
    if finding == Unslotted then r
    else
      var due := if s.name in r.due then r.due[s.name] else 0;
      var r' := r.(due := r.due[s.name := NextDue(p, due, s)]);
      if finding == Picked && admitted then r'.(last := r'.last[s.name := s]) else r'
  }

  lemma AppliedRecall(e: Engine, p: Point, limit: nat, s: Sample, v: Verdict)
    requires Newest(e.memory, s) && Current(e.memory, s.name, s.epoch) && v !in {Discarded, Malformed, Stale}
    ensures RecallOf(Applied(e, p, limit, s, v).memory)
            == Applies(RecallOf(e.memory), p, s, FindingOf(v), v == Admitted)
  {
    var m := Advanced(e.memory, p, s);
    DueRecall(e.memory, m.due);
    if v == Admitted { RememberRecall(m, s); }
  }

  lemma RulingFinding(x: Setup, e: Engine, p: Point, s: Sample, accounted: bool)
    requires Current(e.memory, s.name, s.epoch)
    ensures var r, v := RecallOf(e.memory), Ruling(x, e, p, s, accounted);
            var due := if s.name in r.due then r.due[s.name] else 0;
            && v !in {Discarded, Malformed, Stale}
            && FindingOf(v) == (if BadSlot(p, s) then Unslotted
                                else if Differs(p, LastOf(r, s.name), s) || Triggers(p, due, s) then Picked
                                else Passed)
  {
    RecalledLast(e.memory, s.name);
  }

  /** One call of `accept` selects as the reference does and leaves what the reference would recall. */
  lemma OfferRecall(x: Setup, e: Engine, s: Sample, accounted: bool)
    requires Kept(e.memory)
    ensures var (e', v) := Accept(x, e, s, accounted);
            && FindingOf(v) == RecallFinding(x, e.conf, e.generation, RecallOf(e.memory), s)
            && RecallOf(e'.memory) == RecallAccept(x, e.conf, e.generation, RecallOf(e.memory), s, v == Admitted)
  {
    AcceptCases(x, e, s, accounted);
    if Turned(x, e, s).None? {
      var p, shown := e.conf.value.points[s.name], Shown(x, e, s);
      ShowMemory(x, e, s);
      BeginNewest(e.memory, s);
      BeginRecall(e.memory, s);
      RulingFinding(x, shown, p, s, accounted);
      AppliedRecall(shown, p, Min(500, e.conf.value.maxPoints), s, Ruling(x, shown, p, s, accounted));
    }
  }

  // ---- Every run

  ghost function Run(x: Setup, e: Engine, ops: seq<Op>): Engine
    decreases |ops|
  {
    if ops == [] then e else Run(x, Step(x, e, ops[0]), ops[1..])
  }

  ghost predicate Permitted(x: Setup, e: Engine, ops: seq<Op>)
    decreases |ops|
  {
    ops != [] ==> Can(x, e, ops[0]) && Permitted(x, Step(x, e, ops[0]), ops[1..])
  }

  /** In every reachable state: owned events are the disjoint union of the queues and the frozen batches,
      at most `capacity` of them; at most eight batches are frozen; the bytes of everything retained fit. */
  lemma {:induction false} RunOk(x: Setup, e: Engine, ops: seq<Op>)
    requires EngineOk(x, e) && Permitted(x, e, ops)
    ensures EngineOk(x, Run(x, e, ops))
    decreases |ops|
  {
    if ops != [] {
      StepOk(x, e, ops[0]);
      RunOk(x, Step(x, e, ops[0]), ops[1..]);
    }
  }

  /** An engine starts with nothing, or with the checkpoint of an earlier one of its process. */
  ghost predicate MayStart(x: Setup, carried: Option<Checkpoint>) {
    carried.Some? ==> Carried(x, carried.value.memory)
  }

  lemma InitialOk(x: Setup, carried: Option<Checkpoint>)
    requires MayStart(x, carried)
    ensures EngineOk(x, Initial(carried)) && Kept(Initial(carried).memory)
  {
    EmptyStock(x, NoStock);
    assert Retained(Initial(carried)) == {};
  }

  // ---- What the steps may rely on

  /** The samples a waiting checkpoint holds. */
  function Brought(e: Engine): set<Sample> {
    if e.carried.Some? then e.carried.value.memory.baselines.Values else {}
  }

  /** Every sample a run has been given. */
  function Given(ops: seq<Op>): set<Sample>
    decreases |ops|
  {
    if ops == [] then {}
    else
      (if ops[0].Offer? then {ops[0].sample} else {}) + Given(ops[1..])
  }

  function Begun(ops: seq<Op>): set<(Epoch, Name)>
    decreases |ops|
  {
    if ops == [] then {}
    else
      var first := if ops[0].Offer? then {(ops[0].sample.epoch, ops[0].sample.name)} else {};
      first + Begun(ops[1..])
  }

  lemma OfferRetained(x: Setup, e: Engine, s: Sample, accounted: bool)
    requires Labelled(e.stock.owned) && (Turned(x, e, s).None? ==> s.seqno !in e.stock.owned)
    ensures Retained(Accept(x, e, s, accounted).0) <= Retained(e) + {s}
  {
    AcceptCases(x, e, s, accounted);
    if Turned(x, e, s).None? {
      var e1, shown := e.(memory := Begin(e.memory, s)), Shown(x, e, s);
      ValuesShrink(e1.memory.baselines, e.memory.baselines);
      ShowRetained(x, e1, s);
      assert Retained(e1) <= Retained(e) && Retained(shown) <= Retained(e) + {s};
      AppliedRetained(shown, e.conf.value.points[s.name], Min(500, e.conf.value.maxPoints), s,
                      Ruling(x, shown, e.conf.value.points[s.name], s, accounted));
    }
  }

  lemma AppliedRetained(e: Engine, p: Point, limit: nat, s: Sample, v: Verdict)
    requires s.seqno !in e.stock.owned
    ensures Retained(Applied(e, p, limit, s, v)) <= Retained(e) + {s}
  {
    if v == Admitted { OwnRetained(e, s, limit, Remember(Advanced(e.memory, p, s), s)); }
  }

  lemma AppliedOwners(e: Engine, p: Point, limit: nat, s: Sample, v: Verdict)
    ensures Applied(e, p, limit, s, v).memory.owners.Keys <= e.memory.owners.Keys + {(s.epoch, s.name)}
  {
    PutKeys(e.memory.owners, (s.epoch, s.name), map[]);
    hide Own, NextDue;
  }

  lemma OfferOwners(x: Setup, e: Engine, s: Sample, accounted: bool)
    ensures Accept(x, e, s, accounted).0.memory.owners.Keys <= e.memory.owners.Keys + {(s.epoch, s.name)}
  {
    AcceptCases(x, e, s, accounted);
    hide Accept, Ruling;
    if Turned(x, e, s).None? {
      var shown, p := Shown(x, e, s), e.conf.value.points[s.name];
      ShowMemory(x, e, s);
      AppliedOwners(shown, p, Min(500, e.conf.value.maxPoints), s, Ruling(x, shown, p, s, accounted));
      hide Shown, Applied;
    }
  }

  lemma {:induction false} CommitOwnersShrink(m: Memory, samples: seq<Sample>)
    ensures Commit(m, samples).owners.Keys <= m.owners.Keys
    decreases |samples|
  {
    if samples != [] {
      CommitOwners(m, samples[0]);
      CommitOwnersShrink(CommitOne(m, samples[0]), samples[1..]);
    }
  }

  lemma OfferCarried(x: Setup, e: Engine, s: Sample, accounted: bool)
    ensures Accept(x, e, s, accounted).0.carried == e.carried
  {
  }

  lemma ConfigureRetained(e: Engine, conf: Option<Conf>, generation: Option<int>)
    ensures Retained(Configured(e, conf, generation)) <= Retained(e) + Brought(e)
  {
  }

  lemma PlainRetained(x: Setup, e: Engine, op: Op)
    requires op.FreezeNext? || op.OpenGate? || op.Skip? || op.Abandon?
    ensures Retained(Step(x, e, op)) <= Retained(e) && Step(x, e, op).carried == e.carried
  {
    if op.FreezeNext? && QueueOf(e.stock, op.category) != [] {
      FreezeFrame(x, e.stock, op.category, op.now, op.wall, op.id);
    }
  }

  lemma OfferGiven(x: Setup, e: Engine, s: Sample, accounted: bool)
    requires EngineOk(x, e) && Can(x, e, Offer(s, accounted))
    ensures var e' := Accept(x, e, s, accounted).0;
            Retained(e') <= Retained(e) + {s} && Brought(e') == Brought(e)
  {
    if Turned(x, e, s).None? { NotOwned(e, s); }
    assert Labelled(e.stock.owned);
    hide Retained, EngineOk, Accept;
    OfferRetained(x, e, s, accounted);
    OfferCarried(x, e, s, accounted);
  }

  lemma StepGiven(x: Setup, e: Engine, op: Op)
    requires EngineOk(x, e) && Can(x, e, op)
    ensures Retained(Step(x, e, op)) <= Retained(e) + Brought(e) + Given([op]) && Brought(Step(x, e, op)) <= Brought(e)
  {
    assert [op][1..] == [];
    if op.Offer? { OfferGiven(x, e, op.sample, op.accounted); }
    hide Retained, EngineOk, Accept, Configured, Committed, Freeze, Gate, Abandoned, Can;
    match op
    case Offer(s, accounted) =>
    case CommitBatch(i) => CommitRetained(e, i);
    case Configure(conf, generation) => ConfigureRetained(e, conf, generation);
    case _ => PlainRetained(x, e, op);
  }

  lemma StepBegun(x: Setup, e: Engine, op: Op)
    ensures Step(x, e, op).memory.owners.Keys <= e.memory.owners.Keys + Begun([op])
  {
    assert [op][1..] == [];
    match op
    case Offer(s, accounted) => OfferOwners(x, e, s, accounted);
    case CommitBatch(i) => if i < |e.stock.frozen| { CommitOwnersShrink(e.memory, e.stock.frozen[i].batch.samples); }
    case _ =>
  }

  lemma GivenFirst(ops: seq<Op>)
    requires ops != []
    ensures Given(ops) == Given([ops[0]]) + Given(ops[1..]) && Begun(ops) == Begun([ops[0]]) + Begun(ops[1..])
  {
    assert [ops[0]][1..] == [];
  }

  /** What is retained was given, and what is owned belongs to an epoch that was begun. */
  lemma {:induction false} RunGiven(x: Setup, e: Engine, ops: seq<Op>)
    requires EngineOk(x, e) && Permitted(x, e, ops)
    ensures Retained(Run(x, e, ops)) <= Retained(e) + Brought(e) + Given(ops)
    ensures Run(x, e, ops).memory.owners.Keys <= e.memory.owners.Keys + Begun(ops)
    decreases |ops|
  {
    if ops != [] {
      GivenFirst(ops);
      StepOk(x, e, ops[0]);
      StepGiven(x, e, ops[0]);
      StepBegun(x, e, ops[0]);
      RunGiven(x, Step(x, e, ops[0]), ops[1..]);
    }
  }

  /** Ingress may offer any sample whose number exceeds all before it; and it opens no epoch again if that
      is the point's current one or has never been begun. Nothing else is asked of it. */
  lemma OffersPermitted(x: Setup, carried: Option<Checkpoint>, ops: seq<Op>, s: Sample, accounted: bool)
    requires MayStart(x, carried) && Permitted(x, Initial(carried), ops)
    requires forall t :: t in Brought(Initial(carried)) + Given(ops) ==> t.seqno < s.seqno
    ensures var e := Run(x, Initial(carried), ops);
            && Can(x, e, Offer(s, accounted))
            && ((s.epoch, s.name) !in Begun(ops) || Current(e.memory, s.name, s.epoch) ==>
              EpochNew(e, Offer(s, accounted)))
  {
    InitialOk(x, carried);
    RunGiven(x, Initial(carried), ops);
    assert Retained(Initial(carried)) == {};
  }

  datatype Offered = Offered(sample: Sample, verdict: Verdict)

  /** The samples offered along a run and what became of each. */
  ghost function Story(x: Setup, e: Engine, ops: seq<Op>): seq<Offered>
    decreases |ops|
  {
    if ops == [] then []
    else
      var rest := Story(x, Step(x, e, ops[0]), ops[1..]);
      if ops[0].Offer? then [Offered(ops[0].sample, Accept(x, e, ops[0].sample, ops[0].accounted).1)] + rest else rest
  }

  /** The story as the reference tells it. */
  ghost predicate Retold(x: Setup, conf: Option<Conf>, generation: Option<int>, r: Recall, story: seq<Offered>)
    decreases |story|
  {
    story != [] ==>
      && FindingOf(story[0].verdict) == RecallFinding(x, conf, generation, r, story[0].sample)
      && Retold(x, conf, generation,
        RecallAccept(x, conf, generation, r, story[0].sample, story[0].verdict == Admitted), story[1..])
  }

  /** What the reference recalls at the end. */
  function Recalled(x: Setup, conf: Option<Conf>, generation: Option<int>, r: Recall, story: seq<Offered>): Recall
    decreases |story|
  {
    if story == [] then r
    else Recalled(x, conf, generation,
      RecallAccept(x, conf, generation, r, story[0].sample, story[0].verdict == Admitted), story[1..])
  }

  /** Along the run no epoch opens again while events of it are owned. */
  ghost predicate EpochsNew(x: Setup, e: Engine, ops: seq<Op>)
    decreases |ops|
  {
    ops != [] ==> EpochNew(e, ops[0]) && EpochsNew(x, Step(x, e, ops[0]), ops[1..])
  }

  /** Then every point's memory is in order in every reachable state. */
  lemma {:induction false} RunKept(x: Setup, e: Engine, ops: seq<Op>)
    requires EngineOk(x, e) && Kept(e.memory) && Permitted(x, e, ops) && EpochsNew(x, e, ops)
    ensures Kept(Run(x, e, ops).memory)
    decreases |ops|
  {
    if ops != [] {
      StepOk(x, e, ops[0]);
      StepKept(x, e, ops[0]);
      RunKept(x, Step(x, e, ops[0]), ops[1..]);
    }
  }

  predicate Plain(op: Op) { !op.Abandon? && !op.Configure? }

  /** Steps that offer nothing change nothing the reference recalls. */
  lemma HousekeepingRecall(x: Setup, e: Engine, op: Op)
    requires EngineOk(x, e) && Kept(e.memory) && Plain(op) && !op.Offer?
    ensures RecallOf(Step(x, e, op).memory) == RecallOf(e.memory)
    ensures Step(x, e, op).conf == e.conf && Step(x, e, op).generation == e.generation
  {
    hide EngineOk, Kept, RecallOf, Accept, Commit, Freeze, Gate;
    if op.CommitBatch? && op.index < |e.stock.frozen| { CommittedRecall(x, e, op.index); }
  }

  lemma OfferConf(x: Setup, e: Engine, s: Sample, accounted: bool)
    ensures Accept(x, e, s, accounted).0.conf == e.conf && Accept(x, e, s, accounted).0.generation == e.generation
  {
  }

  /** Whatever is frozen, committed or relabelled between the offers, and whenever: each is selected
      exactly as by a memory of the last admitted sample of the point's current epoch. */
  lemma {:induction false} SelectionRefines(x: Setup, e: Engine, ops: seq<Op>)
    requires EngineOk(x, e) && Kept(e.memory) && Permitted(x, e, ops) && EpochsNew(x, e, ops)
    requires forall i :: 0 <= i < |ops| ==> Plain(ops[i])
    ensures Retold(x, e.conf, e.generation, RecallOf(e.memory), Story(x, e, ops))
    ensures RecallOf(Run(x, e, ops).memory) == Recalled(x, e.conf, e.generation, RecallOf(e.memory), Story(x, e, ops))
    decreases |ops|
  {
    if ops != [] {
      var op, e' := ops[0], Step(x, e, ops[0]);
      StepOk(x, e, op);
      StepKept(x, e, op);
      SelectionRefines(x, e', ops[1..]);
      hide EngineOk, Kept, RecallOf, Accept;
      if op.Offer? {
        OfferRecall(x, e, op.sample, op.accounted);
        OfferConf(x, e, op.sample, op.accounted);
        TellFirst(x, e, ops);
      } else {
        HousekeepingRecall(x, e, op);
      }
    }
  }

  lemma TellFirst(x: Setup, e: Engine, ops: seq<Op>)
    requires ops != [] && ops[0].Offer?
    ensures var story := Story(x, e, ops);
            && story != [] && story[0] == Offered(ops[0].sample, Accept(x, e, ops[0].sample, ops[0].accounted).1)
            && story[1..] == Story(x, Step(x, e, ops[0]), ops[1..])
  {
  }

  // ---- The report grid

  /** What has happened to a point since its epoch opened: polls processed, those that triggered a
      cyclic report, and grid slots skipped by them. */
  datatype Grid = Grid(origin: int, triggers: nat, missed: nat, slots: set<int>)

  function Counted(g: Grid, p: Point, due: int, s: Sample): Grid {
    if !Reports(p, s) || s.slot.None? then g
    else
      var g' := g.(slots := g.slots + {s.slot.value});
      if !Triggers(p, due, s) then g'
      else if Slots(p, due, s.slot.value) < 1 then g'
      else g'.(triggers := g.triggers + 1, missed := g.missed + (Slots(p, due, s.slot.value) - 1))
  }

  /** The next slot is the origin plus one interval per report and per missed slot, and lies after
      every poll processed. */
  ghost predicate OnGrid(p: Point, due: int, g: Grid) {
    due == g.origin + p.interval * (g.triggers + g.missed) && forall q :: q in g.slots ==> q < due
  }

  lemma SlotsReach(p: Point, due: int, q: int)
    requires q >= due
    ensures Slots(p, due, q) >= 1 && q < due + Slots(p, due, q) * p.interval
    ensures due + (Slots(p, due, q) - 1) * p.interval <= q
  {
    var d, n := q - due, p.interval;
    assert d == n * (d / n) + d % n;
    assert d / n >= 0;
    assert Slots(p, due, q) * n == (d / n) * n + n;
  }

  /** A poll keeps its point on the grid. */
  lemma PollOnGrid(p: Point, due: int, g: Grid, s: Sample)
    requires OnGrid(p, due, g) && !BadSlot(p, s)
    ensures OnGrid(p, NextDue(p, due, s), Counted(g, p, due, s))
  {
    if Triggers(p, due, s) {
      var n := Slots(p, due, s.slot.value);
      SlotsReach(p, due, s.slot.value);
      assert p.interval * (g.triggers + g.missed + n) == p.interval * (g.triggers + g.missed) + n * p.interval;
      assert n >= 1;
    }
  }

  /** The grid along the reference's life between two configurations. */
  function GridAfter(x: Setup, conf: Option<Conf>, generation: Option<int>, r: Recall, grid: map<Name, Grid>,
                     s: Sample): map<Name, Grid> {
    var finding := RecallFinding(x, conf, generation, r, s);
    if finding == Ignored then grid
    else
      var r', p := RecallBegin(r, s), conf.value.points[s.name];
      var opens := !(s.name in r.epochs && r.epochs[s.name] == s.epoch);
      var g := if opens || s.name !in grid then Grid(s.origin, 0, 0, {}) else grid[s.name];
      if finding == Unslotted then grid[s.name := g]
      else grid[s.name := Counted(g, p, if s.name in r'.due then r'.due[s.name] else 0, s)]
  }

  ghost predicate GridOk(conf: Option<Conf>, r: Recall, grid: map<Name, Grid>) {
    forall k :: k in r.epochs ==>
      k in r.due && k in grid && conf.Some? && k in conf.value.points && OnGrid(conf.value.points[k], r.due[k], grid[k])
  }

  lemma NewOnGrid(p: Point, origin: int)
    ensures OnGrid(p, origin, Grid(origin, 0, 0, {}))
  {
  }

  /** A change of one point that leaves it on its grid. */
  lemma OnePointOnGrid(conf: Option<Conf>, r: Recall, grid: map<Name, Grid>, r': Recall, k: Name, g: Grid)
    requires GridOk(conf, r, grid) && conf.Some? && k in conf.value.points && k in r'.due
             && OnGrid(conf.value.points[k], r'.due[k], g)
    requires forall j :: j != k && j in r'.epochs ==>
             j in r.epochs && (j in r.due ==> j in r'.due && r'.due[j] == r.due[j])
    ensures GridOk(conf, r', grid[k := g])
  {
    hide OnGrid;
  }

  /** What the reference knows of the other points an offer leaves alone. */
  lemma OthersKept(x: Setup, conf: Option<Conf>, generation: Option<int>, r: Recall, s: Sample, admitted: bool)
    ensures var r' := RecallAccept(x, conf, generation, r, s, admitted);
            forall j :: j != s.name && j in r'.epochs ==>
              j in r.epochs && (j in r.due ==> j in r'.due && r'.due[j] == r.due[j])
  {
    hide RecallFinding, NextDue;
  }

  /** Every offer keeps every point of the configuration on its grid. */
  lemma OfferOnGrid(x: Setup, conf: Option<Conf>, generation: Option<int>, r: Recall, grid: map<Name, Grid>, s: Sample,
                    admitted: bool)
    requires GridOk(conf, r, grid)
    ensures GridOk(conf, RecallAccept(x, conf, generation, r, s, admitted), GridAfter(x, conf, generation, r, grid, s))
  {
    var finding, after := RecallFinding(x, conf, generation, r, s), RecallAccept(x, conf, generation, r, s, admitted);
    if finding != Ignored {
      var r', p := RecallBegin(r, s), conf.value.points[s.name];
      var opens := !(s.name in r.epochs && r.epochs[s.name] == s.epoch);
      var g := if opens || s.name !in grid then Grid(s.origin, 0, 0, {}) else grid[s.name];
      NewOnGrid(p, s.origin);
      OthersKept(x, conf, generation, r, s, admitted);
      assert OnGrid(p, r'.due[s.name], g) by { hide OnGrid; }
      if finding == Unslotted {
        OnePointOnGrid(conf, r, grid, after, s.name, g);
      } else {
        PollOnGrid(p, r'.due[s.name], g, s);
        OnePointOnGrid(conf, r, grid, after, s.name, Counted(g, p, r'.due[s.name], s));
      }
      hide OnGrid, Counted, NextDue, Differs, Triggers, GridOk;
    }
  }

  function Gridded(x: Setup, conf: Option<Conf>, generation: Option<int>, r: Recall, grid: map<Name, Grid>,
                   story: seq<Offered>): map<Name, Grid>
    decreases |story|
  {
    if story == [] then grid
    else
      var s, admitted := story[0].sample, story[0].verdict == Admitted;
      Gridded(x, conf, generation, RecallAccept(x, conf, generation, r, s, admitted),
        GridAfter(x, conf, generation, r, grid, s), story[1..])
  }

  lemma {:induction false} StoryOnGrid(x: Setup, conf: Option<Conf>, generation: Option<int>, r: Recall,
                                       grid: map<Name, Grid>, story: seq<Offered>)
    requires GridOk(conf, r, grid)
    ensures GridOk(conf, Recalled(x, conf, generation, r, story), Gridded(x, conf, generation, r, grid, story))
    decreases |story|
  {
    if story != [] {
      var s, admitted := story[0].sample, story[0].verdict == Admitted;
      OfferOnGrid(x, conf, generation, r, grid, s, admitted);
      StoryOnGrid(x, conf, generation, RecallAccept(x, conf, generation, r, s, admitted),
        GridAfter(x, conf, generation, r, grid, s), story[1..]);
    }
  }

  /** From a new configuration on, and whatever is frozen and committed meanwhile, each point's next
      report slot is on its grid and after every poll processed. */
  lemma EngineOnGrid(x: Setup, e: Engine, ops: seq<Op>)
    requires EngineOk(x, e) && Kept(e.memory) && e.memory.epochs == map[] && EpochsNew(x, e, ops)
    requires Permitted(x, e, ops) && forall i :: 0 <= i < |ops| ==> Plain(ops[i])
    ensures GridOk(e.conf, RecallOf(Run(x, e, ops).memory),
                   Gridded(x, e.conf, e.generation, RecallOf(e.memory), map[], Story(x, e, ops)))
  {
    SelectionRefines(x, e, ops);
    StoryOnGrid(x, e.conf, e.generation, RecallOf(e.memory), map[], Story(x, e, ops));
  }
}
