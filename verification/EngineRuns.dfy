/** The report engine over whole runs: ownership, bytes, and selection as a one-sample memory. */
module EngineRuns {
  import opened Common
  import opened EngineModel
  import opened EngineMemory
  import opened EngineStock

  datatype Op =
    | Offer(sample: Sample, accounted: bool)
    | FreezeNext(category: Class, now: real, wall: int, id: string)
    | CommitBatch(index: nat)
    | OpenGate(watermark: nat)
    | Skip
    | Abandon
    | Configure(conf: Option<Conf>, generation: Option<int>)

  // ---- What every state keeps

  /** A sample number names one sample. */
  ghost predicate OneIdentity(samples: set<Sample>) {
    forall s, t :: s in samples && t in samples && s.seqno == t.seqno ==> s == t
  }

  predicate NewIdentity(samples: set<Sample>, s: Sample) {
    forall t :: t in samples ==> t.seqno != s.seqno
  }

  ghost predicate Matched(m: Memory, owned: map<nat, Sample>) {
    forall id :: id in owned ==> Listed(m, owned[id])
  }

  ghost predicate Named(view: map<Name, Sample>) {
    forall k :: k in view ==> view[k].name == k
  }

  /** The retained samples and the frozen batches fit. */
  ghost predicate Budget(x: Setup, retained: set<Sample>, cost: nat) {
    OneIdentity(retained) && SumCharge(x.charge, retained) + cost <= x.maxBytes
  }

  predicate Untouched(e: Engine) {
    e.latest == map[] && e.memory == Blank && EmptyOf(e.stock) && e.conf.None?
  }

  /** A checkpoint an earlier engine may have left: baselines that fit, and nothing owned. */
  ghost predicate Carried(x: Setup, kept: Memory) {
    && Kept(kept) && kept.shadows == map[] && kept.owners == map[]
    && OneIdentity(kept.baselines.Values) && SumCharge(x.charge, kept.baselines.Values) <= x.maxBytes
  }

  /** A checkpoint waits only for the first configuration. */
  ghost predicate Awaiting(x: Setup, e: Engine) {
    e.carried.Some? ==> Untouched(e) && Carried(x, e.carried.value.memory)
  }

  ghost predicate EngineOk(x: Setup, e: Engine) {
    && Matched(e.memory, e.stock.owned) && StockOk(x, e.stock) && Named(e.latest)
    && Budget(x, Retained(e), SumCost(e.stock.frozen)) && Awaiting(x, e)
  }

  // ---- Steps

  /** Ingress hands over each captured event once. */
  ghost predicate Can(x: Setup, e: Engine, op: Op) {
    match op
    case Offer(s, accounted) => !SeenBefore(e.memory.seen, s) ==> NewIdentity(Retained(e), s)
    case FreezeNext(c, now, wall, id) =>
      && |e.stock.frozen| < 8 && NextClass(e.stock) == Some(c)
      && Used(x, e) + Cost(NewBatch(x, e.stock, c, now, wall, id)) <= x.maxBytes
    case CommitBatch(i) => i < |e.stock.frozen|
    case OpenGate(watermark) => true
    case Skip => true
    case Abandon => true
    case Configure(conf, generation) => conf != e.conf || generation != e.generation
  }

  /** An epoch is not opened again while its events are owned: what the memory of selection relies on. */
  ghost predicate EpochNew(e: Engine, op: Op) {
    op.Offer? && !SeenBefore(e.memory.seen, op.sample) ==> !Reopens(e.memory, op.sample)
  }

  ghost function Step(x: Setup, e: Engine, op: Op): Engine {
    match op
    case Offer(s, accounted) => Accept(x, e, s, accounted).0
    case FreezeNext(c, now, wall, id) =>
      if QueueOf(e.stock, c) == [] then e else e.(stock := Freeze(x, e.stock, c, now, wall, id))
    case CommitBatch(i) => if i < |e.stock.frozen| then Committed(e, i) else e
    case OpenGate(watermark) => e.(stock := Gate(e.stock, watermark))
    case Skip => e.(stock := Skipped(e.stock))
    case Abandon => Abandoned(e)
    case Configure(conf, generation) => Configured(e, conf, generation)
  }

  // ---- Bytes

  lemma BudgetShrinks(x: Setup, a: set<Sample>, b: set<Sample>, costA: nat, costB: nat)
    requires Budget(x, b, costB) && a <= b && costA <= costB
    ensures Budget(x, a, costA)
  {
    SumShrinks(x.charge, a, b);
  }

  lemma BudgetAdds(x: Setup, a: set<Sample>, s: Sample, cost: nat)
    requires Budget(x, a, cost) && SumCharge(x.charge, a) + cost + (if s in a then 0 else x.charge(s)) <= EventBytes(x)
    requires forall t :: t in a && t.seqno == s.seqno ==> t == s
    ensures Budget(x, a + {s}, cost)
  {
    SumAdds(x.charge, a, s);
  }

  lemma ValuesShrink(a: map<Name, Sample>, b: map<Name, Sample>)
    requires forall k :: k in a ==> k in b && a[k] == b[k]
    ensures a.Values <= b.Values
  {
  }

  lemma ValuesPut<K>(view: map<K, Sample>, k: K, s: Sample)
    requires k !in view
    ensures view[k := s].Values == view.Values + {s}
  {
    var after := view[k := s];
    forall t | t in view.Values ensures t in after.Values {
      var j :| j in view && view[j] == t;
      assert after[j] == t;
    }
    assert after[k] == s;
  }

  // ---- Offers: memory and stock

  lemma SameOwners(m: Memory, m': Memory, owned: map<nat, Sample>)
    requires Matched(m, owned) && m'.owners == m.owners
    ensures Matched(m', owned)
  {
  }

  lemma RememberListed(m: Memory, s: Sample, t: Sample)
    ensures Listed(Remember(m, s), s)
    ensures Listed(m, t) && t.seqno != s.seqno ==> Listed(Remember(m, s), t)
  {
  }

  lemma OwnMatched(m: Memory, owned: map<nat, Sample>, s: Sample)
    requires Matched(m, owned) && Labelled(owned) && s.seqno !in owned
    ensures Matched(Remember(m, s), owned[s.seqno := s])
  {
    var owned', m' := owned[s.seqno := s], Remember(m, s);
    forall id | id in owned' ensures Listed(m', owned'[id]) {
      if id != s.seqno { assert Listed(m, owned[id]); }
      RememberListed(m, s, owned'[id]);
    }
  }

  // ---- Offers: bytes

  lemma BeginBudget(x: Setup, e: Engine, s: Sample)
    requires Budget(x, Retained(e), SumCost(e.stock.frozen))
    ensures var e1 := e.(memory := Begin(e.memory, s));
            Budget(x, Retained(e1), SumCost(e.stock.frozen)) && Retained(e1) <= Retained(e)
  {
    var e1 := e.(memory := Begin(e.memory, s));
    ValuesShrink(e1.memory.baselines, e.memory.baselines);
    assert Retained(e1) <= Retained(e);
    BudgetShrinks(x, Retained(e1), Retained(e), SumCost(e.stock.frozen), SumCost(e.stock.frozen));
  }

  lemma ShowFrame(x: Setup, e: Engine, s: Sample)
    requires Named(e.latest)
    ensures var e2 := Show(x, e, s);
            e2.memory == e.memory && e2.stock == e.stock && e2.conf == e.conf && e2.generation == e.generation
            && e2.carried == e.carried && Named(e2.latest)
  {
  }

  lemma ShowRetained(x: Setup, e: Engine, s: Sample)
    ensures var e1, e2 := e.(latest := e.latest - {s.name}), Show(x, e, s);
            && Retained(e1) <= Retained(e)
            && (Used(x, e1) + x.charge(s) <= EventBytes(x) ==> Retained(e2) == Retained(e1) + {s})
            && (Used(x, e1) + x.charge(s) > EventBytes(x) ==> Retained(e2) == Retained(e1))
  {
    var e1 := e.(latest := e.latest - {s.name});
    ValuesShrink(e1.latest, e.latest);
    ValuesPut(e1.latest, s.name, s);
  }

  lemma ShowBudget(x: Setup, e: Engine, s: Sample)
    requires Budget(x, Retained(e), SumCost(e.stock.frozen)) && NewIdentity(Retained(e), s)
    ensures Budget(x, Retained(Show(x, e, s)), SumCost(e.stock.frozen)) && Retained(Show(x, e, s)) <= Retained(e) + {s}
  {
    var e1, cost := e.(latest := e.latest - {s.name}), SumCost(e.stock.frozen);
    ShowRetained(x, e, s);
    BudgetShrinks(x, Retained(e1), Retained(e), cost, cost);
    if Used(x, e1) + x.charge(s) <= EventBytes(x) { BudgetAdds(x, Retained(e1), s, cost); }
  }

  lemma OwnRetained(e: Engine, s: Sample, limit: nat, m: Memory)
    requires s.seqno !in e.stock.owned && m.baselines == e.memory.baselines
    ensures Retained(e.(memory := m, stock := Own(e.stock, s, limit))) == Retained(e) + {s}
    ensures Own(e.stock, s, limit).frozen == e.stock.frozen
            && Own(e.stock, s, limit).owned == e.stock.owned[s.seqno := s]
  {
    ValuesPut(e.stock.owned, s.seqno, s);
  }

  // ---- Offers: all of it

  /** The sample is not owned yet, and nothing else retained has its number. */
  ghost predicate Poised(e: Engine, s: Sample) {
    && s.seqno !in e.stock.owned && e.carried.None?
    && (forall t :: t in Retained(e) && t.seqno == s.seqno ==> t == s)
  }

  lemma AdmitOk(x: Setup, e: Engine, s: Sample, limit: nat)
    requires EngineOk(x, e) && CanAdmit(x, e, s) && Poised(e, s)
    ensures EngineOk(x, e.(memory := Remember(e.memory, s), stock := Own(e.stock, s, limit)))
  {
    OwnOk(x, e.stock, s, limit);
    OwnMatched(e.memory, e.stock.owned, s);
    OwnRetained(e, s, limit, Remember(e.memory, s));
    BudgetAdds(x, Retained(e), s, SumCost(e.stock.frozen));
  }

  lemma DueRetained(e: Engine, due: map<Name, int>)
    ensures Retained(e.(memory := e.memory.(due := due))) == Retained(e)
  {
  }

  lemma DueOk(x: Setup, e: Engine, due: map<Name, int>)
    requires EngineOk(x, e) && e.carried.None?
    ensures EngineOk(x, e.(memory := e.memory.(due := due)))
  {
    SameOwners(e.memory, e.memory.(due := due), e.stock.owned);
    DueRetained(e, due);
  }

  lemma AppliedOk(x: Setup, e: Engine, p: Point, limit: nat, s: Sample, v: Verdict)
    requires EngineOk(x, e) && Poised(e, s) && (v == Admitted ==> CanAdmit(x, e, s))
    ensures EngineOk(x, Applied(e, p, limit, s, v))
  {
    var e' := e.(memory := Advanced(e.memory, p, s));
    DueOk(x, e, Advanced(e.memory, p, s).due);
    DueRetained(e, Advanced(e.memory, p, s).due);
    if v == Admitted { AdmitOk(x, e', s, limit); }
  }

  lemma NotOwned(e: Engine, s: Sample)
    requires Labelled(e.stock.owned) && NewIdentity(Retained(e), s)
    ensures s.seqno !in e.stock.owned
  {
    assert forall id :: id in e.stock.owned ==> e.stock.owned[id] in Retained(e);
  }

  lemma ShownOk(x: Setup, e: Engine, s: Sample)
    requires EngineOk(x, e) && NewIdentity(Retained(e), s) && e.carried.None?
    ensures EngineOk(x, Shown(x, e, s)) && Poised(Shown(x, e, s), s)
  {
    var e1 := e.(memory := Begin(e.memory, s));
    SameOwners(e.memory, Begin(e.memory, s), e.stock.owned);
    BeginBudget(x, e, s);
    ShowFrame(x, e1, s);
    ShowBudget(x, e1, s);
    NotOwned(e, s);
  }

  lemma RulingAdmits(x: Setup, e: Engine, p: Point, s: Sample, accounted: bool)
    ensures Ruling(x, e, p, s, accounted) == Admitted ==> CanAdmit(x, e, s)
  {
  }

  lemma RulingRoom(x: Setup, e: Engine, p: Point, s: Sample, accounted: bool)
    ensures var v := Ruling(x, e, p, s, accounted);
            && v !in {Discarded, Malformed, Stale}
            && (v == Admitted || v == Unaccounted ==> |e.stock.owned| < x.capacity && (accounted <==> v == Admitted))
  {
  }

  lemma ShowStock(x: Setup, e: Engine, s: Sample)
    ensures Shown(x, e, s).stock == e.stock
  {
  }

  lemma AcceptCases(x: Setup, e: Engine, s: Sample, accounted: bool)
    ensures Turned(x, e, s).Some? ==> Accept(x, e, s, accounted) == (e, Turned(x, e, s).value)
    ensures Turned(x, e, s).None? ==>
              var p, shown := e.conf.value.points[s.name], Shown(x, e, s);
              var v := Ruling(x, shown, p, s, accounted);
              Accept(x, e, s, accounted) == (Applied(shown, p, Min(500, e.conf.value.maxPoints), s, v), v)
  {
  }

  /** Only admission changes the stock, and it takes a free place. */
  lemma AcceptStock(x: Setup, e: Engine, s: Sample, accounted: bool)
    requires e.conf.Some?
    ensures var (e', v) := Accept(x, e, s, accounted);
            && e'.stock == (if v == Admitted then Own(e.stock, s, Min(500, e.conf.value.maxPoints)) else e.stock)
            && (v == Admitted || v == Unaccounted ==> |e.stock.owned| < x.capacity && (accounted <==> v == Admitted))
  {
    AcceptCases(x, e, s, accounted);
    if Turned(x, e, s).None? {
      ShowStock(x, e, s);
      RulingRoom(x, Shown(x, e, s), e.conf.value.points[s.name], s, accounted);
    }
  }

  lemma LookedAtOk(x: Setup, e: Engine, s: Sample, p: Point, limit: nat, accounted: bool)
    requires EngineOk(x, e) && NewIdentity(Retained(e), s) && e.carried.None?
    ensures EngineOk(x, Applied(Shown(x, e, s), p, limit, s, Ruling(x, Shown(x, e, s), p, s, accounted)))
  {
    ShownOk(x, e, s);
    RulingAdmits(x, Shown(x, e, s), p, s, accounted);
    AppliedOk(x, Shown(x, e, s), p, limit, s, Ruling(x, Shown(x, e, s), p, s, accounted));
  }

  lemma OfferOk(x: Setup, e: Engine, s: Sample, accounted: bool)
    requires EngineOk(x, e) && Can(x, e, Offer(s, accounted))
    ensures EngineOk(x, Accept(x, e, s, accounted).0)
  {
    AcceptCases(x, e, s, accounted);
    if Turned(x, e, s).None? {
      LookedAtOk(x, e, s, e.conf.value.points[s.name], Min(500, e.conf.value.maxPoints), accounted);
    }
  }

  // ---- The other steps

  lemma {:induction false} CommitValues(m: Memory, samples: seq<Sample>)
    ensures Commit(m, samples).baselines.Values <= m.baselines.Values + (set s | s in samples)
    decreases |samples|
  {
    if samples != [] {
      var m' := CommitOne(m, samples[0]);
      assert m'.baselines == Settle(m, samples[0]).baselines;
      assert m'.baselines.Values <= m.baselines.Values + {samples[0]};
      CommitValues(m', samples[1..]);
      assert forall s :: s in samples[1..] ==> s in samples;
    }
  }

  lemma FlowDistinct(st: Stock, i: nat)
    requires Flow(st) == multiset(st.owned.Values) && Labelled(st.owned) && i < |st.frozen|
    ensures var samples := st.frozen[i].batch.samples;
            Distinct(samples) && forall j :: 0 <= j < |samples| ==>
              samples[j].seqno in st.owned && st.owned[samples[j].seqno] == samples[j]
  {
    FlowHas(st.frozen, i);
    var samples := st.frozen[i].batch.samples;
    assert multiset(samples) <= multiset(st.owned.Values);
    forall j | 0 <= j < |samples| ensures samples[j].seqno in st.owned && st.owned[samples[j].seqno] == samples[j] {
      assert samples[j] in multiset(samples);
      assert samples[j] in st.owned.Values;
    }
    forall a, b | 0 <= a < b < |samples| ensures samples[a].seqno != samples[b].seqno {
      TwicePresent(samples, a, b);
      assert multiset(samples)[samples[a]] <= 1;
    }
  }

  lemma TwicePresent(samples: seq<Sample>, a: nat, b: nat)
    requires a < b < |samples|
    ensures samples[a] == samples[b] ==> multiset(samples)[samples[a]] >= 2
  {
    assert samples == samples[..b] + ([samples[b]] + samples[b + 1..]);
    assert samples[..b][a] == samples[a];
  }

  lemma {:induction false} CommitListed(m: Memory, samples: seq<Sample>, t: Sample)
    requires Listed(m, t) && forall i :: 0 <= i < |samples| ==> samples[i].seqno != t.seqno
    ensures Listed(Commit(m, samples), t)
    decreases |samples|
  {
    if samples != [] {
      CommitOneListed(m, samples[0], t);
      CommitListed(CommitOne(m, samples[0]), samples[1..], t);
    }
  }

  /** Committing a frozen batch changes nothing that selection can see. */
  lemma CommitRecall(m: Memory, st: Stock, i: nat)
    requires Kept(m) && Matched(m, st.owned)
    requires Flow(st) == multiset(st.owned.Values) && Labelled(st.owned) && i < |st.frozen|
    ensures Kept(Commit(m, st.frozen[i].batch.samples))
            && RecallOf(Commit(m, st.frozen[i].batch.samples)) == RecallOf(m)
  {
    FlowDistinct(st, i);
    CommitKept(m, st.frozen[i].batch.samples);
  }

  lemma CommittedRecall(x: Setup, e: Engine, i: nat)
    requires EngineOk(x, e) && Kept(e.memory) && i < |e.stock.frozen|
    ensures Kept(Committed(e, i).memory) && RecallOf(Committed(e, i).memory) == RecallOf(e.memory)
  {
    CommitRecall(e.memory, e.stock, i);
    hide EngineOk, Kept, Commit, RecallOf;
  }

  lemma CommitMatched(m: Memory, st: Stock, i: nat)
    requires Matched(m, st.owned) && Flow(st) == multiset(st.owned.Values) && Labelled(st.owned) && i < |st.frozen|
    ensures Matched(Commit(m, st.frozen[i].batch.samples), Dropped(st, i).owned)
  {
    var samples := st.frozen[i].batch.samples;
    FlowDistinct(st, i);
    var owned' := Dropped(st, i).owned;
    forall id | id in owned' ensures Listed(Commit(m, samples), owned'[id]) {
      assert Listed(m, st.owned[id]);
      CommitListed(m, samples, st.owned[id]);
    }
  }

  lemma CommitRetained(e: Engine, i: nat)
    requires Flow(e.stock) == multiset(e.stock.owned.Values) && Labelled(e.stock.owned) && i < |e.stock.frozen|
    ensures Retained(Committed(e, i)) <= Retained(e)
  {
    FlowDistinct(e.stock, i);
    CommitValues(e.memory, e.stock.frozen[i].batch.samples);
    assert Committed(e, i).stock.owned.Values <= e.stock.owned.Values;
  }

  lemma CommitBudget(x: Setup, e: Engine, i: nat)
    requires Flow(e.stock) == multiset(e.stock.owned.Values) && Labelled(e.stock.owned) && i < |e.stock.frozen|
    requires Budget(x, Retained(e), SumCost(e.stock.frozen))
    ensures Budget(x, Retained(Committed(e, i)), SumCost(Committed(e, i).stock.frozen))
  {
    CommitRetained(e, i);
    CostWithout(e.stock.frozen, i);
    BudgetShrinks(x, Retained(Committed(e, i)), Retained(e), SumCost(Committed(e, i).stock.frozen),
      SumCost(e.stock.frozen));
  }

  lemma CommitOk(x: Setup, e: Engine, i: nat)
    requires EngineOk(x, e) && i < |e.stock.frozen|
    ensures EngineOk(x, Committed(e, i))
  {
    CommitMatched(e.memory, e.stock, i);
    DroppedOk(x, e.stock, i);
    CommitBudget(x, e, i);
    assert Committed(e, i).stock == Dropped(e.stock, i);
  }

  lemma FreezeFrame(x: Setup, st: Stock, c: Class, now: real, wall: int, id: string)
    requires QueueOf(st, c) != []
    ensures Freeze(x, st, c, now, wall, id).owned == st.owned
    ensures Freeze(x, st, c, now, wall, id).frozen == st.frozen + [Held(NewBatch(x, st, c, now, wall, id), c)]
    ensures SumCost(Freeze(x, st, c, now, wall, id).frozen)
            == SumCost(st.frozen) + Cost(NewBatch(x, st, c, now, wall, id))
  {
    CostSplit(st.frozen, [Held(NewBatch(x, st, c, now, wall, id), c)]);
    CostOne(Held(NewBatch(x, st, c, now, wall, id), c));
  }

  lemma FreezeBudget(x: Setup, e: Engine, st: Stock, cost: nat)
    requires Budget(x, Retained(e), SumCost(e.stock.frozen)) && st.owned == e.stock.owned
    requires SumCost(st.frozen) == SumCost(e.stock.frozen) + cost && Used(x, e) + cost <= x.maxBytes
    ensures Budget(x, Retained(e.(stock := st)), SumCost(st.frozen))
  {
    assert Retained(e.(stock := st)) == Retained(e);
  }

  lemma FreezeStepOk(x: Setup, e: Engine, c: Class, now: real, wall: int, id: string)
    requires EngineOk(x, e) && Can(x, e, FreezeNext(c, now, wall, id))
    ensures EngineOk(x, e.(stock := Freeze(x, e.stock, c, now, wall, id)))
  {
    FreezeOk(x, e.stock, c, now, wall, id);
    FreezeFrame(x, e.stock, c, now, wall, id);
    FreezeBudget(x, e, Freeze(x, e.stock, c, now, wall, id), Cost(NewBatch(x, e.stock, c, now, wall, id)));
  }

  lemma CostOne(h: Held)
    ensures SumCost([h]) == Cost(h.batch)
  {
    assert [h][1..] == [];
  }

  lemma GateStepOk(x: Setup, e: Engine, watermark: nat)
    requires EngineOk(x, e)
    ensures EngineOk(x, e.(stock := Gate(e.stock, watermark)))
  {
    GateOk(x, e.stock, watermark);
    GateFrame(e, watermark);
    hide Retained, StockOk, Gate, SumCost, Named, Matched, Carried;
  }

  lemma GateFrame(e: Engine, watermark: nat)
    ensures var st := Gate(e.stock, watermark);
            && Retained(e.(stock := st)) == Retained(e) && SumCost(st.frozen) == SumCost(e.stock.frozen)
            && st.owned == e.stock.owned && (EmptyOf(e.stock) ==> EmptyOf(st))
  {
    RelabelFlow(e.stock.frozen, Gate(e.stock, watermark).frozen);
  }

  lemma SkipOk(x: Setup, e: Engine)
    requires EngineOk(x, e)
    ensures EngineOk(x, e.(stock := Skipped(e.stock)))
  {
    assert Retained(e.(stock := Skipped(e.stock))) == Retained(e);
  }

  lemma AbandonedKept(e: Engine)
    requires Kept(e.memory)
    ensures Kept(Abandoned(e).memory)
  {
    AbandonKept(e.memory);
  }

  lemma AbandonKept(m: Memory)
    requires Kept(m)
    ensures Kept(m.(owners := map[], shadows := map[]))
  {
    var m' := m.(owners := map[], shadows := map[]);
    forall k | k in m'.epochs ensures SpotOk(At(m', k, m.epochs[k]), k, m.epochs[k]) {
      assert SpotOk(At(m, k, m.epochs[k]), k, m.epochs[k]);
    }
  }

  lemma AbandonStock(x: Setup, st: Stock)
    ensures StockOk(x, st.(owned := map[], recent := [], history := [], frozen := []))
  {
    EmptyStock(x, st.(owned := map[], recent := [], history := [], frozen := []));
  }

  lemma AbandonOk(x: Setup, e: Engine)
    requires EngineOk(x, e)
    ensures EngineOk(x, Abandoned(e))
  {
    AbandonStock(x, e.stock);
    assert Retained(Abandoned(e)) <= Retained(e);
    BudgetShrinks(x, Retained(Abandoned(e)), Retained(e), 0, SumCost(e.stock.frozen));
  }

  lemma ConfigureOk(x: Setup, e: Engine, conf: Option<Conf>, generation: Option<int>)
    requires EngineOk(x, e)
    ensures EngineOk(x, Configured(e, conf, generation))
  {
    SameOwners(e.memory, Configured(e, conf, generation).memory, e.stock.owned);
    ConfigureBudget(x, e, conf, generation);
    hide Retained, StockOk, SumCost, Matched, Carried, Budget, KeptMemory;
  }

  lemma ConfigureBudget(x: Setup, e: Engine, conf: Option<Conf>, generation: Option<int>)
    requires Budget(x, Retained(e), SumCost(e.stock.frozen)) && Awaiting(x, e)
    ensures Budget(x, Retained(Configured(e, conf, generation)), SumCost(e.stock.frozen))
  {
    var e', kept := Configured(e, conf, generation), KeptMemory(e.carried, conf, generation);
    if kept == Blank {
      BudgetShrinks(x, Retained(e'), Retained(e), SumCost(e.stock.frozen), SumCost(e.stock.frozen));
    } else {
      assert Retained(e') == kept.baselines.Values;
    }
  }

  /** Every step keeps ownership, bytes and identities in order. */
  lemma StepOk(x: Setup, e: Engine, op: Op)
    requires EngineOk(x, e) && Can(x, e, op)
    ensures EngineOk(x, Step(x, e, op))
  {
    hide EngineOk, Accept, Freeze, Committed, Gate, Abandoned, Configured;
    match op
    case Offer(s, accounted) => OfferOk(x, e, s, accounted);
    case FreezeNext(c, now, wall, id) => FreezeStepOk(x, e, c, now, wall, id);
    case CommitBatch(i) => CommitOk(x, e, i);
    case OpenGate(watermark) => GateStepOk(x, e, watermark);
    case Skip => SkipOk(x, e);
    case Abandon => AbandonOk(x, e);
    case Configure(conf, generation) => ConfigureOk(x, e, conf, generation);
  }

  // ---- The memory of selection

  lemma OfferKept(x: Setup, e: Engine, s: Sample, accounted: bool)
    requires Kept(e.memory) && EpochNew(e, Offer(s, accounted))
    ensures Kept(Accept(x, e, s, accounted).0.memory)
  {
    AcceptCases(x, e, s, accounted);
    if Turned(x, e, s).None? {
      var shown, p := Shown(x, e, s), e.conf.value.points[s.name];
      BeginKept(e.memory, s);
      BeginNewest(e.memory, s);
      ShowMemory(x, e, s);
      AppliedKept(shown, p, Min(500, e.conf.value.maxPoints), s, Ruling(x, shown, p, s, accounted));
    }
  }

  lemma ShowMemory(x: Setup, e: Engine, s: Sample)
    ensures Shown(x, e, s).memory == Begin(e.memory, s)
  {
  }

  lemma AppliedKept(e: Engine, p: Point, limit: nat, s: Sample, v: Verdict)
    requires Kept(e.memory) && Newest(e.memory, s) && Current(e.memory, s.name, s.epoch)
    requires s.name in e.memory.seen && e.memory.seen[s.name] == s.seqno
    ensures Kept(Applied(e, p, limit, s, v).memory)
  {
    var m := Advanced(e.memory, p, s);
    DueKept(e.memory, m.due);
    if v == Admitted { RememberKept(m, s); }
  }

  lemma ConfiguredKept(x: Setup, e: Engine, conf: Option<Conf>, generation: Option<int>)
    requires EngineOk(x, e) && Kept(e.memory)
    ensures Kept(Configured(e, conf, generation).memory)
  {
    var kept := KeptMemory(e.carried, conf, generation);
    if kept != Blank { assert Configured(e, conf, generation).memory == kept; }
  }

  /** As long as no epoch opens again over owned events, every point's memory stays in order. */
  lemma StepKept(x: Setup, e: Engine, op: Op)
    requires EngineOk(x, e) && Kept(e.memory) && EpochNew(e, op)
    ensures Kept(Step(x, e, op).memory)
  {
    hide EngineOk, Kept, Accept, Committed, Configured, Abandoned, Freeze, Gate;
    match op
    case Offer(s, accounted) => OfferKept(x, e, s, accounted);
    case CommitBatch(i) => if i < |e.stock.frozen| { CommittedRecall(x, e, i); }
    case Abandon => AbandonedKept(e);
    case Configure(conf, generation) => ConfiguredKept(x, e, conf, generation);
    case _ =>
  }

  /** What an engine leaves to the next one of its process is a checkpoint that one may start from. */
  lemma CheckpointCarried(x: Setup, e: Engine)
    requires EngineOk(x, e) && Kept(e.memory)
    ensures Carried(x, e.memory.(shadows := map[], owners := map[]))
  {
    AbandonKept(e.memory);
    assert e.memory.baselines.Values <= Retained(e);
    SumShrinks(x.charge, e.memory.baselines.Values, Retained(e));
  }
}
