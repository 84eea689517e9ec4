/** The report engine as its code runs it: maps, queues, reference counts and a byte total changed in
    place. Each method is a permitted run of the engine's steps, and the counts and the total stay
    exact (src/plcnext_iot/reporting/engine.py). */
module ReportEngines {
  import opened Common
  import opened EngineModel
  import opened EngineMemory
  import opened EngineStock
  import opened EngineRuns
  import opened EngineSelection
  import opened EngineAnswers
  import M = EngineModel
  import L = EngineLedger

  // ---- Runs

  ghost predicate Reached(x: Setup, brought: Option<Checkpoint>, history: seq<Op>, e: Engine) {
    MayStart(x, brought) && Permitted(x, Initial(brought), history) && e == Run(x, Initial(brought), history)
  }

  lemma {:induction false} RunMore(x: Setup, e: Engine, ops: seq<Op>, op: Op)
    requires Permitted(x, e, ops) && Can(x, Run(x, e, ops), op)
    ensures Permitted(x, e, ops + [op]) && Run(x, e, ops + [op]) == Step(x, Run(x, e, ops), op)
    decreases |ops|
  {
    if ops == [] {
      assert ops + [op] == [op] && [op][1..] == [];
      assert Permitted(x, Step(x, e, op), []) && Run(x, Step(x, e, op), []) == Step(x, e, op);
    } else {
      assert (ops + [op])[1..] == ops[1..] + [op];
      RunMore(x, Step(x, e, ops[0]), ops[1..], op);
    }
  }

  lemma Extend(x: Setup, brought: Option<Checkpoint>, history: seq<Op>, e: Engine, op: Op)
    requires Reached(x, brought, history, e) && Can(x, e, op)
    ensures Reached(x, brought, history + [op], Step(x, e, op))
  {
    RunMore(x, Initial(brought), history, op);
  }

  lemma ReachedOk(x: Setup, brought: Option<Checkpoint>, history: seq<Op>, e: Engine)
    requires Reached(x, brought, history, e)
    ensures EngineOk(x, e)
  {
    InitialOk(x, brought);
    RunOk(x, Initial(brought), history);
  }

  // ---- Places that name samples

  lemma RootedLatest(roots: map<L.Root, Sample>, e: Engine, k: Name, s: Sample)
    requires L.Rooted(roots, e)
    ensures L.Rooted(roots - {L.Latest(k)}, e.(latest := e.latest - {k}))
    ensures L.Rooted(roots[L.Latest(k) := s], e.(latest := e.latest[k := s]))
  {
    var fewer, e1, more, e2 := roots - {L.Latest(k)}, e.(latest := e.latest - {k}), roots[L.Latest(k) := s],
      e.(latest := e.latest[k := s]);
    forall r ensures Get(fewer, r) == L.At(e1, r) { assert Get(roots, r) == L.At(e, r); }
    forall r ensures Get(more, r) == L.At(e2, r) { assert Get(roots, r) == L.At(e, r); }
  }

  lemma RootedBase(roots: map<L.Root, Sample>, e: Engine, k: Name, s: Sample)
    requires L.Rooted(roots, e)
    ensures L.Rooted(roots - {L.Base(k)}, e.(memory := e.memory.(baselines := e.memory.baselines - {k})))
    ensures L.Rooted(roots[L.Base(k) := s], e.(memory := e.memory.(baselines := e.memory.baselines[k := s])))
  {
    var fewer, e1, more, e2 := roots - {L.Base(k)}, e.(memory := e.memory.(baselines := e.memory.baselines - {k})),
      roots[L.Base(k) := s], e.(memory := e.memory.(baselines := e.memory.baselines[k := s]));
    forall r ensures Get(fewer, r) == L.At(e1, r) { assert Get(roots, r) == L.At(e, r); }
    forall r ensures Get(more, r) == L.At(e2, r) { assert Get(roots, r) == L.At(e, r); }
  }

  lemma RootedOwned(roots: map<L.Root, Sample>, e: Engine, id: nat, s: Sample)
    requires L.Rooted(roots, e)
    ensures L.Rooted(roots - {L.Owned(id)}, e.(stock := e.stock.(owned := e.stock.owned - {id})))
    ensures L.Rooted(roots[L.Owned(id) := s], e.(stock := e.stock.(owned := e.stock.owned[id := s])))
  {
    var fewer, e1, more, e2 := roots - {L.Owned(id)}, e.(stock := e.stock.(owned := e.stock.owned - {id})),
      roots[L.Owned(id) := s], e.(stock := e.stock.(owned := e.stock.owned[id := s]));
    forall r ensures Get(fewer, r) == L.At(e1, r) { assert Get(roots, r) == L.At(e, r); }
    forall r ensures Get(more, r) == L.At(e2, r) { assert Get(roots, r) == L.At(e, r); }
  }

  lemma RootedSame(roots: map<L.Root, Sample>, e: Engine, e': Engine)
    requires L.Rooted(roots, e)
    requires e'.latest == e.latest && e'.memory.baselines == e.memory.baselines && e'.stock.owned == e.stock.owned
    ensures L.Rooted(roots, e')
  {
    assert forall r :: L.At(e', r) == L.At(e, r);
  }

  // ---- Small loops

  method MaxKey(mine: map<nat, Sample>) returns (q: nat)
    requires mine != map[]
    ensures q == MaxOf(mine)
  {
    q :| q in mine;
    var todo := mine.Keys - {q};
    while todo != {}
      invariant todo <= mine.Keys && q in mine && forall j :: j in mine && j !in todo ==> j <= q
      decreases |todo|
    {
      var j :| j in todo;
      if j > q { q := j; }
      todo := todo - {j};
    }
  }

  /** Walks the queue while the next event may join the batch. */
  method LongestPrefix(x: Setup, q: seq<Queued>) returns (n: nat)
    requires q != []
    ensures n == Cut(x, q)
  {
    n := 1;
    var seen, size, limit := {q[0].sample.name}, 512 + x.width(q[0].sample) + 1, Min(500, q[0].limit);
    assert q[..1][..0] == [];
    while n < |q| && n < 500
      invariant 0 < n <= |q| && n <= 500 && Cut(x, q) == CutFrom(x, q, n)
      invariant seen == set i | 0 <= i < n :: q[i].sample.name
      invariant size == 512 + SumWidth(x, q[..n])
      invariant limit == Cap(q, n)
      decreases |q| - n
    {
      var next, length := q[n], x.width(q[n].sample) + 1;
      if next.sample.name in seen || next.sample.epoch.version != q[0].sample.epoch.version
         || n >= Min(limit, next.limit) || size + length > 131072 {
        assert !Joins(x, q, n);
        return;
      }
      assert Joins(x, q, n);
      assert q[..n + 1][..n] == q[..n];
      seen, size, limit := seen + {next.sample.name}, size + length, Min(limit, next.limit);
      n := n + 1;
    }
  }

  /** Whether a sample differs from the one it is compared with enough to be reported. */
  method Remarkable(p: Point, base: Option<Sample>, s: Sample) returns (differs: bool)
    ensures differs == Differs(p, base, s) && differs == !Unremarkable(p, base, s)
  {
    if base.None? || base.value.quality != s.quality { return true; }
    if s.quality != "GOOD" || p.mode == Cyclic { return false; }
    if base.value.value.Number? && s.value.Number? {
      var change := s.value.x - base.value.value.x;
      differs := (if change < 0.0 then -change else change) > p.deadband;
    } else {
      differs := s.value != base.value.value;
    }
  }

  method CountClass(frozen: seq<Held>, c: Class) returns (count: nat)
    ensures count == InClass(frozen, c)
  {
    count := 0;
    var i := 0;
    while i < |frozen|
      invariant 0 <= i <= |frozen| && count + InClass(frozen[i..], c) == InClass(frozen, c)
    {
      if frozen[i].category == c { count := count + 1; }
      i := i + 1;
    }
  }

  // ---- The engine

  class ReportEngine {
    const x: Setup
    var conf: Option<Conf>
    var generation: Option<int>
    var latest: map<Name, Sample>
    var memory: Memory
    var stock: Stock
    var carried: Option<Checkpoint>
    var ledger: L.Ledger
    var nextBatch: real
    /** The checkpoint this engine started with, every place that names a sample, and the run that led here. */
    ghost const brought: Option<Checkpoint>
    ghost var roots: map<L.Root, Sample>
    ghost var history: seq<Op>

    ghost function View(): Engine reads this { Engine(conf, generation, latest, memory, stock, carried) }

    /** Reference counts and byte total are exact. */
    ghost predicate Books() reads this {
      L.Rooted(roots, View()) && L.Exact(x, ledger, roots, SumCost(stock.frozen))
    }

    ghost predicate Valid() reads this { Books() && Reached(x, brought, history, View()) }

    /** The checkpoint, if any, is one that an earlier engine of the process left (`EngineRuns.CheckpointCarried`). */
    constructor (x: Setup, checkpoint: Option<Checkpoint>)
      requires MayStart(x, checkpoint)
      ensures Valid() && this.x == x && brought == checkpoint && history == [] && View() == Initial(checkpoint)
    {
      this.x, brought, conf, generation, latest := x, checkpoint, None, None, map[];
      memory, stock, carried := Blank, NoStock, checkpoint;
      ledger, nextBatch := L.Ledger(map[], 0), 0.0;
      roots, history := map[], [];
    }

    // ---- Retaining and forgetting

    method DropLatest(k: Name)
      requires Books() && k in latest
      modifies this`latest, this`ledger, this`roots
      ensures Books() && latest == old(latest) - {k}
    {
      RootedLatest(roots, View(), k, latest[k]);
      assert Get(roots, L.Latest(k)) == L.At(View(), L.Latest(k));
      L.ForgetExact(x, ledger, roots, SumCost(stock.frozen), L.Latest(k));
      ledger := L.Forget(x, ledger, latest[k]);
      latest, roots := latest - {k}, roots - {L.Latest(k)};
    }

    method PutLatest(k: Name, s: Sample)
      requires Books() && k !in latest && (s.seqno in ledger.refs ==> ledger.refs[s.seqno].sample == s)
      modifies this`latest, this`ledger, this`roots
      ensures Books() && latest == old(latest)[k := s]
    {
      RootedLatest(roots, View(), k, s);
      assert Get(roots, L.Latest(k)) == L.At(View(), L.Latest(k));
      L.RetainExact(x, ledger, roots, SumCost(stock.frozen), L.Latest(k), s);
      ledger := L.Retain(x, ledger, s);
      latest, roots := latest[k := s], roots[L.Latest(k) := s];
    }

    method DropBaseline(k: Name)
      requires Books() && k in memory.baselines
      modifies this`memory, this`ledger, this`roots
      ensures Books() && memory == old(memory).(baselines := old(memory).baselines - {k})
      ensures forall r :: r in roots ==> r in old(roots) && roots[r] == old(roots)[r]
    {
      RootedBase(roots, View(), k, memory.baselines[k]);
      assert Get(roots, L.Base(k)) == L.At(View(), L.Base(k));
      L.ForgetExact(x, ledger, roots, SumCost(stock.frozen), L.Base(k));
      ledger := L.Forget(x, ledger, memory.baselines[k]);
      memory, roots := memory.(baselines := memory.baselines - {k}), roots - {L.Base(k)};
    }

    method PutBaseline(k: Name, s: Sample)
      requires Books() && k !in memory.baselines && (s.seqno in ledger.refs ==> ledger.refs[s.seqno].sample == s)
      modifies this`memory, this`ledger, this`roots
      ensures Books() && memory == old(memory).(baselines := old(memory).baselines[k := s])
    {
      RootedBase(roots, View(), k, s);
      assert Get(roots, L.Base(k)) == L.At(View(), L.Base(k));
      L.RetainExact(x, ledger, roots, SumCost(stock.frozen), L.Base(k), s);
      ledger := L.Retain(x, ledger, s);
      memory, roots := memory.(baselines := memory.baselines[k := s]), roots[L.Base(k) := s];
    }

    method Disown(id: nat)
      requires Books() && id in stock.owned
      modifies this`stock, this`ledger, this`roots
      ensures Books() && stock == old(stock).(owned := old(stock).owned - {id})
    {
      RootedOwned(roots, View(), id, stock.owned[id]);
      assert Get(roots, L.Owned(id)) == L.At(View(), L.Owned(id));
      L.ForgetExact(x, ledger, roots, SumCost(stock.frozen), L.Owned(id));
      ledger := L.Forget(x, ledger, stock.owned[id]);
      stock, roots := stock.(owned := stock.owned - {id}), roots - {L.Owned(id)};
    }

    method TakeOwnership(s: Sample)
      requires Books() && s.seqno !in stock.owned && (s.seqno in ledger.refs ==> ledger.refs[s.seqno].sample == s)
      modifies this`stock, this`ledger, this`roots
      ensures Books() && stock == old(stock).(owned := old(stock).owned[s.seqno := s])
    {
      RootedOwned(roots, View(), s.seqno, s);
      assert Get(roots, L.Owned(s.seqno)) == L.At(View(), L.Owned(s.seqno));
      L.RetainExact(x, ledger, roots, SumCost(stock.frozen), L.Owned(s.seqno), s);
      ledger := L.Retain(x, ledger, s);
      stock, roots := stock.(owned := stock.owned[s.seqno := s]), roots[L.Owned(s.seqno) := s];
    }

    // ---- Accepting

    /** The sample is seen; one that opens an epoch makes its point start afresh. */
    method BeginSample(s: Sample)
      requires Books()
      modifies this`memory, this`ledger, this`roots
      ensures Books() && memory == Begin(old(memory), s)
    {
      var k := s.name;
      if !(k in memory.epochs && memory.epochs[k] == s.epoch) {
        if k in memory.baselines { DropBaseline(k); }
        ghost var e := View();
        memory := memory.(epochs := memory.epochs[k := s.epoch], shadows := memory.shadows - {k},
          due := memory.due[k := s.origin]);
        RootedSame(roots, e, View());
      }
      ghost var e := View();
      memory := memory.(seen := memory.seen[k := s.seqno]);
      RootedSame(roots, e, View());
      assert memory.baselines == Begin(old(memory), s).baselines;
    }

    /** The optional latest view never uses the bytes set aside for batches. */
    method ShowSample(s: Sample)
      requires Books() && NewIdentity(Retained(View()), s)
      modifies this`latest, this`ledger, this`roots
      ensures Books() && View() == Show(x, old(View()), s)
    {
      ghost var e := View();
      if s.name in latest { DropLatest(s.name); }
      assert View() == e.(latest := e.latest - {s.name});
      L.ExactUsed(x, ledger, roots, View());
      if ledger.used + x.charge(s) <= EventBytes(x) {
        NotCounted(x, ledger, roots, View(), s);
        PutLatest(s.name, s);
      }
    }

    method HasRoom(s: Sample) returns (room: bool)
      requires Books() && forall t :: t in Retained(View()) && t.seqno == s.seqno ==> t == s
      ensures room == CanAdmit(x, View(), s)
    {
      L.ExactUsed(x, ledger, roots, View());
      NotCounted(x, ledger, roots, View(), s);
      room := |stock.owned| < x.capacity
        && ledger.used + (if s.seqno in ledger.refs then 0 else x.charge(s)) <= EventBytes(x);
    }

    /** Compares with the baseline, moves the report grid on and admits what fits. */
    method RuleSample(p: Point, limit: nat, s: Sample, accounted: bool) returns (v: Verdict)
      requires Books() && s.seqno !in stock.owned && forall t :: t in Retained(View()) && t.seqno == s.seqno ==> t == s
      modifies this`memory, this`stock, this`ledger, this`roots
      ensures Books() && v == Ruling(x, old(View()), p, s, accounted)
      ensures View() == Applied(old(View()), p, limit, s, v)
    {
      hide L.Rooted, L.CountsOk, SumCost, SumCharge, Chosen, CanAdmit, Own, Remember;
      if BadSlot(p, s) { return SlotError; }
      var room := HasRoom(s);
      NotCounted(x, ledger, roots, View(), s);
      var chosen := Compare(p, s);
      if !chosen { return Filtered; }
      if !s.timed { return TimeInvalid; }
      if !room { return NoRoom; }
      if !accounted { return Unaccounted; }
      Admit(s, limit);
      v := Admitted;
    }

    /** Whether the sample is selected; a cyclic report moves the point's grid on. */
    method Compare(p: Point, s: Sample) returns (chosen: bool)
      requires Books() && !BadSlot(p, s)
      modifies this`memory
      ensures Books() && chosen == Chosen(p, old(memory), s) && memory == Advanced(old(memory), p, s)
      ensures var m := old(memory);
              chosen <==> !Unremarkable(p, NewerOf(Get(m.shadows, s.name), Get(m.baselines, s.name)), s)
                          || (Polled(p, s) && s.slot.value >= if s.name in m.due then m.due[s.name] else 0)
    {
      ghost var e := View();
      ChosenExactly(p, memory, s);
      chosen := Remarkable(p, Baseline(memory, s.name), s);
      hide Unremarkable, Differs;
      var due := DueOf(memory, s.name);
      if Reports(p, s) && s.slot.value >= due {
        var count := (s.slot.value - due) / p.interval + 1;
        due, chosen := due + count * p.interval, true;
      }
      memory := memory.(due := memory.due[s.name := due]);
      RootedSame(roots, e, View());
    }

    /** The event is owned, queued by its class, and the point's shadow. */
    method Admit(s: Sample, limit: nat)
      requires Books() && s.seqno !in stock.owned && (s.seqno in ledger.refs ==> ledger.refs[s.seqno].sample == s)
      modifies this`memory, this`stock, this`ledger, this`roots
      ensures Books() && View() == old(View()).(memory := Remember(old(memory), s), stock := Own(old(stock), s, limit))
    {
      TakeOwnership(s);
      ghost var e := View();
      var group := (s.epoch, s.name);
      var mine := if group in memory.owners then memory.owners[group] else map[];
      memory := memory.(owners := memory.owners[group := mine[s.seqno := s]], shadows := memory.shadows[s.name := s]);
      if s.seqno <= stock.watermark {
        stock := stock.(history := stock.history + [Queued(s, limit)]);
      } else {
        stock := stock.(recent := stock.recent + [Queued(s, limit)]);
      }
      RootedSame(roots, e, View());
    }

    method Accept(s: Sample, accounted: bool) returns (v: Verdict)
      requires Valid() && Can(x, View(), Offer(s, accounted))
      modifies this`latest, this`memory, this`stock, this`ledger, this`roots, this`history
      ensures Valid() && history == old(history) + [Offer(s, accounted)]
      ensures (View(), v) == M.Accept(x, old(View()), s, accounted) && AnsweredNow(x, old(View()), s, v)
    {
      hide L.Rooted, L.Exact, SumCost, Reached, Can, M.Accept, AnsweredNow;
      AcceptAnswersNow(x, View(), s, accounted);
      Extend(x, brought, history, View(), Offer(s, accounted));
      OfferFacts(x, brought, history, View(), s, accounted);
      history := history + [Offer(s, accounted)];
      v := Consider(s, accounted);
    }

    /** The tests a sample passes through, and what each leaves behind. */
    method Consider(s: Sample, accounted: bool) returns (v: Verdict)
      requires Books() && (Turned(x, View(), s).None? ==> FreshToAll(x, View(), s))
      modifies this`latest, this`memory, this`stock, this`ledger, this`roots
      ensures Books() && (View(), v) == M.Accept(x, old(View()), s, accounted)
    {
      hide L.Rooted, L.Exact, SumCost;
      ghost var e := View();
      AcceptCases(x, e, s, accounted);
      hide M.Accept;
      if Foreign(x, conf, generation, s) { return Discarded; }
      if !s.captured || s.boot != x.boot { return Malformed; }
      if SeenBefore(memory.seen, s) { return Stale; }
      BeginSample(s);
      assert View() == e.(memory := Begin(e.memory, s));
      ShowSample(s);
      assert View() == Shown(x, e, s);
      v := RuleSample(conf.value.points[s.name], Min(500, conf.value.maxPoints), s, accounted);
    }

    // ---- Freezing

    /** Freezes the next batch of a class, unless its text is too long or its bytes do not fit; the
        sequence number it drew is used up either way. */
    method FreezeOne(c: Class, now: real, wall: int, ids: nat -> string) returns (r: Frozen, ghost op: Op)
      requires Valid() && |stock.frozen| < 8 && NextClass(stock) == Some(c)
      modifies this`stock, this`ledger, this`history
      ensures Valid()
      ensures var id := ids(old(stock).sequence + 1);
              var batch := NewBatch(x, old(stock), c, now, wall, id);
              && r == (if |batch.payload| > 131072 then TooLong
                else if Used(x, old(View())) + Cost(batch) > x.maxBytes then NoBytes else Done)
              && op == (if r == Done then FreezeNext(c, now, wall, id) else Skip) && history == old(history) + [op]
              && View() == old(View()).(stock := if r == Done then Freeze(x, old(stock), c, now, wall, id)
                else Skipped(old(stock)))
      ensures old(stock).frozen <= stock.frozen && stock.owned == old(stock).owned
      ensures |stock.frozen| == |old(stock).frozen| + if r == Done then 1 else 0
    {
      hide Reached, L.Rooted, L.Exact, Cut;
      var queue := QueueOf(stock, c);
      var n := LongestPrefix(x, queue);
      var pending := SamplesOf(queue[..n]);
      var sequence := stock.sequence + 1;
      var payload := x.text(pending, wall, sequence, ids(sequence));
      var batch := Batch(payload, pending[0].epoch.version, pending, now, sequence);
      L.ExactUsed(x, ledger, roots, View());
      if |payload| > 131072 || ledger.used + Cost(batch) > x.maxBytes {
        SkipNumber();
        return if |payload| > 131072 then TooLong else NoBytes, Skip;
      }
      op := FreezeNext(c, now, wall, ids(sequence));
      Keep(c, batch, n, now, wall, ids(sequence));
      r := Done;
    }

    method SkipNumber()
      requires Valid()
      modifies this`stock, this`history
      ensures Valid() && history == old(history) + [Skip] && stock == Skipped(old(stock))
    {
      ghost var e := View();
      Extend(x, brought, history, e, Skip);
      stock := stock.(sequence := stock.sequence + 1);
      history := history + [Skip];
      RootedSame(roots, e, View());
    }

    /** Holds the batch and takes its events out of the queue. */
    method Keep(c: Class, batch: Batch, n: nat, ghost now: real, ghost wall: int, ghost id: string)
      requires Valid() && QueueOf(stock, c) != [] && n == Cut(x, QueueOf(stock, c))
               && batch == NewBatch(x, stock, c, now, wall, id)
      requires Can(x, View(), FreezeNext(c, now, wall, id))
      modifies this`stock, this`ledger, this`history
      ensures Valid() && history == old(history) + [FreezeNext(c, now, wall, id)]
              && stock == Freeze(x, old(stock), c, now, wall, id)
      ensures stock.frozen == old(stock).frozen + [Held(batch, c)] && stock.owned == old(stock).owned
    {
      ghost var e := View();
      var queue := QueueOf(stock, c);
      Extend(x, brought, history, e, FreezeNext(c, now, wall, id));
      FreezeFrame(x, stock, c, now, wall, id);
      ledger := ledger.(used := ledger.used + Cost(batch));
      stock := stock.(frozen := stock.frozen + [Held(batch, c)], sequence := stock.sequence + 1, preferNew := c != New);
      if c == New { stock := stock.(recent := queue[n..]); } else { stock := stock.(history := queue[n..]); }
      history := history + [FreezeNext(c, now, wall, id)];
      RootedSame(roots, e, View());
    }

    /** Which class may freeze a batch now. */
    method PickClass() returns (c: Option<Class>)
      ensures c == NextClass(stock)
    {
      var news := CountClass(stock.frozen, New);
      var histories := CountClass(stock.frozen, History);
      var newOpen, historyOpen := stock.recent != [] && news < 7, stock.history != [] && histories < 7;
      if !newOpen && !historyOpen { return None; }
      var category := if stock.preferNew then New else History;
      if !(if category == New then newOpen else historyOpen) { category := if newOpen then New else History; }
      c := Some(category);
    }

    /** Every frozen batch, the earlier ones first and unchanged, and as many new ones as may be frozen. */
    method Prepare(now: real, wall: int, force: bool, ids: nat -> string)
      returns (ok: bool, batches: seq<Batch>, ghost ops: seq<Op>)
      requires Valid()
      modifies this`stock, this`ledger, this`history, this`nextBatch
      ensures Valid() && history == old(history) + ops && Freezing(ops)
      ensures old(stock).frozen <= stock.frozen && stock.owned == old(stock).owned
      ensures !force && now < old(nextBatch) ==> ok && batches == [] && ops == []
      ensures ok && (force || now >= old(nextBatch)) ==>
                && batches == BatchesOf(stock.frozen) && |stock.frozen| <= 8
                && (|stock.frozen| == 8 || NextClass(stock).None? || (ops != [] && ops[|ops| - 1] == Skip))
    {
      if !force && now < nextBatch { return true, [], []; }
      nextBatch := now + (if conf.Some? then conf.value.batchInterval / 1000.0 else 1.0);
      ok, ops := Fill(now, wall, ids);
      batches := if ok then BatchesOf(stock.frozen) else [];
    }

    /** Freezes until eight batches wait, nothing more may be frozen, or a batch does not fit. */
    method Fill(now: real, wall: int, ids: nat -> string) returns (ok: bool, ghost ops: seq<Op>)
      requires Valid()
      modifies this`stock, this`ledger, this`history
      ensures Valid() && history == old(history) + ops && Freezing(ops)
      ensures old(stock).frozen <= stock.frozen && stock.owned == old(stock).owned && |stock.frozen| <= 8
      ensures ok ==> |stock.frozen| == 8 || NextClass(stock).None? || (ops != [] && ops[|ops| - 1] == Skip)
    {
      ops, ok := [], true;
      assert Freezing(ops);
      FrozenBound(x, brought, history, View());
      hide Reached, Freezing, L.Rooted, L.Exact, NextClass, NewBatch, Freeze, Cost;
      while |stock.frozen| < 8
        invariant Valid() && history == old(history) + ops && Freezing(ops)
        invariant old(stock).frozen <= stock.frozen && stock.owned == old(stock).owned && |stock.frozen| <= 8 && ok
        decreases 8 - |stock.frozen|
      {
        var c := PickClass();
        if c.None? { break; }
        var r;
        ghost var op;
        r, op := FreezeOne(c.value, now, wall, ids);
        Longer(old(history), ops, op);
        ops := ops + [op];
        if r == TooLong { return false, ops; }
        if r == NoBytes { break; }
      }
    }

    // ---- Letting go

    /** One sample of a committed batch: it may become the baseline, and is no longer owned. */
    method CommitSample(s: Sample)
      requires Books() && s.seqno in stock.owned && stock.owned[s.seqno] == s && Listed(memory, s)
      modifies this`memory, this`stock, this`ledger, this`roots
      ensures Books() && memory == CommitOne(old(memory), s)
              && stock == old(stock).(owned := old(stock).owned - {s.seqno})
    {
      hide L.Rooted, L.CountsOk, SumCost, SumCharge;
      var k, group := s.name, (s.epoch, s.name);
      OwnedCounted(x, ledger, roots, View(), s);
      if k in memory.epochs && memory.epochs[k] == s.epoch
        && (k in memory.baselines ==> s.seqno > memory.baselines[k].seqno) {
        if k in memory.baselines { DropBaseline(k); OwnedCounted(x, ledger, roots, View(), s); }
        PutBaseline(k, s);
      }
      assert memory == Settle(old(memory), s);
      Disown(s.seqno);
      ghost var e := View();
      var rest := memory.owners[group] - {s.seqno};
      memory := memory.(owners := if rest == map[] then memory.owners - {group} else memory.owners[group := rest]);
      if k in memory.epochs && memory.epochs[k] == s.epoch {
        if rest != map[] {
          var q := MaxKey(rest);
          memory := memory.(shadows := memory.shadows[k := rest[q]]);
        } else {
          memory := memory.(shadows := memory.shadows - {k});
        }
      }
      RootedSame(roots, e, View());
    }

    method CommitSamples(samples: seq<Sample>)
      requires Books() && Distinct(samples) && (forall t :: 0 <= t < |samples| ==> Listed(memory, samples[t]))
      requires forall t :: 0 <= t < |samples| ==>
               samples[t].seqno in stock.owned && stock.owned[samples[t].seqno] == samples[t]
      modifies this`memory, this`stock, this`ledger, this`roots
      ensures Books() && memory == Commit(old(memory), samples)
              && stock == old(stock).(owned := old(stock).owned - Ids(samples))
    {
      ghost var m0, st0 := memory, stock;
      UnderwayFirst(m0, st0, samples);
      hide L.Rooted, L.Exact, CommitOne, Commit, Ids, Listed, Underway;
      var j := 0;
      while j < |samples|
        invariant 0 <= j <= |samples| && Books() && Underway(m0, st0, memory, stock, samples, j)
      {
        UnderwayNext(m0, st0, memory, stock, samples, j);
        CommitSample(samples[j]);
        j := j + 1;
      }
      UnderwayDone(m0, st0, memory, stock, samples);
    }

    method FindBatch(batch: Batch) returns (i: nat)
      ensures i <= |stock.frozen| && (i < |stock.frozen| ==> stock.frozen[i].batch == batch)
      ensures i == |stock.frozen| ==> forall j :: 0 <= j < |stock.frozen| ==> stock.frozen[j].batch != batch
    {
      i := 0;
      while i < |stock.frozen| && stock.frozen[i].batch != batch
        invariant 0 <= i <= |stock.frozen| && forall j :: 0 <= j < i ==> stock.frozen[j].batch != batch
      {
        i := i + 1;
      }
    }

    /** A batch has become durable: its events change owner. A batch that is not held is ignored. */
    method Committed(batch: Batch) returns (ghost i: nat)
      requires Valid()
      modifies this`memory, this`stock, this`ledger, this`roots, this`history
      ensures Valid() && i <= |old(stock).frozen|
      ensures i < |old(stock).frozen| ==>
                old(stock).frozen[i].batch == batch && history == old(history) + [CommitBatch(i)]
                  && View() == M.Committed(old(View()), i)
      ensures i == |old(stock).frozen| ==>
                View() == old(View()) && history == old(history)
                  && forall j :: 0 <= j < i ==> stock.frozen[j].batch != batch
    {
      var at := FindBatch(batch);
      i := at;
      if at < |stock.frozen| { CommitAt(at); }
    }

    method CommitAt(at: nat)
      requires Valid() && at < |stock.frozen|
      modifies this`memory, this`stock, this`ledger, this`roots, this`history
      ensures Valid() && history == old(history) + [CommitBatch(at)] && View() == M.Committed(old(View()), at)
    {
      Extend(x, brought, history, View(), CommitBatch(at));
      CommitFacts(x, brought, history, View(), at);
      hide Reached, L.Rooted, L.Exact, Releasable, M.Committed;
      Release(at);
      history := history + [CommitBatch(at)];
    }

    method Release(at: nat)
      requires Books() && at < |stock.frozen| && Releasable(View(), stock.frozen[at].batch.samples)
      modifies this`memory, this`stock, this`ledger, this`roots
      ensures Books() && View() == M.Committed(old(View()), at)
    {
      hide L.Rooted, L.Exact, SumCost, Commit, Distinct, Listed, Ids;
      var samples := stock.frozen[at].batch.samples;
      LetGo(at);
      CommitSamples(samples);
    }

    method LetGo(at: nat)
      requires Books() && at < |stock.frozen|
      modifies this`stock, this`ledger
      ensures Books()
      ensures stock == old(stock).(frozen := old(stock).frozen[..at] + old(stock).frozen[at + 1..])
    {
      hide L.Rooted;
      ghost var e := View();
      CostWithout(stock.frozen, at);
      ledger := ledger.(used := ledger.used - Cost(stock.frozen[at].batch));
      stock := stock.(frozen := stock.frozen[..at] + stock.frozen[at + 1..]);
      RootedSame(roots, e, View());
    }

    method OpenGate(watermark: nat)
      requires Valid()
      modifies this`stock, this`history
      ensures Valid() && history == old(history) + [Op.OpenGate(watermark)]
              && View() == old(View()).(stock := Gate(old(stock), watermark))
    {
      ghost var e := View();
      Extend(x, brought, history, e, Op.OpenGate(watermark));
      RelabelFlow(stock.frozen, Gate(stock, watermark).frozen);
      var frozen := Relabelled(stock.frozen);
      assert frozen == Gate(stock, watermark).frozen;
      stock := stock.(watermark := watermark, history := stock.history + stock.recent, recent := [], frozen := frozen);
      history := history + [Op.OpenGate(watermark)];
      RootedSame(roots, e, View());
    }

    method DisownAll()
      requires Books()
      modifies this`stock, this`ledger, this`roots
      ensures Books() && stock == old(stock).(owned := map[])
    {
      while stock.owned != map[]
        invariant Books() && stock == old(stock).(owned := stock.owned)
        decreases |stock.owned|
      {
        var id :| id in stock.owned;
        Disown(id);
      }
    }

    /** The producer has stopped and no enqueue is in progress: what is in RAM is known to be unsent. */
    method Abandon() returns (count: nat)
      requires Valid()
      modifies this`memory, this`stock, this`ledger, this`roots, this`history
      ensures Valid() && history == old(history) + [Op.Abandon] && count == |old(stock).owned|
      ensures View() == Abandoned(old(View()))
    {
      count := |stock.owned|;
      hide Reached, L.Rooted, L.Exact, SumCost;
      Extend(x, brought, history, View(), Op.Abandon);
      DisownAll();
      Clear();
      history := history + [Op.Abandon];
    }

    method Clear()
      requires Books()
      modifies this`memory, this`stock, this`ledger
      ensures Books() && memory == old(memory).(owners := map[], shadows := map[])
      ensures stock == old(stock).(recent := [], history := [], frozen := [])
    {
      hide L.Rooted;
      ghost var e := View();
      ledger := ledger.(used := ledger.used - SumCost(stock.frozen));
      stock := stock.(recent := [], history := [], frozen := []);
      memory := memory.(owners := map[], shadows := map[]);
      RootedSame(roots, e, View());
    }

    method ForgetLatest()
      requires Books()
      modifies this`latest, this`ledger, this`roots
      ensures Books() && latest == map[]
    {
      while latest != map[]
        invariant Books()
        decreases |latest|
      {
        var k :| k in latest;
        DropLatest(k);
      }
    }

    method ForgetBaselines()
      requires Books()
      modifies this`memory, this`ledger, this`roots
      ensures Books() && memory == old(memory).(baselines := map[])
    {
      while memory.baselines != map[]
        invariant Books() && memory == old(memory).(baselines := memory.baselines)
        decreases |memory.baselines|
      {
        var k :| k in memory.baselines;
        DropBaseline(k);
      }
    }

    /** Counts the carried-over baselines, starting from nothing retained by the new memory. */
    method RetainBaselines(baselines: map<Name, Sample>)
      requires Books() && memory.baselines == map[]
      requires baselines != map[] ==> OneIdentity(baselines.Values) && latest == map[] && stock.owned == map[]
      modifies this`memory, this`ledger, this`roots
      ensures Books() && memory == old(memory).(baselines := baselines)
    {
      hide L.Rooted, SumCost, OneIdentity;
      var todo := baselines.Keys;
      assert baselines - todo == map[];
      while todo != {}
        invariant Books() && todo <= baselines.Keys && memory == old(memory).(baselines := baselines - todo)
        decreases |todo|
      {
        var k :| k in todo;
        CarriedCounted(x, ledger, roots, View(), baselines, todo, k);
        OneMore(baselines, todo, k);
        PutBaseline(k, baselines[k]);
        todo := todo - {k};
      }
      assert baselines - {} == baselines;
    }

    /** Forgets the old configuration's views and counts what the new one kept. */
    method SwapMemory(kept: Memory)
      requires Books() && (kept.baselines != map[] ==> OneIdentity(kept.baselines.Values) && stock.owned == map[])
      modifies this`latest, this`memory, this`ledger, this`roots
      ensures Books() && latest == map[] && memory == kept.(shadows := map[], owners := old(memory).owners)
    {
      ForgetLatest();
      ForgetBaselines();
      ghost var e := View();
      memory := kept.(baselines := map[], shadows := map[], owners := memory.owners);
      RootedSame(roots, e, View());
      RetainBaselines(kept.baselines);
    }

    /** A new configuration, with the memory its checkpoint kept. Admitted events keep their owner. */
    method Configure(conf': Option<Conf>, generation': Option<int>, now: real)
      requires Valid()
      modifies this
      ensures Valid()
      ensures if conf' == old(conf) && generation' == old(generation)
              then View() == old(View()) && history == old(history)
              else && history == old(history) + [Op.Configure(conf', generation')]
                   && View() == Configured(old(View()), conf', generation')
    {
      if conf' == conf && generation' == generation { return; }
      hide L.Rooted, L.Exact, SumCost, Reached, OneIdentity, KeptMemory;
      ghost var op := Op.Configure(conf', generation');
      var kept := KeptMemory(carried, conf', generation');
      Extend(x, brought, history, View(), op);
      CarriedFacts(x, brought, history, View(), conf', generation');
      SwapMemory(kept);
      SwapConfiguration(conf', generation', now);
      history := history + [op];
    }

    method SwapConfiguration(conf': Option<Conf>, generation': Option<int>, now: real)
      requires Books()
      modifies this`conf, this`generation, this`carried, this`nextBatch
      ensures Books() && View() == old(View()).(conf := conf', generation := generation', carried := None)
    {
      ghost var e := View();
      conf, generation, carried := conf', generation', None;
      nextBatch := now + (if conf.Some? then conf.value.batchInterval / 1000.0 else 1.0);
      RootedSame(roots, e, View());
    }
  }

  lemma CarriedFacts(x: Setup, brought: Option<Checkpoint>, history: seq<Op>, e: Engine, conf: Option<Conf>,
                     generation: Option<int>)
    requires Reached(x, brought, history, e)
    ensures var kept := KeptMemory(e.carried, conf, generation).baselines;
            kept != map[] ==> OneIdentity(kept.Values) && e.stock.owned == map[]
  {
    ReachedOk(x, brought, history, e);
  }

  /** Of the carried-over baselines, those counted so far name no other sample of the same number. */
  lemma CarriedCounted(x: Setup, l: L.Ledger, roots: map<L.Root, Sample>, e: Engine, baselines: map<Name, Sample>,
                       todo: set<Name>, k: Name)
    requires L.Rooted(roots, e) && L.CountsOk(l.refs, roots) && OneIdentity(baselines.Values) && k in baselines
    requires e.memory.baselines == baselines - todo && e.latest == map[] && e.stock.owned == map[]
    ensures baselines[k].seqno in l.refs ==> l.refs[baselines[k].seqno].sample == baselines[k]
  {
    ValuesShrink(e.memory.baselines, baselines);
    NotCounted(x, l, roots, e, baselines[k]);
  }

  lemma OneMore(m: map<Name, Sample>, todo: set<Name>, k: Name)
    requires k in m && k in todo
    ensures (m - todo)[k := m[k]] == m - (todo - {k})
  {
  }

  method Relabelled(frozen: seq<Held>) returns (r: seq<Held>)
    ensures |r| == |frozen| && forall i :: 0 <= i < |r| ==> r[i] == frozen[i].(category := History)
  {
    r := [];
    for i := 0 to |frozen|
      invariant |r| == i && forall j :: 0 <= j < i ==> r[j] == frozen[j].(category := History)
    {
      r := r + [frozen[i].(category := History)];
    }
  }

  datatype Frozen = Done | TooLong | NoBytes

  function BatchesOf(frozen: seq<Held>): seq<Batch> {
    seq(|frozen|, i requires 0 <= i < |frozen| => frozen[i].batch)
  }

  lemma Longer(start: seq<Op>, ops: seq<Op>, op: Op)
    requires Freezing(ops) && (op.FreezeNext? || op.Skip?)
    ensures Freezing(ops + [op]) && start + ops + [op] == start + (ops + [op])
  {
  }

  ghost predicate Freezing(ops: seq<Op>) { forall i :: 0 <= i < |ops| ==> ops[i].FreezeNext? || ops[i].Skip? }

  lemma FrozenBound(x: Setup, brought: Option<Checkpoint>, history: seq<Op>, e: Engine)
    requires Reached(x, brought, history, e)
    ensures |e.stock.frozen| <= 8
  {
    ReachedOk(x, brought, history, e);
  }

  lemma OwnedCounted(x: Setup, l: L.Ledger, roots: map<L.Root, Sample>, e: Engine, s: Sample)
    requires L.Rooted(roots, e) && L.CountsOk(l.refs, roots) && s.seqno in e.stock.owned && e.stock.owned[s.seqno] == s
    ensures s.seqno in l.refs && l.refs[s.seqno].sample == s
  {
    assert Get(roots, L.Owned(s.seqno)) == L.At(e, L.Owned(s.seqno));
  }

  /** Distinct samples that the engine owns and lists under their points. */
  ghost predicate Releasable(e: Engine, samples: seq<Sample>) {
    && Distinct(samples)
    && (forall j :: 0 <= j < |samples| ==>
      samples[j].seqno in e.stock.owned && e.stock.owned[samples[j].seqno] == samples[j])
    && (forall j :: 0 <= j < |samples| ==> Listed(e.memory, samples[j]))
  }

  lemma CommitFacts(x: Setup, brought: Option<Checkpoint>, history: seq<Op>, e: Engine, i: nat)
    requires Reached(x, brought, history, e) && i < |e.stock.frozen|
    ensures Releasable(e, e.stock.frozen[i].batch.samples)
  {
    ReachedOk(x, brought, history, e);
    FlowDistinct(e.stock, i);
  }

  lemma CommitRest(m: Memory, samples: seq<Sample>, j: nat)
    requires j < |samples| && Distinct(samples) && forall t :: j <= t < |samples| ==> Listed(m, samples[t])
    ensures Commit(m, samples[j..]) == Commit(CommitOne(m, samples[j]), samples[j + 1..])
    ensures forall t :: j + 1 <= t < |samples| ==> Listed(CommitOne(m, samples[j]), samples[t])
  {
    assert samples[j..][1..] == samples[j + 1..];
    forall t | j + 1 <= t < |samples| ensures Listed(CommitOne(m, samples[j]), samples[t]) {
      CommitOneListed(m, samples[j], samples[t]);
    }
  }

  /** The first `j` samples have been let go. */
  ghost predicate Underway(m0: Memory, st0: Stock, m: Memory, st: Stock, samples: seq<Sample>, j: nat) {
    && j <= |samples| && Commit(m, samples[j..]) == Commit(m0, samples)
    && st == st0.(owned := st0.owned - Ids(samples[..j]))
    && forall t :: j <= t < |samples| ==> Listed(m, samples[t])
  }

  lemma UnderwayFirst(m: Memory, st: Stock, samples: seq<Sample>)
    requires forall t :: 0 <= t < |samples| ==> Listed(m, samples[t])
    ensures Underway(m, st, m, st, samples, 0)
  {
    assert samples[0..] == samples;
    assert st.owned - Ids(samples[..0]) == st.owned;
  }

  lemma UnderwayNext(m0: Memory, st0: Stock, m: Memory, st: Stock, samples: seq<Sample>, j: nat)
    requires Underway(m0, st0, m, st, samples, j) && j < |samples| && Distinct(samples)
    requires samples[j].seqno in st0.owned && st0.owned[samples[j].seqno] == samples[j]
    ensures Listed(m, samples[j]) && samples[j].seqno in st.owned && st.owned[samples[j].seqno] == samples[j]
    ensures Underway(m0, st0, CommitOne(m, samples[j]), st.(owned := st.owned - {samples[j].seqno}), samples, j + 1)
  {
    OwnedStill(st0.owned, samples, j);
    CommitRest(m, samples, j);
    OwnedRest(st0.owned, samples, j);
  }

  lemma UnderwayDone(m0: Memory, st0: Stock, m: Memory, st: Stock, samples: seq<Sample>)
    requires Underway(m0, st0, m, st, samples, |samples|)
    ensures m == Commit(m0, samples) && st == st0.(owned := st0.owned - Ids(samples))
  {
    assert samples[..|samples|] == samples && samples[|samples|..] == [];
  }

  lemma OwnedStill(owned: map<nat, Sample>, samples: seq<Sample>, j: nat)
    requires j < |samples| && Distinct(samples) && samples[j].seqno in owned && owned[samples[j].seqno] == samples[j]
    ensures var left := owned - Ids(samples[..j]); samples[j].seqno in left && left[samples[j].seqno] == samples[j]
  {
  }

  lemma OwnedRest(owned: map<nat, Sample>, samples: seq<Sample>, j: nat)
    requires j < |samples|
    ensures owned - Ids(samples[..j]) - {samples[j].seqno} == owned - Ids(samples[..j + 1])
  {
    assert samples[..j + 1] == samples[..j] + [samples[j]];
    assert Ids(samples[..j + 1]) == Ids(samples[..j]) + {samples[j].seqno};
  }

  /** What a sample that is looked at may rely on. */
  ghost predicate FreshToAll(x: Setup, e: Engine, s: Sample) {
    && NewIdentity(Retained(e.(memory := Begin(e.memory, s))), s)
    && s.seqno !in Shown(x, e, s).stock.owned
    && (forall t :: t in Retained(Shown(x, e, s)) && t.seqno == s.seqno ==> t == s)
  }

  lemma OfferFacts(x: Setup, brought: Option<Checkpoint>, history: seq<Op>, e: Engine, s: Sample, accounted: bool)
    requires Reached(x, brought, history, e) && Can(x, e, Offer(s, accounted))
    ensures Turned(x, e, s).None? ==> FreshToAll(x, e, s)
  {
    if Turned(x, e, s).None? {
      ReachedOk(x, brought, history, e);
      ShownOk(x, e, s);
      BeginBudget(x, e, s);
    }
  }

  /** A new identity is not in the counts. */
  lemma NotCounted(x: Setup, l: L.Ledger, roots: map<L.Root, Sample>, e: Engine, s: Sample)
    requires L.Rooted(roots, e) && L.CountsOk(l.refs, roots)
             && forall t :: t in Retained(e) && t.seqno == s.seqno ==> t == s
    ensures s.seqno in l.refs ==> l.refs[s.seqno].sample == s
    ensures s.seqno in l.refs <==> s in Retained(e)
  {
    L.CountedIsRoots(l.refs, roots);
    L.RootsRetained(roots, e);
    if s.seqno in l.refs { assert l.refs[s.seqno].sample in L.Counted(l.refs); }
  }
}
