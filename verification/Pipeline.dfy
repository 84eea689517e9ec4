/** Event conservation across engine, outbox and accounting: the hand-off of batches
    (src/plcnext_iot/reporting/service.py:112-142) and every publication of a counter or gauge, with
    crashes, failing stores and acknowledgements in between. */
module Pipeline {
  import opened Common
  import opened Outbox
  import opened OutboxRuns
  import opened Accounts
  import opened PipelineGauges
  import E = EngineModel
  import ES = EngineStock
  import ER = EngineRuns
  import R = PipelineRam

  /** The engine's stock, the message id of each frozen batch, the batches handed over but not yet let go
      of, the outbox, the account of this boot and the last sample number drawn. */
  datatype Pipe = Pipe(stock: E.Stock, ids: map<nat, Key>, given: set<nat>, outbox: Outbox, account: Account, last: nat)

  function Booted(boot: string): Pipe { Pipe(E.NoStock, map[], {}, Empty, Opened(boot), 0) }

  datatype Event =
    | Capture(room: bool)
    | Trim
    | Lose(boot: string, seqno: nat)
    | Decide(sample: E.Sample, selected: bool, admitted: bool, limit: nat)
    | Ignore
    | Freeze(category: Class, now: real, wall: int, id: Key)
    | Draw
    | EngineGate(watermark: nat)
    | Enqueue(index: nat, op: Op, found: Option<nat>)
    | Settle(index: nat)
    | Store(op: Op, order: seq<Key>)
    | Abandon
    | Reload(mono: real, order: seq<Key>)
    | Crash(mono: real, boot: string, order: seq<Key>)

  function EventsOf(b: E.Batch): seq<nat> { seq(|b.samples|, i requires 0 <= i < |b.samples| => b.samples[i].seqno) }

  function Sequences(frozen: seq<E.Held>): set<nat> { set h | h in frozen :: h.batch.sequence }

  // ---- When

  function SequenceOf(st: E.Stock, i: nat): nat
    requires i < |st.frozen|
  {
    st.frozen[i].batch.sequence
  }

  /** A frozen batch is inserted under its own message id, which accounting then looks up. */
  ghost predicate MayEnqueue(p: Pipe, lim: Limits, i: nat, op: Op, found: Option<nat>) {
    && i < |p.stock.frozen| && SequenceOf(p.stock, i) in p.ids && SequenceOf(p.stock, i) !in p.given
    && op.Insert? && op.key == p.ids[SequenceOf(p.stock, i)] && Finds(p.account.frozen, op.key, found)
    && MayInsert(p.outbox, lim, op.key, op.payload, op.stamp, op.truth)
    && p.outbox.session.staged[op.key].events == EventsOf(p.stock.frozen[i].batch)
    && p.outbox.session.staged[op.key].boot == Some(p.account.boot)
  }

  ghost predicate MayStoreOp(p: Pipe, lim: Limits, op: Op, order: seq<Key>) {
    && Can(p.outbox, lim, op) && !op.Insert? && !op.Restart? && !op.Reattach?
    && (op.Terminate? ==> (set k | k in order) == op.pruned)
  }

  /** RAM is given up only when no enqueue is in progress; batches are let go of only when enqueued; a new
      pipeline of the same process follows one that has given up its RAM; message ids are new. */
  ghost predicate Possible(p: Pipe, x: E.Setup, lim: Limits, e: Event) {
    match e
    case Decide(s, selected, admitted, limit) => admitted ==> selected && |p.stock.owned| < x.capacity
    case Freeze(c, now, wall, id) => |p.stock.frozen| < 8 && E.QueueOf(p.stock, c) != [] && id !in p.ids.Values
    case Enqueue(i, op, found) => MayEnqueue(p, lim, i, op, found)
    case Settle(i) => i < |p.stock.frozen| && SequenceOf(p.stock, i) in p.given
    case Store(op, order) => MayStoreOp(p, lim, op, order)
    case Abandon => p.given == {}
    case Reload(mono, order) => ES.EmptyOf(p.stock) && MayReattach(p.outbox)
    case Crash(mono, boot, order) => forall k :: k in p.outbox.rows ==> k in order
    case _ => true
  }

  // ---- What

  function DecideStep(p: Pipe, s: E.Sample, selected: bool, admitted: bool, limit: nat): Pipe {
    p.(account := Decided(p.account, s.boot, s.seqno, selected, admitted),
       stock := if Awaits(p.account, s.boot, s.seqno) && selected && admitted then E.Own(p.stock, s, limit)
         else p.stock)
  }

  /** The pipe once `st` holds one more batch, of message id `id`. */
  function Held(p: Pipe, st: E.Stock, id: Key): Pipe {
    var q := p.stock.sequence + 1;
    p.(stock := st, ids := p.ids[q := id], account := Materialized(p.account, q, id))
  }

  function FreezeStep(p: Pipe, x: E.Setup, c: Class, now: real, wall: int, id: Key): Pipe {
    if E.QueueOf(p.stock, c) == [] then p
    else Held(p, E.Freeze(x, p.stock, c, now, wall, id), id)
  }

  /** The engine lets go of a batch that was handed over. */
  function SettleStep(p: Pipe, i: nat): Pipe {
    if i >= |p.stock.frozen| then p
    else
      var q := SequenceOf(p.stock, i);
      p.(stock := ES.Dropped(p.stock, i), ids := p.ids - {q}, given := p.given - {q})
  }

  function EnqueueStep(p: Pipe, i: nat, op: Op, found: Option<nat>): Pipe {
    if i >= |p.stock.frozen| || !op.Insert? || op.key !in Step(p.outbox, op).session.entries then p
    else
      var o := Step(p.outbox, op);
      p.(outbox := o, given := p.given + {SequenceOf(p.stock, i)},
         account := Committed(p.account, o.session.entries[op.key], found))
  }

  /** What the outbox tells the account when a step changes or removes entries. */
  function Told(a: Account, entries: map<Key, Entry>, op: Op, order: seq<Key>): Account {
    match op
    case Terminate(k, reason, source, pruned, mono, now, truth) =>
      if k !in entries then a
      else
        var meta := Killed(entries[k].meta, reason, source);
        RemovedAll(TerminalBatch(a, entries[k], source), entries[k := entries[k].(meta := meta, active := false)],
          order)
    case AckStored(k) => if k in entries then Removed(a, entries[k], true) else a
    case _ => a
  }

  function StoreStep(p: Pipe, op: Op, order: seq<Key>): Pipe {
    p.(outbox := Step(p.outbox, op), account := Told(p.account, p.outbox.session.entries, op, order))
  }

  function AbandonStep(p: Pipe): Pipe {
    p.(account := GivenUp(p.account, |p.stock.owned|, Sequences(p.stock.frozen)),
       stock := p.stock.(owned := map[], recent := [], history := [], frozen := []), ids := map[])
  }

  /** A new engine over the living session: batch numbers go on, the tables are opened again, and whatever
      they bring that the session did not know is a batch of unknown events. */
  function ReloadStep(p: Pipe, mono: real, order: seq<Key>): Pipe {
    var o := ReattachStep(p.outbox, mono);
    p.(stock := E.NoStock.(sequence := p.stock.sequence), outbox := o,
       account := RestoredAll(p.account, o.session.entries - p.outbox.session.entries.Keys, order))
  }

  function CrashStep(p: Pipe, mono: real, boot: string, order: seq<Key>): Pipe {
    var o := RestartStep(p.outbox, mono);
    Pipe(E.NoStock, map[], {}, o, RestoredAll(Opened(boot), o.session.entries, order), 0)
  }

  function Next(p: Pipe, x: E.Setup, e: Event): Pipe {
    match e
    case Capture(room) => p.(account := Captured(p.account, p.last + 1, room), last := p.last + 1)
    case Trim => p.(account := Trimmed(p.account))
    case Lose(boot, seqno) => p.(account := Undecided(p.account, boot, seqno))
    case Decide(s, selected, admitted, limit) => DecideStep(p, s, selected, admitted, limit)
    case Ignore => p
    case Freeze(c, now, wall, id) => FreezeStep(p, x, c, now, wall, id)
    case Draw => p.(stock := E.Skipped(p.stock))
    case EngineGate(watermark) => p.(stock := E.Gate(p.stock, watermark))
    case Enqueue(i, op, found) => EnqueueStep(p, i, op, found)
    case Settle(i) => SettleStep(p, i)
    case Store(op, order) => StoreStep(p, op, order)
    case Abandon => AbandonStep(p)
    case Reload(mono, order) => ReloadStep(p, mono, order)
    case Crash(mono, boot, order) => CrashStep(p, mono, boot, order)
  }

  // ---- What holds throughout

  /** Awaited and owned events are different ones, and all have been drawn. */
  ghost predicate IdsOk(a: Account, owned: map<nat, E.Sample>, last: nat) {
    && (forall q :: q in a.decisions ==> q <= last && q !in owned)
    && (forall q :: q in owned ==> q <= last)
  }

  /** Every held batch has a message id of its own, and accounting has filed exactly those that have not
      been handed over. */
  ghost predicate Filed(filed: map<nat, Key>, ids: map<nat, Key>, given: set<nat>, held: set<nat>) {
    && ids.Keys == held && given <= held && filed == ids - given
    && (forall q, r :: q in ids && r in ids && ids[q] == ids[r] ==> q == r)
  }

  ghost predicate FiledOk(p: Pipe) { Filed(p.account.frozen, p.ids, p.given, Sequences(p.stock.frozen)) }

  ghost predicate Tallied(p: Pipe) {
    Balanced(p.account) && Exact(p.account, p.outbox.session.entries, |R.Ram(p.stock, p.given)|)
  }

  ghost predicate PipeOk(p: Pipe, x: E.Setup) {
    && Durable(p.outbox) && ES.StockOk(x, p.stock) && Tallied(p)
    && IdsOk(p.account, p.stock.owned, p.last) && FiledOk(p)
  }

  // ---- Batches and their message ids

  lemma NumbersHeld(frozen: seq<E.Held>, sequence: nat)
    requires ES.FrozenOk(frozen, sequence)
    ensures sequence + 1 !in Sequences(frozen)
  {
  }

  lemma FreezeHeld(frozen: seq<E.Held>, h: E.Held)
    ensures Sequences(frozen + [h]) == Sequences(frozen) + {h.batch.sequence}
  {
    assert h in frozen + [h];
    assert forall g :: g in frozen ==> g in frozen + [h];
  }

  lemma SettleHeld(frozen: seq<E.Held>, sequence: nat, i: nat)
    requires ES.FrozenOk(frozen, sequence) && i < |frozen|
    ensures Sequences(frozen[..i] + frozen[i + 1..]) == Sequences(frozen) - {frozen[i].batch.sequence}
  {
    var rest := frozen[..i] + frozen[i + 1..];
    forall h | h in frozen && h != frozen[i] ensures h in rest { AroundHas(frozen, i, h); }
    forall h | h in rest ensures h in frozen && h.batch.sequence != frozen[i].batch.sequence {
      RestHas(frozen, sequence, i, h);
    }
    hide ES.FrozenOk;
  }

  lemma RestHas(frozen: seq<E.Held>, sequence: nat, i: nat, h: E.Held)
    requires ES.FrozenOk(frozen, sequence) && i < |frozen| && h in frozen[..i] + frozen[i + 1..]
    ensures h in frozen && h.batch.sequence != frozen[i].batch.sequence
  {
    var rest := frozen[..i] + frozen[i + 1..];
    var j :| 0 <= j < |rest| && rest[j] == h;
    assert h == if j < i then frozen[j] else frozen[j + 1];
  }

  lemma AroundHas(frozen: seq<E.Held>, i: nat, h: E.Held)
    requires i < |frozen| && h in frozen && h != frozen[i]
    ensures h in frozen[..i] + frozen[i + 1..]
  {
    var rest := frozen[..i] + frozen[i + 1..];
    var j :| 0 <= j < |frozen| && frozen[j] == h;
    assert h == if j < i then rest[j] else rest[j - 1];
  }

  lemma GateHeld(st: E.Stock, watermark: nat)
    ensures Sequences(E.Gate(st, watermark).frozen) == Sequences(st.frozen)
  {
    var gated := E.Gate(st, watermark).frozen;
    forall h | h in st.frozen ensures h.batch.sequence in Sequences(gated) {
      var i :| 0 <= i < |st.frozen| && st.frozen[i] == h;
      assert gated[i] in gated;
    }
  }

  lemma {:induction false} FewHeld(frozen: seq<E.Held>)
    ensures |Sequences(frozen)| <= |frozen|
  {
    if frozen != [] {
      var n := |frozen| - 1;
      FewHeld(frozen[..n]);
      FreezeHeld(frozen[..n], frozen[n]);
      assert frozen == frozen[..n] + [frozen[n]];
    }
  }

  lemma FreezeFiled(filed: map<nat, Key>, ids: map<nat, Key>, given: set<nat>, held: set<nat>, q: nat, id: Key)
    requires Filed(filed, ids, given, held) && q !in held && id !in ids.Values
    ensures Filed(filed[q := id], ids[q := id], given, held + {q}) && q !in filed && q !in given
  {
    assert forall r :: r in ids ==> ids[r] in ids.Values;
  }

  /** The lookup by message id finds the batch itself. */
  lemma FindsOwn(filed: map<nat, Key>, ids: map<nat, Key>, given: set<nat>, held: set<nat>, q: nat, found: Option<nat>)
    requires Filed(filed, ids, given, held) && q in ids && q !in given && Finds(filed, ids[q], found)
    ensures found == Some(q) && q in filed && Filed(filed - {q}, ids, given + {q}, held)
  {
    assert q in filed && filed[q] == ids[q];
    assert filed - {q} == ids - (given + {q});
  }

  lemma SettleFiled(filed: map<nat, Key>, ids: map<nat, Key>, given: set<nat>, held: set<nat>, q: nat)
    requires Filed(filed, ids, given, held) && q in given
    ensures Filed(filed, ids - {q}, given - {q}, held - {q})
  {
  }

  // ---- Events

  lemma DecidedExact(a: Account, boot: string, seqno: nat, selected: bool, admitted: bool, entries: map<Key, Entry>,
                     ram: nat, ram': nat)
    requires Exact(a, entries, ram) && ram' == ram + (if Awaits(a, boot, seqno) && selected && admitted then 1 else 0)
    ensures Exact(Decided(a, boot, seqno, selected, admitted), entries, ram')
  {
  }

  lemma DecideTallied(p: Pipe, x: E.Setup, s: E.Sample, selected: bool, admitted: bool, limit: nat)
    requires ES.StockOk(x, p.stock) && Tallied(p) && IdsOk(p.account, p.stock.owned, p.last)
    ensures Tallied(DecideStep(p, s, selected, admitted, limit))
  {
    DecidedBalanced(p.account, s.boot, s.seqno, selected, admitted);
    if Awaits(p.account, s.boot, s.seqno) && selected && admitted { R.OwnRam(p.stock, s, limit, p.given); }
    DecidedExact(p.account, s.boot, s.seqno, selected, admitted, p.outbox.session.entries, |R.Ram(p.stock, p.given)|,
                 |R.Ram(DecideStep(p, s, selected, admitted, limit).stock, p.given)|);
  }

  lemma DecideIds(p: Pipe, s: E.Sample, selected: bool, admitted: bool, limit: nat)
    requires IdsOk(p.account, p.stock.owned, p.last)
    ensures var p' := DecideStep(p, s, selected, admitted, limit);
            && IdsOk(p'.account, p'.stock.owned, p'.last)
            && p'.account.frozen == p.account.frozen && p'.stock.frozen == p.stock.frozen
  {
  }

  lemma DecideOk(p: Pipe, x: E.Setup, s: E.Sample, selected: bool, admitted: bool, limit: nat)
    requires PipeOk(p, x) && (admitted ==> selected && |p.stock.owned| < x.capacity)
    ensures PipeOk(DecideStep(p, s, selected, admitted, limit), x)
  {
    DecideTallied(p, x, s, selected, admitted, limit);
    DecideIds(p, s, selected, admitted, limit);
    if Awaits(p.account, s.boot, s.seqno) && selected && admitted { ES.OwnOk(x, p.stock, s, limit); }
  }

  lemma FreezeTallied(p: Pipe, st: E.Stock, q: nat, id: Key)
    requires Tallied(p) && q == p.stock.sequence + 1 && q !in p.account.frozen
             && |R.Ram(st, p.given)| == |R.Ram(p.stock, p.given)|
    ensures Tallied(Held(p, st, id))
  {
    hide Total, R.Ram;
    MaterializedExact(p.account, p.outbox.session.entries, |R.Ram(p.stock, p.given)|, q, id);
    MaterializedBalanced(p.account, q, id);
    hide Balanced, Exact;
  }

  lemma HeldNew(x: E.Setup, st: E.Stock)
    requires ES.StockOk(x, st)
    ensures st.sequence + 1 !in Sequences(st.frozen)
  {
    NumbersHeld(st.frozen, st.sequence);
  }

  lemma HeldFiled(p: Pipe, x: E.Setup, st: E.Stock, h: E.Held, id: Key)
    requires FiledOk(p) && ES.StockOk(x, p.stock) && id !in p.ids.Values
    requires st.frozen == p.stock.frozen + [h] && h.batch.sequence == p.stock.sequence + 1
    ensures FiledOk(Held(p, st, id)) && p.stock.sequence + 1 !in p.account.frozen && p.stock.sequence + 1 !in p.given
  {
    hide ES.StockOk, Sequences, Filed;
    HeldNew(x, p.stock);
    FreezeHeld(p.stock.frozen, h);
    FreezeFiled(p.account.frozen, p.ids, p.given, Sequences(p.stock.frozen), p.stock.sequence + 1, id);
  }

  lemma HeldRest(p: Pipe, st: E.Stock, id: Key)
    requires IdsOk(p.account, p.stock.owned, p.last) && st.owned == p.stock.owned
    ensures var p' := Held(p, st, id);
            IdsOk(p'.account, p'.stock.owned, p'.last) && p'.outbox == p.outbox && p'.stock == st
  {
  }

  lemma HeldOk(p: Pipe, x: E.Setup, st: E.Stock, h: E.Held, id: Key)
    requires PipeOk(p, x) && ES.StockOk(x, st) && |R.Ram(st, p.given)| == |R.Ram(p.stock, p.given)|
    requires st.owned == p.stock.owned && st.frozen == p.stock.frozen + [h] && h.batch.sequence == p.stock.sequence + 1
    requires id !in p.ids.Values
    ensures PipeOk(Held(p, st, id), x)
  {
    hide FiledOk, Tallied, Durable, ES.StockOk, IdsOk, Held, R.Ram;
    HeldFiled(p, x, st, h, id);
    FreezeTallied(p, st, p.stock.sequence + 1, id);
    HeldRest(p, st, id);
  }

  lemma FreezeUngiven(p: Pipe, x: E.Setup)
    requires ES.StockOk(x, p.stock) && FiledOk(p)
    ensures p.stock.sequence + 1 !in p.given
  {
    HeldNew(x, p.stock);
    hide ES.StockOk, Sequences;
  }

  lemma FreezeOk(p: Pipe, x: E.Setup, c: Class, now: real, wall: int, id: Key)
    requires PipeOk(p, x) && |p.stock.frozen| < 8 && E.QueueOf(p.stock, c) != [] && id !in p.ids.Values
    ensures PipeOk(FreezeStep(p, x, c, now, wall, id), x)
  {
    hide Tallied, FiledOk, R.Ram;
    ES.FreezeOk(x, p.stock, c, now, wall, id);
    ER.FreezeFrame(x, p.stock, c, now, wall, id);
    FreezeUngiven(p, x);
    R.FreezeRam(x, p.stock, c, now, wall, id, p.given);
    hide Held, E.Freeze, Durable, ES.StockOk, IdsOk;
    HeldOk(p, x, E.Freeze(x, p.stock, c, now, wall, id), E.Held(E.NewBatch(x, p.stock, c, now, wall, id), c), id);
  }

  lemma InsertEntries(o: Outbox, lim: Limits, op: Op)
    requires op.Insert? && MayInsert(o, lim, op.key, op.payload, op.stamp, op.truth)
    ensures var o' := Step(o, op);
            && op.key in o'.session.entries
              && o'.session.entries == o.session.entries[op.key := o'.session.entries[op.key]]
            && !o'.session.entries[op.key].meta.dead
            && o'.session.entries[op.key].events == o.session.staged[op.key].events
            && o'.session.entries[op.key].boot == o.session.staged[op.key].boot
  {
  }

  lemma EnqueueTallied(p: Pipe, x: E.Setup, lim: Limits, i: nat, op: Op, found: Option<nat>)
    requires ES.StockOk(x, p.stock) && Tallied(p) && FiledOk(p) && MayEnqueue(p, lim, i, op, found)
    ensures Tallied(EnqueueStep(p, i, op, found))
  {
    hide Sequences, Filed, ES.StockOk, Step, Total, R.Ram;
    var entries, o, ram := p.outbox.session.entries, Step(p.outbox, op), |R.Ram(p.stock, p.given)|;
    InsertEntries(p.outbox, lim, op);
    R.GiveRam(x, p.stock, i, p.given);
    var e := o.session.entries[op.key];
    FindsOwn(p.account.frozen, p.ids, p.given, Sequences(p.stock.frozen), SequenceOf(p.stock, i), found);
    CommittedExact(p.account, entries, ram, ram - |e.events|, op.key, e, found);
    CommittedBalanced(p.account, e, found);
    hide Balanced, Exact;
  }

  lemma EnqueueFrame(p: Pipe, lim: Limits, i: nat, op: Op, found: Option<nat>)
    requires MayEnqueue(p, lim, i, op, found) && IdsOk(p.account, p.stock.owned, p.last) && FiledOk(p)
    ensures var p' := EnqueueStep(p, i, op, found);
            && p'.stock == p.stock && p'.outbox == Step(p.outbox, op)
            && IdsOk(p'.account, p'.stock.owned, p'.last) && FiledOk(p')
  {
    InsertEntries(p.outbox, lim, op);
    FindsOwn(p.account.frozen, p.ids, p.given, Sequences(p.stock.frozen), SequenceOf(p.stock, i), found);
  }

  lemma EnqueueOk(p: Pipe, x: E.Setup, lim: Limits, i: nat, op: Op, found: Option<nat>)
    requires PipeOk(p, x) && MayEnqueue(p, lim, i, op, found)
    ensures PipeOk(EnqueueStep(p, i, op, found), x)
  {
    EnqueueTallied(p, x, lim, i, op, found);
    EnqueueFrame(p, lim, i, op, found);
    StepDurable(p.outbox, lim, op);
  }

  lemma FewerIds(a: Account, owned: map<nat, E.Sample>, gone: set<nat>, last: nat)
    requires IdsOk(a, owned, last)
    ensures IdsOk(a, owned - gone, last)
  {
  }

  lemma SettleOk(p: Pipe, x: E.Setup, i: nat)
    requires PipeOk(p, x) && i < |p.stock.frozen| && SequenceOf(p.stock, i) in p.given
    ensures PipeOk(SettleStep(p, i), x)
  {
    ES.DroppedOk(x, p.stock, i);
    R.SettleRam(x, p.stock, i, p.given);
    FewerIds(p.account, p.stock.owned, E.Ids(p.stock.frozen[i].batch.samples), p.last);
    SettleHeld(p.stock.frozen, p.stock.sequence, i);
    SettleFiled(p.account.frozen, p.ids, p.given, Sequences(p.stock.frozen), SequenceOf(p.stock, i));
  }

  lemma CalmWeight(s: Session, s': Session, boot: string)
    requires Calm(s, s')
    ensures Total(s'.entries, boot) == Total(s.entries, boot)
  {
    forall k | k in s.entries ensures Weigh(s.entries[k], boot) == Weigh(s'.entries[k], boot) {
      assert Calmer(s.entries[k], s'.entries[k]);
    }
    TotalSame(s.entries, s'.entries, boot);
  }

  lemma ReserveWeight(o: Outbox, k: Key, later: real, boot: string)
    ensures Total(ReserveStep(o, k, later).session.entries, boot) == Total(o.session.entries, boot)
  {
    if k in o.session.entries && k in o.rows {
      TotalSame(o.session.entries, o.session.entries[k := Handed(o.session.entries[k], later)], boot);
    }
  }

  lemma SameWeight(o: Outbox, lim: Limits, op: Op, boot: string)
    requires Durable(o) && Can(o, lim, op) && (op.Reserve? || Volatile(op))
    ensures Total(Step(o, op).session.entries, boot) == Total(o.session.entries, boot)
  {
    if op.Reserve? {
      ReserveWeight(o, op.key, op.later, boot);
    } else {
      VolatileCalm(o, lim, op);
      CalmWeight(o.session, Step(o, op).session, boot);
    }
  }

  lemma TerminateTold(a: Account, o: Outbox, ram: nat, lim: Limits, op: Op, order: seq<Key>)
    requires Mirror(o) && Balanced(a) && Exact(a, o.session.entries, ram) && op.Terminate? && Can(o, lim, op)
    requires (set k | k in order) == op.pruned
    ensures var a' := Told(a, o.session.entries, op, order); Balanced(a') && Exact(a', Step(o, op).session.entries, ram)
  {
    var entries, k := o.session.entries, op.key;
    var e := entries[k].(meta := Killed(entries[k].meta, op.reason, op.source), active := false);
    CondemnTold(a, entries, ram, k, e, op.source, order);
    assert Step(o, op).session.entries == entries[k := e] - op.pruned;
  }

  lemma CondemnTold(a: Account, entries: map<Key, Entry>, ram: nat, k: Key, e: Entry, source: Source, order: seq<Key>)
    requires Balanced(a) && Exact(a, entries, ram) && k in entries && !entries[k].meta.dead
    requires e.meta.dead && e.meta.size == entries[k].meta.size && e.events == entries[k].events
             && e.boot == entries[k].boot
    requires forall j :: j in order ==> j in Dead(entries) + {k}
    ensures var a' := RemovedAll(TerminalBatch(a, entries[k], source), entries[k := e], order);
            Balanced(a') && Exact(a', entries[k := e] - (set j | j in order), ram)
  {
    var b := TerminalBatch(a, entries[k], source);
    TerminalExact(a, entries, ram, k, e, source);
    TerminalBalanced(a, entries[k], source);
    RemovedAllExact(b, entries[k := e], ram, order);
    RemovedAllBalanced(b, entries[k := e], order);
  }

  lemma StoreTallied(p: Pipe, x: E.Setup, lim: Limits, op: Op, order: seq<Key>)
    requires PipeOk(p, x) && MayStoreOp(p, lim, op, order)
    ensures Tallied(StoreStep(p, op, order))
  {
    var a, o, ram := p.account, p.outbox, |R.Ram(p.stock, p.given)|;
    if op.Terminate? {
      TerminateTold(a, o, ram, lim, op, order);
    } else if op.AckStored? {
      StoredTold(a, o, ram, lim, op, order);
    } else {
      SameTold(a, o, ram, lim, op, order);
    }
    hide Exact, Balanced, Told, Can, Durable, FiledOk, IdsOk, ES.StockOk, Step;
  }

  lemma StoredTold(a: Account, o: Outbox, ram: nat, lim: Limits, op: Op, order: seq<Key>)
    requires Durable(o) && Balanced(a) && Exact(a, o.session.entries, ram) && op.AckStored? && Can(o, lim, op)
    ensures var a' := Told(a, o.session.entries, op, order); Balanced(a') && Exact(a', Step(o, op).session.entries, ram)
  {
    assert EntryOk(o.session.entries[op.key]);
    RemovedExact(a, o.session.entries, ram, op.key, true);
    RemovedBalanced(a, o.session.entries[op.key], true);
    hide Exact, Balanced;
  }

  lemma SameTold(a: Account, o: Outbox, ram: nat, lim: Limits, op: Op, order: seq<Key>)
    requires Durable(o) && Balanced(a) && Exact(a, o.session.entries, ram) && Can(o, lim, op)
    requires op.Reserve? || Volatile(op)
    ensures var a' := Told(a, o.session.entries, op, order); Balanced(a') && Exact(a', Step(o, op).session.entries, ram)
  {
    SameWeight(o, lim, op, a.boot);
    hide Durable, Can, Balanced, Total, Step;
  }

  lemma ToldFrame(a: Account, entries: map<Key, Entry>, op: Op, order: seq<Key>)
    ensures var a' := Told(a, entries, op, order); a'.decisions == a.decisions && a'.frozen == a.frozen
  {
    if op.Terminate? && op.key in entries {
      var meta := Killed(entries[op.key].meta, op.reason, op.source);
      RemovedAllFrame(TerminalBatch(a, entries[op.key], op.source),
        entries[op.key := entries[op.key].(meta := meta, active := false)], order);
    }
  }

  lemma StoreOk(p: Pipe, x: E.Setup, lim: Limits, op: Op, order: seq<Key>)
    requires PipeOk(p, x) && MayStoreOp(p, lim, op, order)
    ensures PipeOk(StoreStep(p, op, order), x)
  {
    StoreTallied(p, x, lim, op, order);
    ToldFrame(p.account, p.outbox.session.entries, op, order);
    StepDurable(p.outbox, lim, op);
  }

  lemma AbandonTallied(p: Pipe)
    requires Tallied(p) && p.given == {}
    ensures Tallied(AbandonStep(p))
  {
    R.NoneGiven(p.stock.frozen, {});
    assert R.Ram(p.stock, {}) == p.stock.owned.Keys;
    GivenUpBalanced(p.account, |p.stock.owned|, Sequences(p.stock.frozen));
    GivenUpExact(p.account, p.outbox.session.entries, |p.stock.owned|, Sequences(p.stock.frozen));
    NoRam(AbandonStep(p).stock);
  }

  lemma NoRam(st: E.Stock)
    requires ES.EmptyOf(st)
    ensures |R.Ram(st, {})| == 0
  {
    assert R.Ram(st, {}) == {};
  }

  lemma AbandonOk(p: Pipe, x: E.Setup)
    requires PipeOk(p, x) && p.given == {}
    ensures PipeOk(AbandonStep(p), x)
  {
    AbandonTallied(p);
    ES.EmptyStock(x, AbandonStep(p).stock);
    GivenUpFrame(p.account, |p.stock.owned|, Sequences(p.stock.frozen));
    AbandonFiled(p.account, p.ids, |p.stock.owned|, Sequences(p.stock.frozen));
  }

  lemma AbandonFiled(a: Account, ids: map<nat, Key>, count: nat, held: set<nat>)
    requires Filed(a.frozen, ids, {}, held)
    ensures Filed(GivenUp(a, count, held).frozen, map[], {}, {})
  {
    assert GivenUp(a, count, held).frozen == map[];
  }

  lemma ReloadOk(p: Pipe, x: E.Setup, mono: real, order: seq<Key>)
    requires PipeOk(p, x) && ES.EmptyOf(p.stock)
    ensures PipeOk(ReloadStep(p, mono, order), x)
  {
    NothingGiven(p);
    ReloadSame(p, mono, order);
    RenewedTallied(p, ReloadStep(p, mono, order));
    ES.EmptyStock(x, ReloadStep(p, mono, order).stock);
    hide Tallied, Filed, Sequences, ReloadStep, ES.StockOk, Durable;
  }

  lemma RenewedTallied(p: Pipe, p': Pipe)
    requires Tallied(p) && ES.EmptyOf(p.stock) && ES.EmptyOf(p'.stock) && p.given == p'.given == {}
    requires p'.account == p.account && p'.outbox == p.outbox
    ensures Tallied(p')
  {
    NoRam(p.stock);
    NoRam(p'.stock);
    hide R.Ram, Balanced, Exact;
  }

  lemma NothingGiven(p: Pipe)
    requires FiledOk(p) && ES.EmptyOf(p.stock)
    ensures p.given == {}
  {
    assert Sequences([]) == {};
  }

  /** Opening the tables again tells accounting nothing and leaves the outbox alone. */
  lemma ReloadSame(p: Pipe, mono: real, order: seq<Key>)
    requires Mirror(p.outbox) && ES.EmptyOf(p.stock)
    ensures ReloadStep(p, mono, order) == p.(stock := E.NoStock.(sequence := p.stock.sequence))
    ensures ES.EmptyOf(ReloadStep(p, mono, order).stock)
  {
    ReattachSame(p.outbox, mono);
    assert p.outbox.session.entries - p.outbox.session.entries.Keys == map[];
    RestoredNone(p.account, order);
  }

  /** A process that has captured nothing, over the entries it found. */
  ghost predicate Newborn(p: Pipe) {
    && p.given == {} && p.ids == map[] && ES.EmptyOf(p.stock)
    && p.account.counters == Zero && p.account.decisions == {} && p.account.frozen == map[]
    && p.account.gauges == Total(p.outbox.session.entries, p.account.boot) && p.account.gauges.pending == 0
  }

  lemma FreshAccount(a: Account, entries: map<Key, Entry>)
    requires a.counters == Zero && a.decisions == {} && a.frozen == map[]
    requires a.gauges == Total(entries, a.boot) && a.gauges.pending == 0
    ensures Balanced(a) && Exact(a, entries, 0)
  {
    hide Total;
  }

  lemma FreshTallied(p: Pipe)
    requires Newborn(p)
    ensures Tallied(p)
  {
    FreshAccount(p.account, p.outbox.session.entries);
    NoRam(p.stock);
    hide R.Ram, Balanced, Exact;
  }

  lemma FreshFiled(p: Pipe, x: E.Setup)
    requires Newborn(p)
    ensures FiledOk(p) && IdsOk(p.account, p.stock.owned, p.last) && ES.StockOk(x, p.stock)
  {
    ES.EmptyStock(x, p.stock);
    assert Sequences([]) == {};
  }

  lemma Assembled(p: Pipe, x: E.Setup)
    requires Durable(p.outbox) && ES.StockOk(x, p.stock) && IdsOk(p.account, p.stock.owned, p.last) && FiledOk(p)
    requires Tallied(p)
    ensures PipeOk(p, x)
  {
    hide Durable, ES.StockOk, IdsOk, FiledOk, Tallied;
  }

  lemma FreshOk(p: Pipe, x: E.Setup)
    requires Durable(p.outbox) && Newborn(p)
    ensures PipeOk(p, x)
  {
    hide *;
    FreshTallied(p);
    FreshFiled(p, x);
    Assembled(p, x);
  }

  lemma {:induction false} StrangersOnly(entries: map<Key, Entry>, boot: string)
    requires forall k :: k in entries ==> entries[k].boot == None
    ensures Total(entries, boot).pending == 0
    decreases |entries|
  {
    if entries != map[] {
      var k :| k in entries;
      TotalSplit(entries, k, boot);
      StrangersOnly(entries - {k}, boot);
    }
  }

  lemma CrashOk(p: Pipe, x: E.Setup, mono: real, boot: string, order: seq<Key>)
    requires Durable(p.outbox) && forall k :: k in p.outbox.rows ==> k in order
    ensures PipeOk(CrashStep(p, mono, boot, order), x)
  {
    RestartDurable(p.outbox, mono);
    CrashNewborn(p, mono, boot, order);
    hide Newborn, PipeOk, Durable;
    FreshOk(CrashStep(p, mono, boot, order), x);
  }

  lemma CrashNewborn(p: Pipe, mono: real, boot: string, order: seq<Key>)
    requires forall k :: k in p.outbox.rows ==> k in order
    ensures Newborn(CrashStep(p, mono, boot, order))
  {
    var p', a := CrashStep(p, mono, boot, order), Opened(boot);
    RestoredAllExact(a, p'.outbox.session.entries, order);
    StrangersOnly(p'.outbox.session.entries, boot);
    PlusNothing(Total(p'.outbox.session.entries, boot));
  }

  lemma PlusNothing(g: Gauges)
    ensures Plus(Nothing, g) == g
  {
  }

  lemma GateTallied(p: Pipe, watermark: nat)
    requires Tallied(p) && FiledOk(p)
    ensures var p' := p.(stock := E.Gate(p.stock, watermark)); Tallied(p') && FiledOk(p')
  {
    hide Balanced, Exact, R.Ram, Sequences, Filed;
    R.GateRam(p.stock, watermark, p.given);
    GateHeld(p.stock, watermark);
  }

  lemma GateOk(p: Pipe, x: E.Setup, watermark: nat)
    requires PipeOk(p, x)
    ensures PipeOk(Next(p, x, EngineGate(watermark)), x)
  {
    hide Durable, ES.StockOk, IdsOk, FiledOk, Tallied;
    ES.GateOk(x, p.stock, watermark);
    GateTallied(p, watermark);
  }

  lemma CountIds(a: Account, a': Account, owned: map<nat, E.Sample>, last: nat, last': nat)
    requires IdsOk(a, owned, last) && last <= last'
             && forall q :: q in a'.decisions ==> q in a.decisions || q == last' > last
    ensures IdsOk(a', owned, last')
  {
  }

  lemma CountExact(a: Account, a': Account, entries: map<Key, Entry>, ram: nat)
    requires Exact(a, entries, ram) && a'.gauges == a.gauges && a'.frozen == a.frozen && a'.boot == a.boot
    ensures Exact(a', entries, ram)
  {
  }

  /** Events that only touch counters and the awaited decisions. */
  lemma CountOk(p: Pipe, x: E.Setup, a: Account, last: nat)
    requires PipeOk(p, x) && Balanced(a) && p.last <= last
    requires a.gauges == p.account.gauges && a.frozen == p.account.frozen && a.boot == p.account.boot
    requires forall q :: q in a.decisions ==> q in p.account.decisions || q == last > p.last
    ensures PipeOk(p.(account := a, last := last), x)
  {
    CountIds(p.account, a, p.stock.owned, p.last, last);
    CountExact(p.account, a, p.outbox.session.entries, |R.Ram(p.stock, p.given)|);
  }

  lemma DrawOk(p: Pipe, x: E.Setup)
    requires PipeOk(p, x)
    ensures PipeOk(Next(p, x, Draw), x)
  {
    hide Sequences, Filed;
    assert R.Ram(E.Skipped(p.stock), p.given) == R.Ram(p.stock, p.given);
    SkippedOk(x, p.stock);
  }

  lemma SkippedOk(x: E.Setup, st: E.Stock)
    requires ES.StockOk(x, st)
    ensures ES.StockOk(x, E.Skipped(st))
  {
  }

  lemma CaptureNew(p: Pipe, x: E.Setup)
    requires PipeOk(p, x)
    ensures Balanced(p.account) && p.last + 1 !in p.account.decisions
  {
  }

  lemma CaptureOk(p: Pipe, x: E.Setup, room: bool)
    requires PipeOk(p, x)
    ensures PipeOk(Next(p, x, Capture(room)), x)
  {
    hide PipeOk, Balanced;
    CaptureNew(p, x);
    CapturedBalanced(p.account, p.last + 1, room);
    CountOk(p, x, Captured(p.account, p.last + 1, room), p.last + 1);
  }

  lemma UndecidedFrame(a: Account, boot: string, seqno: nat)
    ensures var a' := Undecided(a, boot, seqno);
            a'.gauges == a.gauges && a'.frozen == a.frozen && a'.boot == a.boot && a'.decisions <= a.decisions
  {
  }

  lemma LoseOk(p: Pipe, x: E.Setup, boot: string, seqno: nat)
    requires PipeOk(p, x)
    ensures PipeOk(Next(p, x, Lose(boot, seqno)), x)
  {
    hide Total, Sequences, R.Ram;
    DecidedBalanced(p.account, boot, seqno, false, false);
    UndecidedFrame(p.account, boot, seqno);
    hide PipeOk, Balanced;
    CountOk(p, x, Undecided(p.account, boot, seqno), p.last);
  }

  lemma BatchEventOk(p: Pipe, x: E.Setup, lim: Limits, e: Event)
    requires PipeOk(p, x) && Possible(p, x, lim, e) && (e.Freeze? || e.Settle? || e.Enqueue?)
    ensures PipeOk(Next(p, x, e), x)
  {
    match e
    case Freeze(c, now, wall, id) => FreezeOk(p, x, c, now, wall, id);
    case Settle(i) => SettleOk(p, x, i);
    case Enqueue(i, op, found) => EnqueueOk(p, x, lim, i, op, found);
  }

  lemma EngineEventOk(p: Pipe, x: E.Setup, lim: Limits, e: Event)
    requires PipeOk(p, x) && Possible(p, x, lim, e) && (e.Decide? || e.Draw? || e.EngineGate? || e.Abandon?)
    ensures PipeOk(Next(p, x, e), x)
  {
    match e
    case Decide(s, selected, admitted, limit) => DecideOk(p, x, s, selected, admitted, limit);
    case EngineGate(watermark) => GateOk(p, x, watermark);
    case Abandon => AbandonOk(p, x);
    case Draw => DrawOk(p, x);
  }

  lemma StoreEventOk(p: Pipe, x: E.Setup, lim: Limits, e: Event)
    requires PipeOk(p, x) && Possible(p, x, lim, e) && (e.Store? || e.Crash? || e.Reload?)
    ensures PipeOk(Next(p, x, e), x)
  {
    hide Durable, ES.StockOk, Tallied, FiledOk, IdsOk;
    match e
    case Store(op, order) => StoreOk(p, x, lim, op, order);
    case Crash(mono, boot, order) => CrashOk(p, x, mono, boot, order);
    case Reload(mono, order) => ReloadOk(p, x, mono, order);
  }

  lemma CountEventOk(p: Pipe, x: E.Setup, e: Event)
    requires PipeOk(p, x) && (e.Capture? || e.Trim? || e.Lose? || e.Ignore?)
    ensures PipeOk(Next(p, x, e), x)
  {
    match e
    case Capture(room) => CaptureOk(p, x, room);
    case Trim => CountOk(p, x, Trimmed(p.account), p.last);
    case Ignore =>
    case Lose(boot, seqno) => LoseOk(p, x, boot, seqno);
  }

  lemma NextOk(p: Pipe, x: E.Setup, lim: Limits, e: Event)
    requires PipeOk(p, x) && Possible(p, x, lim, e)
    ensures PipeOk(Next(p, x, e), x)
  {
    if e.Capture? || e.Trim? || e.Lose? || e.Ignore? {
      CountEventOk(p, x, e);
    } else if e.Store? || e.Crash? || e.Reload? {
      StoreEventOk(p, x, lim, e);
    } else if e.Freeze? || e.Settle? || e.Enqueue? {
      BatchEventOk(p, x, lim, e);
    } else {
      EngineEventOk(p, x, lim, e);
    }
  }

  // ---- Every run

  function Evolve(p: Pipe, x: E.Setup, events: seq<Event>): Pipe
    decreases |events|
  {
    if events == [] then p else Evolve(Next(p, x, events[0]), x, events[1..])
  }

  ghost predicate Happens(p: Pipe, x: E.Setup, lim: Limits, events: seq<Event>)
    decreases |events|
  {
    events != [] ==> Possible(p, x, lim, events[0]) && Happens(Next(p, x, events[0]), x, lim, events[1..])
  }

  lemma {:induction false} EvolveOk(p: Pipe, x: E.Setup, lim: Limits, events: seq<Event>)
    requires PipeOk(p, x) && Happens(p, x, lim, events)
    ensures PipeOk(Evolve(p, x, events), x)
    decreases |events|
  {
    if events != [] {
      NextOk(p, x, lim, events[0]);
      EvolveOk(Next(p, x, events[0]), x, lim, events[1..]);
    }
  }

  lemma EmptyDurable()
    ensures Durable(Empty)
  {
  }

  lemma BootedOk(boot: string, x: E.Setup)
    ensures PipeOk(Booted(boot), x)
  {
    EmptyDurable();
    FreshOk(Booted(boot), x);
  }

  /** The pending gauge counts the own events of PENDING entries and the events in RAM that no entry
      holds, the gauge of pending batches the PENDING entries and the engine's batches not yet handed over,
      which are the ones accounting has filed, never more than eight; the other gauges add up the entries;
      what is owned is in exactly one place. */
  ghost predicate GaugesRead(g: Gauges, total: Gauges, ram: nat, waiting: nat) {
    && g.pending == total.pending + ram && g.pendingBatches == total.pendingBatches + waiting
    && g.dead == total.dead && g.deadBatches == total.deadBatches && g.payloadBytes == total.payloadBytes
    && g.unknownPending == total.unknownPending && g.unknownDead == total.unknownDead
  }

  ghost predicate Accounted(p: Pipe) {
    var waiting := Sequences(p.stock.frozen) - p.given;
    && GaugesRead(p.account.gauges, Total(p.outbox.session.entries, p.account.boot), |R.Ram(p.stock, p.given)|,
      |waiting|)
    && p.account.frozen.Keys == waiting && |waiting| <= 8
    && ES.Flow(p.stock) == multiset(p.stock.owned.Values)
  }

  ghost predicate Reconciled(p: Pipe) {
    Accounted(p) && DecisionsBalance(p.account) && EventsBalance(p.account)
  }

  lemma ExactRead(a: Account, entries: map<Key, Entry>, ram: nat)
    requires Exact(a, entries, ram)
    ensures GaugesRead(a.gauges, Total(entries, a.boot), ram, |a.frozen|)
  {
  }

  lemma OkReconciled(p: Pipe, x: E.Setup)
    requires PipeOk(p, x)
    ensures Reconciled(p)
  {
    FewHeld(p.stock.frozen);
    WaitingCount(p.account.frozen, p.ids, p.given, Sequences(p.stock.frozen));
    ExactRead(p.account, p.outbox.session.entries, |R.Ram(p.stock, p.given)|);
    hide Exact, GaugesRead, Sequences, Filed, Durable, R.Ram, DecisionsBalance, EventsBalance, ES.Flow;
  }

  lemma WaitingCount(filed: map<nat, Key>, ids: map<nat, Key>, given: set<nat>, held: set<nat>)
    requires Filed(filed, ids, given, held)
    ensures filed.Keys == held - given && |filed| == |held - given| <= |held|
  {
    assert held == (held - given) + given;
  }

  lemma RunReconciled(p: Pipe, x: E.Setup, lim: Limits, events: seq<Event>)
    requires PipeOk(p, x) && Happens(p, x, lim, events)
    ensures Reconciled(Evolve(p, x, events))
  {
    EvolveOk(p, x, lim, events);
    OkReconciled(Evolve(p, x, events), x);
  }

  /** In every reachable state: every captured event is counted exactly once (while no counter has
      saturated and the pending decisions are intact), every selected event is pending, lost to a known
      fate or confirmed (while no counter has saturated), and the gauges are exact. */
  lemma EventConservation(boot: string, x: E.Setup, lim: Limits, events: seq<Event>)
    requires Happens(Booted(boot), x, lim, events)
    ensures Reconciled(Evolve(Booted(boot), x, events))
  {
    BootedOk(boot, x);
    RunReconciled(Booted(boot), x, lim, events);
  }

  // ---- The engine's verdicts are the pipeline's events

  /** What the account is told of a sample offered to the engine; one that raises is lost undecided, a
      stale one is not mentioned. */
  function EventFor(s: E.Sample, limit: nat, v: E.Verdict): Event {
    match v
    case Filtered => Decide(s, false, false, limit)
    case TimeInvalid => Decide(s, true, false, limit)
    case NoRoom => Decide(s, true, false, limit)
    case Unaccounted => Decide(s, true, true, limit)
    case Admitted => Decide(s, true, true, limit)
    case Stale => Ignore
    case _ => Lose(s.boot, s.seqno)
  }

  lemma VerdictIsEvent(p: Pipe, x: E.Setup, lim: Limits, s: E.Sample, limit: nat, v: E.Verdict)
    requires v == E.Admitted || v == E.Unaccounted ==>
               |p.stock.owned| < x.capacity && (Awaits(p.account, s.boot, s.seqno) <==> v == E.Admitted)
    ensures var event := EventFor(s, limit, v);
            && Possible(p, x, lim, event)
            && Next(p, x, event).stock == (if v == E.Admitted then E.Own(p.stock, s, limit) else p.stock)
            && (if v == E.Stale then Next(p, x, event) == p else !Awaits(Next(p, x, event).account, s.boot, s.seqno))
  {
    TakenOnce(p.account, s.boot, s.seqno, true, true);
    TakenOnce(p.account, s.boot, s.seqno, true, false);
    TakenOnce(p.account, s.boot, s.seqno, false, false);
    hide Decided, Undecided, E.Own;
  }

  /** Offering a sample to the engine, with the account deciding whether it is known, is one of the
      pipeline's events: possible whatever the engine makes of it, and with the same stock. A decision that
      was awaited is taken or lost, except that of a stale sample, which stays awaited. */
  lemma OfferIsEvent(p: Pipe, x: E.Setup, lim: Limits, e: E.Engine, s: E.Sample)
    requires p.stock == e.stock && e.conf.Some?
    ensures var (e', v) := E.Accept(x, e, s, Awaits(p.account, s.boot, s.seqno));
            var event := EventFor(s, E.Min(500, e.conf.value.maxPoints), v);
            && Possible(p, x, lim, event) && Next(p, x, event).stock == e'.stock
            && (v == E.Stale ==> Next(p, x, event) == p)
            && (v != E.Stale ==> !Awaits(Next(p, x, event).account, s.boot, s.seqno))
  {
    var accounted := Awaits(p.account, s.boot, s.seqno);
    ER.AcceptStock(x, e, s, accounted);
    hide E.Accept, Awaits, E.Own, Next, Possible, EventFor;
    VerdictIsEvent(p, x, lim, s, E.Min(500, e.conf.value.maxPoints), E.Accept(x, e, s, accounted).1);
  }
}
