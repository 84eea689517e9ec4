/** What holds of the outbox over whole runs, with crashes and with any repository call failing:
    the session mirrors the tables, and nothing handed out is forgotten. */
module OutboxRuns {
  import opened Common
  import opened Outbox

  /** Session entries match repository rows, column for column; rows are what was inserted. */
  ghost predicate Mirror(o: Outbox) {
    && o.rows.Keys == o.session.entries.Keys
    && (forall k :: k in o.rows ==> o.session.entries[k].meta == o.rows[k].meta)
    && (forall k :: k in o.rows ==>
      o.rows[k].meta.hash == o.rows[k].payload && o.rows[k].meta.size == |o.rows[k].payload|)
    && (forall k :: k in o.session.staged ==> k !in o.session.entries)
  }

  /** Whatever was handed out and is still stored has been counted durably first. */
  ghost predicate WriteAhead(o: Outbox) {
    && (forall q :: q in o.handed ==> q < o.nextOrder)
    && (forall k :: k in o.rows && o.rows[k].meta.order in o.handed ==> o.rows[k].meta.attempts >= 1)
    && (forall i :: 0 <= i < |o.log| ==> o.log[i].order in o.handed)
  }

  ghost predicate OrdersDistinct(o: Outbox) {
    && (forall k :: k in o.rows ==> o.rows[k].meta.order < o.nextOrder)
    && (forall j, k :: j in o.rows && k in o.rows && o.rows[j].meta.order == o.rows[k].meta.order ==> j == k)
  }

  /** Only pending entries are in flight, only attempted ones were sent, only dead ones have a cause. */
  ghost predicate EntryOk(e: Entry) {
    && (e.meta.dead ==> !e.active)
    && (e.everSent || e.previousSent ==> e.meta.attempts >= 1)
    && (e.meta.dead <==> e.meta.source.Some?)
  }

  ghost predicate Flags(s: Session) {
    && (forall k :: k in s.entries ==> EntryOk(s.entries[k]))
    && (forall k :: k in s.staged ==> NeverSent(s.staged[k]))
  }

  ghost predicate Durable(o: Outbox) {
    Mirror(o) && WriteAhead(o) && OrdersDistinct(o) && Flags(o.session)
  }

  // ---- Rows added, changed and removed

  /** What the tables and the session look like after `key`'s row has become `row`. */
  ghost predicate RowSet(o: Outbox, o': Outbox, key: Key, row: Stored, entry: Entry) {
    && o'.rows == o.rows[key := row] && o'.session.entries == o.session.entries[key := entry]
    && o'.session.staged == o.session.staged - {key}
  }

  lemma RowSetMirror(o: Outbox, o': Outbox, key: Key, row: Stored, entry: Entry)
    requires Mirror(o) && RowSet(o, o', key, row, entry)
    requires row.meta == entry.meta && row.meta.hash == row.payload && row.meta.size == |row.payload|
    ensures Mirror(o')
  {
  }

  lemma RowSetFlags(o: Outbox, o': Outbox, key: Key, row: Stored, entry: Entry)
    requires Flags(o.session) && RowSet(o, o', key, row, entry) && EntryOk(entry)
    ensures Flags(o'.session)
  {
  }

  lemma RowSetOrders(o: Outbox, o': Outbox, key: Key, row: Stored, entry: Entry)
    requires OrdersDistinct(o) && RowSet(o, o', key, row, entry)
    requires if key in o.rows then row.meta.order == o.rows[key].meta.order && o'.nextOrder == o.nextOrder
             else row.meta.order == o.nextOrder && o'.nextOrder == o.nextOrder + 1
    ensures OrdersDistinct(o')
  {
  }

  lemma InsertDurable(o: Outbox, key: Key, payload: Bytes, stamp: Option<Stamp>, wire: int, truth: real)
    requires Durable(o) && key in o.session.staged && key !in o.session.entries
    ensures Durable(InsertStep(o, key, payload, stamp, wire, truth))
  {
    var o' := InsertStep(o, key, payload, stamp, wire, truth);
    var row, entry := o'.rows[key], o'.session.entries[key];
    assert RowSet(o, o', key, row, entry);
    RowSetMirror(o, o', key, row, entry);
    RowSetFlags(o, o', key, row, entry);
    RowSetOrders(o, o', key, row, entry);
    assert WriteAhead(o');
  }

  lemma ReserveDurable(o: Outbox, key: Key, later: real)
    requires Durable(o) && key in o.session.entries && !o.session.entries[key].meta.dead
    ensures Durable(ReserveStep(o, key, later))
  {
    var o' := ReserveStep(o, key, later);
    var row, entry := o'.rows[key], o'.session.entries[key];
    ReserveSets(o, key, later);
    ReserveAhead(o, key, later);
    hide ReserveStep, Mirror, Flags, OrdersDistinct, WriteAhead, RowSet, EntryOk;
    RowSetMirror(o, o', key, row, entry);
    RowSetFlags(o, o', key, row, entry);
    RowSetOrders(o, o', key, row, entry);
  }

  lemma ReserveSets(o: Outbox, key: Key, later: real)
    requires Mirror(o) && Flags(o.session) && key in o.session.entries && !o.session.entries[key].meta.dead
    ensures var o' := ReserveStep(o, key, later);
            && key in o'.rows && key in o'.session.entries && key in o.rows && o'.nextOrder == o.nextOrder
            && var row, entry := o'.rows[key], o'.session.entries[key];
            && RowSet(o, o', key, row, entry) && EntryOk(entry) && row.meta == entry.meta
            && row.meta.hash == row.payload && row.meta.size == |row.payload|
              && row.meta.order == o.rows[key].meta.order
  {
    assert o.session.staged - {key} == o.session.staged;
    assert EntryOk(o.session.entries[key]);
  }

  lemma ReserveAhead(o: Outbox, key: Key, later: real)
    requires Mirror(o) && WriteAhead(o) && OrdersDistinct(o)
    ensures WriteAhead(ReserveStep(o, key, later))
  {
  }

  lemma RemoveDurable(o: Outbox, gone: set<Key>)
    requires Durable(o)
    ensures Durable(o.(rows := o.rows - gone, session := o.session.(entries := o.session.entries - gone)))
  {
  }

  lemma StoredDurable(o: Outbox, key: Key)
    requires Durable(o)
    ensures Durable(AckStoredStep(o, key))
  {
    RemoveDurable(o, {key});
    hide Durable;
  }

  lemma TerminateDurable(o: Outbox, key: Key, reason: string, source: Source, pruned: set<Key>, truth: real)
    requires Durable(o) && key in o.session.entries
    ensures Durable(TerminateStep(o, key, reason, source, pruned, truth))
  {
    var o' := KilledStep(o, key, reason, source, truth);
    KilledDurable(o, key, reason, source, truth);
    RemoveDurable(o', pruned);
    assert TerminateStep(o, key, reason, source, pruned, truth)
      == o'.(rows := o'.rows - pruned, session := o'.session.(entries := o'.session.entries - pruned));
    hide Durable;
  }

  /** The row declared dead, before any is pruned. */
  function KilledStep(o: Outbox, key: Key, reason: string, source: Source, truth: real): Outbox {
    var s := o.session;
    if key !in s.entries || key !in o.rows then o else
    var meta := Killed(s.entries[key].meta, reason, source);
    o.(rows := o.rows[key := o.rows[key].(meta := meta)],
       session := s.(entries := s.entries[key := s.entries[key].(meta := meta, active := false)]),
       died := o.died[key := truth])
  }

  lemma KilledSets(o: Outbox, key: Key, reason: string, source: Source, truth: real)
    requires Mirror(o) && Flags(o.session) && key in o.session.entries
    ensures var o' := KilledStep(o, key, reason, source, truth);
            && key in o'.rows && key in o'.session.entries && key in o.rows && o'.nextOrder == o.nextOrder
            && var row, entry := o'.rows[key], o'.session.entries[key];
            && RowSet(o, o', key, row, entry) && EntryOk(entry) && row.meta == entry.meta
            && row.meta.hash == row.payload && row.meta.size == |row.payload|
              && row.meta.order == o.rows[key].meta.order
  {
    assert o.session.staged - {key} == o.session.staged;
    assert EntryOk(o.session.entries[key]);
  }

  lemma KilledAhead(o: Outbox, key: Key, reason: string, source: Source, truth: real)
    requires Mirror(o) && WriteAhead(o)
    ensures WriteAhead(KilledStep(o, key, reason, source, truth))
  {
  }

  lemma KilledDurable(o: Outbox, key: Key, reason: string, source: Source, truth: real)
    requires Durable(o) && key in o.session.entries
    ensures Durable(KilledStep(o, key, reason, source, truth))
  {
    var o' := KilledStep(o, key, reason, source, truth);
    var row, entry := o'.rows[key], o'.session.entries[key];
    KilledSets(o, key, reason, source, truth);
    KilledAhead(o, key, reason, source, truth);
    hide KilledStep, Mirror, Flags, OrdersDistinct, WriteAhead, RowSet, EntryOk;
    RowSetMirror(o, o', key, row, entry);
    RowSetFlags(o, o', key, row, entry);
    RowSetOrders(o, o', key, row, entry);
  }

  lemma RestartDurable(o: Outbox, mono: real)
    requires Durable(o)
    ensures Durable(RestartStep(o, mono))
  {
    var o' := RestartStep(o, mono);
    assert forall k :: k in o'.session.entries ==> EntryOk(o.session.entries[k]);
  }

  // ---- Steps that change no row

  predicate Volatile(op: Op) {
    op.Stage? || op.DropRate? || op.Release? || op.SdkRejected? || op.AckRetry? || op.OpenGate? || op.DropStaged?
  }

  predicate Calmer(e: Entry, e': Entry) {
    && e'.meta == e.meta && e'.events == e.events && e'.boot == e.boot && (e'.active ==> e.active)
    && (e'.everSent || e'.previousSent ==> e.everSent || e.previousSent)
  }

  /** They leave every entry its columns, put none in flight, and keep staged entries unsent. */
  ghost predicate Calm(s: Session, s': Session) {
    && s'.entries.Keys == s.entries.Keys
    && (forall k :: k in s.entries ==> Calmer(s.entries[k], s'.entries[k]))
    && (forall k :: k in s'.staged ==> k !in s'.entries && NeverSent(s'.staged[k]))
  }

  ghost predicate StagedOk(s: Session) {
    forall k :: k in s.staged ==> k !in s.entries && NeverSent(s.staged[k])
  }

  lemma EditCalm(s: Session, k: Key, e: Entry)
    requires StagedOk(s) && k in s.entries && Calmer(s.entries[k], e)
    ensures Calm(s, s.(entries := s.entries[k := e]))
  {
  }

  lemma StageCalm(o: Outbox, k: Key, e: Entry)
    requires StagedOk(o.session) && NeverSent(e) && k !in o.session.entries
    ensures Calm(o.session, StageStep(o, k, e).session)
  {
  }

  lemma ReleaseCalm(o: Outbox, mono: real)
    requires StagedOk(o.session)
    ensures Calm(o.session, ReleaseStep(o, mono).session)
  {
  }

  lemma GateCalm(o: Outbox, watermark: nat)
    requires StagedOk(o.session)
    ensures Calm(o.session, OpenGateStep(o, watermark).session)
  {
  }

  lemma SdkRejectedCalm(o: Outbox, k: Key)
    requires StagedOk(o.session) && k in o.session.entries
    ensures Calm(o.session, SdkRejectedStep(o, k).session)
  {
    var s := o.session;
    EditCalm(s, k, s.entries[k].(everSent := s.entries[k].previousSent, active := false));
  }

  lemma AckRetryCalm(o: Outbox, k: Key, mono: real)
    requires StagedOk(o.session) && k in o.session.entries
    ensures Calm(o.session, AckRetryStep(o, k, mono).session)
  {
    var s := o.session;
    EditCalm(s, k, s.entries[k].(due := mono + 60.0, active := false));
  }

  /** Neither the rate window nor dropping what is staged touches an entry. */
  lemma KeptCalm(s: Session)
    requires StagedOk(s)
    ensures Calm(s, s.(staged := map[])) && forall rate :: Calm(s, s.(rate := rate))
  {
  }

  lemma VolatileCalm(o: Outbox, lim: Limits, op: Op)
    requires StagedOk(o.session) && Volatile(op) && Can(o, lim, op)
    ensures Calm(o.session, Step(o, op).session)
  {
    KeptCalm(o.session);
    hide StagedOk, Calm, NeverSent, StageStep, ReleaseStep, OpenGateStep, SdkRejectedStep, AckRetryStep;
    match op
    case Stage(k, e) => StageCalm(o, k, e);
    case Release(mono) => ReleaseCalm(o, mono);
    case OpenGate(watermark) => GateCalm(o, watermark);
    case SdkRejected(k) => SdkRejectedCalm(o, k);
    case AckRetry(k, mono) => AckRetryCalm(o, k, mono);
    case _ =>
  }

  lemma CalmDurable(o: Outbox, s: Session, clock: real)
    requires Durable(o) && Calm(o.session, s)
    ensures Durable(o.(session := s, clock := clock))
  {
    CalmFlags(o.session, s);
    CalmMirror(o, s, clock);
    hide Mirror, Flags, Calm;
  }

  lemma CalmFlags(s: Session, s': Session)
    requires Flags(s) && Calm(s, s')
    ensures Flags(s')
  {
    assert forall k :: k in s'.entries ==> EntryOk(s.entries[k]) && Calmer(s.entries[k], s'.entries[k]);
  }

  lemma CalmMirror(o: Outbox, s: Session, clock: real)
    requires Mirror(o) && Calm(o.session, s)
    ensures Mirror(o.(session := s, clock := clock))
  {
    assert forall k :: k in s.entries ==> Calmer(o.session.entries[k], s.entries[k]);
    hide NeverSent;
  }

  lemma VolatileDurable(o: Outbox, lim: Limits, op: Op)
    requires Durable(o) && Volatile(op) && Can(o, lim, op)
    ensures Durable(Step(o, op))
  {
    VolatileCalm(o, lim, op);
    CalmDurable(o, Step(o, op).session, Step(o, op).clock);
    assert Step(o, op) == o.(session := Step(o, op).session, clock := Step(o, op).clock);
    hide Durable, Calm;
  }

  /** Opening the tables again under a living session: nothing is refused and nothing changes. */
  lemma ReattachSame(o: Outbox, mono: real)
    requires Mirror(o)
    ensures MayReattach(o) && ReattachStep(o, mono) == o
  {
    var s, s' := o.session, ReattachStep(o, mono).session;
    assert s'.entries == s.entries by {
      forall k | k in s.entries ensures s'.entries[k] == s.entries[k] {
        assert s.entries[k].(meta := o.rows[k].meta) == s.entries[k];
      }
    }
    assert s'.staged == s.staged;
  }

  lemma DurableParts(o: Outbox)
    requires Durable(o)
    ensures Mirror(o)
  {
  }

  /** Every step the code takes keeps the mirror and counts attempts ahead of handing out. */
  lemma StepDurable(o: Outbox, lim: Limits, op: Op)
    requires Durable(o) && Can(o, lim, op)
    ensures Durable(Step(o, op))
  {
    DurableParts(o);
    hide Durable, Mirror, Correlates, AckStoredStep, InsertStep, ReserveStep, TerminateStep, RestartStep, ReattachStep;
    match op
    case Insert(k, payload, stamp, wire, truth) => InsertDurable(o, k, payload, stamp, wire, truth);
    case Reserve(k, mono, later, now) => ReserveDurable(o, k, later);
    case AckStored(k) => StoredDurable(o, k);
    case Terminate(k, reason, source, pruned, mono, now, truth) =>
      TerminateDurable(o, k, reason, source, pruned, truth);
    case Restart(mono) => RestartDurable(o, mono);
    case Reattach(mono) => ReattachSame(o, mono);
    case _ => VolatileDurable(o, lim, op);
  }
}
