/** The telemetry outbox: durable rows, the process-owned session over them, and the steps its
    methods are made of (src/plcnext_iot/storage/outbox.py, outbox_session.py, batch_repository.py).
    A repository call is one atomic step; when it fails the step does not happen. `Can` says when
    the code takes a step, `Step` what it then does. Monotonic time is in seconds and not durable. */
module Outbox {
  import opened Common

  type Key = string

  const WEEK_MS: int := 7 * 86400 * 1000
  const WINDOW_BYTES: int := 512 * 1024

  datatype Source = AgeExpired | PermanentReject

  /** A trusted reading of hub time: UTC, how far it may be off, and whose time it is. */
  datatype Stamp = Stamp(utc: int, error: int, basis: string)

  /** The columns of a batch row that the session keeps a copy of. */
  datatype Meta = Meta(order: nat, hash: Bytes, size: nat, attempts: nat, dead: bool, reason: string,
                       source: Option<Source>, stamp: Option<Stamp>, wire: int)

  datatype Stored = Stored(meta: Meta, payload: Bytes)

  datatype Entry = Entry(meta: Meta, category: Class, due: real, active: bool, events: seq<nat>, boot: Option<string>,
                         everSent: bool, previousSent: bool)

  /** An entry whose batch has not been handed out. */
  predicate NeverSent(e: Entry) {
    !e.active && !e.everSent && !e.previousSent && e.due == 0.0
  }

  datatype Session = Session(entries: map<Key, Entry>, staged: map<Key, Entry>, watermark: nat, preferNew: bool,
                             nextSend: real, rate: seq<(real, nat)>)

  /** One payload handed out by `reserve`. A batch is a row: its local order is never given again, while
      its message id is free once the row is gone. */
  datatype Sent = Sent(time: real, size: nat, key: Key, order: nat, attempt: nat, category: Class)

  datatype Limits = Limits(maxBatches: nat, maxBytes: nat, maxDead: nat, maxRecords: nat)

  /** Tables and session, and what only the proofs remember: the reservations of this process, the
      order of every row ever handed out, true hub time when a row was stamped and when it was declared
      dead, and the latest monotonic reading that pacing has used. */
  datatype Outbox = Outbox(rows: map<Key, Stored>, nextOrder: nat, session: Session,
                           log: seq<Sent>, handed: set<nat>, born: map<Key, real>, died: map<Key, real>, clock: real)

  const Fresh := Session(map[], map[], 0, true, 0.0, [])
  const Empty := Outbox(map[], 1, Fresh, [], {}, map[], map[], 0.0)

  // ---- Sets and sums over entries

  function Dead(entries: map<Key, Entry>): set<Key> {
    set k | k in entries && entries[k].meta.dead
  }

  function Active(entries: map<Key, Entry>): set<Key> {
    set k | k in entries && entries[k].active
  }

  function ActiveIn(entries: map<Key, Entry>, c: Class): set<Key> {
    set k | k in entries && entries[k].active && entries[k].category == c
  }

  ghost function TotalSize(entries: map<Key, Entry>): nat {
    if entries == map[] then 0 else var k :| k in entries; entries[k].meta.size + TotalSize(entries - {k})
  }

  function SumRate(rate: seq<(real, nat)>): nat {
    if rate == [] then 0 else rate[0].1 + SumRate(rate[1..])
  }

  // ---- Who may be sent next

  /** The reading of hub time taken for each entry that is due; none without platform time. */
  type Readings = map<Key, Stamp>

  /** Unknown age is no obstacle; a foreign time basis or a stamp from the future is. */
  predicate TimeAllows(now: Stamp, m: Meta) {
    && (m.stamp.Some? ==> m.stamp.value.basis == now.basis)
    && m.wire <= now.utc + now.error + 300000
  }

  /** Pending, not in flight and past its deadline. */
  predicate Due(e: Entry, mono: real) { !e.meta.dead && !e.active && e.due <= mono }

  predicate Eligible(e: Entry, k: Key, mono: real, now: Readings) {
    Due(e, mono) && (k in now ==> TimeAllows(now[k], e.meta))
  }

  /** The entries of a class that may be sent; none when the class already holds seven slots. */
  function Candidates(entries: map<Key, Entry>, c: Class, mono: real, now: Readings): set<Key> {
    if |ActiveIn(entries, c)| >= 7 then {}
    else set k | k in entries && entries[k].category == c && Eligible(entries[k], k, mono, now)
  }

  /** The preferred class if it has candidates, else the other. */
  function NextClass(s: Session, mono: real, now: Readings): Class {
    var preferred := if s.preferNew then New else History;
    if Candidates(s.entries, preferred, mono, now) != {} then preferred else Other(preferred)
  }

  ghost predicate IsNext(s: Session, k: Key, mono: real, now: Readings) {
    && k in s.entries
    && k in Candidates(s.entries, NextClass(s, mono, now), mono, now)
    && forall j :: j in Candidates(s.entries, NextClass(s, mono, now), mono, now) ==>
         s.entries[k].meta.order <= s.entries[j].meta.order
  }

  // ---- Age

  /** The least age, in ms, that the two readings leave open. */
  function LeastAge(now: Stamp, m: Meta): int {
    if m.stamp.Some? && m.stamp.value.basis == now.basis
    then now.utc - now.error - m.stamp.value.utc - m.stamp.value.error
    else 0
  }

  predicate Expired(e: Entry, mono: real, now: Stamp) {
    !e.meta.dead && LeastAge(now, e.meta) >= WEEK_MS && !(e.active && mono < e.due)
  }

  /** True hub time lies inside the reading. */
  ghost predicate Encloses(s: Stamp, truth: real) {
    (s.utc - s.error) as real <= truth <= (s.utc + s.error) as real
  }

  /** The oldest dead rows that must go so that the dead quota holds with `key` among them. */
  ghost predicate Overflow(entries: map<Key, Entry>, key: Key, maxDead: nat, pruned: set<Key>) {
    var dead := Dead(entries) + {key};
    && key in entries && pruned <= dead
    && |pruned| == (if |dead| <= maxDead then 0 else |dead| - maxDead)
    && forall p, q :: p in pruned && q in dead - pruned ==> entries[p].meta.order <= entries[q].meta.order
  }

  // ---- Steps

  datatype Op =
    | Stage(key: Key, entry: Entry)
    | Insert(key: Key, payload: Bytes, stamp: Option<Stamp>, wire: int, truth: real)
    | DropRate(mono: real)
    | Release(mono: real)
    | Reserve(key: Key, mono: real, later: real, readings: Readings)
    | SdkRejected(key: Key)
    | AckStored(key: Key)
    | AckRetry(key: Key, mono: real)
    | Terminate(key: Key, reason: string, source: Source, pruned: set<Key>, mono: real, now: Option<Stamp>, truth: real)
    | OpenGate(watermark: nat)
    | DropStaged
    | Restart(mono: real)
    | Reattach(mono: real)

  /** An acknowledgement correlates with an entry that was handed out at least once. */
  predicate Correlates(s: Session, k: Key) {
    k in s.entries && s.entries[k].meta.attempts > 0
  }

  predicate MayStore(e: Entry) {
    e.meta.dead ==> e.meta.source == Some(AgeExpired) && e.everSent
  }

  /** Codes that do not condemn the batch: try again in a minute. */
  const Retryable: set<string> := {"UNKNOWN_CONFIG_VERSION", "RESOURCE_LIMIT", "STORAGE_ERROR"}

  predicate TryAgain(codes: seq<string>) {
    codes != [] && forall c :: c in codes ==> c in Retryable
  }

  // ---- When the code takes each step

  ghost predicate MayStage(s: Session, lim: Limits, k: Key, e: Entry) {
    && k !in s.entries && k !in s.staged && |s.entries| + |s.staged| < lim.maxRecords
    && NeverSent(e)
  }

  ghost predicate MayInsert(o: Outbox, lim: Limits, k: Key, payload: Bytes, stamp: Option<Stamp>, truth: real) {
    && k in o.session.staged && k !in o.session.entries
    && |o.session.entries| < lim.maxBatches && TotalSize(o.session.entries) + |payload| <= lim.maxBytes
    && o.nextOrder < MAX_SAFE
    && (stamp.Some? ==> Encloses(stamp.value, truth))
  }

  ghost predicate MayReserve(o: Outbox, k: Key, mono: real, later: real, now: Readings) {
    var s := o.session;
    && o.clock <= mono <= later && s.nextSend <= mono && |s.rate| < 4
    && |Active(s.entries)| < 8
    && IsNext(s, k, mono, now)
    && SumRate(s.rate) + s.entries[k].meta.size <= WINDOW_BYTES
  }

  ghost predicate MayTerminate(s: Session, lim: Limits, k: Key, source: Source, pruned: set<Key>, mono: real,
                               now: Option<Stamp>, truth: real) {
    && k in s.entries && !s.entries[k].meta.dead && Overflow(s.entries, k, lim.maxDead, pruned)
    && (source == AgeExpired ==> now.Some? && Encloses(now.value, truth) && Expired(s.entries[k], mono, now.value))
    && (source == PermanentReject ==> Correlates(s, k))
  }

  /** What opening the tables over a living session demands: the session's batches are all there, unaltered. */
  ghost predicate MayReattach(o: Outbox) {
    && (forall k :: k in o.rows && k in o.session.entries ==> o.session.entries[k].meta.hash == o.rows[k].meta.hash)
    && (forall k :: k in o.session.entries ==> k in o.rows)
  }

  ghost predicate Can(o: Outbox, lim: Limits, op: Op) {
    match op
    case Stage(k, e) => MayStage(o.session, lim, k, e)
    case Insert(k, payload, stamp, wire, truth) => MayInsert(o, lim, k, payload, stamp, truth)
    case DropRate(mono) => o.clock <= mono
    case Release(mono) => true
    case Reserve(k, mono, later, now) => MayReserve(o, k, mono, later, now)
    case SdkRejected(k) => k in o.session.entries && !o.session.entries[k].meta.dead
    case AckStored(k) => Correlates(o.session, k) && MayStore(o.session.entries[k])
    case AckRetry(k, mono) => o.clock <= mono && Correlates(o.session, k) && !o.session.entries[k].meta.dead
    case Terminate(k, reason, source, pruned, mono, now, truth) =>
      MayTerminate(o.session, lim, k, source, pruned, mono, now, truth)
    case OpenGate(watermark) => true
    case DropStaged => true
    case Restart(mono) => true
    case Reattach(mono) => MayReattach(o)
  }

  // ---- What each step does

  function Attempted(m: Meta): Meta {
    m.(attempts := if m.attempts + 1 <= MAX_SAFE then m.attempts + 1 else MAX_SAFE)
  }

  function Gap(attempt: nat): real { if attempt == 1 then 30.0 else 60.0 }

  /** The entry of a row that this process did not insert. */
  function Restored(m: Meta, mono: real): Entry {
    Entry(m, History, mono + (if m.attempts > 0 then 60.0 else 0.0), false, [], None, m.attempts > 0, false)
  }

  function Unexpired(rate: seq<(real, nat)>, mono: real): seq<(real, nat)> {
    if rate != [] && mono - rate[0].0 >= 1.0 then Unexpired(rate[1..], mono) else rate
  }

  function Killed(m: Meta, reason: string, source: Source): Meta {
    m.(dead := true, reason := reason, source := Some(source))
  }

  function StageStep(o: Outbox, key: Key, e: Entry): Outbox {
    o.(session := o.session.(staged := o.session.staged[key := e]))
  }

  function InsertStep(o: Outbox, key: Key, payload: Bytes, stamp: Option<Stamp>, wire: int, truth: real): Outbox {
    var s := o.session;
    if key !in s.staged then o else
    var meta := Meta(o.nextOrder, payload, |payload|, 0, false, "", None, stamp, wire);
    o.(rows := o.rows[key := Stored(meta, payload)], nextOrder := o.nextOrder + 1,
       session := s.(entries := s.entries[key := s.staged[key].(meta := meta)], staged := s.staged - {key}),
       born := o.born[key := truth])
  }

  function DropRateStep(o: Outbox, mono: real): Outbox {
    o.(session := o.session.(rate := Unexpired(o.session.rate, mono)), clock := mono)
  }

  function Released(e: Entry, mono: real): Entry {
    if e.active && mono >= e.due then e.(active := false) else e
  }

  function ReleaseStep(o: Outbox, mono: real): Outbox {
    o.(session := o.session.(entries := map k | k in o.session.entries :: Released(o.session.entries[k], mono)))
  }

  function Handed(e: Entry, later: real): Entry {
    var meta := Attempted(e.meta);
    e.(meta := meta, previousSent := e.everSent, due := later + Gap(meta.attempts), active := true, everSent := true)
  }

  /** Count the attempt durably, then hand the payload out. */
  function ReserveStep(o: Outbox, key: Key, later: real): Outbox {
    var s := o.session;
    if key !in s.entries || key !in o.rows then o else
    var e := Handed(s.entries[key], later);
    o.(rows := o.rows[key := o.rows[key].(meta := e.meta)],
       session := s.(entries := s.entries[key := e], nextSend := later + 0.25, rate := s.rate + [(later, e.meta.size)],
                     preferNew := e.category != New),
       log := o.log + [Sent(later, e.meta.size, key, e.meta.order, e.meta.attempts, e.category)],
       handed := o.handed + {e.meta.order}, clock := later)
  }

  /** The SDK refused the attempt: it was not sent, but its deadline stays. */
  function SdkRejectedStep(o: Outbox, key: Key): Outbox {
    var s := o.session;
    if key !in s.entries then o else
    o.(session := s.(entries :=
      s.entries[key := s.entries[key].(everSent := s.entries[key].previousSent, active := false)]))
  }

  function AckStoredStep(o: Outbox, key: Key): Outbox {
    o.(rows := o.rows - {key}, session := o.session.(entries := o.session.entries - {key}))
  }

  function AckRetryStep(o: Outbox, key: Key, mono: real): Outbox {
    var s := o.session;
    if key !in s.entries then o else
    o.(session := s.(entries := s.entries[key := s.entries[key].(due := mono + 60.0, active := false)]), clock := mono)
  }

  function TerminateStep(o: Outbox, key: Key, reason: string, source: Source, pruned: set<Key>, truth: real): Outbox {
    var s := o.session;
    if key !in s.entries || key !in o.rows then o else
    var meta := Killed(s.entries[key].meta, reason, source);
    o.(rows := o.rows[key := o.rows[key].(meta := meta)] - pruned,
       session := s.(entries := s.entries[key := s.entries[key].(meta := meta, active := false)] - pruned),
       died := o.died[key := truth])
  }

  /** Everything already known becomes history. */
  function OpenGateStep(o: Outbox, watermark: nat): Outbox {
    var s := o.session;
    o.(session := s.(watermark := watermark,
                     entries := map k | k in s.entries :: s.entries[k].(category := History),
                     staged := map k | k in s.staged :: s.staged[k].(category := History)))
  }

  function DropStagedStep(o: Outbox): Outbox {
    o.(session := o.session.(staged := map[]))
  }

  /** Crash and start of a new process: the tables stay, the session is rebuilt from them. */
  function RestartStep(o: Outbox, mono: real): Outbox {
    o.(session := Fresh.(entries := map k | k in o.rows :: Restored(o.rows[k].meta, mono)), log := [], clock := mono)
  }

  /** The entry of a row when the tables are opened over this session: an entry is kept and takes the
      row's columns, a row without one is joined to what was staged for it, or is history. */
  function Joined(s: Session, k: Key, m: Meta, mono: real): Entry {
    if k in s.entries then s.entries[k].(meta := m)
    else if k in s.staged then
      s.staged[k].(meta := m, due := mono + (if m.attempts > 0 then 60.0 else 0.0), everSent := m.attempts > 0)
    else Restored(m, mono)
  }

  /** The tables are opened again in the same process; its session lives on. */
  function ReattachStep(o: Outbox, mono: real): Outbox {
    var s := o.session;
    o.(session := s.(entries := map k | k in o.rows :: Joined(s, k, o.rows[k].meta, mono),
                     staged := s.staged - (o.rows.Keys - s.entries.Keys)))
  }

  function Step(o: Outbox, op: Op): Outbox {
    match op
    case Stage(k, e) => StageStep(o, k, e)
    case Insert(k, payload, stamp, wire, truth) => InsertStep(o, k, payload, stamp, wire, truth)
    case DropRate(mono) => DropRateStep(o, mono)
    case Release(mono) => ReleaseStep(o, mono)
    case Reserve(k, mono, later, now) => ReserveStep(o, k, later)
    case SdkRejected(k) => SdkRejectedStep(o, k)
    case AckStored(k) => AckStoredStep(o, k)
    case AckRetry(k, mono) => AckRetryStep(o, k, mono)
    case Terminate(k, reason, source, pruned, mono, now, truth) => TerminateStep(o, k, reason, source, pruned, truth)
    case OpenGate(watermark) => OpenGateStep(o, watermark)
    case DropStaged => DropStagedStep(o)
    case Restart(mono) => RestartStep(o, mono)
    case Reattach(mono) => ReattachStep(o, mono)
  }

  function Run(o: Outbox, ops: seq<Op>): Outbox
    decreases |ops|
  {
    if ops == [] then o else Run(Step(o, ops[0]), ops[1..])
  }

  /** Every step is one the code takes where it is taken. */
  ghost predicate Permitted(o: Outbox, lim: Limits, ops: seq<Op>)
    decreases |ops|
  {
    ops != [] ==> Can(o, lim, ops[0]) && Permitted(Step(o, ops[0]), lim, ops[1..])
  }
}
