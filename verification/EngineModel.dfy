/** Event selection and batching in RAM (src/plcnext_iot/reporting/engine.py), as functions of a state
    without reference counts: what is retained is the set of samples some map still names, and the
    bytes in use are the sum of their charges. */
module EngineModel {
  import opened Common

  type Name = (string, string)
  type Interval = x: int | x > 0 witness 1

  /** What a point's samples may be compared within: one configuration, one time line. */
  datatype Epoch = Epoch(version: int, generation: int, time: int)

  datatype Val = Absent | Flag(on: bool) | Number(x: real)

  /** `captured`: identity, completion and scheduler origin are present. `timed`: it has a usable timestamp. */
  datatype Sample = Sample(boot: string, seqno: nat, gateway: string, epoch: Epoch, name: Name, value: Val,
                           quality: string,
                           physical: bool, slot: Option<int>, completed: int, origin: int, captured: bool, timed: bool)

  datatype Mode = Change | Cyclic | ChangeOrCyclic

  datatype Point = Point(mode: Mode, deadband: real, interval: Interval)

  datatype Conf = Conf(version: int, points: map<Name, Point>, maxPoints: nat, batchInterval: real)

  /** Identity and bounds of the engine, and how samples are weighed and written. */
  datatype Setup = Setup(gateway: string, boot: string, capacity: nat, maxBytes: nat,
                         charge: Sample -> nat, width: Sample -> nat, text: (seq<Sample>, int, nat, string) -> Bytes)

  // ---- State

  /** What selection remembers: per point the current epoch, the last sequence number seen, the next
      report slot, the newest committed sample and the newest one still owned. */
  datatype Memory = Memory(epochs: map<Name, Epoch>, seen: map<Name, nat>, due: map<Name, int>,
                           baselines: map<Name, Sample>,
                           shadows: map<Name, Sample>, owners: map<(Epoch, Name), map<nat, Sample>>)

  datatype Queued = Queued(sample: Sample, limit: nat)

  datatype Batch = Batch(payload: Bytes, version: int, samples: seq<Sample>, preparedAt: real, sequence: nat)

  datatype Held = Held(batch: Batch, category: Class)

  /** The events the engine owns, and where each waits. */
  datatype Stock = Stock(owned: map<nat, Sample>, recent: seq<Queued>, history: seq<Queued>, frozen: seq<Held>,
                         preferNew: bool, watermark: nat, sequence: nat)

  /** What an earlier engine of the process remembered under its last configuration. */
  datatype Checkpoint = Checkpoint(conf: Option<Conf>, generation: Option<int>, memory: Memory)

  /** `carried`: the process's checkpoint, until the first configuration makes it this engine's own. */
  datatype Engine = Engine(conf: Option<Conf>, generation: Option<int>, latest: map<Name, Sample>, memory: Memory,
                           stock: Stock,
                           carried: Option<Checkpoint>)

  const Blank := Memory(map[], map[], map[], map[], map[], map[])
  const NoStock := Stock(map[], [], [], [], true, 0, 0)

  function Initial(carried: Option<Checkpoint>): Engine { Engine(None, None, map[], Blank, NoStock, carried) }

  // ---- Bytes

  function Retained(e: Engine): set<Sample> {
    e.latest.Values + e.memory.baselines.Values + e.stock.owned.Values
  }

  ghost function SumCharge(charge: Sample -> nat, samples: set<Sample>): nat {
    if samples == {} then 0 else var s :| s in samples; charge(s) + SumCharge(charge, samples - {s})
  }

  function Cost(b: Batch): nat { |b.payload| + 256 + 8 * |b.samples| }

  function SumCost(frozen: seq<Held>): nat {
    if frozen == [] then 0 else Cost(frozen[0].batch) + SumCost(frozen[1..])
  }

  ghost function Used(x: Setup, e: Engine): nat {
    SumCharge(x.charge, Retained(e)) + SumCost(e.stock.frozen)
  }

  function Min(a: int, b: int): int { if a <= b then a else b }

  /** What events and the latest view may use: an eighth of the bytes, at most 2 MiB, is for batches. */
  function EventBytes(x: Setup): int { x.maxBytes - Min(2 * 1024 * 1024, x.maxBytes / 8) }

  // ---- Selection

  /** The sample a new one is compared with: the newest of what is owned and what is committed. */
  function Baseline(m: Memory, k: Name): Option<Sample> {
    if k in m.shadows && k in m.baselines
    then Some(if m.shadows[k].seqno >= m.baselines[k].seqno then m.shadows[k] else m.baselines[k])
    else if k in m.shadows then Some(m.shadows[k])
    else if k in m.baselines then Some(m.baselines[k])
    else None
  }

  function Abs(x: real): real { if x < 0.0 then -x else x }

  function Moved(a: Val, b: Val, deadband: real): bool {
    if a.Number? && b.Number? then Abs(a.x - b.x) > deadband else a != b
  }

  /** Selected for what it says, compared with `base`. */
  function Differs(p: Point, base: Option<Sample>, s: Sample): bool {
    || base.None? || base.value.quality != s.quality
    || (s.quality == "GOOD" && p.mode != Cyclic && Moved(s.value, base.value.value, p.deadband))
  }

  /** Selected for when it was polled. */
  function Reports(p: Point, s: Sample): bool { p.mode != Change && s.physical }

  predicate BadSlot(p: Point, s: Sample) { Reports(p, s) && (s.slot.None? || s.slot.value > s.completed) }

  predicate Triggers(p: Point, due: int, s: Sample) {
    Reports(p, s) && s.slot.Some? && s.slot.value >= due
  }

  /** How many slots of the grid the poll at `q` has reached. */
  function Slots(p: Point, due: int, q: int): int
  {
    (q - due) / p.interval + 1
  }

  function NextDue(p: Point, due: int, s: Sample): int {
    if Triggers(p, due, s) then due + Slots(p, due, s.slot.value) * p.interval else due
  }

  /** The sample is seen; if it opens an epoch, the point starts afresh. */
  function Begin(m: Memory, s: Sample): Memory {
    var m' := m.(seen := m.seen[s.name := s.seqno]);
    if s.name in m.epochs && m.epochs[s.name] == s.epoch then m'
    else m'.(epochs := m.epochs[s.name := s.epoch], baselines := m.baselines - {s.name},
      shadows := m.shadows - {s.name},
             due := m.due[s.name := s.origin])
  }

  function DueOf(m: Memory, k: Name): int { if k in m.due then m.due[k] else 0 }

  function Remember(m: Memory, s: Sample): Memory {
    var group := (s.epoch, s.name);
    var mine := if group in m.owners then m.owners[group] else map[];
    m.(owners := m.owners[group := mine[s.seqno := s]], shadows := m.shadows[s.name := s])
  }

  // ---- Accepting a sample

  datatype Verdict =
    Discarded | Malformed | Stale | SlotError | Filtered | TimeInvalid | NoRoom | Unaccounted | Admitted

  predicate Foreign(x: Setup, conf: Option<Conf>, generation: Option<int>, s: Sample) {
    || s.gateway != x.gateway || conf.None? || s.epoch.version != conf.value.version
    || s.name !in conf.value.points || (generation.Some? && s.epoch.generation != generation.value)
  }

  predicate SeenBefore(seen: map<Name, nat>, s: Sample) {
    s.seqno <= if s.name in seen then seen[s.name] else 0
  }

  /** The optional latest view, as far as it fits. */
  ghost function Show(x: Setup, e: Engine, s: Sample): Engine {
    var e' := e.(latest := e.latest - {s.name});
    if Used(x, e') + x.charge(s) <= EventBytes(x) then e'.(latest := e'.latest[s.name := s]) else e'
  }

  ghost predicate CanAdmit(x: Setup, e: Engine, s: Sample) {
    && |e.stock.owned| < x.capacity
    && Used(x, e) + (if s in Retained(e) then 0 else x.charge(s)) <= EventBytes(x)
  }

  function Own(st: Stock, s: Sample, limit: nat): Stock {
    var st' := st.(owned := st.owned[s.seqno := s]);
    if s.seqno <= st.watermark then st'.(history := st.history + [Queued(s, limit)])
    else st'.(recent := st.recent + [Queued(s, limit)])
  }

  /** Whether a sample of the current configuration is selected, given the point's memory. */
  function Chosen(p: Point, m: Memory, s: Sample): bool {
    Differs(p, Baseline(m, s.name), s) || Triggers(p, DueOf(m, s.name), s)
  }

  /** Why a sample is not looked at. */
  function Turned(x: Setup, e: Engine, s: Sample): Option<Verdict> {
    if Foreign(x, e.conf, e.generation, s) then Some(Discarded)
    else if !s.captured || s.boot != x.boot then Some(Malformed)
    else if SeenBefore(e.memory.seen, s) then Some(Stale)
    else None
  }

  /** The sample has been seen and shown. */
  ghost function Shown(x: Setup, e: Engine, s: Sample): Engine {
    Show(x, e.(memory := Begin(e.memory, s)), s)
  }

  /** What is decided about a sample that has been shown. */
  ghost function Ruling(x: Setup, e: Engine, p: Point, s: Sample, accounted: bool): Verdict {
    if BadSlot(p, s) then SlotError
    else if !Chosen(p, e.memory, s) then Filtered
    else if !s.timed then TimeInvalid
    else if !CanAdmit(x, e, s) then NoRoom
    else if !accounted then Unaccounted
    else Admitted
  }

  function Advanced(m: Memory, p: Point, s: Sample): Memory {
    m.(due := m.due[s.name := NextDue(p, DueOf(m, s.name), s)])
  }

  /** The report grid moves on, and an admitted sample is owned. */
  function Applied(e: Engine, p: Point, limit: nat, s: Sample, v: Verdict): Engine {
    if v == SlotError then e
    else if v != Admitted then e.(memory := Advanced(e.memory, p, s))
    else e.(memory := Remember(Advanced(e.memory, p, s), s), stock := Own(e.stock, s, limit))
  }

  ghost function Accept(x: Setup, e: Engine, s: Sample, accounted: bool): (Engine, Verdict) {
    if Turned(x, e, s).Some? then (e, Turned(x, e, s).value)
    else
      var p, shown := e.conf.value.points[s.name], Shown(x, e, s);
      var v := Ruling(x, shown, p, s, accounted);
      (Applied(shown, p, Min(500, e.conf.value.maxPoints), s, v), v)
  }

  // ---- Freezing a batch

  function SumWidth(x: Setup, q: seq<Queued>): nat {
    if q == [] then 0 else SumWidth(x, q[..|q| - 1]) + x.width(q[|q| - 1].sample) + 1
  }

  /** The smallest limit among the first n events, and at most 500. */
  function Cap(q: seq<Queued>, n: nat): int
    requires n <= |q|
  {
    if n == 0 then 500 else Min(Cap(q, n - 1), q[n - 1].limit)
  }

  /** What the values written so far leave open for one more. */
  predicate Joins(x: Setup, q: seq<Queued>, n: nat)
    requires 0 < n < |q|
  {
    && (forall i :: 0 <= i < n ==> q[i].sample.name != q[n].sample.name)
    && q[n].sample.epoch.version == q[0].sample.epoch.version
    && n < Cap(q, n + 1)
    && 512 + SumWidth(x, q[..n]) + x.width(q[n].sample) + 1 <= 131072
  }

  function CutFrom(x: Setup, q: seq<Queued>, n: nat): (r: nat)
    requires 0 < n <= |q|
    ensures n <= r <= |q|
    decreases |q| - n
  {
    if n < |q| && n < 500 && Joins(x, q, n) then CutFrom(x, q, n + 1) else n
  }

  /** The length of the next batch. */
  function Cut(x: Setup, q: seq<Queued>): (r: nat)
    requires q != []
    ensures 0 < r <= |q|
  {
    CutFrom(x, q, 1)
  }

  function SamplesOf(q: seq<Queued>): seq<Sample> {
    seq(|q|, i requires 0 <= i < |q| => q[i].sample)
  }

  function InClass(frozen: seq<Held>, c: Class): nat {
    if frozen == [] then 0 else (if frozen[0].category == c then 1 else 0) + InClass(frozen[1..], c)
  }

  function QueueOf(st: Stock, c: Class): seq<Queued> { if c == New then st.recent else st.history }

  predicate Available(st: Stock, c: Class) { QueueOf(st, c) != [] && InClass(st.frozen, c) < 7 }

  /** The preferred class if it may have a slot; else new before history. */
  function NextClass(st: Stock): Option<Class> {
    var preferred := if st.preferNew then New else History;
    if Available(st, preferred) then Some(preferred)
    else if Available(st, New) then Some(New)
    else if Available(st, History) then Some(History)
    else None
  }

  function NewBatch(x: Setup, st: Stock, c: Class, now: real, wall: int, id: string): Batch
    requires QueueOf(st, c) != []
  {
    var taken := SamplesOf(QueueOf(st, c)[..Cut(x, QueueOf(st, c))]);
    Batch(x.text(taken, wall, st.sequence + 1, id), taken[0].epoch.version, taken, now, st.sequence + 1)
  }

  function Freeze(x: Setup, st: Stock, c: Class, now: real, wall: int, id: string): Stock
    requires QueueOf(st, c) != []
  {
    var q := QueueOf(st, c);
    var st' := st.(frozen := st.frozen + [Held(NewBatch(x, st, c, now, wall, id), c)], preferNew := c != New,
      sequence := st.sequence + 1);
    if c == New then st'.(recent := q[Cut(x, q)..]) else st'.(history := q[Cut(x, q)..])
  }

  /** A sequence number was drawn for a batch that was not kept. */
  function Skipped(st: Stock): Stock { st.(sequence := st.sequence + 1) }

  // ---- Letting go

  ghost predicate IsMax(mine: map<nat, Sample>, q: nat) {
    q in mine && forall j :: j in mine ==> j <= q
  }

  ghost function MaxOf(mine: map<nat, Sample>): (q: nat)
    requires mine != map[]
    ensures IsMax(mine, q)
  {
    MaxExists(mine);
    var q :| IsMax(mine, q); q
  }

  lemma MaxExists(mine: map<nat, Sample>)
    requires mine != map[]
    ensures exists q :: IsMax(mine, q)
    decreases |mine|
  {
    var k :| k in mine;
    var top := k;
    if mine - {k} != map[] {
      MaxExists(mine - {k});
      var q :| IsMax(mine - {k}, q);
      top := if k > q then k else q;
    }
    forall j | j in mine ensures j <= top { assert j == k || j in mine - {k}; }
    assert IsMax(mine, top);
  }

  /** The owners without sample number `q` of a group; an emptied group goes. */
  function Without(owners: map<(Epoch, Name), map<nat, Sample>>, g: (Epoch, Name), q: nat)
    : map<(Epoch, Name), map<nat, Sample>>
  {
    if g !in owners then owners
    else if owners[g] - {q} == map[] then owners - {g}
    else owners[g := owners[g] - {q}]
  }

  /** A sample is no longer owned; the shadow falls back to the newest that still is. */
  ghost function Release(m: Memory, s: Sample): Memory {
    var g := (s.epoch, s.name);
    if g !in m.owners then m
    else
      var rest := m.owners[g] - {s.seqno};
      m.(owners := Without(m.owners, g, s.seqno),
         shadows := if s.name !in m.epochs || m.epochs[s.name] != s.epoch then m.shadows
                    else if rest == map[] then m.shadows - {s.name}
                    else m.shadows[s.name := rest[MaxOf(rest)]])
  }

  /** A committed sample of the current epoch becomes the baseline unless a newer one is. */
  function Settle(m: Memory, s: Sample): Memory {
    if s.name in m.epochs && m.epochs[s.name] == s.epoch
       && (s.name in m.baselines ==> s.seqno > m.baselines[s.name].seqno)
    then m.(baselines := m.baselines[s.name := s])
    else m
  }

  ghost function Commit(m: Memory, samples: seq<Sample>): Memory
    decreases |samples|
  {
    if samples == [] then m else Commit(Release(Settle(m, samples[0]), samples[0]), samples[1..])
  }

  function Ids(samples: seq<Sample>): set<nat> { set s | s in samples :: s.seqno }

  ghost function Committed(e: Engine, i: nat): Engine
    requires i < |e.stock.frozen|
  {
    var samples := e.stock.frozen[i].batch.samples;
    e.(memory := Commit(e.memory, samples),
       stock := e.stock.(frozen := e.stock.frozen[..i] + e.stock.frozen[i + 1..],
         owned := e.stock.owned - Ids(samples)))
  }

  function Gate(st: Stock, watermark: nat): Stock {
    st.(watermark := watermark, history := st.history + st.recent, recent := [],
        frozen := seq(|st.frozen|, i requires 0 <= i < |st.frozen| => st.frozen[i].(category := History)))
  }

  /** The producer has stopped: everything owned is given up. */
  function Abandoned(e: Engine): Engine {
    e.(memory := e.memory.(owners := map[], shadows := map[]),
       stock := e.stock.(owned := map[], recent := [], history := [], frozen := []))
  }

  /** The memory a configuration starts from: the checkpoint's if it was made under the same one. */
  function KeptMemory(carried: Option<Checkpoint>, conf: Option<Conf>, generation: Option<int>): Memory {
    if carried.Some? && carried.value.conf == conf && carried.value.generation == generation then carried.value.memory
    else Blank
  }

  /** A new configuration: comparisons start afresh or from the checkpoint's memory, owned events stay. From
      now on the checkpoint is this engine's memory, which no other configuration matches. */
  function Configured(e: Engine, conf: Option<Conf>, generation: Option<int>): Engine {
    e.(conf := conf, generation := generation, latest := map[], carried := None,
       memory := KeptMemory(e.carried, conf, generation).(shadows := map[], owners := e.memory.owners))
  }
}
