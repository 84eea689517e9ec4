/** Store and forward end to end: an outbox that crashes and restarts, a receiver, and between them a
    network that drops, repeats and reorders but does not forge (quality of service 1, section 4.3.2
    of MQTT Version 3.1.1). Messages and acknowledgements are therefore sets that only grow: any
    element may arrive at any later time, any number of times, or never. */
module Delivery {
  import opened Common
  import opened Outbox
  import opened OutboxRuns
  import opened Receiver

  datatype Message = Message(key: Key, bytes: Bytes)

  /** `texts` remembers what was ever stored under a message id, `confirmed` what the outbox deleted on STORED. */
  datatype System = System(outbox: Outbox, receipts: seq<Receipt>, configs: map<nat, Config>,
                           messages: set<Message>, acks: set<Ack>, texts: map<Key, Bytes>, confirmed: map<Key, Bytes>)

  const Start := System(Empty, [], map[], {}, {}, map[], map[])

  datatype World = World(lim: Limits, quota: Quota, read: Reader)

  datatype Event =
    | Local(op: Op)
    | Install(version: nat, config: Config)
    | Arrive(message: Message, now: int, fault: bool)
    | Answered(ack: Ack, op: Op)

  predicate FromReceiver(op: Op) {
    op.AckStored? || op.AckRetry? || (op.Terminate? && op.source == PermanentReject)
  }

  /** What the outbox makes of an acknowledgement. */
  predicate Answers(ack: Ack, op: Op) {
    && FromReceiver(op) && op.key == ack.id
    && (op.AckStored? <==> ack.code.None?)
    && (op.AckRetry? <==> ack.code.Some? && TryAgain([ack.code.value]))
  }

  /** The outbox files a payload under the message id its text carries. */
  predicate WellFiled(read: Reader, key: Key, bytes: Bytes) {
    read(bytes).Some? && read(bytes).value.id == key
  }

  /** A message id, once used, is never used for another payload. */
  predicate MayFile(texts: map<Key, Bytes>, read: Reader, op: Op) {
    op.Insert? ==> WellFiled(read, op.key, op.payload) && (op.key in texts ==> texts[op.key] == op.payload)
  }

  ghost predicate Possible(s: System, w: World, e: Event) {
    match e
    case Local(op) => Can(s.outbox, w.lim, op) && !FromReceiver(op) && MayFile(s.texts, w.read, op)
    case Install(version, config) => version !in s.configs
    case Arrive(m, now, fault) => m in s.messages
    case Answered(ack, op) => ack in s.acks && Answers(ack, op) && Can(s.outbox, w.lim, op)
  }

  function Published(o: Outbox, op: Op): set<Message> {
    if op.Reserve? && op.key in o.rows then {Message(op.key, o.rows[op.key].payload)} else {}
  }

  function Filed(texts: map<Key, Bytes>, op: Op): map<Key, Bytes> {
    if op.Insert? then texts[op.key := op.payload] else texts
  }

  function Confirmed(o: Outbox, op: Op, confirmed: map<Key, Bytes>): map<Key, Bytes> {
    if op.AckStored? && op.key in o.rows then confirmed[op.key := o.rows[op.key].payload] else confirmed
  }

  function Next(s: System, w: World, e: Event): System {
    match e
    case Local(op) =>
      s.(outbox := Step(s.outbox, op), messages := s.messages + Published(s.outbox, op), texts := Filed(s.texts, op))
    case Install(version, config) => s.(configs := s.configs[version := config])
    case Arrive(m, now, fault) =>
      if w.read(m.bytes).None? then s
      else
        var (receipts, ack) := Reception(s.receipts, s.configs, w.quota, w.read(m.bytes).value, m.bytes, now, fault);
        s.(receipts := receipts, acks := s.acks + {ack})
    case Answered(ack, op) => s.(outbox := Step(s.outbox, op), confirmed := Confirmed(s.outbox, op, s.confirmed))
  }

  function Evolve(s: System, w: World, events: seq<Event>): System
    decreases |events|
  {
    if events == [] then s else Evolve(Next(s, w, events[0]), w, events[1..])
  }

  ghost predicate Happens(s: System, w: World, events: seq<Event>)
    decreases |events|
  {
    events != [] ==> Possible(s, w, events[0]) && Happens(Next(s, w, events[0]), w, events[1..])
  }

  // ---- What links the two ends

  /** Whatever is stored or was published is the one text ever filed under its id, and carries that id. */
  ghost predicate Sending(rows: map<Key, Stored>, messages: set<Message>, texts: map<Key, Bytes>, read: Reader) {
    && (forall m :: m in messages ==> m.key in texts && texts[m.key] == m.bytes)
    && (forall k :: k in rows ==> k in texts && texts[k] == rows[k].payload)
    && (forall k :: k in texts ==> WellFiled(read, k, texts[k]))
  }

  ghost predicate Genuine(receipts: seq<Receipt>, messages: set<Message>) {
    forall i :: 0 <= i < |receipts| ==> Message(receipts[i].id, receipts[i].payload) in messages
  }

  /** STORED is only ever said of a batch that is stored; no id is ever in conflict. */
  ghost predicate Truthful(acks: set<Ack>, receipts: seq<Receipt>) {
    forall a :: a in acks ==> (a.code.None? ==> Lookup(receipts, a.id).Some?) && a.code != Some("VERSION_CONFLICT")
  }

  ghost predicate Safe(confirmed: map<Key, Bytes>, receipts: seq<Receipt>) {
    forall k :: k in confirmed ==> Holds(receipts, k, confirmed[k])
  }

  ghost predicate Linked(s: System, w: World) {
    && Durable(s.outbox) && Sending(s.outbox.rows, s.messages, s.texts, w.read)
    && Sane(s.receipts, w.quota) && Genuine(s.receipts, s.messages)
    && Truthful(s.acks, s.receipts) && Safe(s.confirmed, s.receipts)
  }

  // ---- The outbox's side

  /** Only an insertion brings a payload, and none is ever changed. */
  lemma PayloadsKept(o: Outbox, op: Op)
    requires Mirror(o)
    ensures forall k :: k in Step(o, op).rows && (op.Insert? ==> k != op.key) ==>
              k in o.rows && Step(o, op).rows[k].payload == o.rows[k].payload
  {
    hide Handed, Killed, Restored, Joined, Unexpired, Released;
  }

  lemma LocalSending(o: Outbox, op: Op, messages: set<Message>, texts: map<Key, Bytes>, read: Reader)
    requires Mirror(o) && Sending(o.rows, messages, texts, read) && MayFile(texts, read, op)
    ensures Sending(Step(o, op).rows, messages + Published(o, op), Filed(texts, op), read)
  {
    PayloadsKept(o, op);
  }

  // ---- The receiver's side

  lemma {:induction false} ValuesFaultCodes(values: seq<Value>, devices: map<string, map<string, bool>>, now: int)
    ensures ValuesFault(values, devices, now) != Some("VERSION_CONFLICT")
  {
    if values != [] { ValuesFaultCodes(values[1..], devices, now); }
  }

  lemma HoldsGrows(receipts: seq<Receipt>, after: seq<Receipt>, id: Key, payload: Bytes)
    requires receipts <= after && Holds(receipts, id, payload)
    ensures Holds(after, id, payload)
  {
    var i :| 0 <= i < |receipts| && receipts[i].id == id && receipts[i].payload == payload;
    assert after[i] == receipts[i];
  }

  lemma {:induction false} LookupGrows(receipts: seq<Receipt>, after: seq<Receipt>, id: Key)
    requires receipts <= after && Lookup(receipts, id).Some?
    ensures Lookup(after, id) == Lookup(receipts, id)
  {
    if receipts[0].id != id { LookupGrows(receipts[1..], after[1..], id); }
  }

  /** An id that is stored is stored with the bytes that arrive. */
  lemma NoConflict(s: System, w: World, m: Message)
    requires Linked(s, w) && m in s.messages && Lookup(s.receipts, m.key).Some?
    ensures Lookup(s.receipts, m.key) == Some(m.bytes)
  {
    LookupFinds(s.receipts, m.key);
    var p := Lookup(s.receipts, m.key).value;
    var i :| 0 <= i < |s.receipts| && s.receipts[i].id == m.key && s.receipts[i].payload == p;
    assert Message(s.receipts[i].id, s.receipts[i].payload) in s.messages;
  }

  lemma NeverConflict(s: System, w: World, m: Message, now: int, fault: bool)
    requires Linked(s, w) && m in s.messages
    ensures w.read(m.bytes).Some?
    ensures var wire := w.read(m.bytes).value;
            Reception(s.receipts, s.configs, w.quota, wire, m.bytes, now, fault).1.code != Some("VERSION_CONFLICT")
  {
    var wire := w.read(m.bytes).value;
    assert wire.id == m.key;
    if Lookup(s.receipts, m.key).Some? { NoConflict(s, w, m); }
    if wire.version in s.configs { ValuesFaultCodes(wire.values, s.configs[wire.version].devices, now); }
    hide Linked, Lookup, ValuesFault, Volume;
  }

  lemma ArriveTruthful(s: System, w: World, m: Message, now: int, fault: bool)
    requires Linked(s, w) && m in s.messages
    ensures var n := Next(s, w, Arrive(m, now, fault));
            Truthful(n.acks, n.receipts) && Safe(n.confirmed, n.receipts)
  {
    var wire := w.read(m.bytes).value;
    var (after, ack) := Reception(s.receipts, s.configs, w.quota, wire, m.bytes, now, fault);
    assert w.read(m.bytes).Some? && wire.id == m.key && Sane(s.receipts, w.quota);
    NeverConflict(s, w, m, now, fault);
    hide Durable, Sending, Genuine, Reception, Lookup;
    ReceptionSound(s.receipts, s.configs, w.quota, wire, m.bytes, now, fault);
    if ack.code.None? { LookupUnique(after, m.key, m.bytes); }
    StillTrue(s.acks, s.confirmed, s.receipts, after);
    hide Safe, Holds, OncePerId;
  }

  lemma StillTrue(acks: set<Ack>, confirmed: map<Key, Bytes>, receipts: seq<Receipt>, after: seq<Receipt>)
    requires receipts <= after && Truthful(acks, receipts) && Safe(confirmed, receipts)
    ensures Truthful(acks, after) && Safe(confirmed, after)
  {
    hide Lookup;
    forall a | a in acks && a.code.None? ensures Lookup(after, a.id).Some? { LookupGrows(receipts, after, a.id); }
    forall k | k in confirmed ensures Holds(after, k, confirmed[k]) { HoldsGrows(receipts, after, k, confirmed[k]); }
  }

  lemma ArriveLinked(s: System, w: World, m: Message, now: int, fault: bool)
    requires Linked(s, w) && m in s.messages
    ensures Linked(Next(s, w, Arrive(m, now, fault)), w)
  {
    ArriveTruthful(s, w, m, now, fault);
    ReceptionSound(s.receipts, s.configs, w.quota, w.read(m.bytes).value, m.bytes, now, fault);
  }

  // ---- Both

  /** The moment of deletion: the receiver already holds exactly the bytes of the row. */
  lemma DeletedWhenHeld(s: System, w: World, ack: Ack, op: Op)
    requires Linked(s, w) && Possible(s, w, Answered(ack, op)) && op.AckStored?
    ensures op.key in s.outbox.rows && Holds(s.receipts, op.key, s.outbox.rows[op.key].payload)
  {
    LookupFinds(s.receipts, op.key);
    var p := Lookup(s.receipts, op.key).value;
    var i :| 0 <= i < |s.receipts| && s.receipts[i].id == op.key && s.receipts[i].payload == p;
    assert Message(s.receipts[i].id, s.receipts[i].payload) in s.messages;
  }

  lemma AnsweredSafe(s: System, w: World, ack: Ack, op: Op)
    requires Linked(s, w) && Possible(s, w, Answered(ack, op))
    ensures Safe(Confirmed(s.outbox, op, s.confirmed), s.receipts)
  {
    if op.AckStored? { DeletedWhenHeld(s, w, ack, op); }
  }

  lemma AnsweredLinked(s: System, w: World, ack: Ack, op: Op)
    requires Linked(s, w) && Possible(s, w, Answered(ack, op))
    ensures Linked(Next(s, w, Answered(ack, op)), w)
  {
    StepDurable(s.outbox, w.lim, op);
    LocalSending(s.outbox, op, s.messages, s.texts, w.read);
    AnsweredSafe(s, w, ack, op);
  }

  lemma LocalLinked(s: System, w: World, op: Op)
    requires Linked(s, w) && Possible(s, w, Local(op))
    ensures Linked(Next(s, w, Local(op)), w)
  {
    StepDurable(s.outbox, w.lim, op);
    LocalSending(s.outbox, op, s.messages, s.texts, w.read);
  }

  lemma NextLinked(s: System, w: World, e: Event)
    requires Linked(s, w) && Possible(s, w, e)
    ensures Linked(Next(s, w, e), w)
  {
    match e
    case Local(op) => LocalLinked(s, w, op);
    case Install(version, config) =>
    case Arrive(m, now, fault) => ArriveLinked(s, w, m, now, fault);
    case Answered(ack, op) => AnsweredLinked(s, w, ack, op);
  }

  lemma {:induction false} EvolveLinked(s: System, w: World, events: seq<Event>)
    requires Linked(s, w) && Happens(s, w, events)
    ensures Linked(Evolve(s, w, events), w)
    decreases |events|
  {
    if events != [] {
      NextLinked(s, w, events[0]);
      EvolveLinked(Next(s, w, events[0]), w, events[1..]);
    }
  }

  /** In every run with loss, repetition, reordering, crashes and failing stores: whatever the outbox
      deleted on STORED is held by the receiver, byte for byte, and no id has two receipts. */
  lemma EndToEnd(w: World, events: seq<Event>)
    requires Happens(Start, w, events)
    ensures var s := Evolve(Start, w, events);
            && OncePerId(s.receipts)
            && (forall k :: k in s.confirmed ==> Holds(s.receipts, k, s.confirmed[k]))
  {
    assert Linked(Start, w);
    EvolveLinked(Start, w, events);
  }

  /** And at the moment of each such deletion the receipt was already there. */
  lemma ReceivedBeforeDeleted(w: World, events: seq<Event>, ack: Ack, key: Key)
    requires Happens(Start, w, events) && Possible(Evolve(Start, w, events), w, Answered(ack, AckStored(key)))
    ensures var s := Evolve(Start, w, events);
            key in s.outbox.rows && Holds(s.receipts, key, s.outbox.rows[key].payload)
            && Next(s, w, Answered(ack, AckStored(key))).confirmed == s.confirmed[key := s.outbox.rows[key].payload]
  {
    assert Linked(Start, w);
    EvolveLinked(Start, w, events);
    DeletedWhenHeld(Evolve(Start, w, events), w, ack, AckStored(key));
  }
}
