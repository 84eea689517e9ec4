/** What the receiver answers, told from the batch, the configurations and the room alone, and what the
    outbox makes of a refusal: a batch is isolated only on a refusal that nothing passing can undo
    (src/plcnext_iot/storage/receiver.py:35-82, src/plcnext_iot/storage/outbox.py:256-287). */
module DeliveryRefusals {
  import opened Common
  import opened Outbox
  import opened Receiver
  import opened Delivery

  // ---- What the receiver answers

  /** A value of an enabled point, not more than five minutes ahead, and of the point's kind if it is good. */
  predicate Known(v: Value, devices: map<string, map<string, bool>>, now: int) {
    && v.device in devices && v.point in devices[v.device] && v.timestamp <= now + 300000
    && (v.good ==> (devices[v.device][v.point] <==> v.isBool))
  }

  /** The version is installed and its text is what was installed. */
  predicate Readable(w: Wire, configs: map<nat, Config>) {
    w.version in configs && configs[w.version].parses && configs[w.version].intact
  }

  /** Not a week old, not more than five minutes ahead, and every value known. */
  predicate Storable(w: Wire, config: Config, now: int) {
    && now - 604800000 <= w.timestamp <= now + 300000
    && forall v :: v in w.values ==> Known(v, config.devices, now)
  }

  predicate Room(receipts: seq<Receipt>, quota: Quota, payload: Bytes) {
    |receipts| < quota.maxBatches && Volume(receipts) + |payload| <= quota.maxBytes
  }

  predicate Taken(receipts: seq<Receipt>, id: Key) { exists r :: r in receipts && r.id == id }

  lemma {:induction false} ValuesKnown(values: seq<Value>, devices: map<string, map<string, bool>>, now: int)
    ensures ValuesFault(values, devices, now).None? <==> forall v :: v in values ==> Known(v, devices, now)
  {
    if values != [] {
      assert forall v :: v in values <==> v == values[0] || v in values[1..];
      ValuesKnown(values[1..], devices, now);
      assert ValueFault(values[0], devices, now).None? <==> Known(values[0], devices, now);
    }
  }

  lemma TakenExactly(receipts: seq<Receipt>, id: Key)
    ensures Lookup(receipts, id).Some? <==> Taken(receipts, id)
  {
    LookupFinds(receipts, id);
  }

  /** STORED is answered exactly if the text is in order, nothing failed, and the id is held with these very
      bytes or, being new, names a readable configuration, is storable under it, and there is room. */
  lemma StoredExactly(receipts: seq<Receipt>, configs: map<nat, Config>, quota: Quota, w: Wire, payload: Bytes,
                      now: int,
                      fault: bool)
    requires OncePerId(receipts)
    ensures Reception(receipts, configs, quota, w, payload, now, fault).1.code.None?
            <==> && w.schemaOk && !fault
                 && if Taken(receipts, w.id) then Holds(receipts, w.id, payload)
                    else Readable(w, configs) && Storable(w, configs[w.version], now) && Room(receipts, quota, payload)
  {
    TakenExactly(receipts, w.id);
    LookupFinds(receipts, w.id);
    if Holds(receipts, w.id, payload) { LookupUnique(receipts, w.id, payload); }
    if w.version in configs { ValuesKnown(w.values, configs[w.version].devices, now); }
    hide Lookup, ValuesFault, Volume, Known;
  }

  /** What is wrong with the first value that cannot be stored. */
  function CodeOf(v: Value, devices: map<string, map<string, bool>>, now: int): string {
    if v.device !in devices then "UNKNOWN_DEVICE"
    else if v.point !in devices[v.device] then "UNKNOWN_POINT"
    else if v.timestamp > now + 300000 then "INVALID_TIMESTAMP"
    else "SCHEMA_INVALID"
  }

  /** Why a batch is refused, the first reason in this order. */
  predicate Reason(receipts: seq<Receipt>, configs: map<nat, Config>, quota: Quota, w: Wire, payload: Bytes, now: int,
                   fault: bool, code: string) {
    if !w.schemaOk then code == "SCHEMA_INVALID"
    else if fault then code == "STORAGE_ERROR"
    else if Taken(receipts, w.id) then code == "VERSION_CONFLICT"
    else if w.version !in configs then code == "UNKNOWN_CONFIG_VERSION"
    else if !Readable(w, configs) then code == "STORAGE_ERROR"
    else if w.timestamp < now - 604800000 then code == "EXPIRED_DATA"
    else if w.timestamp > now + 300000 then code == "INVALID_TIMESTAMP"
    else
      var devices := configs[w.version].devices;
      if forall v :: v in w.values ==> Known(v, devices, now) then code == "RESOURCE_LIMIT"
      else exists i ::
             0 <= i < |w.values| && FirstBad(w.values, devices, now, i) && code == CodeOf(w.values[i], devices, now)
  }

  predicate FirstBad(values: seq<Value>, devices: map<string, map<string, bool>>, now: int, i: nat)
    requires i < |values|
  {
    !Known(values[i], devices, now) && forall j :: 0 <= j < i ==> Known(values[j], devices, now)
  }

  lemma {:induction false} SomeFirst(values: seq<Value>, devices: map<string, map<string, bool>>, now: int)
    requires exists v :: v in values && !Known(v, devices, now)
    ensures exists i: nat :: i < |values| && FirstBad(values, devices, now, i)
              && ValuesFault(values, devices, now) == Some(CodeOf(values[i], devices, now))
  {
    if Known(values[0], devices, now) {
      SomeFirst(values[1..], devices, now);
      var i: nat :| i < |values[1..]| && FirstBad(values[1..], devices, now, i)
                    && ValuesFault(values[1..], devices, now) == Some(CodeOf(values[1..][i], devices, now));
      assert forall j :: 0 < j <= i ==> values[j] == values[1..][j - 1];
      assert FirstBad(values, devices, now, i + 1);
    } else {
      assert FirstBad(values, devices, now, 0);
    }
  }

  lemma ReasonExactly(receipts: seq<Receipt>, configs: map<nat, Config>, quota: Quota, w: Wire, payload: Bytes,
                      now: int,
                      fault: bool)
    requires Reception(receipts, configs, quota, w, payload, now, fault).1.code.Some?
    ensures Reason(receipts, configs, quota, w, payload, now, fault,
                   Reception(receipts, configs, quota, w, payload, now, fault).1.code.value)
  {
    TakenExactly(receipts, w.id);
    if w.version in configs {
      var devices := configs[w.version].devices;
      ValuesKnown(w.values, devices, now);
      if !(forall v :: v in w.values ==> Known(v, devices, now)) { SomeFirst(w.values, devices, now); }
    }
    hide Lookup, ValuesFault, Volume, Known, CodeOf, FirstBad, Taken;
  }

  // ---- What passes, and what does not

  /** A refusal that may be over tomorrow: the receiver failed, did not have the version or could not read it,
      or was full. */
  predicate Passing(receipts: seq<Receipt>, configs: map<nat, Config>, w: Wire, now: int, fault: bool) {
    && w.schemaOk
    && (fault || (!Taken(receipts, w.id) && (Readable(w, configs) ==> Storable(w, configs[w.version], now))))
  }

  /** A refusal that stands: without failure and with whatever room, the same text is refused under the same
      configurations at the same time; and if it was judged by its configuration, that was readable. */
  ghost predicate Standing(receipts: seq<Receipt>, configs: map<nat, Config>, w: Wire, payload: Bytes, now: int) {
    && (forall quota :: Reception(receipts, configs, quota, w, payload, now, false).1.code.Some?)
    && (w.schemaOk && !Taken(receipts, w.id) ==> Readable(w, configs))
  }

  /** The outbox tries again exactly after a refusal that may pass, and isolates exactly after one that
      stands. */
  lemma IsolatesExactly(receipts: seq<Receipt>, configs: map<nat, Config>, quota: Quota, w: Wire, payload: Bytes,
                        now: int,
                        fault: bool, op: Op)
    requires OncePerId(receipts)
    requires Answers(Reception(receipts, configs, quota, w, payload, now, fault).1, op) && !op.AckStored?
    ensures op.AckRetry? <==> Passing(receipts, configs, w, now, fault)
    ensures op.Terminate? ==> Standing(receipts, configs, w, payload, now)
  {
    var code := Reception(receipts, configs, quota, w, payload, now, fault).1.code.value;
    ReasonExactly(receipts, configs, quota, w, payload, now, fault);
    RetryExactly(code);
    ReasonPasses(receipts, configs, quota, w, payload, now, fault, code);
    if !Passing(receipts, configs, w, now, fault) { StandsOn(receipts, configs, quota, w, payload, now, fault); }
    hide Reception, Reason, TryAgain, Standing;
  }

  lemma RetryExactly(code: string)
    ensures TryAgain([code])
            <==> code == "UNKNOWN_CONFIG_VERSION" || code == "RESOURCE_LIMIT" || code == "STORAGE_ERROR"
  {
    assert code in [code];
  }

  lemma ReasonPasses(receipts: seq<Receipt>, configs: map<nat, Config>, quota: Quota, w: Wire, payload: Bytes, now: int,
                     fault: bool, code: string)
    requires Reason(receipts, configs, quota, w, payload, now, fault, code)
    ensures Passing(receipts, configs, w, now, fault)
            <==> code == "UNKNOWN_CONFIG_VERSION" || code == "RESOURCE_LIMIT" || code == "STORAGE_ERROR"
  {
    hide Known, Taken, FirstBad;
  }

  lemma StandsOn(receipts: seq<Receipt>, configs: map<nat, Config>, quota: Quota, w: Wire, payload: Bytes, now: int,
                 fault: bool)
    requires OncePerId(receipts) && !Passing(receipts, configs, w, now, fault)
    requires Reception(receipts, configs, quota, w, payload, now, fault).1.code.Some?
    ensures Standing(receipts, configs, w, payload, now)
  {
    StoredExactly(receipts, configs, quota, w, payload, now, fault);
    forall other ensures Reception(receipts, configs, other, w, payload, now, false).1.code.Some? {
      StoredExactly(receipts, configs, other, w, payload, now, false);
    }
    hide Reception, Known, Taken, Volume;
  }

  // ---- Every run

  lemma {:induction false} EvolveMore(s: System, w: World, events: seq<Event>, e: Event)
    ensures Evolve(s, w, events + [e]) == Next(Evolve(s, w, events), w, e)
    decreases |events|
  {
    if events == [] {
      assert events + [e] == [e] && [e][1..] == [];
      assert Evolve(Next(s, w, e), w, []) == Next(s, w, e);
    } else {
      assert (events + [e])[1..] == events[1..] + [e];
      EvolveMore(Next(s, w, events[0]), w, events[1..], e);
    }
  }

  lemma {:induction false} HappensLess(s: System, w: World, events: seq<Event>, n: nat)
    requires Happens(s, w, events) && n <= |events|
    ensures Happens(s, w, events[..n])
    decreases |events|
  {
    if n > 0 {
      assert events[..n][1..] == events[1..][..n - 1];
      HappensLess(Next(s, w, events[0]), w, events[1..], n - 1);
    }
  }

  /** The i-th event is the arrival that the receiver answered with `ack`. */
  ghost predicate Answering(w: World, events: seq<Event>, i: nat, ack: Ack) {
    && i < |events| && events[i].Arrive? && w.read(events[i].message.bytes).Some?
    && var s, m := Evolve(Start, w, events[..i]), events[i].message;
       ack == Reception(s.receipts, s.configs, w.quota, w.read(m.bytes).value, m.bytes, events[i].now,
         events[i].fault).1
  }

  lemma NextAcks(s: System, w: World, e: Event, ack: Ack)
    requires ack in Next(s, w, e).acks
    ensures ack in s.acks
            || (e.Arrive? && w.read(e.message.bytes).Some?
                && ack == Reception(s.receipts, s.configs, w.quota, w.read(e.message.bytes).value, e.message.bytes,
                  e.now,
                                    e.fault).1)
  {
    hide Reception, Step;
  }

  lemma {:induction false} AckAnswered(w: World, events: seq<Event>, ack: Ack)
    requires ack in Evolve(Start, w, events).acks
    ensures exists i: nat :: Answering(w, events, i, ack)
    decreases |events|
  {
    if events != [] {
      var n := |events| - 1;
      assert events == events[..n] + [events[n]];
      EvolveMore(Start, w, events[..n], events[n]);
      NextAcks(Evolve(Start, w, events[..n]), w, events[n], ack);
      hide Next, Evolve, Reception;
      if ack in Evolve(Start, w, events[..n]).acks {
        AckAnswered(w, events[..n], ack);
        var i: nat :| Answering(w, events[..n], i, ack);
        assert events[..n][..i] == events[..i];
        assert Answering(w, events, i, ack);
      } else {
        assert Answering(w, events, n, ack);
      }
    }
  }

  /** When the i-th event, an arrival, was answered, the refusal was one that may pass, or one that stands. */
  ghost predicate PassingAt(w: World, events: seq<Event>, i: nat)
    requires i < |events| && events[i].Arrive? && w.read(events[i].message.bytes).Some?
  {
    var s, m := Evolve(Start, w, events[..i]), events[i].message;
    Passing(s.receipts, s.configs, w.read(m.bytes).value, events[i].now, events[i].fault)
  }

  ghost predicate StandingAt(w: World, events: seq<Event>, i: nat)
    requires i < |events| && events[i].Arrive? && w.read(events[i].message.bytes).Some?
  {
    var s, m := Evolve(Start, w, events[..i]), events[i].message;
    Standing(s.receipts, s.configs, w.read(m.bytes).value, m.bytes, events[i].now)
  }

  lemma OnceEver(w: World, events: seq<Event>)
    requires Happens(Start, w, events)
    ensures OncePerId(Evolve(Start, w, events).receipts)
  {
    EndToEnd(w, events);
  }

  /** In every run: whatever answer the receiver gave and however late it is acted on, a refusal that may pass
      is tried again, and never isolates; one that isolates stands. */
  lemma AnsweredExactly(w: World, events: seq<Event>, ack: Ack, op: Op, i: nat)
    requires Happens(Start, w, events) && Answering(w, events, i, ack) && Answers(ack, op) && !op.AckStored?
    ensures op.AckRetry? <==> PassingAt(w, events, i)
    ensures op.Terminate? ==> StandingAt(w, events, i)
  {
    HappensLess(Start, w, events, i);
    OnceEver(w, events[..i]);
    var s, m := Evolve(Start, w, events[..i]), events[i].message;
    IsolatesExactly(s.receipts, s.configs, w.quota, w.read(m.bytes).value, m.bytes, events[i].now, events[i].fault, op);
    hide Evolve, Reception, Passing, Standing, Answers;
  }

  /** A batch that is isolated was refused by the receiver for a reason that stands. */
  lemma IsolatedForGood(w: World, events: seq<Event>, ack: Ack, op: Op)
    requires Happens(Start, w, events) && Possible(Evolve(Start, w, events), w, Answered(ack, op)) && op.Terminate?
    ensures exists i: nat :: Answering(w, events, i, ack) && StandingAt(w, events, i)
  {
    AckAnswered(w, events, ack);
    var i: nat :| Answering(w, events, i, ack);
    AnsweredExactly(w, events, ack, op, i);
    hide Evolve, Answers, Standing, Reception;
  }
}
