/** The outbox as its code runs it: a session and tables changed in place, with every repository call
    and every demand for trusted time allowed to fail. Each method is a permitted run of the outbox's
    steps, so everything proved of runs holds of the object. */
module OutboxStores {
  import opened Common
  import opened Outbox
  import opened OutboxRuns
  import opened OutboxBounds
  import opened OutboxPacing
  import opened OutboxTheorems
  import opened OutboxRules

  // ---- Runs in pieces

  lemma {:induction false} RunAppend(o: Outbox, lim: Limits, a: seq<Op>, b: seq<Op>)
    requires Permitted(o, lim, a) && Permitted(Run(o, a), lim, b)
    ensures Permitted(o, lim, a + b) && Run(o, a + b) == Run(Run(o, a), b)
    decreases |a|
  {
    if a == [] {
      assert a + b == b;
    } else {
      assert (a + b)[1..] == a[1..] + b;
      hide Can, Step;
      RunAppend(Step(o, a[0]), lim, a[1..], b);
    }
  }

  lemma RunOne(o: Outbox, lim: Limits, op: Op)
    requires Can(o, lim, op)
    ensures Permitted(o, lim, [op]) && Run(o, [op]) == Step(o, op)
  {
    assert [op][1..] == [];
    assert Permitted(Step(o, op), lim, []);
    assert Run(Step(o, op), []) == Step(o, op);
  }

  lemma RunMore(o: Outbox, lim: Limits, ops: seq<Op>, op: Op)
    requires Permitted(o, lim, ops) && Can(Run(o, ops), lim, op)
    ensures Permitted(o, lim, ops + [op]) && Run(o, ops + [op]) == Step(Run(o, ops), op)
  {
    RunOne(Run(o, ops), lim, op);
    RunAppend(o, lim, ops, [op]);
  }

  lemma Longer(start: seq<Op>, history: seq<Op>, ops: seq<Op>, more: seq<Op>)
    requires history == start + ops
    ensures history + more == start + (ops + more)
  {
  }

  // ---- Choosing among entries

  /** The entry with the lowest local order. */
  method Oldest(entries: map<Key, Entry>, keys: set<Key>) returns (k: Key)
    requires keys != {} && keys <= entries.Keys
    ensures k in keys && forall j :: j in keys ==> entries[k].meta.order <= entries[j].meta.order
  {
    k :| k in keys;
    var todo := keys - {k};
    while todo != {}
      invariant todo <= keys && k in keys
      invariant forall j :: j in keys - todo ==> entries[k].meta.order <= entries[j].meta.order
      decreases |todo|
    {
      var j :| j in todo;
      if entries[j].meta.order < entries[k].meta.order { k := j; }
      todo := todo - {j};
    }
  }

  /** The dead rows, oldest first, that leave when `key` joins them. */
  method OldestDead(entries: map<Key, Entry>, key: Key, maxDead: nat) returns (pruned: set<Key>)
    requires key in entries
    ensures Overflow(entries, key, maxDead, pruned)
  {
    var dead := Dead(entries) + {key};
    var left := dead;
    while |left| > maxDead
      invariant left <= dead && (left != dead ==> |left| >= maxDead)
      invariant forall p, q :: p in dead - left && q in left ==> entries[p].meta.order <= entries[q].meta.order
      decreases |left|
    {
      var k := Oldest(entries, left);
      left := left - {k};
    }
    pruned := dead - left;
    RestCount(dead, left);
    assert dead - pruned == left;
  }

  lemma RestCount<T>(all: set<T>, left: set<T>)
    requires left <= all
    ensures |all - left| == |all| - |left| && (left != all ==> |left| < |all|)
  {
    if left != all {
      var x :| x in all && x !in left;
      assert x in all - left;
    }
  }

  /** How many slots a class holds. */
  method SlotsOf(entries: map<Key, Entry>, c: Class) returns (held: nat)
    ensures held == |ActiveIn(entries, c)|
  {
    held := 0;
    var todo := entries.Keys;
    ghost var all, counted: set<Key> := ActiveIn(entries, c), {};
    while todo != {}
      invariant todo <= entries.Keys && held == |counted| && counted == all - todo
      decreases |todo|
    {
      var k :| k in todo;
      var holds := entries[k].active && entries[k].category == c;
      assert holds <==> k in all;
      todo := todo - {k};
      if holds {
        held := held + 1;
        counted := counted + {k};
      }
    }
    assert counted == all;
  }

  /** The entries of a class that may be sent. */
  method Eligibles(entries: map<Key, Entry>, c: Class, mono: real, now: Readings) returns (found: set<Key>)
    ensures found == Candidates(entries, c, mono, now)
  {
    var held := SlotsOf(entries, c);
    found := {};
    if held >= 7 { return; }
    ghost var all := Candidates(entries, c, mono, now);
    var todo := entries.Keys;
    while todo != {}
      invariant todo <= entries.Keys && found == all - todo
      decreases |todo|
    {
      var k :| k in todo;
      var fits := entries[k].category == c && Eligible(entries[k], k, mono, now);
      assert fits <==> k in all;
      todo := todo - {k};
      if fits { found := found + {k}; }
    }
    assert all <= entries.Keys;
  }

  /** What is read for each entry that is due, where hub time is in use. */
  function ReadingsAt(entries: map<Key, Entry>, mono: real, hub: Option<Key -> Stamp>): Readings {
    if hub.None? then map[] else map k | k in entries && Due(entries[k], mono) :: hub.value(k)
  }

  /** Reads hub time anew for each entry that is due; any reading may be refused, which ends the call. */
  method ReadDue(entries: map<Key, Entry>, mono: real, hub: Option<Key -> Stamp>, refused: set<Key>)
    returns (ok: bool, now: Readings)
    ensures ok ==> now == ReadingsAt(entries, mono, hub)
    ensures !ok ==> refused != {}
  {
    now, ok := map[], true;
    if hub.None? { return; }
    ghost var all := ReadingsAt(entries, mono, hub);
    var todo := entries.Keys;
    while todo != {}
      invariant todo <= entries.Keys && ok && now == all - todo
      decreases |todo|
    {
      var k :| k in todo;
      todo := todo - {k};
      if Due(entries[k], mono) {
        if k in refused { return false, now; }
        now := now[k := hub.value(k)];
      }
    }
  }

  method AllHistory(entries: map<Key, Entry>) returns (relabelled: map<Key, Entry>)
    ensures relabelled == map k | k in entries :: entries[k].(category := History)
  {
    relabelled := entries;
    var todo := entries.Keys;
    while todo != {}
      invariant todo <= entries.Keys == relabelled.Keys
      invariant forall k :: k in entries ==>
                  relabelled[k] == if k in todo then entries[k] else entries[k].(category := History)
      decreases |todo|
    {
      var k :| k in todo;
      relabelled := relabelled[k := relabelled[k].(category := History)];
      todo := todo - {k};
    }
  }

  method ReleaseAll(entries: map<Key, Entry>, mono: real) returns (left: map<Key, Entry>)
    ensures left == map k | k in entries :: Released(entries[k], mono)
  {
    left := entries;
    var todo := entries.Keys;
    while todo != {}
      invariant todo <= entries.Keys == left.Keys
      invariant forall k :: k in entries ==> left[k] == if k in todo then entries[k] else Released(entries[k], mono)
      decreases |todo|
    {
      var k :| k in todo;
      if left[k].active && mono >= left[k].due { left := left[k := left[k].(active := false)]; }
      todo := todo - {k};
    }
  }

  /** A batch none of whose events is newer than the watermark is history. */
  method ClassOf(events: seq<nat>, watermark: nat) returns (c: Class)
    ensures c == History <==> events != [] && forall q :: q in events ==> q <= watermark
  {
    if events == [] { return New; }
    var top := Largest(events);
    c := if top <= watermark then History else New;
  }

  method Largest(events: seq<nat>) returns (top: nat)
    requires events != []
    ensures top in events && forall e :: e in events ==> e <= top
  {
    top := events[0];
    for i := 1 to |events|
      invariant top in events && forall j :: 0 <= j < i ==> events[j] <= top
    {
      if events[i] > top { top := events[i]; }
    }
  }

  method TotalOf(entries: map<Key, Entry>) returns (total: nat)
    ensures total == TotalSize(entries)
  {
    total := 0;
    var left := entries;
    while left != map[]
      invariant left.Keys <= entries.Keys && total + TotalSize(left) == TotalSize(entries)
      decreases |left|
    {
      var k :| k in left;
      TotalSplit(left, k);
      total := total + left[k].meta.size;
      left := left - {k};
    }
  }

  // ---- The store

  /** What the environment does during one call: refuses trusted time at once or for one of `unread`, fails
      the transaction that declares one of `expiryFails` dead, has no room for metadata, or fails the call's
      own transaction. */
  datatype Weather = Weather(timeRefused: bool, unread: set<Key>, expiryFails: set<Key>, roomy: bool, callFails: bool)

  datatype Enqueued = Accepted | Full | Conflict | NotEnqueued

  datatype Reserved = Payload(key: Key, bytes: Bytes) | Nothing | NotReserved

  datatype Status = STORED | REJECTED(codes: seq<string>)

  /** The tables are the model's after the run `history`. */
  ghost predicate Reached(lim: Limits, history: seq<Op>, o: Outbox) {
    Permitted(Empty, lim, history) && o == Run(Empty, history)
  }

  lemma Extend(lim: Limits, history: seq<Op>, o: Outbox, op: Op)
    requires Reached(lim, history, o) && Can(o, lim, op)
    ensures Reached(lim, history + [op], Step(o, op))
  {
    RunMore(Empty, lim, history, op);
  }

  lemma Same(lim: Limits, history: seq<Op>, o: Outbox)
    requires Reached(lim, history, o)
    ensures Mirror(o)
  {
    ReachableGood(lim, history);
  }

  class OutboxStore {
    const lim: Limits
    var rows: map<Key, Stored>
    var nextOrder: nat
    var session: Session
    /** The same tables and session with what the proofs remember, and the run that led to them. */
    ghost var model: Outbox
    ghost var history: seq<Op>

    ghost predicate Valid() reads this {
      && model.rows == rows && model.nextOrder == nextOrder && model.session == session
      && Reached(lim, history, model)
    }

    /** A new, empty database. */
    constructor (lim: Limits)
      ensures Valid() && this.lim == lim && history == []
    {
      this.lim := lim;
      rows, nextOrder, session := map[], 1, Fresh;
      model, history := Empty, [];
    }

    /** Declares a batch dead and prunes the oldest dead ones, in one transaction. */
    method Terminal(key: Key, reason: string, source: Source, mono: real, now: Option<Stamp>, ghost truth: real,
                    fault: bool)
      returns (ok: bool, pruned: set<Key>)
      requires Valid() && key in session.entries && !session.entries[key].meta.dead
      requires source == AgeExpired ==>
               now.Some? && Encloses(now.value, truth) && Expired(session.entries[key], mono, now.value)
      requires source == PermanentReject ==> Correlates(session, key)
      modifies this
      ensures Valid() && ok == !fault
      ensures ok ==> history == old(history) + [Terminate(key, reason, source, pruned, mono, now, truth)]
      ensures ok ==> model == TerminateStep(old(model), key, reason, source, pruned, truth)
      ensures !ok ==> model == old(model) && history == old(history)
    {
      hide Reached, Overflow, Expired, Encloses, Correlates;
      pruned := OldestDead(session.entries, key, lim.maxDead);
      ghost var op := Terminate(key, reason, source, pruned, mono, now, truth);
      Extend(lim, history, model, op);
      Same(lim, history, model);
      ok := !fault;
      if fault { return; }
      var e := session.entries[key];
      var meta := Killed(e.meta, reason, source);
      rows := rows[key := rows[key].(meta := meta)] - pruned;
      session := session.(entries := session.entries[key := e.(meta := meta, active := false)] - pruned);
      model, history := TerminateStep(model, key, reason, source, pruned, truth), history + [op];
    }

    /** Declares dead every comparable pending batch that is certainly a week old and not in flight. */
    method Expire(mono: real, now: Option<Stamp>, ghost truth: real, failing: set<Key>)
      returns (ok: bool, ghost ops: seq<Op>)
      requires Valid() && (now.Some? ==> Encloses(now.value, truth))
      modifies this
      ensures Valid() && history == old(history) + ops && Expiry(ops)
      ensures failing == {} ==> ok
      ensures ok && now.Some? ==> forall k :: k in session.entries ==> !Overdue(session.entries[k], mono, now.value)
      ensures OnlyFewer(old(model), model)
    {
      ok, ops := true, [];
      FewerFirst(model);
      if now.None? { return; }
      var todo := session.entries.Keys;
      SiftedFirst(session.entries, mono, now.value);
      hide Reached, Expired, Encloses, Expiry, OnlyFewer, Sifted;
      while todo != {}
        invariant Valid() && history == old(history) + ops && Expiry(ops) && ok
        invariant OnlyFewer(old(model), model) && Sifted(session.entries, todo, mono, now.value)
        decreases |todo|
      {
        var k :| k in todo;
        SiftedMore(session.entries, todo, k, mono, now.value);
        if k in session.entries && Expired(session.entries[k], mono, now.value) {
          ghost var was, before, more := model, history, [];
          ok, more := ExpireOne(k, todo, mono, now.value, truth, k in failing);
          if !ok { return; }
          FewerTrans(old(model), was, model);
          ExpiryMore(ops, more);
          Longer(old(history), before, ops, more);
          ops := ops + more;
        }
        todo := todo - {k};
      }
      SiftedAll(session.entries, mono, now.value);
    }

    method ExpireOne(key: Key, ghost todo: set<Key>, mono: real, now: Stamp, ghost truth: real, fault: bool)
      returns (ok: bool, ghost ops: seq<Op>)
      requires Valid() && Encloses(now, truth) && key in session.entries && Expired(session.entries[key], mono, now)
      requires Sifted(session.entries, todo, mono, now)
      modifies this
      ensures Valid() && ok == !fault
      ensures ok ==> history == old(history) + ops && Expiry(ops)
      ensures ok ==> OnlyFewer(old(model), model) && Sifted(session.entries, todo - {key}, mono, now)
      ensures !ok ==> model == old(model) && history == old(history)
    {
      Same(lim, history, model);
      Fewer(model, todo, key, "EXPIRED_DATA", AgeExpired, truth, mono, now);
      hide Reached, Encloses, OnlyFewer, Sifted, TerminateStep, LeastAge;
      var pruned;
      ok, pruned := Terminal(key, "EXPIRED_DATA", AgeExpired, mono, Some(now), truth, fault);
      ops := [Terminate(key, "EXPIRED_DATA", AgeExpired, pruned, mono, Some(now), truth)];
    }

    /** Makes a batch durable; the time of the commit stamps it. */
    method Enqueue(key: Key, payload: Bytes, wire: int, events: seq<nat>, boot: Option<string>, mono: real,
                   now: Option<Stamp>, commit: Option<Stamp>, ghost truth: real, ghost truthAtCommit: real,
                   weather: Weather)
      returns (r: Enqueued, ghost ops: seq<Op>)
      requires Valid()
      requires now.Some? ==> Encloses(now.value, truth)
      requires commit.Some? ==> Encloses(commit.value, truthAtCommit)
      modifies this
      ensures Valid() && history == old(history) + ops
      ensures r == Accepted ==> key in rows && rows[key].payload == payload
      ensures r == Conflict ==> key in old(rows) && old(rows)[key].payload != payload
      ensures r == Accepted && key !in old(rows) ==>
              ops != [] && ops[|ops| - 1] == Op.Insert(key, payload, commit, wire, truthAtCommit)
      ensures key in old(rows) || r == Conflict ==> ops == []
      ensures r == Full ==> |session.entries| >= lim.maxBatches || TotalSize(session.entries) + |payload| > lim.maxBytes
                            || !weather.roomy || |session.entries| + |session.staged| >= lim.maxRecords
      ensures r == NotEnqueued ==>
              weather.timeRefused || weather.expiryFails != {} || weather.callFails || nextOrder >= MAX_SAFE
    {
      ops := [];
      Same(lim, history, model);
      hide Reached, Encloses, TotalSize, Expiry;
      if weather.timeRefused { return NotEnqueued, ops; }
      if key in session.entries {
        return (if rows[key].payload == payload then Accepted else Conflict), ops;
      }
      var ok;
      ok, ops := Expire(mono, now, truth, weather.expiryFails);
      if !ok { return NotEnqueued, ops; }
      var total := TotalOf(session.entries);
      if |session.entries| >= lim.maxBatches || total + |payload| > lim.maxBytes { return Full, ops; }
      if nextOrder >= MAX_SAFE { return NotEnqueued, ops; }
      ghost var before := history;
      var staged, more := Stage(key, events, boot, weather.roomy);
      Longer(old(history), before, ops, more);
      ops := ops + more;
      if !staged { return Full, ops; }
      if weather.callFails { return NotEnqueued, ops; }
      Insert(key, payload, wire, commit, truthAtCommit);
      Longer(old(history), old(history) + ops, ops, [Op.Insert(key, payload, commit, wire, truthAtCommit)]);
      ops := ops + [Op.Insert(key, payload, commit, wire, truthAtCommit)];
      return Accepted, ops;
    }

    /** Reserves bounded metadata for a batch; one staged by an earlier, failed attempt is used again. */
    method Stage(key: Key, events: seq<nat>, boot: Option<string>, roomy: bool) returns (ok: bool, ghost ops: seq<Op>)
      requires Valid() && key !in session.entries
      modifies this
      ensures Valid() && history == old(history) + ops && (forall i :: 0 <= i < |ops| ==> ops[i].Stage?)
      ensures ok && key !in old(session.staged) ==> |session.entries| + |old(session.staged)| < lim.maxRecords
      ensures if ok then key in session.staged else !roomy || |session.entries| + |session.staged| >= lim.maxRecords
      ensures OnlyFewer(old(model).(session := old(model).session.(staged := model.session.staged)), model)
      ensures session.entries == old(session.entries)
      ensures ok && key in old(session.staged) ==> session == old(session)
      ensures ok && key !in old(session.staged) ==>
                var e := session.staged[key];
                && e.events == events && e.boot == boot
                && (e.category == History <==> events != [] && forall q :: q in events ==> q <= old(session.watermark))
    {
      hide Reached;
      ops := [];
      ok := true;
      if key in session.staged { return; }
      var category := ClassOf(events, session.watermark);
      if |session.entries| + |session.staged| >= lim.maxRecords || !roomy {
        ok := false;
        return;
      }
      var blank := Meta(0, "", 0, 0, false, "", None, None, 0);
      var e := Entry(blank, category, 0.0, false, events, boot, false, false);
      Extend(lim, history, model, Op.Stage(key, e));
      ops := [Op.Stage(key, e)];
      session := session.(staged := session.staged[key := e]);
      model, history := StageStep(model, key, e), history + ops;
    }

    /** The insert transaction and the moves that follow it. */
    method Insert(key: Key, payload: Bytes, wire: int, stamp: Option<Stamp>, ghost truth: real)
      requires Valid() && MayInsert(model, lim, key, payload, stamp, truth)
      modifies this
      ensures Valid() && history == old(history) + [Op.Insert(key, payload, stamp, wire, truth)]
      ensures key in rows && rows[key].payload == payload
    {
      Extend(lim, history, model, Op.Insert(key, payload, stamp, wire, truth));
      hide Reached, TotalSize, MayInsert;
      var meta := Meta(nextOrder, payload, |payload|, 0, false, "", None, stamp, wire);
      rows := rows[key := Stored(meta, payload)];
      nextOrder := nextOrder + 1;
      session := session.(entries := session.entries[key := session.staged[key].(meta := meta)],
        staged := session.staged - {key});
      model, history := InsertStep(model, key, payload, stamp, wire, truth),
        history + [Op.Insert(key, payload, stamp, wire, truth)];
    }

    /** Forgets reservations a second old. */
    method DropRate(mono: real)
      requires Valid() && model.clock <= mono
      modifies this
      ensures Valid() && history == old(history) + [Op.DropRate(mono)]
      ensures model == DropRateStep(old(model), mono)
    {
      Extend(lim, history, model, Op.DropRate(mono));
      var rate := session.rate;
      while rate != [] && mono - rate[0].0 >= 1.0
        invariant Unexpired(rate, mono) == Unexpired(session.rate, mono)
      {
        rate := rate[1..];
      }
      session := session.(rate := rate);
      model, history := DropRateStep(model, mono), history + [Op.DropRate(mono)];
    }

    /** Batches past their deadline are no longer in flight. */
    method Release(mono: real)
      requires Valid()
      modifies this
      ensures Valid() && history == old(history) + [Op.Release(mono)]
      ensures model == ReleaseStep(old(model), mono)
    {
      hide Reached;
      Extend(lim, history, model, Op.Release(mono));
      var entries := ReleaseAll(session.entries, mono);
      session := session.(entries := entries);
      model, history := ReleaseStep(model, mono), history + [Op.Release(mono)];
    }

    /** The next payload to send, if pacing, slots and the rate window allow one now. */
    method Reserve(mono: real, expiryMono: real, expiryNow: Option<Stamp>, hub: Option<Key -> Stamp>, later: real,
                   ghost truth: real, weather: Weather)
      returns (r: Reserved, ghost ops: seq<Op>, ghost now: Readings)
      requires Valid() && model.clock <= mono <= later
      requires expiryNow.Some? ==> Encloses(expiryNow.value, truth)
      modifies this
      ensures Valid() && history == old(history) + ops
      ensures r.Payload? ==> r.key in rows && rows[r.key].payload == r.bytes && ops != []
                             && ops[|ops| - 1] == Op.Reserve(r.key, mono, later, now)
      ensures r.Payload? && hub.Some? ==> r.key in now
      ensures forall k :: k in now ==> hub.Some? && now[k] == hub.value(k)
      ensures !r.Payload? ==> model.log == old(model.log)
      ensures r == Nothing ==> forall k, t :: !MayReserve(model, k, mono, t, now)
      ensures r == NotReserved ==>
                weather.timeRefused || weather.unread != {} || weather.expiryFails != {} || weather.callFails
    {
      hide Reached, Encloses, IsNext, SumRate, Expiry;
      ops, now := [], map[];
      if weather.timeRefused { return NotReserved, ops, now; }
      var ok;
      ok, ops := Expire(expiryMono, expiryNow, truth, weather.expiryFails);
      if !ok { return NotReserved, ops, now; }
      DropRate(mono);
      Longer(old(history), old(history) + ops, ops, [Op.DropRate(mono)]);
      ops := ops + [Op.DropRate(mono)];
      if mono < session.nextSend || |session.rate| >= 4 { return Nothing, ops, now; }
      Release(mono);
      Longer(old(history), old(history) + ops, ops, [Op.Release(mono)]);
      ops := ops + [Op.Release(mono)];
      if |Active(session.entries)| >= 8 { return Nothing, ops, now; }
      var readings;
      ok, readings := ReadDue(session.entries, mono, hub, weather.unread);
      if !ok { return NotReserved, ops, now; }
      now := readings;
      r := Choose(mono, readings, later, weather.callFails);
      if r.Payload? {
        Longer(old(history), old(history) + ops, ops, [Op.Reserve(r.key, mono, later, now)]);
        ops := ops + [Op.Reserve(r.key, mono, later, now)];
      }
    }

    /** Picks the entry, counts the attempt durably and only then hands the payload out. */
    method Choose(mono: real, now: Readings, later: real, fault: bool) returns (r: Reserved)
      requires Valid() && model.clock <= mono <= later && session.nextSend <= mono && |session.rate| < 4
      requires |Active(session.entries)| < 8
      modifies this
      ensures Valid()
      ensures r.Payload? ==> r.key in rows && rows[r.key].payload == r.bytes
                             && history == old(history) + [Op.Reserve(r.key, mono, later, now)]
      ensures !r.Payload? ==> model == old(model) && history == old(history)
      ensures r == Nothing ==> forall k, t :: !MayReserve(model, k, mono, t, now)
      ensures r.Payload? ==> r.key in old(session.entries)
                             && r.key in Candidates(old(session.entries), old(session.entries)[r.key].category, mono,
                               now)
      ensures r.Payload? ==> Served(old(session), r.key, mono, now)
      ensures r == NotReserved ==> fault
    {
      var next := PickNext(session, mono, now);
      if next.None? { return Nothing; }
      var key := next.value;
      Unique(lim, history, model, key, mono, now);
      var payload := rows[key].payload;
      if session.entries[key].meta.hash != payload { assert false; }
      if SumRate(session.rate) + |payload| > WINDOW_BYTES { return Nothing; }
      if fault { return NotReserved; }
      HandOut(key, mono, later, now);
      r := Payload(key, payload);
    }

    method HandOut(key: Key, mono: real, later: real, now: Readings)
      requires Valid() && MayReserve(model, key, mono, later, now) && key in rows
      requires session.entries[key].meta.size == |rows[key].payload|
      modifies this
      ensures Valid() && history == old(history) + [Op.Reserve(key, mono, later, now)]
      ensures rows == old(rows)[key := old(rows)[key].(meta := Attempted(old(session.entries)[key].meta))]
    {
      Extend(lim, history, model, Op.Reserve(key, mono, later, now));
      var e := session.entries[key];
      var attempts := if e.meta.attempts + 1 <= MAX_SAFE then e.meta.attempts + 1 else MAX_SAFE;
      var meta := e.meta.(attempts := attempts);
      rows := rows[key := rows[key].(meta := meta)];
      var e' := e.(meta := meta, previousSent := e.everSent, due := later + (if attempts == 1 then 30.0 else 60.0),
                   active := true, everSent := true);
      session := session.(entries := session.entries[key := e'], nextSend := later + 0.25,
                          rate := session.rate + [(later, |rows[key].payload|)], preferNew := e.category != New);
      model, history := ReserveStep(model, key, later), history + [Op.Reserve(key, mono, later, now)];
    }

    /** The SDK definitely did not send this attempt. */
    method SubmissionFailed(key: Key)
      requires Valid()
      modifies this
      ensures Valid()
      ensures if key in old(session.entries) && !old(session.entries)[key].meta.dead
              then history == old(history) + [SdkRejected(key)]
              else model == old(model) && history == old(history)
    {
      if key in session.entries && !session.entries[key].meta.dead {
        var e := session.entries[key];
        Extend(lim, history, model, SdkRejected(key));
        session := session.(entries := session.entries[key := e.(everSent := e.previousSent, active := false)]);
        model, history := SdkRejectedStep(model, key), history + [SdkRejected(key)];
      }
    }

    /** The receiver's verdict: the batch is removed, retried later or isolated; an acknowledgement that
        correlates with nothing, or contradicts an isolation, changes nothing. */
    method Acknowledge(key: Key, status: Status, mono: real, fault: bool) returns (ok: bool, pruned: set<Key>)
      requires Valid() && model.clock <= mono
      modifies this
      ensures Valid()
      ensures var e := if key in old(session.entries) then Some(old(session.entries)[key]) else None;
              var known := e.Some? && e.value.meta.attempts > 0;
              var alive := known && !e.value.meta.dead;
              && ok == (known && (if status.STORED? then Confirms(old(session), key) && !fault
                                  else alive && (Postponable(status.codes) || !fault)))
              && (ok && status.STORED? ==> history == old(history) + [AckStored(key)] && rows == old(rows) - {key})
              && (ok && status.REJECTED? && Postponable(status.codes) ==>
                    && history == old(history) + [AckRetry(key, mono)] && rows == old(rows)
                    && session.entries == old(session.entries)[key := e.value.(due := mono + 60.0, active := false)])
              && (ok && status.REJECTED? && !Postponable(status.codes) ==>
                    history == old(history) + [Terminate(key, Join(FirstOnly(status.codes)), PermanentReject, pruned,
                      mono, None, 0.0)])
              && (!ok ==> model == old(model) && history == old(history))
    {
      pruned := {};
      if key !in session.entries || session.entries[key].meta.attempts == 0 { return false, pruned; }
      Same(lim, history, model);
      var e := session.entries[key];
      if status.STORED? {
        if e.meta.dead && (e.meta.source != Some(AgeExpired) || !e.everSent) { return false, pruned; }
        if fault { return false, pruned; }
        Remove(key);
        return true, pruned;
      }
      if e.meta.dead { return false, pruned; }
      var codes := Distinctly(status.codes);
      FirstOnlyMeans(status.codes);
      RetryExactly(codes);
      hide Postponable;
      if TryAgain(codes) {
        Postpone(key, mono);
        ok := true;
      } else {
        ok, pruned := Terminal(key, Join(codes), PermanentReject, mono, None, 0.0, fault);
      }
    }

    /** A stored batch leaves, dead or not. */
    method Remove(key: Key)
      requires Valid() && Can(model, lim, AckStored(key))
      modifies this
      ensures Valid() && history == old(history) + [AckStored(key)] && rows == old(rows) - {key}
    {
      hide Reached;
      Extend(lim, history, model, AckStored(key));
      rows := rows - {key};
      session := session.(entries := session.entries - {key});
      model, history := AckStoredStep(model, key), history + [AckStored(key)];
    }

    method Postpone(key: Key, mono: real)
      requires Valid() && Can(model, lim, AckRetry(key, mono))
      modifies this
      ensures Valid() && history == old(history) + [AckRetry(key, mono)] && rows == old(rows)
      ensures session.entries
              == old(session.entries)[key := old(session.entries)[key].(due := mono + 60.0, active := false)]
    {
      hide Reached;
      Extend(lim, history, model, AckRetry(key, mono));
      session := session.(entries :=
        session.entries[key := session.entries[key].(due := mono + 60.0, active := false)]);
      model, history := AckRetryStep(model, key, mono), history + [AckRetry(key, mono)];
    }

    method OpenGate(watermark: nat)
      requires Valid()
      modifies this
      ensures Valid() && history == old(history) + [Op.OpenGate(watermark)]
    {
      Extend(lim, history, model, Op.OpenGate(watermark));
      var entries := AllHistory(session.entries);
      var staged := AllHistory(session.staged);
      session := session.(watermark := watermark, entries := entries, staged := staged);
      model, history := OpenGateStep(model, watermark), history + [Op.OpenGate(watermark)];
    }

    /** A new process rebuilds its session from the tables, or refuses to open. */
    method Attach(mono: real, roomy: bool) returns (ok: bool)
      requires Valid()
      modifies this
      ensures Valid()
      ensures ok == ((|rows| == 0 || roomy) && |rows| <= lim.maxRecords)
      ensures if ok then history == old(history) + [Restart(mono)] else model == old(model) && history == old(history)
    {
      var entries;
      ok, entries := Rebuild(rows, mono, lim.maxRecords, roomy);
      if !ok { return; }
      Extend(lim, history, model, Restart(mono));
      ReachedBounds(lim, history + [Restart(mono)], RestartStep(model, mono));
      var total := TotalOf(entries);
      if |entries| > lim.maxBatches || total > lim.maxBytes || |Dead(entries)| > lim.maxDead {
        // The source's quota errors on opening: what was stored under these limits is within them.
        assert false;
      }
      session := Fresh.(entries := entries);
      model, history := RestartStep(model, mono), history + [Restart(mono)];
    }

    /** The tables are opened again over the session of a living process: no row is missing, altered or new
        to the session, so nothing is refused and nothing changes. */
    method Reopen(mono: real)
      requires Valid()
      modifies this
      ensures Valid() && rows == old(rows) && session == old(session) && nextOrder == old(nextOrder)
      ensures history == old(history) + [Reattach(mono)] && model == old(model)
    {
      hide Reached, Mirror;
      Same(lim, history, model);
      ReattachSame(model, mono);
      Extend(lim, history, model, Reattach(mono));
      forall k | k in rows { RowTaken(model, k); }
      SessionStays(model);
      var entries, todo := session.entries, rows.Keys;
      while todo != {}
        invariant todo <= rows.Keys && entries == session.entries
        decreases |todo|
      {
        var k :| k in todo;
        todo := todo - {k};
        // The source's identity conflict, and its restoring of a row that the session does not know.
        if k !in entries || entries[k].meta.hash != rows[k].meta.hash { assert false; }
        entries := entries[k := entries[k].(meta := rows[k].meta)];
      }
      // The source's error for records that disappeared.
      if !(entries.Keys <= rows.Keys) { assert false; }
      session := session.(entries := entries);
      history := history + [Reattach(mono)];
    }
  }

  lemma RowTaken(o: Outbox, k: Key)
    requires Mirror(o) && k in o.rows
    ensures k in o.session.entries && o.session.entries[k].meta == o.rows[k].meta
    ensures o.session.entries[k := o.session.entries[k].(meta := o.rows[k].meta)] == o.session.entries
  {
  }

  lemma SessionStays(o: Outbox)
    requires Mirror(o)
    ensures o.session.entries.Keys <= o.rows.Keys
  {
  }

  /** What is not in `todo` is not expired. */
  ghost predicate Sifted(entries: map<Key, Entry>, todo: set<Key>, mono: real, now: Stamp) {
    forall k :: k in entries && k !in todo ==> !Expired(entries[k], mono, now)
  }

  lemma SiftedFirst(entries: map<Key, Entry>, mono: real, now: Stamp)
    ensures Sifted(entries, entries.Keys, mono, now)
  {
  }

  lemma SiftedMore(entries: map<Key, Entry>, todo: set<Key>, key: Key, mono: real, now: Stamp)
    requires Sifted(entries, todo, mono, now)
    ensures (key in entries && Expired(entries[key], mono, now)) || Sifted(entries, todo - {key}, mono, now)
  {
  }

  lemma SiftedAll(entries: map<Key, Entry>, mono: real, now: Stamp)
    requires Sifted(entries, {}, mono, now)
    ensures forall k :: k in entries ==> !Overdue(entries[k], mono, now)
  {
    forall k | k in entries ensures !Overdue(entries[k], mono, now) { ExpiredExactly(entries[k], mono, now); }
    hide Overdue, Expired;
  }

  /** A batch declared dead is no longer expired, and the others are as they were, if still there. */
  lemma Fewer(o: Outbox, todo: set<Key>, key: Key, reason: string, source: Source, truth: real, mono: real, now: Stamp)
    requires Mirror(o) && key in o.session.entries && Sifted(o.session.entries, todo, mono, now)
    ensures forall pruned :: var o' := TerminateStep(o, key, reason, source, pruned, truth);
              OnlyFewer(o, o') && Sifted(o'.session.entries, todo - {key}, mono, now)
  {
    hide LeastAge;
  }

  lemma FewerFirst(o: Outbox)
    ensures OnlyFewer(o, o) && Expiry([])
  {
  }

  lemma FewerTrans(a: Outbox, b: Outbox, c: Outbox)
    requires OnlyFewer(a, b) && OnlyFewer(b, c)
    ensures OnlyFewer(a, c)
  {
  }

  lemma ExpiryMore(ops: seq<Op>, more: seq<Op>)
    requires Expiry(ops) && Expiry(more)
    ensures Expiry(ops + more)
  {
  }

  lemma ReachedBounds(lim: Limits, history: seq<Op>, o: Outbox)
    requires Reached(lim, history, o)
    ensures Bounded(o.session.entries, lim)
  {
    ReachableGood(lim, history);
  }

  /** `entries` is what the rows outside `todo` make. */
  ghost predicate Rebuilt(rows: map<Key, Stored>, todo: set<Key>, mono: real, entries: map<Key, Entry>) {
    && todo <= rows.Keys && entries.Keys == rows.Keys - todo
    && forall k :: k in entries ==> entries[k] == Restored(rows[k].meta, mono)
  }

  lemma RebuildFirst(rows: map<Key, Stored>, mono: real)
    ensures Rebuilt(rows, rows.Keys, mono, map[])
  {
  }

  lemma RebuildMore(rows: map<Key, Stored>, todo: set<Key>, mono: real, entries: map<Key, Entry>, key: Key)
    requires Rebuilt(rows, todo, mono, entries) && key in todo
    ensures key in rows && |entries| < |rows|
    ensures var entries' := entries[key := Restored(rows[key].meta, mono)];
            Rebuilt(rows, todo - {key}, mono, entries') && |entries'| == |entries| + 1
  {
    hide Restored;
    RestCount(rows.Keys, entries.Keys);
    assert |rows| == |rows.Keys| && |entries| == |entries.Keys|;
  }

  lemma RebuildDone(rows: map<Key, Stored>, mono: real, entries: map<Key, Entry>)
    requires Rebuilt(rows, {}, mono, entries)
    ensures entries == RestoredAll(rows, mono) && |entries| == |rows|
  {
    assert entries.Keys == rows.Keys;
    assert |entries| == |entries.Keys| && |rows| == |rows.Keys|;
  }

  function RestoredAll(rows: map<Key, Stored>, mono: real): map<Key, Entry> {
    map k | k in rows :: Restored(rows[k].meta, mono)
  }

  /** The entries of a process that inserted none of the rows. */
  method Rebuild(rows: map<Key, Stored>, mono: real, maxRecords: nat, roomy: bool)
    returns (ok: bool, entries: map<Key, Entry>)
    ensures ok == ((|rows| == 0 || roomy) && |rows| <= maxRecords)
    ensures ok ==> entries == RestoredAll(rows, mono)
  {
    hide *;
    entries := map[];
    var todo := rows.Keys;
    RebuildFirst(rows, mono);
    while todo != {}
      invariant Rebuilt(rows, todo, mono, entries) && |entries| <= maxRecords && (|entries| > 0 ==> roomy)
      decreases |todo|
    {
      var k :| k in todo;
      RebuildMore(rows, todo, mono, entries, k);
      if |entries| >= maxRecords || !roomy { return false, entries; }
      entries := entries[k := Restored(rows[k].meta, mono)];
      todo := todo - {k};
    }
    RebuildDone(rows, mono, entries);
    ok := true;
  }

  /** The preferred class goes first if it has anything to send; within a class the oldest batch. */
  method PickNext(s: Session, mono: real, now: Readings) returns (next: Option<Key>)
    ensures next.Some? ==> IsNext(s, next.value, mono, now)
    ensures next.None? ==> forall k :: !IsNext(s, k, mono, now)
    ensures next.Some? ==> Served(s, next.value, mono, now)
    ensures next.None? ==> forall k :: !Served(s, k, mono, now)
  {
    forall k { NextExactly(s, k, mono, now); }
    hide Served;
    var category := if s.preferNew then New else History;
    var eligible := Eligibles(s.entries, category, mono, now);
    if eligible == {} {
      category := Other(category);
      eligible := Eligibles(s.entries, category, mono, now);
    }
    if eligible == {} { return None; }
    var key := Oldest(s.entries, eligible);
    next := Some(key);
  }

  /** The codes without repetitions, each where it came first. */
  function FirstOnly(codes: seq<string>): seq<string> {
    if codes == [] then []
    else
      var n := |codes| - 1;
      var earlier := FirstOnly(codes[..n]);
      if codes[n] in earlier then earlier else earlier + [codes[n]]
  }

  /** Nothing is lost, nothing is there twice, and what came first stays first. */
  lemma {:induction false} FirstOnlyMeans(codes: seq<string>)
    ensures var r := FirstOnly(codes);
            && (forall c :: c in r <==> c in codes)
            && (forall i, j :: 0 <= i < j < |r| ==> r[i] != r[j])
            && (Postponable(r) <==> Postponable(codes))
    ensures codes != [] ==> FirstOnly(codes[..|codes| - 1]) <= FirstOnly(codes)
  {
    FirstOnlySame(codes);
    SameRetry(FirstOnly(codes), codes);
  }

  lemma {:induction false} FirstOnlySame(codes: seq<string>)
    ensures forall c :: c in FirstOnly(codes) <==> c in codes
    ensures forall i, j :: 0 <= i < j < |FirstOnly(codes)| ==> FirstOnly(codes)[i] != FirstOnly(codes)[j]
    ensures codes != [] ==> FirstOnly(codes[..|codes| - 1]) <= FirstOnly(codes)
  {
    if codes != [] {
      var n := |codes| - 1;
      FirstOnlySame(codes[..n]);
      assert codes == codes[..n] + [codes[n]];
    }
  }

  lemma SameRetry(a: seq<string>, b: seq<string>)
    requires forall c :: c in a <==> c in b
    ensures Postponable(a) <==> Postponable(b)
  {
    if a != [] { assert a[0] in b; }
    if b != [] { assert b[0] in a; }
  }

  method Distinctly(codes: seq<string>) returns (r: seq<string>)
    ensures r == FirstOnly(codes)
  {
    r := [];
    for i := 0 to |codes|
      invariant r == FirstOnly(codes[..i])
    {
      assert codes[..i + 1][..i] == codes[..i];
      if codes[i] !in r { r := r + [codes[i]]; }
    }
    assert codes[..|codes|] == codes;
  }

  function Join(codes: seq<string>): string {
    if codes == [] then "" else if |codes| == 1 then codes[0] else codes[0] + "," + Join(codes[1..])
  }

  /** The lowest order among the candidates is the only entry `reserve` may serve, and its row is intact. */
  lemma Unique(lim: Limits, history: seq<Op>, o: Outbox, key: Key, mono: real, now: Readings)
    requires Reached(lim, history, o) && IsNext(o.session, key, mono, now)
    ensures key in o.rows && o.session.entries[key].meta.hash == o.rows[key].payload
    ensures o.session.entries[key].meta.size == |o.rows[key].payload|
    ensures forall j :: IsNext(o.session, j, mono, now) ==> j == key
  {
    ReachableGood(lim, history);
    hide Reached, Candidates, NextClass, Bounded, Paced;
  }

  ghost predicate Expiry(ops: seq<Op>) {
    forall i :: 0 <= i < |ops| ==> ops[i].Terminate? && ops[i].source == AgeExpired
  }

  /** Nothing but entries has changed, and none has been added. */
  ghost predicate OnlyFewer(o: Outbox, o': Outbox) {
    && o'.log == o.log && o'.clock == o.clock && o'.nextOrder == o.nextOrder
    && o'.session == o.session.(entries := o'.session.entries)
    && o'.session.entries.Keys <= o.session.entries.Keys
  }
}
