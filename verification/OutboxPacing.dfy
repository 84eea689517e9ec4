/** Pacing of the outbox over a whole process run: what the log of reservations looks like whatever
    gate openings, SDK rejections, acknowledgements, local reloads and failed calls come between them
    (src/plcnext_iot/storage/outbox.py:191-254, 281-284). */
module OutboxPacing {
  import opened Common
  import opened Outbox
  import opened OutboxRuns

  // ---- What the log promises

  /** Reservations are at least a quarter of a second apart. */
  ghost predicate Spaced(log: seq<Sent>) {
    forall i, j :: 0 <= i < j < |log| ==> log[i].time + 0.25 <= log[j].time
  }

  /** Any window of one second holds at most four reservations ... */
  ghost predicate AtMostFour(log: seq<Sent>) {
    forall i, j :: 0 <= i && i + 4 <= j < |log| ==> log[i].time + 1.0 <= log[j].time
  }

  function Weight(log: seq<Sent>): nat {
    if log == [] then 0 else log[0].size + Weight(log[1..])
  }

  /** ... and at most 512 KiB. */
  ghost predicate AtMostWindow(log: seq<Sent>) {
    forall i, j :: 0 <= i <= j < |log| && log[j].time < log[i].time + 1.0 ==> Weight(log[i..j + 1]) <= WINDOW_BYTES
  }

  /** A batch goes out again no sooner than 30 s after its first attempt, 60 s after a later one. */
  ghost predicate RetriesLate(log: seq<Sent>) {
    forall i, j :: 0 <= i < j < |log| && log[i].order == log[j].order ==>
      log[j].time - log[i].time >= if log[i].attempt == 1 then 30.0 else 60.0
  }

  ghost predicate LogOk(log: seq<Sent>) {
    Spaced(log) && AtMostFour(log) && AtMostWindow(log) && RetriesLate(log)
  }

  // ---- How the session keeps track of it

  /** The rate window is the end of the log; what left it is a second old. */
  ghost predicate RateIsTail(log: seq<Sent>, rate: seq<(real, nat)>, clock: real) {
    var cut := |log| - |rate|;
    && 0 <= cut
    && (forall i :: 0 <= i < |rate| ==> rate[i] == (log[cut + i].time, log[cut + i].size))
    && (forall i :: 0 <= i < cut ==> log[i].time + 1.0 <= clock)
  }

  ghost predicate Past(log: seq<Sent>, clock: real) {
    forall i :: 0 <= i < |log| ==> log[i].time <= clock
  }

  ghost predicate Deadlines(log: seq<Sent>, entries: map<Key, Entry>) {
    forall i, k :: 0 <= i < |log| && k in entries && entries[k].meta.order == log[i].order ==>
      log[i].time + Gap(log[i].attempt) <= entries[k].due
  }

  /** The next turn is the other class's, a quarter of a second from the last. */
  ghost predicate Turn(log: seq<Sent>, s: Session) {
    log != [] ==>
      && s.preferNew == (log[|log| - 1].category != New)
      && s.nextSend == log[|log| - 1].time + 0.25
  }

  ghost predicate Paced(o: Outbox) {
    && LogOk(o.log) && RateIsTail(o.log, o.session.rate, o.clock) && Past(o.log, o.clock)
    && Deadlines(o.log, o.session.entries) && Turn(o.log, o.session)
  }

  // ---- Weights

  lemma {:induction false} WeightAppend(log: seq<Sent>, x: Sent)
    ensures Weight(log + [x]) == Weight(log) + x.size
  {
    if log != [] {
      assert (log + [x])[1..] == log[1..] + [x];
      WeightAppend(log[1..], x);
    } else {
      assert (log + [x])[1..] == [];
    }
  }

  lemma {:induction false} WeightSuffix(log: seq<Sent>, i: nat)
    requires i <= |log|
    ensures Weight(log[i..]) <= Weight(log)
  {
    if i > 0 {
      assert log[i..] == log[1..][i - 1..];
      WeightSuffix(log[1..], i - 1);
    } else {
      assert log[i..] == log;
    }
  }

  lemma {:induction false} RateWeighs(tail: seq<Sent>, rate: seq<(real, nat)>)
    requires |tail| == |rate| && forall i :: 0 <= i < |rate| ==> rate[i] == (tail[i].time, tail[i].size)
    ensures SumRate(rate) == Weight(tail)
  {
    if rate != [] { RateWeighs(tail[1..], rate[1..]); }
  }

  // ---- One more reservation

  lemma MoreSpaced(log: seq<Sent>, x: Sent, s: Session)
    requires Spaced(log) && Turn(log, s) && s.nextSend <= x.time
    ensures Spaced(log + [x])
  {
    var n := |log|;
    forall i | 0 <= i < n ensures log[i].time + 0.25 <= x.time {
      assert log[i].time <= log[n - 1].time;
    }
  }

  lemma MoreAtMostFour(log: seq<Sent>, x: Sent, rate: seq<(real, nat)>, clock: real)
    requires AtMostFour(log) && RateIsTail(log, rate, clock) && |rate| < 4 && clock <= x.time
    ensures AtMostFour(log + [x])
  {
  }

  lemma MoreAtMostWindow(log: seq<Sent>, x: Sent, rate: seq<(real, nat)>, clock: real)
    requires AtMostWindow(log) && RateIsTail(log, rate, clock) && clock <= x.time
    requires SumRate(rate) + x.size <= WINDOW_BYTES
    ensures AtMostWindow(log + [x])
  {
    hide SumRate;
    var log', n, cut := log + [x], |log|, |log| - |rate|;
    forall i, j | 0 <= i <= j < |log'| && log'[j].time < log'[i].time + 1.0
      ensures Weight(log'[i..j + 1]) <= WINDOW_BYTES
    {
      if j < n {
        assert log'[i..j + 1] == log[i..j + 1];
      } else {
        assert i >= cut;
        assert log'[i..j + 1] == log[i..] + [x];
        SuffixWeighs(log, x, rate, i);
      }
    }
  }

  lemma SuffixWeighs(log: seq<Sent>, x: Sent, rate: seq<(real, nat)>, i: nat)
    requires |rate| <= |log| && |log| - |rate| <= i <= |log|
    requires forall j :: 0 <= j < |rate| ==>
               rate[j] == (log[|log| - |rate| + j].time, log[|log| - |rate| + j].size)
    ensures Weight(log[i..] + [x]) <= SumRate(rate) + x.size
  {
    var cut := |log| - |rate|;
    WeightAppend(log[i..], x);
    RateWeighs(log[cut..], rate);
    WeightSuffix(log[cut..], i - cut);
    assert log[cut..][i - cut..] == log[i..];
  }

  lemma MoreRetriesLate(log: seq<Sent>, x: Sent, entries: map<Key, Entry>)
    requires RetriesLate(log) && Deadlines(log, entries) && x.key in entries && entries[x.key].due <= x.time
    requires entries[x.key].meta.order == x.order
    ensures RetriesLate(log + [x])
  {
  }

  lemma MoreDeadlines(log: seq<Sent>, x: Sent, entries: map<Key, Entry>, e: Entry)
    requires Deadlines(log, entries) && x.key in entries && entries[x.key].due <= x.time
    requires entries[x.key].meta.order == x.order == e.meta.order && e.due == x.time + Gap(x.attempt)
    requires forall k :: k in entries && entries[k].meta.order == x.order ==> k == x.key
    ensures Deadlines(log + [x], entries[x.key := e])
  {
  }

  lemma ReservePaced(o: Outbox, k: Key, mono: real, later: real, now: Readings)
    requires Mirror(o) && OrdersDistinct(o) && Paced(o) && MayReserve(o, k, mono, later, now)
    ensures Paced(ReserveStep(o, k, later))
  {
    var o' := ReserveStep(o, k, later);
    var x := o'.log[|o.log|];
    ReserveShape(o, k, mono, later, now);
    ReserveTail(o, k, mono, later, now);
    hide ReserveStep, MayReserve, Mirror, OrdersDistinct, Spaced, AtMostFour, AtMostWindow, RetriesLate, RateIsTail,
      Deadlines, Turn, Past;
    MoreSpaced(o.log, x, o.session);
    MoreAtMostFour(o.log, x, o.session.rate, o.clock);
    MoreAtMostWindow(o.log, x, o.session.rate, o.clock);
    MoreRetriesLate(o.log, x, o.session.entries);
    MoreDeadlines(o.log, x, o.session.entries, o'.session.entries[k]);
  }

  /** What the reservation was made on and what it leaves. */
  lemma ReserveShape(o: Outbox, k: Key, mono: real, later: real, now: Readings)
    requires Mirror(o) && OrdersDistinct(o) && MayReserve(o, k, mono, later, now)
    ensures var o', entries := ReserveStep(o, k, later), o.session.entries;
            && |o'.log| == |o.log| + 1
            && var x := o'.log[|o.log|];
            && o'.log == o.log + [x] && x.key == k && k in entries && entries[k].meta.order == x.order
              && entries[k].due <= x.time
            && o.session.nextSend <= x.time && o.clock <= x.time && |o.session.rate| < 4
            && SumRate(o.session.rate) + x.size <= WINDOW_BYTES
            && o'.session.entries == entries[k := o'.session.entries[k]]
            && o'.session.entries[k].meta.order == x.order && o'.session.entries[k].due == x.time + Gap(x.attempt)
            && (forall j :: j in entries && entries[j].meta.order == x.order ==> j == k)
  {
    hide SumRate, Active, NextClass;
  }

  lemma ReserveTail(o: Outbox, k: Key, mono: real, later: real, now: Readings)
    requires Mirror(o) && MayReserve(o, k, mono, later, now) && RateIsTail(o.log, o.session.rate, o.clock)
             && Past(o.log, o.clock)
    ensures var o' := ReserveStep(o, k, later);
            RateIsTail(o'.log, o'.session.rate, o'.clock) && Past(o'.log, o'.clock) && Turn(o'.log, o'.session)
  {
    hide SumRate, Active, NextClass;
  }

  // ---- The other steps

  lemma {:induction false} UnexpiredTail(log: seq<Sent>, rate: seq<(real, nat)>, clock: real, mono: real)
    requires RateIsTail(log, rate, clock) && clock <= mono
    ensures RateIsTail(log, Unexpired(rate, mono), mono)
    decreases |rate|
  {
    if rate != [] && mono - rate[0].0 >= 1.0 {
      assert rate[0].0 == log[|log| - |rate|].time;
      UnexpiredTail(log, rate[1..], mono, mono);
    }
  }

  /** A step that logs nothing and brings no deadline forward. */
  ghost predicate Quiet(o: Outbox, o': Outbox) {
    && o'.log == o.log && o'.clock >= o.clock
    && o'.session.preferNew == o.session.preferNew && o'.session.nextSend == o.session.nextSend
    && RateIsTail(o.log, o'.session.rate, o'.clock)
    && Deadlines(o.log, o'.session.entries)
  }

  lemma QuietPaced(o: Outbox, o': Outbox)
    requires Paced(o) && Quiet(o, o')
    ensures Paced(o')
  {
  }

  lemma RetryDeadlines(o: Outbox, k: Key, e: Entry, mono: real)
    requires Past(o.log, o.clock) && Deadlines(o.log, o.session.entries) && o.clock <= mono && e.due == mono + 60.0
    requires k in o.session.entries && e.meta == o.session.entries[k].meta
    ensures Deadlines(o.log, o.session.entries[k := e])
  {
  }

  lemma InsertPaced(o: Outbox, k: Key, payload: Bytes, stamp: Option<Stamp>, wire: int, truth: real)
    requires WriteAhead(o) && Paced(o)
    ensures Paced(InsertStep(o, k, payload, stamp, wire, truth))
  {
    QuietPaced(o, InsertStep(o, k, payload, stamp, wire, truth));
  }

  lemma AckRetryPaced(o: Outbox, k: Key, mono: real)
    requires Paced(o) && o.clock <= mono && k in o.session.entries
    ensures Paced(AckRetryStep(o, k, mono))
  {
    var o' := AckRetryStep(o, k, mono);
    RetryDeadlines(o, k, o'.session.entries[k], mono);
    QuietPaced(o, o');
  }

  lemma DropRatePaced(o: Outbox, mono: real)
    requires Paced(o) && o.clock <= mono
    ensures Paced(DropRateStep(o, mono))
  {
    UnexpiredTail(o.log, o.session.rate, o.clock, mono);
    QuietPaced(o, DropRateStep(o, mono));
  }

  lemma TerminatePaced(o: Outbox, k: Key, reason: string, source: Source, pruned: set<Key>, truth: real)
    requires Paced(o)
    ensures Paced(TerminateStep(o, k, reason, source, pruned, truth))
  {
    QuietPaced(o, TerminateStep(o, k, reason, source, pruned, truth));
  }

  lemma PlainPaced(o: Outbox, op: Op)
    requires Paced(o)
    requires op.Stage? || op.Release? || op.SdkRejected? || op.AckStored? || op.OpenGate? || op.DropStaged?
    ensures Paced(Step(o, op))
  {
    PlainQuiet(o, op);
    hide Paced, Quiet, Step;
    QuietPaced(o, Step(o, op));
  }

  lemma PlainQuiet(o: Outbox, op: Op)
    requires RateIsTail(o.log, o.session.rate, o.clock) && Deadlines(o.log, o.session.entries)
    requires op.Stage? || op.Release? || op.SdkRejected? || op.AckStored? || op.OpenGate? || op.DropStaged?
    ensures Quiet(o, Step(o, op))
  {
    StagedQuiet(o);
    hide RateIsTail, Deadlines, Quiet, ReleaseStep, OpenGateStep, SdkRejectedStep, AckStoredStep;
    match op
    case Release(mono) => ReleaseQuiet(o, mono);
    case OpenGate(watermark) => GateQuiet(o, watermark);
    case SdkRejected(k) => SdkRejectedQuiet(o, k);
    case AckStored(k) => StoredQuiet(o, k);
    case _ =>
  }

  lemma StagedQuiet(o: Outbox)
    requires RateIsTail(o.log, o.session.rate, o.clock) && Deadlines(o.log, o.session.entries)
    ensures forall staged :: Quiet(o, o.(session := o.session.(staged := staged)))
  {
    hide RateIsTail, Deadlines;
  }

  lemma SdkRejectedQuiet(o: Outbox, k: Key)
    requires RateIsTail(o.log, o.session.rate, o.clock) && Deadlines(o.log, o.session.entries)
    ensures Quiet(o, SdkRejectedStep(o, k))
  {
    SameDeadlines(o.log, o.session.entries, SdkRejectedStep(o, k).session.entries);
    hide RateIsTail, Deadlines;
  }

  lemma StoredQuiet(o: Outbox, k: Key)
    requires RateIsTail(o.log, o.session.rate, o.clock) && Deadlines(o.log, o.session.entries)
    ensures Quiet(o, AckStoredStep(o, k))
  {
    SameDeadlines(o.log, o.session.entries, AckStoredStep(o, k).session.entries);
    hide RateIsTail, Deadlines;
  }

  lemma ReleaseQuiet(o: Outbox, mono: real)
    requires RateIsTail(o.log, o.session.rate, o.clock) && Deadlines(o.log, o.session.entries)
    ensures Quiet(o, ReleaseStep(o, mono))
  {
    SameDeadlines(o.log, o.session.entries, ReleaseStep(o, mono).session.entries);
    hide RateIsTail, Deadlines;
  }

  lemma GateQuiet(o: Outbox, watermark: nat)
    requires RateIsTail(o.log, o.session.rate, o.clock) && Deadlines(o.log, o.session.entries)
    ensures Quiet(o, OpenGateStep(o, watermark))
  {
    SameDeadlines(o.log, o.session.entries, OpenGateStep(o, watermark).session.entries);
    hide RateIsTail, Deadlines;
  }

  /** Entries that keep their row and their deadline, or are gone. */
  lemma SameDeadlines(log: seq<Sent>, entries: map<Key, Entry>, entries': map<Key, Entry>)
    requires Deadlines(log, entries)
    requires forall k :: k in entries' ==>
             k in entries && entries'[k].meta == entries[k].meta && entries'[k].due == entries[k].due
    ensures Deadlines(log, entries')
  {
  }

  lemma StepPaced(o: Outbox, lim: Limits, op: Op)
    requires Durable(o) && Paced(o) && Can(o, lim, op)
    ensures Paced(Step(o, op))
  {
    match op
    case Reserve(k, mono, later, now) => ReservePaced(o, k, mono, later, now);
    case Insert(k, payload, stamp, wire, truth) => InsertPaced(o, k, payload, stamp, wire, truth);
    case AckRetry(k, mono) => AckRetryPaced(o, k, mono);
    case DropRate(mono) => DropRatePaced(o, mono);
    case Terminate(k, reason, source, pruned, mono, now, truth) => TerminatePaced(o, k, reason, source, pruned, truth);
    case Restart(mono) =>
    case Reattach(mono) => ReattachSame(o, mono);
    case _ => PlainPaced(o, op);
  }

  /** `reserve` serves the lowest local order of its class, and the class served last only when the
      other has no entry to serve. */
  lemma FairTurn(o: Outbox, k: Key, mono: real, later: real, now: Readings)
    requires Paced(o) && MayReserve(o, k, mono, later, now)
    ensures var m, c := o.session.entries, o.session.entries[k].category;
            && (forall j :: j in Candidates(m, c, mono, now) ==> m[k].meta.order <= m[j].meta.order)
            && (o.log != [] && o.log[|o.log| - 1].category == c ==> Candidates(m, Other(c), mono, now) == {})
  {
  }
}
