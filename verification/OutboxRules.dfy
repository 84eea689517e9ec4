/** The outbox's rules in plain terms: which batch is served, when one is expired, what each step leaves of
    an entry (src/plcnext_iot/storage/outbox.py:93-287, outbox_session.py:70-100). */
module OutboxRules {
  import opened Common
  import opened Outbox
  import opened OutboxRuns

  // ---- Who is served

  /** Pending, not in flight, due, and, where hub time is in use, neither stamped under another basis nor
      more than five minutes ahead of the latest possible time. */
  predicate Ready(e: Entry, k: Key, mono: real, now: Readings) {
    && !e.meta.dead && !e.active && e.due <= mono
    && (k in now ==>
          && (e.meta.stamp.Some? ==> e.meta.stamp.value.basis == now[k].basis)
          && e.meta.wire <= now[k].utc + now[k].error + 300000)
  }

  /** How many batches of a class are in flight. */
  function Flying(entries: map<Key, Entry>, c: Class): nat {
    |set k | k in entries && entries[k].active && entries[k].category == c|
  }

  /** Something of the class could be sent: fewer than seven of it are in flight, and one is ready. */
  predicate Open(entries: map<Key, Entry>, c: Class, mono: real, now: Readings) {
    Flying(entries, c) < 7 && exists k :: k in entries && entries[k].category == c && Ready(entries[k], k, mono, now)
  }

  function Preferred(s: Session): Class { if s.preferNew then New else History }

  /** The ready batch of lowest order of its class; of the class whose turn it is not, only if that one has
      nothing to send. */
  predicate Served(s: Session, k: Key, mono: real, now: Readings) {
    && k in s.entries && Ready(s.entries[k], k, mono, now) && Flying(s.entries, s.entries[k].category) < 7
    && (s.entries[k].category != Preferred(s) ==> !Open(s.entries, Preferred(s), mono, now))
    && forall j :: j in s.entries && s.entries[j].category == s.entries[k].category ==>
         Ready(s.entries[j], j, mono, now) ==> s.entries[k].meta.order <= s.entries[j].meta.order
  }

  lemma CandidatesExactly(entries: map<Key, Entry>, c: Class, mono: real, now: Readings)
    ensures forall k :: k in Candidates(entries, c, mono, now)
                        <==> k in entries && entries[k].category == c && Ready(entries[k], k, mono, now)
                             && Flying(entries, c) < 7
    ensures Candidates(entries, c, mono, now) != {} <==> Open(entries, c, mono, now)
  {
    assert ActiveIn(entries, c) == set k | k in entries && entries[k].active && entries[k].category == c;
    assert forall k :: k in entries ==> (Eligible(entries[k], k, mono, now) <==> Ready(entries[k], k, mono, now));
    hide Eligible, Ready;
    if Open(entries, c, mono, now) {
      var k :| k in entries && entries[k].category == c && Ready(entries[k], k, mono, now);
      assert k in Candidates(entries, c, mono, now);
    }
  }

  lemma NextExactly(s: Session, k: Key, mono: real, now: Readings)
    ensures IsNext(s, k, mono, now) <==> Served(s, k, mono, now)
  {
    CandidatesExactly(s.entries, New, mono, now);
    CandidatesExactly(s.entries, History, mono, now);
    hide Candidates, Ready, Flying, Open;
  }

  /** A batch may be handed out exactly if the last one went a quarter of a second ago, fewer than four went
      and no more than 512 KiB go within the second, fewer than eight are in flight, and it is the one
      served. */
  lemma ReserveExactly(o: Outbox, k: Key, mono: real, later: real, now: Readings)
    ensures MayReserve(o, k, mono, later, now)
            <==> && o.clock <= mono <= later && o.session.nextSend <= mono && |o.session.rate| < 4
                 && |set j | j in o.session.entries && o.session.entries[j].active| < 8
                 && Served(o.session, k, mono, now)
                 && SumRate(o.session.rate) + o.session.entries[k].meta.size <= 524288
  {
    NextExactly(o.session, k, mono, now);
    assert Active(o.session.entries) == set j | j in o.session.entries && o.session.entries[j].active;
    hide IsNext, Served, SumRate;
  }

  // ---- What handing out, refusing and postponing leave

  /** In flight until half a minute after a first attempt, or a minute after a later one. */
  lemma HandedExactly(e: Entry, later: real)
    requires e.meta.attempts < 9007199254740991
    ensures var e' := Handed(e, later);
            && e'.meta == e.meta.(attempts := e.meta.attempts + 1) && e'.active && e'.everSent
            && e'.previousSent == e.everSent && e'.due == later + (if e.meta.attempts == 0 then 30.0 else 60.0)
            && e'.category == e.category && e'.events == e.events && e'.boot == e.boot
  {
  }

  /** What a reservation leaves of the session: a quarter of a second until the next, and the other class's turn. */
  lemma ReservedExactly(o: Outbox, k: Key, later: real)
    requires k in o.session.entries && k in o.rows
    ensures var s, s' := o.session, ReserveStep(o, k, later).session;
            && s'.nextSend == later + 0.25 && s'.rate == s.rate + [(later, s.entries[k].meta.size)]
            && s'.preferNew == (s.entries[k].category != New)
            && s'.entries == s.entries[k := Handed(s.entries[k], later)]
  {
  }

  /** A refused submission was no attempt that stands, and its deadline does; a retryable refusal waits a
      minute; neither is in flight any more. */
  lemma ReleasedExactly(o: Outbox, k: Key, mono: real)
    requires k in o.session.entries
    ensures var e, rejected, retried := o.session.entries[k], SdkRejectedStep(o, k).session.entries,
                                        AckRetryStep(o, k, mono).session.entries;
            && rejected == o.session.entries[k := e.(everSent := e.previousSent, active := false)]
            && retried == o.session.entries[k := e.(due := mono + 60.0, active := false)]
  {
  }

  /** The reservations a second old are the first `n`. */
  predicate Cut(rate: seq<(real, nat)>, mono: real, n: nat) {
    && n <= |rate| && (forall i :: 0 <= i < n ==> mono - rate[i].0 >= 1.0) && (n < |rate| ==> mono - rate[n].0 < 1.0)
  }

  lemma CutMore(rate: seq<(real, nat)>, mono: real, n: nat)
    requires rate != [] && mono - rate[0].0 >= 1.0 && Cut(rate[1..], mono, n)
    ensures Cut(rate, mono, n + 1) && rate[1..][n..] == rate[n + 1..]
  {
    assert forall i :: 1 <= i < |rate| ==> rate[i] == rate[1..][i - 1];
  }

  /** Only they are forgotten. */
  lemma {:induction false} RateExactly(rate: seq<(real, nat)>, mono: real)
    ensures exists n: nat :: Cut(rate, mono, n) && Unexpired(rate, mono) == rate[n..]
  {
    if rate != [] && mono - rate[0].0 >= 1.0 {
      RateExactly(rate[1..], mono);
      var n: nat :| Cut(rate[1..], mono, n) && Unexpired(rate[1..], mono) == rate[1..][n..];
      CutMore(rate, mono, n);
      hide Cut;
      assert Cut(rate, mono, n + 1) && Unexpired(rate, mono) == rate[n + 1..];
    } else {
      assert rate[0..] == rate && Cut(rate, mono, 0);
    }
  }

  // ---- Which refusals are retried, and which acknowledgements count

  /** Refusals that may pass. */
  predicate Postponable(codes: seq<string>) {
    && codes != []
    && forall c :: c in codes ==> c == "UNKNOWN_CONFIG_VERSION" || c == "RESOURCE_LIMIT" || c == "STORAGE_ERROR"
  }

  lemma RetryExactly(codes: seq<string>)
    ensures TryAgain(codes) <==> Postponable(codes)
  {
  }

  /** A confirmation counts for a batch that was handed out, unless it was rejected for good, or died of age
      with no attempt left standing. */
  predicate Confirms(s: Session, k: Key) {
    && k in s.entries && s.entries[k].meta.attempts > 0
    && (s.entries[k].meta.dead ==> s.entries[k].meta.source == Some(AgeExpired) && s.entries[k].everSent)
  }

  lemma ConfirmsExactly(o: Outbox, lim: Limits, k: Key)
    ensures Can(o, lim, AckStored(k)) <==> Confirms(o.session, k)
  {
  }

  // ---- Age

  /** Certainly a week old by two readings of the same basis, pending, and not in flight. */
  predicate Overdue(e: Entry, mono: real, now: Stamp) {
    && !e.meta.dead && e.meta.stamp.Some? && e.meta.stamp.value.basis == now.basis
    && (now.utc - now.error) - (e.meta.stamp.value.utc + e.meta.stamp.value.error) >= 604800000
    && (!e.active || mono >= e.due)
  }

  lemma ExpiredExactly(e: Entry, mono: real, now: Stamp)
    ensures Expired(e, mono, now) <==> Overdue(e, mono, now)
  {
  }

  // ---- A new process, and the gate

  /** A row found by a new process is history of unknown events; one that was ever handed out counts as sent,
      whatever became of its last attempt, and waits a minute. */
  lemma RestartExactly(o: Outbox, mono: real)
    ensures var o' := RestartStep(o, mono);
            && o'.rows == o.rows && o'.session.entries.Keys == o.rows.Keys && o'.session.staged == map[]
            && o'.session.rate == [] && o'.session.preferNew && o'.session.nextSend == 0.0 && o'.session.watermark == 0
            && forall k :: k in o.rows ==>
                 var e, m := o'.session.entries[k], o.rows[k].meta;
                 && e.meta == m && e.category == History && !e.active && e.events == [] && e.boot.None?
                 && e.everSent == (m.attempts > 0) && !e.previousSent
                 && e.due == mono + (if m.attempts > 0 then 60.0 else 0.0)
  {
  }

  /** Everything known becomes history, and nothing else changes. */
  lemma GateExactly(o: Outbox, watermark: nat)
    ensures var s, s' := o.session, OpenGateStep(o, watermark).session;
            && s'.watermark == watermark && s'.entries.Keys == s.entries.Keys && s'.staged.Keys == s.staged.Keys
            && (forall k :: k in s.entries ==> s'.entries[k] == s.entries[k].(category := History))
            && (forall k :: k in s.staged ==> s'.staged[k] == s.staged[k].(category := History))
            && OpenGateStep(o, watermark).rows == o.rows
  {
  }

  // ---- Rows written and declared dead

  /** A batch comes in with its bytes, its stamp and the next order, never attempted; what was staged for it
      becomes its entry. */
  lemma InsertExactly(o: Outbox, k: Key, payload: Bytes, stamp: Option<Stamp>, wire: int, truth: real)
    requires k in o.session.staged
    ensures var o' := InsertStep(o, k, payload, stamp, wire, truth);
            var m := Meta(o.nextOrder, payload, |payload|, 0, false, "", None, stamp, wire);
            && o'.rows == o.rows[k := Stored(m, payload)] && o'.nextOrder == o.nextOrder + 1
            && o'.session.entries == o.session.entries[k := o.session.staged[k].(meta := m)]
            && o'.session.staged == o.session.staged - {k}
  {
  }

  /** A dead batch has its cause and is in no flight; only what is pruned leaves. */
  lemma TerminateExactly(o: Outbox, k: Key, reason: string, source: Source, pruned: set<Key>, truth: real)
    requires Mirror(o) && k in o.session.entries
    ensures var o', e := TerminateStep(o, k, reason, source, pruned, truth), o.session.entries[k];
            var m := e.meta.(dead := true, reason := reason, source := Some(source));
            && o'.rows.Keys == o.rows.Keys - pruned && o'.session.entries.Keys == o.session.entries.Keys - pruned
            && (k !in pruned ==> o'.session.entries[k] == e.(meta := m, active := false)
                                 && o'.rows[k] == Stored(m, o.rows[k].payload))
            && forall j :: j in o.rows && j != k && j !in pruned ==>
                 o'.rows[j] == o.rows[j] && o'.session.entries[j] == o.session.entries[j]
  {
  }

  /** A batch is in flight until its deadline, and not a moment longer. */
  lemma FlightExactly(o: Outbox, mono: real)
    ensures var entries, entries' := o.session.entries, ReleaseStep(o, mono).session.entries;
            && entries'.Keys == entries.Keys
            && forall k :: k in entries ==>
                 entries'[k] == entries[k].(active := entries[k].active && mono < entries[k].due)
  {
  }
}
