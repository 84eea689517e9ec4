/** The outbox's promises, for every reachable state of every run. */
module OutboxTheorems {
  import opened Common
  import opened Outbox
  import opened OutboxRuns
  import opened OutboxBounds
  import opened OutboxPacing
  import Clock = PlatformClock
  import Hub = PlatformClockSoundness

  // ---- Age

  /** Stamps enclose the true time of their insertion, and a batch declared too old was a week old. */
  ghost predicate Aged(o: Outbox) {
    && (forall k :: k in o.rows && o.rows[k].meta.stamp.Some? ==>
          k in o.born && Encloses(o.rows[k].meta.stamp.value, o.born[k]))
    && (forall k :: k in o.rows && o.rows[k].meta.source == Some(AgeExpired) ==>
          k in o.born && k in o.died && o.died[k] - o.born[k] >= WEEK_MS as real)
  }

  lemma ExpiredIsWeekOld(now: Stamp, truth: real, m: Meta, born: real)
    requires Encloses(now, truth) && LeastAge(now, m) >= WEEK_MS
    requires m.stamp.Some? ==> Encloses(m.stamp.value, born)
    ensures m.stamp.Some? && truth - born >= WEEK_MS as real
  {
  }

  lemma TerminateAged(o: Outbox, lim: Limits, k: Key, reason: string, source: Source, pruned: set<Key>, mono: real,
                      now: Option<Stamp>, truth: real)
    requires Mirror(o) && Aged(o) && MayTerminate(o.session, lim, k, source, pruned, mono, now, truth)
    ensures Aged(TerminateStep(o, k, reason, source, pruned, truth))
  {
    hide Overflow, Correlates, Encloses;
    if source == AgeExpired {
      ExpiredIsWeekOld(now.value, truth, o.rows[k].meta, if k in o.born then o.born[k] else 0.0);
    }
  }

  lemma InsertAged(o: Outbox, k: Key, payload: Bytes, stamp: Option<Stamp>, wire: int, truth: real)
    requires Aged(o) && (stamp.Some? ==> Encloses(stamp.value, truth))
    ensures Aged(InsertStep(o, k, payload, stamp, wire, truth))
  {
  }

  lemma ReserveAged(o: Outbox, k: Key, later: real)
    requires Mirror(o) && Aged(o)
    ensures Aged(ReserveStep(o, k, later))
  {
  }

  /** Rows that were there before, unchanged. */
  ghost predicate FewerRows(o: Outbox, o': Outbox) {
    && o'.born == o.born && o'.died == o.died
    && o'.rows.Keys <= o.rows.Keys && forall k :: k in o'.rows ==> o'.rows[k] == o.rows[k]
  }

  lemma KeptAged(o: Outbox, o': Outbox)
    requires Aged(o) && FewerRows(o, o')
    ensures Aged(o')
  {
  }

  lemma OtherRows(o: Outbox, op: Op)
    ensures op.Terminate? || op.Insert? || op.Reserve? || op.Reattach? || FewerRows(o, Step(o, op))
  {
  }

  lemma StepAged(o: Outbox, lim: Limits, op: Op)
    requires Mirror(o) && Aged(o) && Can(o, lim, op)
    ensures Aged(Step(o, op))
  {
    OtherRows(o, op);
    hide Mirror, Aged, TerminateStep, InsertStep, ReserveStep, ReattachStep;
    match op
    case Terminate(k, reason, source, pruned, mono, now, truth) =>
      TerminateAged(o, lim, k, reason, source, pruned, mono, now, truth);
    case Insert(k, payload, stamp, wire, truth) => InsertAged(o, k, payload, stamp, wire, truth);
    case Reserve(k, mono, later, now) => ReserveAged(o, k, later);
    case Reattach(mono) => ReattachSame(o, mono);
    case _ => KeptAged(o, Step(o, op));
  }

  /** A valid reading of an honestly synchronised clock is a stamp that encloses true hub time. */
  lemma ReadingIsSound(hub: real -> real, cfg: Clock.Config, start: int, ops: seq<Clock.Op>, now: int,
                       system: Option<int>, at: real, basis: string)
    requires Hub.HubClock(hub, Clock.Drift(cfg)) && Hub.HonestRun(hub, cfg, Clock.Initial(start), ops, start)
    requires Hub.LatestOf(ops, start) <= now && now as real <= at < (now + 1) as real
    requires Clock.Snapshot(Clock.Run(Clock.Initial(start), cfg, ops), cfg, now, system).Shot?
    requires Clock.Snapshot(Clock.Run(Clock.Initial(start), cfg, ops), cfg, now, system).reading.valid
    ensures var r := Clock.Snapshot(Clock.Run(Clock.Initial(start), cfg, ops), cfg, now, system).reading;
            r.utc.Some? && r.error.Some? && Encloses(Stamp(r.utc.value, r.error.value, basis), hub(at))
  {
    Hub.ClockIntervalSound(hub, cfg, start, ops, now, system, at);
  }

  /** What a clock reads at `now`, as a stamp. */
  ghost predicate Reads(hub: real -> real, cfg: Clock.Config, start: int, ops: seq<Clock.Op>, now: int, at: real,
                        stamp: Stamp) {
    && Hub.HubClock(hub, Clock.Drift(cfg)) && Hub.HonestRun(hub, cfg, Clock.Initial(start), ops, start)
    && Hub.LatestOf(ops, start) <= now && now as real <= at < (now + 1) as real
    && var shot := Clock.Snapshot(Clock.Run(Clock.Initial(start), cfg, ops), cfg, now, None);
       shot.Shot? && shot.reading.valid && shot.reading.utc == Some(stamp.utc)
         && shot.reading.error == Some(stamp.error)
  }

  lemma ReadsEncloses(hub: real -> real, cfg: Clock.Config, start: int, ops: seq<Clock.Op>, now: int, at: real,
                      stamp: Stamp)
    requires Reads(hub, cfg, start, ops, now, at, stamp)
    ensures Encloses(stamp, hub(at))
  {
    ReadingIsSound(hub, cfg, start, ops, now, None, at, stamp.basis);
  }

  /** A batch stamped by one honestly synchronised process and expired by another, or the same, was by
      true hub time at least seven days old. */
  lemma AgeExpiredSound(hub: real -> real, cfg: Clock.Config, start: int, ops: seq<Clock.Op>, now: int, at: real,
                        hub': real -> real, cfg': Clock.Config, start': int, ops': seq<Clock.Op>, now': int, at': real,
                        stamp: Stamp, stamp': Stamp, e: Entry, mono: real)
    requires Reads(hub, cfg, start, ops, now, at, stamp) && Reads(hub', cfg', start', ops', now', at', stamp')
    requires e.meta.stamp == Some(stamp) && Expired(e, mono, stamp')
    ensures hub'(at') - hub(at) >= WEEK_MS as real
  {
    ReadsEncloses(hub, cfg, start, ops, now, at, stamp);
    ReadsEncloses(hub', cfg', start', ops', now', at', stamp');
    ExpiredIsWeekOld(stamp', hub'(at'), e.meta, hub(at));
  }

  // ---- Every run

  ghost predicate Good(o: Outbox, lim: Limits) {
    Durable(o) && Bounded(o.session.entries, lim) && Paced(o) && Aged(o)
  }

  lemma StepGood(o: Outbox, lim: Limits, op: Op)
    requires Good(o, lim) && Can(o, lim, op)
    ensures Good(Step(o, op), lim)
  {
    StepDurable(o, lim, op);
    StepBounded(o, lim, op);
    StepPaced(o, lim, op);
    StepAged(o, lim, op);
  }

  lemma {:induction false} RunGood(o: Outbox, lim: Limits, ops: seq<Op>)
    requires Good(o, lim) && Permitted(o, lim, ops)
    ensures Good(Run(o, ops), lim)
    decreases |ops|
  {
    if ops != [] {
      StepGood(o, lim, ops[0]);
      RunGood(Step(o, ops[0]), lim, ops[1..]);
    }
  }

  /** Mirror, write-ahead, quotas, pacing and true age, in every reachable state. */
  lemma ReachableGood(lim: Limits, ops: seq<Op>)
    requires Permitted(Empty, lim, ops)
    ensures Good(Run(Empty, ops), lim)
  {
    assert Good(Empty, lim);
    RunGood(Empty, lim, ops);
  }

  /** An acknowledgement for a batch that was ever handed out still finds it, however many crashes,
      retries and failed calls came between, as long as its row is stored. */
  lemma LateAckCorrelates(lim: Limits, ops: seq<Op>, k: Key)
    requires Permitted(Empty, lim, ops) && k in Run(Empty, ops).rows
             && Run(Empty, ops).rows[k].meta.order in Run(Empty, ops).handed
    ensures Correlates(Run(Empty, ops).session, k)
  {
    ReachableGood(lim, ops);
  }

  /** In every reachable state, whoever is reserved is the oldest of its class, takes at most the
      class's seventh slot, and follows its own class only when the other had nothing to send. */
  lemma ReservationsFair(lim: Limits, ops: seq<Op>, k: Key, mono: real, later: real, now: Readings)
    requires Permitted(Empty, lim, ops) && MayReserve(Run(Empty, ops), k, mono, later, now)
    ensures k in Run(Empty, ops).session.entries
    ensures var o := Run(Empty, ops);
            var m, c := o.session.entries, o.session.entries[k].category;
            && (forall j :: j in Candidates(m, c, mono, now) ==> m[k].meta.order <= m[j].meta.order)
            && (o.log != [] && o.log[|o.log| - 1].category == c ==> Candidates(m, Other(c), mono, now) == {})
            && |ActiveIn(ReserveStep(o, k, later).session.entries, c)| <= 7
  {
    var o := Run(Empty, ops);
    ReachableGood(lim, ops);
    assert k in o.session.entries;
    hide Run, Permitted, MayReserve, Candidates, ActiveIn, ReserveStep, Durable, Paced, Bounded, Aged;
    NoEighthSlot(o, lim, k, mono, later, now);
    FairTurn(o, k, mono, later, now);
  }
}
