/** What holds of the logical clock over whole runs: revisions and trust, tokens, gates, slew. */
module PlatformClockRuns {
  import opened Common
  import opened PlatformClock

  // ---- The invariant of every reachable state

  ghost predicate Inv(c: Clock) {
    && (Trusted(c.state) ==> c.utc.Some?)
    && (c.utc.Some? ==> c.syncMono.Some?)
    && (c.pending.Some? ==> c.roundStart.Some?)
    && c.lastMono == c.lastObserved
  }

  /** c' comes after c: numbers do not go back, and while the revision stays, trust is not lost and
      the estimate does not run backward. */
  ghost predicate Later(c: Clock, c': Clock) {
    && c.revision <= c'.revision && c.connection <= c'.connection
    && (Trusted(c.state) && c'.revision == c.revision ==>
          Trusted(c'.state) && c.utc.Some? && c'.utc.Some? && c.utc.value <= c'.utc.value)
  }

  lemma LaterTrans(a: Clock, b: Clock, c: Clock)
    requires Later(a, b) && Later(b, c)
    ensures Later(a, c)
  {
  }

  ghost predicate Follows(c: Clock, c': Clock) {
    Inv(c') && Later(c, c')
  }

  lemma InvalidateGood(c: Clock, state: State)
    requires Inv(c) && !Trusted(state)
    ensures Follows(c, Invalidate(c, state).clock)
    ensures Invalidate(c, state).Ok? ==> !Trusted(Invalidate(c, state).clock.state)
  {
  }

  lemma SlewGood(c: Clock, now: int)
    requires Inv(c) && (Trusted(c.state) ==> c.lastObserved <= now)
    ensures Follows(c, Slew(c, now))
  {
  }

  lemma AdvanceGood(c: Clock, now: int)
    requires Inv(c)
    ensures Follows(c, Advance(c, now).clock)
  {
    if now < c.lastObserved {
      InvalidateGood(c, Maintenance);
    } else {
      SlewGood(c, now);
    }
  }

  lemma SnapshotGood(c: Clock, cfg: Config, now: int, system: Option<int>)
    requires Inv(c)
    ensures Follows(c, Snapshot(c, cfg, now, system).clock)
  {
    AdvanceGood(c, now);
    var c1 := Advance(c, now);
    if c1.Ok? {
      InvalidateGood(c1.clock, Expired);
      LaterTrans(c, c1.clock, Settle(c1.clock, cfg, now).clock);
    }
  }

  lemma AcceptGood(c: Clock, target: real, error: real, now: int, single: bool, jitter: real)
    requires Inv(c)
    ensures Follows(c, Accept(c, target, error, now, single, jitter).clock)
  {
  }

  lemma DeviateGood(c: Clock, target: real, error: real, now: int, single: bool, jitter: real)
    requires Inv(c) && c.utc.Some?
    ensures Follows(c, Deviate(c, target, error, now, single, jitter).clock)
  {
    InvalidateGood(c, Suspect);
    var t1 := Invalidate(c, Suspect);
    if t1.Ok? && t1.clock.suspectConfirm {
      InvalidateGood(t1.clock, Maintenance);
      LaterTrans(c, t1.clock, Invalidate(t1.clock, Maintenance).clock);
      var t2 := Bump(t1.clock);
      if t2.Ok? {
        var c2 := t2.clock.(utc := None);
        AcceptGood(c2, target, error, now, single, jitter);
        LaterTrans(c, c2, Accept(c2, target, error, now, single, jitter).clock);
      }
    }
  }

  lemma AdoptGood(c: Clock, target: real, error: real, now: int, single: bool, jitter: real)
    requires Inv(c)
    ensures Follows(c, Adopt(c, target, error, now, single, jitter).clock)
  {
    AdvanceGood(c, now);
    var t1, r := Advance(c, now), Adopt(c, target, error, now, single, jitter).clock;
    if t1.Ok? {
      var c1 := t1.clock;
      if c1.floor.Some? && target + error < c1.floor.value as real {
        InvalidateGood(c1, Maintenance);
      } else if c1.utc.Some? && Abs(target - c1.utc.value) > 1000.0 {
        DeviateGood(c1, target, error, now, single, jitter);
      } else {
        AcceptGood(c1, target, error, now, single, jitter);
      }
      LaterTrans(c, c1, r);
    }
  }

  lemma CloseRoundGood(c: Clock, t: Try)
    requires Follows(c, t.clock)
    ensures Follows(c, CloseRound(t).clock)
  {
  }

  lemma AdoptCandidateGood(c: Clock, k: Candidate, now: int, jitter: real)
    requires Inv(c)
    ensures Follows(c, AdoptCandidate(c, k, now, jitter).clock)
  {
    AdoptGood(c, k.target, k.error, now, |c.candidates| < 3, jitter);
    CloseRoundGood(c, Adopt(c, k.target, k.error, now, |c.candidates| < 3, jitter));
  }

  lemma GiveUpGood(c: Clock, now: int, jitter: real)
    requires Inv(c)
    ensures Follows(c, GiveUp(c, now, jitter))
  {
  }

  lemma FinishRoundGood(c: Clock, cfg: Config, now: int, jitter: real)
    requires Inv(c)
    ensures Follows(c, FinishRound(c, cfg, now, jitter).clock)
  {
    if c.candidates != [] && Consistent(c.candidates, now) && Usable(c.candidates) != [] {
      AdoptCandidateGood(c, Carried(Shortest(Usable(c.candidates)), cfg, now), now, jitter);
    } else {
      GiveUpGood(c, now, jitter);
    }
  }

  lemma AskGood(c: Clock, cfg: Config, now: int, jitter: real, id: nat)
    requires Inv(c)
    ensures Follows(c, Ask(c, cfg, now, jitter, id).clock)
  {
    var c1 := OpenRound(c, now);
    hide FinishRound;
    FinishRoundGood(c1, cfg, now, jitter);
    LaterTrans(c, c1, FinishRound(c1, cfg, now, jitter).clock);
  }

  lemma PursueGood(c: Clock, cfg: Config, now: int, jitter: real, id: nat)
    requires Inv(c)
    ensures Follows(c, Pursue(c, cfg, now, jitter, id).clock)
  {
    AskGood(c, cfg, now, jitter, id);
    var c1 := c.(pending := None);
    FinishRoundGood(c1, cfg, now, jitter);
    var t := DropStale(c, cfg, now, jitter);
    LaterTrans(c, c1, t.clock);
    AskGood(t.clock, cfg, now, jitter, id);
    LaterTrans(c, t.clock, Ask(t.clock, cfg, now, jitter, id).clock);
  }

  lemma MakeRequestGood(c: Clock, cfg: Config, now: int, jitter: real, id: nat, system: Option<int>)
    requires Inv(c)
    ensures Follows(c, MakeRequest(c, cfg, now, jitter, id, system).clock)
  {
    SnapshotGood(c, cfg, now, system);
    var shot := Snapshot(c, cfg, now, system).clock;
    FinishRoundGood(shot, cfg, now, jitter);
    var t := EndIfOver(shot, cfg, now, jitter);
    LaterTrans(c, shot, t.clock);
    PursueGood(t.clock, cfg, now, jitter, id);
    LaterTrans(c, t.clock, Pursue(t.clock, cfg, now, jitter, id).clock);
  }

  lemma CollectGood(c: Clock, cfg: Config, k: Candidate, now: int, jitter: real)
    requires Inv(c)
    ensures Follows(c, Collect(c, cfg, k, now, jitter).clock)
  {
    var c1 := c.(candidates := c.candidates + [k], pending := None);
    hide FinishRound, Representable;
    FinishRoundGood(c1, cfg, now, jitter);
    LaterTrans(c, c1, FinishRound(c1, cfg, now, jitter).clock);
  }

  lemma TakeResponseGood(c: Clock, cfg: Config, m: Response, now: int, jitter: real)
    requires Inv(c)
    ensures Follows(c, TakeResponse(c, cfg, m, now, jitter).clock)
  {
    if c.pending.Some? { CollectGood(c, cfg, CandidateOf(c.pending.value, m, cfg, now), now, jitter); }
  }

  lemma RequireGood(c: Clock, cfg: Config, token: Option<Token>, purpose: Purpose, now: int, later: int,
                    system: Option<int>)
    requires Inv(c)
    ensures Follows(c, Require(c, cfg, token, purpose, now, later, system).clock)
  {
    SnapshotGood(c, cfg, now, system);
    var first := Snapshot(c, cfg, now, system);
    if first.Shot? {
      SnapshotGood(first.clock, cfg, later, system);
      LaterTrans(c, first.clock, Snapshot(first.clock, cfg, later, system).clock);
    }
  }

  lemma ControlGood(c: Clock, cfg: Config, kind: Control, token: Option<Token>, now: int, later: int,
                    system: Option<int>)
    requires Inv(c)
    ensures Follows(c, ControlSubmitted(c, cfg, kind, token, now, later, system))
  {
    RequireGood(c, cfg, token, ControlSend, now, later, system);
  }

  lemma BoundaryGood(c: Clock, cfg: Config, basis: string, lower: Option<int>)
    requires Inv(c)
    ensures Follows(c, LoadBoundary(c, cfg, basis, lower).clock)
  {
    InvalidateGood(c, Maintenance);
    if lower.Some? {
      InvalidateGood(c.(floor := Some(Max(if c.floor.Some? then c.floor.value else 0, lower.value))), Maintenance);
    }
  }

  lemma StepGood(c: Clock, cfg: Config, op: Op)
    requires Inv(c)
    ensures Follows(c, Step(c, cfg, op))
  {
    match op
    case ReadOp(now, system) => SnapshotGood(c, cfg, now, system);
    case RequireOp(token, purpose, now, later, system) => RequireGood(c, cfg, token, purpose, now, later, system);
    case ControlOp(kind, token, now, later, system) => ControlGood(c, cfg, kind, token, now, later, system);
    case ConnectOp(session) =>
    case DisconnectOp =>
    case BoundaryOp(basis, lower) => BoundaryGood(c, cfg, basis, lower);
    case MaintenanceOp => InvalidateGood(c, Maintenance);
    case RequestOp(now, jitter, id, system) => MakeRequestGood(c, cfg, now, jitter, id, system);
    case ResponseOp(message, now, jitter) => TakeResponseGood(c, cfg, message, now, jitter);
  }

  lemma {:induction false} RunGood(c: Clock, cfg: Config, ops: seq<Op>)
    requires Inv(c)
    ensures Follows(c, Run(c, cfg, ops))
    decreases |ops|
  {
    if ops != [] {
      StepGood(c, cfg, ops[0]);
      RunGood(Step(c, cfg, ops[0]), cfg, ops[1..]);
      LaterTrans(c, Step(c, cfg, ops[0]), Run(c, cfg, ops));
    }
  }

  lemma {:induction false} RunSplit(c: Clock, cfg: Config, ops: seq<Op>, i: nat)
    requires i <= |ops|
    ensures Run(c, cfg, ops) == Run(Run(c, cfg, ops[..i]), cfg, ops[i..])
    decreases |ops|
  {
    if i > 0 {
      RunSplit(Step(c, cfg, ops[0]), cfg, ops[1..], i - 1);
      assert ops[..i][1..] == ops[1..][..i - 1];
      assert ops[1..][i - 1..] == ops[i..];
    } else {
      assert ops[..0] == [] && ops[0..] == ops;
    }
  }

  // ---- Monotone UTC

  /** Two valid readings that carry the same revision never run backward, whatever happened between. */
  lemma UtcMonotone(c: Clock, cfg: Config, now: int, system: Option<int>, ops: seq<Op>, later: int,
                     laterSystem: Option<int>)
    requires Inv(c)
    requires Snapshot(c, cfg, now, system).Shot?
    requires Snapshot(Run(Snapshot(c, cfg, now, system).clock, cfg, ops), cfg, later, laterSystem).Shot?
    ensures var first := Snapshot(c, cfg, now, system);
            var second := Snapshot(Run(first.clock, cfg, ops), cfg, later, laterSystem);
            first.reading.valid && second.reading.valid && first.reading.revision == second.reading.revision ==>
              first.reading.utc.value <= second.reading.utc.value
  {
    var first := Snapshot(c, cfg, now, system);
    SnapshotGood(c, cfg, now, system);
    RunGood(first.clock, cfg, ops);
    var mid := Run(first.clock, cfg, ops);
    var second := Snapshot(mid, cfg, later, laterSystem);
    SnapshotGood(mid, cfg, later, laterSystem);
    LaterTrans(first.clock, mid, second.clock);
    if first.reading.valid && second.reading.valid && first.reading.revision == second.reading.revision {
      assert Trusted(first.clock.state);
      assert first.reading.utc.value == first.clock.utc.value.Floor;
      assert second.reading.utc.value == second.clock.utc.value.Floor;
    }
  }

  // ---- Slew

  /** While a reading advances the clock, estimate plus residual moves exactly with the monotonic
      clock, the rate stays within half a percent of it, and the residual only shrinks. */
  lemma SlewExact(c: Clock, now: int)
    requires c.utc.Some? && c.lastMono <= now
    ensures var c', e := Slew(c, now), (now - c.lastMono) as real;
            && c'.utc.Some?
            && c'.utc.value + c'.residual == c.utc.value + c.residual + e
            && 0.995 * e <= c'.utc.value - c.utc.value <= 1.005 * e
            && Abs(c'.residual) <= Abs(c.residual)
            && (Abs(c.residual) <= 0.005 * e ==> c'.residual == 0.0)
  {
  }

  ghost predicate Nondecreasing(from: int, readings: seq<int>)
    decreases |readings|
  {
    readings == [] || (from <= readings[0] && Nondecreasing(readings[0], readings[1..]))
  }

  function SlewAll(c: Clock, readings: seq<int>): Clock
    decreases |readings|
  {
    if readings == [] then c else SlewAll(Slew(c, readings[0]), readings[1..])
  }

  /** The same over any number of readings. */
  lemma {:induction false} SlewRun(c: Clock, readings: seq<int>)
    requires c.utc.Some? && Nondecreasing(c.lastMono, readings)
    ensures var c' := SlewAll(c, readings);
            var e := (c'.lastMono - c.lastMono) as real;
            && c'.lastMono == (if readings == [] then c.lastMono else readings[|readings| - 1])
            && c'.utc.Some? && c'.utc.value + c'.residual == c.utc.value + c.residual + e
            && 0.995 * e <= c'.utc.value - c.utc.value <= 1.005 * e
    decreases |readings|
  {
    if readings != [] {
      SlewExact(c, readings[0]);
      SlewRun(Slew(c, readings[0]), readings[1..]);
    }
  }

  // ---- Tokens

  /** A token issued with a valid reading and accepted later proves that in between the connection
      was never renewed and trust was never lost. */
  lemma TokenAbaFree(c: Clock, cfg: Config, now: int, system: Option<int>, ops: seq<Op>, later: int, purpose: Purpose,
                     i: nat)
    requires Inv(c) && Snapshot(c, cfg, now, system).Shot? && Snapshot(c, cfg, now, system).reading.valid
    requires var first := Snapshot(c, cfg, now, system);
             var second := Snapshot(Run(first.clock, cfg, ops), cfg, later, system);
             second.Shot? && Accepts(second.clock, cfg, second.reading, Some(TokenOf(cfg, first.reading)), purpose)
    requires i <= |ops|
    ensures var first := Snapshot(c, cfg, now, system);
            var mid := Run(first.clock, cfg, ops[..i]);
            mid.connection == first.clock.connection && mid.revision == first.clock.revision && Trusted(mid.state)
  {
    var first := Snapshot(c, cfg, now, system);
    var mid, end := Run(first.clock, cfg, ops[..i]), Run(first.clock, cfg, ops);
    SnapshotGood(c, cfg, now, system);
    RunGood(first.clock, cfg, ops[..i]);
    RunSplit(first.clock, cfg, ops, i);
    RunGood(mid, cfg, ops[i..]);
    SnapshotGood(end, cfg, later, system);
  }

  /** A token refused because a revision moved is refused in every later state. */
  lemma TokenRevokedForever(c: Clock, cfg: Config, token: Token, ops: seq<Op>, later: int, system: Option<int>,
                            purpose: Purpose)
    requires Inv(c) && (token.revision < c.revision || token.connection < c.connection)
    ensures var shot := Snapshot(Run(c, cfg, ops), cfg, later, system);
            shot.Shot? ==> !Accepts(shot.clock, cfg, shot.reading, Some(token), purpose)
  {
    RunGood(c, cfg, ops);
    SnapshotGood(Run(c, cfg, ops), cfg, later, system);
  }

  /** Tokens never run ahead of the clock, so a mismatch means the clock has moved on. */
  lemma TokenNeverAhead(c: Clock, cfg: Config, now: int, system: Option<int>, ops: seq<Op>)
    requires Inv(c) && Snapshot(c, cfg, now, system).Shot?
    ensures var first := Snapshot(c, cfg, now, system);
            var token, end := TokenOf(cfg, first.reading), Run(first.clock, cfg, ops);
            token.revision <= end.revision && token.connection <= end.connection
  {
    SnapshotGood(c, cfg, now, system);
    RunGood(Snapshot(c, cfg, now, system).clock, cfg, ops);
  }
}
