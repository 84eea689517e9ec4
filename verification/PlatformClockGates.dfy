/** The order of the send gates: a configuration request is only marked sent after a heartbeat, and
    a heartbeat only within a synchronised session. The second half fails in one window, found here:
    `require` reads the clock twice, and time may run out between the two readings. */
module PlatformClockGates {
  import opened Common
  import opened PlatformClock
  import opened PlatformClockRuns

  /** The order of the marks; `whole` adds that a heartbeat mark belongs to a synchronised session. */
  ghost predicate Gates(c: Clock, whole: bool) {
    (c.get ==> c.heartbeat) && (whole && c.heartbeat ==> c.sessionSynced && c.session.Some?)
  }

  lemma SnapshotGates(c: Clock, cfg: Config, now: int, system: Option<int>, whole: bool)
    requires Gates(c, whole)
    ensures Gates(Snapshot(c, cfg, now, system).clock, whole)
  {
  }

  lemma AcceptGates(c: Clock, target: real, error: real, now: int, single: bool, jitter: real, whole: bool)
    requires Gates(c, whole)
    ensures Gates(Accept(c, target, error, now, single, jitter).clock, whole)
  {
  }

  lemma DeviateGates(c: Clock, target: real, error: real, now: int, single: bool, jitter: real, whole: bool)
    requires Gates(c, whole) && c.utc.Some?
    ensures Gates(Deviate(c, target, error, now, single, jitter).clock, whole)
  {
    var t := Invalidate(c, Suspect);
    if t.Ok? && Bump(t.clock).Ok? {
      AcceptGates(Bump(t.clock).clock.(utc := None), target, error, now, single, jitter, whole);
    }
  }

  lemma AdoptGates(c: Clock, target: real, error: real, now: int, single: bool, jitter: real, whole: bool)
    requires Gates(c, whole)
    ensures Gates(Adopt(c, target, error, now, single, jitter).clock, whole)
  {
    var t := Advance(c, now);
    assert Gates(t.clock, whole);
    AcceptGates(t.clock, target, error, now, single, jitter, whole);
    if t.clock.utc.Some? { DeviateGates(t.clock, target, error, now, single, jitter, whole); }
  }

  lemma FinishRoundGates(c: Clock, cfg: Config, now: int, jitter: real, whole: bool)
    requires Gates(c, whole)
    ensures Gates(FinishRound(c, cfg, now, jitter).clock, whole)
  {
    if c.candidates != [] && Consistent(c.candidates, now) && Usable(c.candidates) != [] {
      AdoptCandidateGates(c, Carried(Shortest(Usable(c.candidates)), cfg, now), now, jitter, whole);
    } else {
      GiveUpGates(c, now, jitter, whole);
    }
  }

  lemma GiveUpGates(c: Clock, now: int, jitter: real, whole: bool)
    requires Gates(c, whole)
    ensures Gates(GiveUp(c, now, jitter), whole)
  {
  }

  lemma AdoptCandidateGates(c: Clock, k: Candidate, now: int, jitter: real, whole: bool)
    requires Gates(c, whole)
    ensures Gates(AdoptCandidate(c, k, now, jitter).clock, whole)
  {
    AdoptGates(c, k.target, k.error, now, |c.candidates| < 3, jitter, whole);
  }

  lemma AskGates(c: Clock, cfg: Config, now: int, jitter: real, id: nat, whole: bool)
    requires Gates(c, whole)
    ensures Gates(Ask(c, cfg, now, jitter, id).clock, whole)
  {
    FinishRoundGates(OpenRound(c, now), cfg, now, jitter, whole);
  }

  lemma PursueGates(c: Clock, cfg: Config, now: int, jitter: real, id: nat, whole: bool)
    requires Gates(c, whole)
    ensures Gates(Pursue(c, cfg, now, jitter, id).clock, whole)
  {
    AskGates(c, cfg, now, jitter, id, whole);
    FinishRoundGates(c.(pending := None), cfg, now, jitter, whole);
    AskGates(DropStale(c, cfg, now, jitter).clock, cfg, now, jitter, id, whole);
  }

  lemma MakeRequestGates(c: Clock, cfg: Config, now: int, jitter: real, id: nat, system: Option<int>, whole: bool)
    requires Gates(c, whole)
    ensures Gates(MakeRequest(c, cfg, now, jitter, id, system).clock, whole)
  {
    SnapshotGates(c, cfg, now, system, whole);
    var shot := Snapshot(c, cfg, now, system).clock;
    FinishRoundGates(shot, cfg, now, jitter, whole);
    PursueGates(EndIfOver(shot, cfg, now, jitter).clock, cfg, now, jitter, id, whole);
  }

  lemma CollectGates(c: Clock, cfg: Config, k: Candidate, now: int, jitter: real, whole: bool)
    requires Gates(c, whole)
    ensures Gates(Collect(c, cfg, k, now, jitter).clock, whole)
  {
    FinishRoundGates(c.(candidates := c.candidates + [k], pending := None), cfg, now, jitter, whole);
  }

  lemma TakeResponseGates(c: Clock, cfg: Config, m: Response, now: int, jitter: real, whole: bool)
    requires Gates(c, whole)
    ensures Gates(TakeResponse(c, cfg, m, now, jitter).clock, whole)
  {
    if c.pending.Some? { CollectGates(c, cfg, CandidateOf(c.pending.value, m, cfg, now), now, jitter, whole); }
  }

  lemma RequireGates(c: Clock, cfg: Config, token: Option<Token>, purpose: Purpose, now: int, later: int,
                     system: Option<int>, whole: bool)
    requires Gates(c, whole)
    ensures Gates(Require(c, cfg, token, purpose, now, later, system).clock, whole)
  {
    SnapshotGates(c, cfg, now, system, whole);
    SnapshotGates(Snapshot(c, cfg, now, system).clock, cfg, later, system, whole);
  }

  /** Whether the clock, just read as valid, can still be relied on at a later reading. */
  ghost predicate StillValid(c: Clock, cfg: Config, later: int) {
    c.lastObserved <= later && Valid(Slew(c, later), cfg, later)
  }

  /** Marking a heartbeat as sent keeps the gates in order exactly when the clock is still valid at
      the second reading that `require` takes. */
  lemma HeartbeatGatesExactly(c: Clock, cfg: Config, token: Option<Token>, now: int, later: int, system: Option<int>)
    requires cfg.platform && Inv(c) && Gates(c, true)
    requires Require(c, cfg, token, ControlSend, now, later, system).Granted?
    ensures Snapshot(c, cfg, now, system).Shot?
    ensures Gates(ControlSubmitted(c, cfg, HeartbeatSent, token, now, later, system), true)
            <==> StillValid(Snapshot(c, cfg, now, system).clock, cfg, later)
  {
    var first := Snapshot(c, cfg, now, system);
    SnapshotGood(c, cfg, now, system);
    SnapshotGates(c, cfg, now, system, true);
    HeartbeatSecondReading(first.clock, cfg, later, system);
  }

  lemma HeartbeatSecondReading(c: Clock, cfg: Config, later: int, system: Option<int>)
    requires cfg.platform && Inv(c) && Gates(c, true) && Trusted(c.state) && c.sessionSynced && c.session.Some?
    requires Snapshot(c, cfg, later, system).Shot?
    ensures Gates(Snapshot(c, cfg, later, system).clock.(heartbeat := true), true) <==> StillValid(c, cfg, later)
  {
  }

  /** The readings taken while marking a heartbeat do not straddle the end of validity. */
  ghost predicate Steady(c: Clock, cfg: Config, op: Op) {
    op.ControlOp? && op.kind == HeartbeatSent
      && Require(c, cfg, op.token, ControlSend, op.now, op.later, op.system).Granted?
    ==> StillValid(Snapshot(c, cfg, op.now, op.system).clock, cfg, op.later)
  }

  lemma ControlGates(c: Clock, cfg: Config, kind: Control, token: Option<Token>, now: int, later: int,
                     system: Option<int>, whole: bool)
    requires cfg.platform && Inv(c) && Gates(c, whole)
    requires whole ==> Steady(c, cfg, ControlOp(kind, token, now, later, system))
    ensures Gates(ControlSubmitted(c, cfg, kind, token, now, later, system), whole)
  {
    RequireGates(c, cfg, token, ControlSend, now, later, system, whole);
    if whole && kind == HeartbeatSent && Require(c, cfg, token, ControlSend, now, later, system).Granted? {
      HeartbeatGatesExactly(c, cfg, token, now, later, system);
    }
  }

  lemma StepGates(c: Clock, cfg: Config, op: Op, whole: bool)
    requires cfg.platform && Inv(c) && Gates(c, whole) && (whole ==> Steady(c, cfg, op))
    ensures Gates(Step(c, cfg, op), whole)
  {
    match op
    case ReadOp(now, system) => SnapshotGates(c, cfg, now, system, whole);
    case RequireOp(token, purpose, now, later, system) =>
      RequireGates(c, cfg, token, purpose, now, later, system, whole);
    case ControlOp(kind, token, now, later, system) => ControlGates(c, cfg, kind, token, now, later, system, whole);
    case ConnectOp(session) =>
    case DisconnectOp =>
    case BoundaryOp(basis, lower) =>
    case MaintenanceOp =>
    case RequestOp(now, jitter, id, system) => MakeRequestGates(c, cfg, now, jitter, id, system, whole);
    case ResponseOp(message, now, jitter) => TakeResponseGates(c, cfg, message, now, jitter, whole);
  }

  ghost predicate SteadyRun(c: Clock, cfg: Config, ops: seq<Op>)
    decreases |ops|
  {
    ops == [] || (Steady(c, cfg, ops[0]) && SteadyRun(Step(c, cfg, ops[0]), cfg, ops[1..]))
  }

  /** In every run get-submitted implies heartbeat-submitted; in every steady run a heartbeat mark
      also implies a synchronised session. */
  lemma {:induction false} RunGates(c: Clock, cfg: Config, ops: seq<Op>, whole: bool)
    requires cfg.platform && Inv(c) && Gates(c, whole) && (whole ==> SteadyRun(c, cfg, ops))
    ensures Gates(Run(c, cfg, ops), whole)
    decreases |ops|
  {
    if ops != [] {
      StepGates(c, cfg, ops[0], whole);
      StepGood(c, cfg, ops[0]);
      RunGates(Step(c, cfg, ops[0]), cfg, ops[1..], whole);
    }
  }

  /** A clock in a synchronised session whose last synchronisation is one millisecond short of an hour ago. */
  ghost predicate AlmostExpired(c: Clock, now: int) {
    && Inv(c) && Gates(c, true) && c.state == Synced && c.sessionSynced && c.session.Some?
    && c.revision < MAX_SAFE && c.connection < MAX_SAFE
    && c.lastObserved == now && c.syncMono == Some(now - 3599999)
    && c.uncertainty == 22.0 && c.residual == 0.0
    && c.utc.Some? && 1000.0 <= c.utc.value <= 4000000000000.0
  }

  /** The window is real: a heartbeat whose two readings fall on either side of the hour is marked as
      sent although the session is no longer synchronised. */
  lemma HeartbeatMaySlip(c: Clock, cfg: Config, now: int)
    requires cfg.platform && cfg.drift == 0.0 && AlmostExpired(c, now)
    ensures var token := Token(cfg.boot, c.revision, c.connection, now);
            var c' := ControlSubmitted(c, cfg, HeartbeatSent, Some(token), now, now + 1, None);
            c'.heartbeat && !c'.sessionSynced && c'.state == Expired
  {
    var token := Token(cfg.boot, c.revision, c.connection, now);
    var c1 := Slew(c, now);
    assert c1 == c;
    assert Uncertainty(c1, cfg, now) == 22.0;
    assert Valid(c1, cfg, now);
    var first := Snapshot(c, cfg, now, None);
    assert first.Shot? && first.clock == c && first.reading.valid;
    assert Accepts(first.clock, cfg, first.reading, Some(token), ControlSend);
    SecondReadingExpires(c, cfg, now + 1);
  }

  lemma SecondReadingExpires(c: Clock, cfg: Config, later: int)
    requires cfg.platform && Trusted(c.state) && c.lastObserved <= later && c.revision < MAX_SAFE
             && c.connection < MAX_SAFE
    requires c.syncMono.Some? && later - c.syncMono.value >= 3600000
    ensures var second := Snapshot(c, cfg, later, None);
            second.Shot? && second.clock.state == Expired && !second.clock.sessionSynced && !second.clock.heartbeat
  {
    assert Age(Slew(c, later), later).value >= 3600000;
  }

  // ---- The window is reached from start-up

  const Answered := Candidate(5000.0, 0, 0, 0, 22.0)

  /** Start-up at monotonic time 0, connected, a synchronisation round under way. */
  function Collecting(candidates: seq<Candidate>, attempts: nat, pending: Option<Request>): Clock {
    Clock(0, 1, Some("s"), false, false, false, Syncing, None, 0, None, 0.0, 0.0, None, 0, pending, Some(0), attempts,
          candidates, 0, 0, false)
  }

  /** The same once three answers have been adopted. */
  function Adopted(mono: int): Clock {
    Clock(1, 1, Some("s"), true, false, false, Synced, Some((5000 + mono) as real), mono, Some(0), 22.0, 0.0, None,
      mono,
          None, None, 3, [], 300000, 0, false)
  }

  function Asking(id: nat): Op { RequestOp(0, 1.0, id, None) }

  /** An answer without delay, from a hub whose clock reads five seconds. */
  function Answering(id: nat): Op { ResponseOp(Response(id, "s", false, true, 5000, 5000, 0), 0, 1.0) }

  lemma FirstAsk(cfg: Config)
    requires cfg.platform
    ensures Step(Step(Initial(0), cfg, ConnectOp("s")), cfg, Asking(1)) == Collecting([], 1, Some(Request(1, "s", 0)))
  {
  }

  lemma NextAsk(cfg: Config, candidates: seq<Candidate>, n: nat)
    requires cfg.platform && n < 10
    ensures Step(Collecting(candidates, n, None), cfg, Asking(n + 1))
            == Collecting(candidates, n + 1, Some(Request(n + 1, "s", 0)))
  {
  }

  lemma Collected(cfg: Config, candidates: seq<Candidate>, n: nat)
    requires cfg.drift == 0.0 && |candidates| < 2
    ensures Step(Collecting(candidates, n, Some(Request(n, "s", 0))), cfg, Answering(n))
            == Collecting(candidates + [Answered], n, None)
  {
    var q, m := Request(n, "s", 0), Answering(n).message;
    assert CandidateOf(q, m, cfg, 0) == Answered;
  }

  /** A clock that knows no time adopts a candidate at the moment it was received. */
  lemma AdoptsFirst(c: Clock, k: Candidate, now: int, jitter: real)
    requires c.utc.None? && c.floor.None? && c.session.Some? && c.lastMono == c.lastObserved == now
             && |c.candidates| >= 3
    requires c.revision < MAX_SAFE && c.connection < MAX_SAFE
    ensures AdoptCandidate(c, k, now, jitter)
         == Ok(c.(revision := c.revision + 1, utc := Some(k.target), residual := 0.0, suspectConfirm := false,
                  uncertainty := k.error, syncMono := Some(now), state := Synced, sessionSynced := true,
                  nextSync := now + ResyncDelay(false, jitter), roundStart := None, pending := None, candidates := [],
                  failures := 0))
  {
    assert Advance(c, now) == Ok(c);
  }

  /** Three equal candidates: the first is chosen. */
  lemma FinishesRound(cfg: Config, c: Clock, k: Candidate, now: int, jitter: real)
    requires cfg.drift == 0.0 && c.candidates == [k, k, k] && k.received == now
    ensures FinishRound(c, cfg, now, jitter) == AdoptCandidate(c, k, now, jitter)
  {
    hide AdoptCandidate;
    assert Shortest(c.candidates) in c.candidates;
    assert Consistent(c.candidates, now);
    assert Carried(k, cfg, now) == k;
  }

  lemma LongDelay()
    ensures ResyncDelay(false, 1.0) == 300000
  {
  }

  /** An answer in time and in bounds, when two candidates are there, ends the round. */
  lemma ThirdTaken(c: Clock, cfg: Config, q: Request, m: Response, now: int, jitter: real)
    requires c.pending == Some(q) && c.session == Some(q.session) == Some(m.session) && q.id == m.id
    requires !m.retained && m.wellFormed && InBounds(q, m, now) && Representable(CandidateOf(q, m, cfg, now))
    requires c.roundStart.Some? && now < c.roundStart.value + 30000 && now < q.clientMono + 2000 && |c.candidates| == 2
    ensures TakeResponse(c, cfg, m, now, jitter)
         == FinishRound(c.(candidates := c.candidates + [CandidateOf(q, m, cfg, now)], pending := None), cfg, now,
           jitter)
  {
    hide FinishRound;
  }

  /** The answer to a request is the candidate. */
  lemma AnswerIs(cfg: Config, n: nat)
    requires cfg.drift == 0.0
    ensures CandidateOf(Request(n, "s", 0), Answering(n).message, cfg, 0) == Answered
  {
  }

  lemma AnswerFits(cfg: Config, n: nat)
    requires cfg.drift == 0.0
    ensures InBounds(Request(n, "s", 0), Answering(n).message, 0) && Representable(Answered)
  {
  }

  function Full(): seq<Candidate> { [Answered, Answered] + [Answered] }

  lemma ThirdEnds(cfg: Config)
    requires cfg.drift == 0.0
    ensures TakeResponse(Collecting([Answered, Answered], 3, Some(Request(3, "s", 0))), cfg, Answering(3).message, 0,
            1.0)
         == FinishRound(Collecting(Full(), 3, None), cfg, 0, 1.0)
  {
    AnswerIs(cfg, 3);
    AnswerFits(cfg, 3);
    hide TakeResponse, FinishRound, CandidateOf, InBounds, Representable;
    ThirdTaken(Collecting([Answered, Answered], 3, Some(Request(3, "s", 0))), cfg, Request(3, "s", 0),
      Answering(3).message, 0, 1.0);
  }

  lemma FullAdopted(cfg: Config)
    ensures AdoptCandidate(Collecting(Full(), 3, None), Answered, 0, 1.0) == Ok(Adopted(0))
  {
    AdoptsFirst(Collecting(Full(), 3, None), Answered, 0, 1.0);
    LongDelay();
    hide AdoptCandidate, ResyncDelay;
  }

  /** The third answer ends the round, and the first candidate is adopted. */
  lemma ThirdAnswer(cfg: Config)
    requires cfg.drift == 0.0
    ensures TakeResponse(Collecting([Answered, Answered], 3, Some(Request(3, "s", 0))), cfg, Answering(3).message, 0,
            1.0)
         == Ok(Adopted(0))
  {
    assert Collecting(Full(), 3, None).candidates == [Answered, Answered, Answered];
    hide TakeResponse, FinishRound, AdoptCandidate, Adopted;
    FinishesRound(cfg, Collecting(Full(), 3, None), Answered, 0, 1.0);
    hide Collecting;
    ThirdEnds(cfg);
    FullAdopted(cfg);
  }

  lemma ResponseStep(c: Clock, cfg: Config, m: Response, now: int, jitter: real)
    ensures Step(c, cfg, ResponseOp(m, now, jitter)) == TakeResponse(c, cfg, m, now, jitter).clock
  {
    hide TakeResponse;
  }

  lemma ThirdStep(cfg: Config)
    requires cfg.drift == 0.0
    ensures Step(Collecting([Answered, Answered], 3, Some(Request(3, "s", 0))), cfg, Answering(3)) == Adopted(0)
  {
    hide Step, TakeResponse, Collecting, Adopted;
    ThirdAnswer(cfg);
    ResponseStep(Collecting([Answered, Answered], 3, Some(Request(3, "s", 0))), cfg, Answering(3).message, 0, 1.0);
  }

  lemma IdleSlew(c: Clock, now: int)
    requires c.utc.Some? && c.residual == 0.0 && c.lastMono <= now
    ensures Slew(c, now) == c.(lastObserved := now, lastMono := now,
            utc := Some(c.utc.value + (now - c.lastMono) as real))
  {
  }

  /** An undisturbed clock is valid until its synchronisation is an hour old. */
  lemma IdleReading(c: Clock, cfg: Config, now: int)
    requires cfg.platform && cfg.drift == 0.0 && c.state == Synced && c.sessionSynced && c.residual == 0.0
    requires c.lastMono == c.lastObserved <= now && c.syncMono.Some? && 0 <= now - c.syncMono.value < 3600000
    requires c.uncertainty == 22.0 && c.utc.Some? && 22.0 <= c.utc.value + (now - c.lastMono) as real <= 4000000000000.0
    ensures Snapshot(c, cfg, now, None).clock
         == c.(lastObserved := now, lastMono := now, utc := Some(c.utc.value + (now - c.lastMono) as real))
  {
    IdleSlew(c, now);
    var c1 := Slew(c, now);
    assert Uncertainty(c1, cfg, now) == 22.0;
    assert Valid(c1, cfg, now);
  }

  lemma AlmostAnHour(cfg: Config, now: int)
    requires cfg.platform && cfg.drift == 0.0 && now == 3599999
    ensures Step(Adopted(0), cfg, ReadOp(now, None)) == Adopted(now)
    ensures AlmostExpired(Adopted(now), now)
  {
    IdleReading(Adopted(0), cfg, now);
    hide Snapshot;
  }

  lemma RunThen(c: Clock, cfg: Config, op: Op, c': Clock, rest: seq<Op>)
    requires Step(c, cfg, op) == c'
    ensures Run(c, cfg, [op] + rest) == Run(c', cfg, rest)
  {
    assert ([op] + rest)[1..] == rest;
  }

  /** One request and its answer, and what comes then. */
  function Exchanging(n: nat, rest: seq<Op>): seq<Op> { [Asking(n)] + ([Answering(n)] + rest) }

  /** Connect, three exchanges, and a reading one millisecond short of an hour later. */
  function AlmostAnHourIdle(): seq<Op> {
    [ConnectOp("s")] + Exchanging(1, Exchanging(2, Exchanging(3, [ReadOp(3599999, None)])))
  }

  lemma FirstExchange(cfg: Config, rest: seq<Op>)
    requires cfg.platform && cfg.drift == 0.0
    ensures Run(Initial(0), cfg, [ConnectOp("s")] + Exchanging(1, rest))
            == Run(Collecting([Answered], 1, None), cfg, rest)
  {
    var c1, c2 := Step(Initial(0), cfg, ConnectOp("s")), Collecting([], 1, Some(Request(1, "s", 0)));
    FirstAsk(cfg);
    Collected(cfg, [], 1);
    assert [] + [Answered] == [Answered];
    hide Step, Collecting;
    RunThen(Initial(0), cfg, ConnectOp("s"), c1, Exchanging(1, rest));
    RunThen(c1, cfg, Asking(1), c2, [Answering(1)] + rest);
    RunThen(c2, cfg, Answering(1), Collecting([Answered], 1, None), rest);
  }

  lemma SecondExchange(cfg: Config, rest: seq<Op>)
    requires cfg.platform && cfg.drift == 0.0
    ensures Run(Collecting([Answered], 1, None), cfg, Exchanging(2, rest))
            == Run(Collecting([Answered, Answered], 2, None), cfg, rest)
  {
    var c1, c2 := Collecting([Answered], 1, None), Collecting([Answered], 2, Some(Request(2, "s", 0)));
    NextAsk(cfg, [Answered], 1);
    Collected(cfg, [Answered], 2);
    assert [Answered] + [Answered] == [Answered, Answered];
    hide Step, Collecting;
    RunThen(c1, cfg, Asking(2), c2, [Answering(2)] + rest);
    RunThen(c2, cfg, Answering(2), Collecting([Answered, Answered], 2, None), rest);
  }

  lemma ThirdExchange(cfg: Config, rest: seq<Op>)
    requires cfg.platform && cfg.drift == 0.0
    ensures Run(Collecting([Answered, Answered], 2, None), cfg, Exchanging(3, rest)) == Run(Adopted(0), cfg, rest)
  {
    var c1 := Collecting([Answered, Answered], 2, None);
    var c2 := Collecting([Answered, Answered], 3, Some(Request(3, "s", 0)));
    hide Step, Collecting, Adopted;
    NextAsk(cfg, [Answered, Answered], 2);
    ThirdStep(cfg);
    RunThen(c1, cfg, Asking(3), c2, [Answering(3)] + rest);
    RunThen(c2, cfg, Answering(3), Adopted(0), rest);
  }

  lemma LastReading(cfg: Config, now: int)
    requires cfg.platform && cfg.drift == 0.0 && now == 3599999
    ensures Run(Adopted(0), cfg, [ReadOp(now, None)]) == Adopted(now)
  {
    hide Step, Adopted, AlmostExpired;
    AlmostAnHour(cfg, now);
    assert [ReadOp(now, None)] + [] == [ReadOp(now, None)];
    RunThen(Adopted(0), cfg, ReadOp(now, None), Adopted(now), []);
  }

  lemma AlmostExpiredReached(cfg: Config)
    requires cfg.platform && cfg.drift == 0.0
    ensures Run(Initial(0), cfg, AlmostAnHourIdle()) == Adopted(3599999) && AlmostExpired(Adopted(3599999), 3599999)
  {
    hide Run, Exchanging, Collecting, Adopted, AlmostExpired, Step;
    AlmostAnHour(cfg, 3599999);
    var last := [ReadOp(3599999, None)];
    FirstExchange(cfg, Exchanging(2, Exchanging(3, last)));
    SecondExchange(cfg, Exchanging(3, last));
    ThirdExchange(cfg, last);
    LastReading(cfg, 3599999);
  }

  /** A run from start-up that ends with the heartbeat marked as sent in a session that is not synchronised. */
  lemma GatesSlipFromStart(cfg: Config)
    requires cfg.platform && cfg.drift == 0.0
    ensures exists ops :: Run(Initial(0), cfg, ops).heartbeat && !Run(Initial(0), cfg, ops).sessionSynced
  {
    var ops := AlmostAnHourIdle();
    var op := ControlOp(HeartbeatSent, Some(Token(cfg.boot, 1, 1, 3599999)), 3599999, 3600000, None);
    AlmostExpiredReached(cfg);
    HeartbeatMaySlip(Adopted(3599999), cfg, 3599999);
    RunSplit(Initial(0), cfg, ops + [op], |ops|);
    assert (ops + [op])[..|ops|] == ops && (ops + [op])[|ops|..] == [op];
    RunThen(Adopted(3599999), cfg, op, Step(Adopted(3599999), cfg, op), []);
    assert [op] + [] == [op];
    assert Run(Initial(0), cfg, ops + [op]) == Step(Adopted(3599999), cfg, op);
  }
}
