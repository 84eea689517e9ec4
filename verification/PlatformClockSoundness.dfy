/** Interval soundness: if the hub's clock drifts from the local monotonic clock by no more than the
    configured bound and network delays are not negative, then true hub time lies inside every valid
    reading's interval, through any sequence of rounds, adoptions and slews. Stamps and readings are
    rounded down to milliseconds; the 22 ms allowance in a candidate's error absorbs that. */
module PlatformClockSoundness {
  import opened Common
  import opened PlatformClock

  /** Hub time as a function of local monotonic time, within the drift bound. */
  ghost predicate HubClock(hub: real -> real, d: real) {
    && 0.0 <= d <= 0.001
    && forall a: real, b: real {:trigger hub(a), hub(b)} :: a <= b ==>
         (b - a) - (b - a) * d <= hub(b) - hub(a) <= (b - a) + (b - a) * d
  }

  /** Of the 22 ms, what is left once the stamps' rounding is paid for. */
  const SLACK: real := 18.0

  /** The estimate is right at this reading to within the error, with the slack to spare. */
  ghost predicate Near(hub: real -> real, at: int, estimate: real, error: real) {
    -(error - SLACK) <= hub(at as real) - estimate <= error - SLACK
  }

  /** An error after it has grown with the drift since an earlier reading. */
  ghost function Spread(error: real, now: int, at: int, d: real): real {
    error + (now - at) as real * d
  }

  lemma SpreadAdds(error: real, s: int, m: int, now: int, d: real)
    ensures Spread(Spread(error, m, s, d), now, m, d) == Spread(error, now, s, d)
  {
    assert (m - s) as real * d + (now - m) as real * d == ((m - s) as real + (now - m) as real) * d;
  }

  lemma NearLater(hub: real -> real, d: real, at: int, estimate: real, error: real, now: int)
    requires HubClock(hub, d) && Near(hub, at, estimate, error) && at <= now
    ensures Near(hub, now, estimate + (now - at) as real, Spread(error, now, at, d))
  {
    var a, b := at as real, now as real;
    assert (now - at) as real == b - a;
    assert (b - a) - (b - a) * d <= hub(b) - hub(a) <= (b - a) + (b - a) * d;
  }

  // ---- One exchange

  /** The hub received the request at t1 and stamped its answer at t2: after the request was made,
      before the answer was read, and its stamps are its own clock rounded down. */
  ghost predicate Honest(hub: real -> real, q: Request, m: Response, t1: real, t2: real) {
    && q.clientMono as real <= t1 <= t2 < (m.received + 1) as real
    && m.hubReceived == hub(t1).Floor && m.hubSent == hub(t2).Floor
  }

  lemma MulNonneg(a: real, b: real)
    requires 0.0 <= a && 0.0 <= b
    ensures 0.0 <= a * b
  {
  }

  /** A drift over at most one millisecond. */
  lemma SmallDrift(x: real, d: real, w: real)
    requires 0.0 <= x <= 1.0 && 0.0 <= d <= 0.001 && w == x * d
    ensures 0.0 <= w <= 0.001 && w <= x
  {
    MulNonneg(x, d);
    MulNonneg(x, 0.001 - d);
    assert x * (0.001 - d) == x * 0.001 - x * d;
  }

  /** Arithmetic of the upper bound, with the hub's readings as plain numbers. */
  lemma UpperBound(d: real, client: real, t1: real, t2: real, r: real, h1: real, h2: real, hr: real, processing: int)
    requires 0.0 <= d <= 0.001 && client <= t1 <= t2 && t2 <= r && r - client < 2000.0
    requires h2 - h1 <= (t2 - t1) + (t2 - t1) * d
    requires hr - h2 <= (r - t2) + (r - t2) * d
    requires processing as real <= h2 - h1 + 1.0
    ensures hr - h2 <= (r - client) - processing as real + 3.0
  {
    var x, y := t2 - t1, r - t2;
    assert x + y <= r - client;
    assert x * d + y * d == (x + y) * d;
    MulNonneg(x + y, 0.001 - d);
    assert (x + y) * (0.001 - d) == (x + y) * 0.001 - (x + y) * d;
  }

  lemma NotBack(x: real, d: real, a: real)
    requires 0.0 <= x && 0.0 <= d <= 0.001 && x - x * d <= a
    ensures 0.0 <= a
  {
    MulNonneg(x, 1.0 - d);
    assert x * (1.0 - d) == x - x * d;
  }

  lemma JustAfter(y: real, d: real, w: real, a: real)
    requires 0.0 <= y <= 1.0 && 0.0 <= d <= 0.001 && w == y * d && y - w <= a <= y + w
    ensures 0.0 <= a <= 1.001
  {
    SmallDrift(y, d, w);
  }

  /** Between the hub's stamp and the local reading, hub time moves by at most the measured path
      (and a little for rounding), and back by at most a millisecond. */
  lemma TravelBound(hub: real -> real, d: real, q: Request, m: Response, t1: real, t2: real)
    requires HubClock(hub, d) && Honest(hub, q, m, t1, t2) && m.received - q.clientMono < 2000
    ensures -1.001 <= hub(m.received as real) - hub(t2) <= Max(0, PathOf(q, m)) as real + 3.0
  {
    var r := m.received as real;
    var h1, h2, hr := hub(t1), hub(t2), hub(r);
    assert (t2 - t1) - (t2 - t1) * d <= h2 - h1 <= (t2 - t1) + (t2 - t1) * d;
    if t2 <= r {
      assert (r - t2) - (r - t2) * d <= hr - h2 <= (r - t2) + (r - t2) * d;
      NotBack(r - t2, d, hr - h2);
      UpperBound(d, q.clientMono as real, t1, t2, r, h1, h2, hr, m.hubSent - m.hubReceived);
    } else {
      var y := t2 - r;
      assert y - y * d <= h2 - hr <= y + y * d;
      JustAfter(y, d, y * d, h2 - hr);
    }
  }

  lemma CandidateNear(hub: real -> real, cfg: Config, q: Request, m: Response, now: int, t1: real, t2: real)
    requires HubClock(hub, Drift(cfg)) && Honest(hub, q, m, t1, t2) && InBounds(q, m, now)
    ensures Near(hub, m.received, CandidateOf(q, m, cfg, now).target, CandidateOf(q, m, cfg, now).error)
  {
    TravelBound(hub, Drift(cfg), q, m, t1, t2);
    MulNonneg((now - m.received) as real, Drift(cfg));
    var k, path := CandidateOf(q, m, cfg, now), PathOf(q, m);
    CandidateArithmetic(hub(t2), hub(m.received as real), m.hubSent, path, k.error);
  }

  lemma CandidateArithmetic(h2: real, hr: real, sent: int, path: int, error: real)
    requires sent == h2.Floor && -1.001 <= hr - h2 <= Max(0, path) as real + 3.0
    requires Max(0, path) as real / 2.0 + 22.0 <= error
    ensures -(error - SLACK) <= hr - (sent as real + Max(0, path) as real / 2.0) <= error - SLACK
  {
  }

  // ---- The invariant, for any notion of a right estimate

  /** Arguments: reading, reading of the last synchronisation, uncertainty, estimate. */
  type Right = (int, int, real, real) -> bool

  /** A right estimate stays right when it moves with the monotonic clock; a right candidate carried
      forward to the moment of adoption is a right estimate. */
  ghost predicate Carries(right: Right, fine: Candidate -> bool, cfg: Config) {
    && (forall m, s, u, e, now, e' :: right(m, s, u, e) && m <= now && e' == e + (now - m) as real ==>
      right(now, s, u, e'))
    && (forall k, now {:trigger Carried(k, cfg, now)} :: fine(k) && k.received <= now ==>
          right(now, now, Carried(k, cfg, now).error, Carried(k, cfg, now).target))
  }

  ghost predicate Sound(right: Right, fine: Candidate -> bool, c: Clock, latest: int) {
    && c.lastMono == c.lastObserved <= latest
    && (c.utc.Some? ==>
        && c.syncMono.Some? && c.syncMono.value <= c.lastMono
        && right(c.lastMono, c.syncMono.value, c.uncertainty, c.utc.value + c.residual))
    && (forall k :: k in c.candidates ==> k.received <= latest && fine(k))
  }

  lemma SlewSound(right: Right, fine: Candidate -> bool, cfg: Config, c: Clock, now: int)
    requires Carries(right, fine, cfg) && Sound(right, fine, c, now)
    ensures Sound(right, fine, Slew(c, now), now)
  {
    if c.utc.Some? {
      var e, e' := c.utc.value + c.residual, Slew(c, now).utc.value + Slew(c, now).residual;
      assert e' == e + (now - c.lastMono) as real;
      assert right(c.lastMono, c.syncMono.value, c.uncertainty, e);
      assert right(now, c.syncMono.value, c.uncertainty, e');
    }
  }

  /** Steps that leave the estimate and its error alone, and drop candidates if anything. */
  ghost predicate SameEstimate(c: Clock, c': Clock) {
    && c'.lastMono == c.lastMono && c'.lastObserved == c.lastObserved
    && (c'.utc.None? || (c'.utc == c.utc && c'.residual == c.residual))
    && c'.syncMono == c.syncMono && c'.uncertainty == c.uncertainty
    && (c'.candidates == c.candidates || c'.candidates == [])
  }

  lemma SameEstimateSound(right: Right, fine: Candidate -> bool, c: Clock, c': Clock, latest: int)
    requires Sound(right, fine, c, latest) && SameEstimate(c, c')
    ensures Sound(right, fine, c', latest)
  {
  }

  lemma SnapshotSound(right: Right, fine: Candidate -> bool, cfg: Config, c: Clock, now: int, system: Option<int>)
    requires Carries(right, fine, cfg) && Sound(right, fine, c, now)
    ensures Sound(right, fine, Snapshot(c, cfg, now, system).clock, now)
  {
    SlewSound(right, fine, cfg, c, now);
    SettleSame(Slew(c, now), cfg, now);
    SameEstimateSound(right, fine, Slew(c, now), Settle(Slew(c, now), cfg, now).clock, now);
  }

  lemma SettleSame(c: Clock, cfg: Config, now: int)
    ensures SameEstimate(c, Settle(c, cfg, now).clock)
  {
  }

  lemma AcceptSound(right: Right, fine: Candidate -> bool, c: Clock, target: real, error: real, now: int, single: bool,
                    jitter: real)
    requires Sound(right, fine, c, now) && c.lastMono == now && right(now, now, error, target)
    ensures Sound(right, fine, Accept(c, target, error, now, single, jitter).clock, now)
  {
  }

  lemma DeviateSound(right: Right, fine: Candidate -> bool, c: Clock, target: real, error: real, now: int,
                     single: bool, jitter: real)
    requires Sound(right, fine, c, now) && c.lastMono == now && right(now, now, error, target) && c.utc.Some?
    ensures Sound(right, fine, Deviate(c, target, error, now, single, jitter).clock, now)
  {
    var t := Invalidate(c, Suspect);
    SameEstimateSound(right, fine, c, t.clock, now);
    if t.Ok? {
      SameEstimateSound(right, fine, c, Invalidate(t.clock, Maintenance).clock, now);
      var b := Bump(t.clock);
      if b.Ok? {
        var c2 := b.clock.(utc := None);
        SameEstimateSound(right, fine, c, c2, now);
        AcceptSound(right, fine, c2, target, error, now, single, jitter);
      }
    }
  }

  lemma SlewMono(c: Clock, now: int)
    ensures Slew(c, now).lastMono == now
  {
  }

  lemma AdoptSound(right: Right, fine: Candidate -> bool, cfg: Config, c: Clock, target: real, error: real, now: int,
                   single: bool, jitter: real)
    requires Carries(right, fine, cfg) && Sound(right, fine, c, now) && right(now, now, error, target)
    ensures Sound(right, fine, Adopt(c, target, error, now, single, jitter).clock, now)
  {
    SlewSound(right, fine, cfg, c, now);
    var c1 := Slew(c, now);
    SlewMono(c, now);
    hide Sound, Carries, Slew, Accept, Deviate;
    SameEstimateSound(right, fine, c1, Invalidate(c1, Maintenance).clock, now);
    AcceptSound(right, fine, c1, target, error, now, single, jitter);
    if c1.utc.Some? { DeviateSound(right, fine, c1, target, error, now, single, jitter); }
  }

  lemma AdoptCandidateSound(right: Right, fine: Candidate -> bool, cfg: Config, c: Clock, k: Candidate, now: int,
                            jitter: real)
    requires Carries(right, fine, cfg) && Sound(right, fine, c, now) && right(now, now, k.error, k.target)
    ensures Sound(right, fine, AdoptCandidate(c, k, now, jitter).clock, now)
  {
    AdoptSound(right, fine, cfg, c, k.target, k.error, now, |c.candidates| < 3, jitter);
  }

  lemma FinishRoundSound(right: Right, fine: Candidate -> bool, cfg: Config, c: Clock, now: int, jitter: real)
    requires Carries(right, fine, cfg) && Sound(right, fine, c, now)
    ensures Sound(right, fine, FinishRound(c, cfg, now, jitter).clock, now)
  {
    if c.candidates != [] && Consistent(c.candidates, now) && Usable(c.candidates) != [] {
      var k := Shortest(Usable(c.candidates));
      assert k in c.candidates;
      AdoptCandidateSound(right, fine, cfg, c, Carried(k, cfg, now), now, jitter);
    } else {
      SameEstimateSound(right, fine, c, GiveUp(c, now, jitter), now);
    }
  }

  lemma AskSound(right: Right, fine: Candidate -> bool, cfg: Config, c: Clock, now: int, jitter: real, id: nat)
    requires Carries(right, fine, cfg) && Sound(right, fine, c, now)
    ensures Sound(right, fine, Ask(c, cfg, now, jitter, id).clock, now)
  {
    SameEstimateSound(right, fine, c, OpenRound(c, now), now);
    FinishRoundSound(right, fine, cfg, OpenRound(c, now), now, jitter);
  }

  lemma PursueSound(right: Right, fine: Candidate -> bool, cfg: Config, c: Clock, now: int, jitter: real, id: nat)
    requires Carries(right, fine, cfg) && Sound(right, fine, c, now)
    ensures Sound(right, fine, Pursue(c, cfg, now, jitter, id).clock, now)
  {
    AskSound(right, fine, cfg, c, now, jitter, id);
    FinishRoundSound(right, fine, cfg, c.(pending := None), now, jitter);
    AskSound(right, fine, cfg, DropStale(c, cfg, now, jitter).clock, now, jitter, id);
  }

  lemma MakeRequestSound(right: Right, fine: Candidate -> bool, cfg: Config, c: Clock, now: int, jitter: real, id: nat,
                         system: Option<int>)
    requires Carries(right, fine, cfg) && Sound(right, fine, c, now)
    ensures Sound(right, fine, MakeRequest(c, cfg, now, jitter, id, system).clock, now)
  {
    SnapshotSound(right, fine, cfg, c, now, system);
    var shot := Snapshot(c, cfg, now, system).clock;
    FinishRoundSound(right, fine, cfg, shot, now, jitter);
    PursueSound(right, fine, cfg, EndIfOver(shot, cfg, now, jitter).clock, now, jitter, id);
  }

  lemma CollectSound(right: Right, fine: Candidate -> bool, cfg: Config, c: Clock, k: Candidate, now: int, jitter: real)
    requires Carries(right, fine, cfg) && Sound(right, fine, c, now) && k.received <= now && fine(k)
    ensures Sound(right, fine, Collect(c, cfg, k, now, jitter).clock, now)
  {
    FinishRoundSound(right, fine, cfg, c.(candidates := c.candidates + [k], pending := None), now, jitter);
  }

  /** The answer to the request in flight, if that is what the message is, makes a right candidate. */
  ghost predicate AnswerFine(fine: Candidate -> bool, cfg: Config, c: Clock, m: Response, now: int) {
    c.pending.Some? && m.id == c.pending.value.id && InBounds(c.pending.value, m, now) ==>
      fine(CandidateOf(c.pending.value, m, cfg, now))
  }

  lemma TakeResponseSound(right: Right, fine: Candidate -> bool, cfg: Config, c: Clock, m: Response, now: int,
                          jitter: real)
    requires Carries(right, fine, cfg) && Sound(right, fine, c, now) && AnswerFine(fine, cfg, c, m, now)
    ensures Sound(right, fine, TakeResponse(c, cfg, m, now, jitter).clock, now)
  {
    if c.pending.Some? && m.id == c.pending.value.id && InBounds(c.pending.value, m, now) {
      CollectSound(right, fine, cfg, c, CandidateOf(c.pending.value, m, cfg, now), now, jitter);
    }
  }

  lemma RequireSound(right: Right, fine: Candidate -> bool, cfg: Config, c: Clock, token: Option<Token>,
                     purpose: Purpose, now: int, later: int, system: Option<int>)
    requires Carries(right, fine, cfg) && Sound(right, fine, c, now) && now <= later
    ensures Sound(right, fine, Require(c, cfg, token, purpose, now, later, system).clock, later)
  {
    hide Sound, Carries, Snapshot, Accepts;
    var c1 := Snapshot(c, cfg, now, system).clock;
    SnapshotSound(right, fine, cfg, c, now, system);
    SoundLater(right, fine, c, now, later);
    SoundLater(right, fine, c1, now, later);
    SnapshotSound(right, fine, cfg, c1, later, system);
  }

  // ---- Runs

  /** The step's readings of the monotonic clock come after `latest`, in order; `Latest` is the last one. */
  ghost predicate Timely(op: Op, latest: int) {
    match op
    case ReadOp(now, _) => latest <= now
    case RequireOp(_, _, now, later, _) => latest <= now <= later
    case ControlOp(_, _, now, later, _) => latest <= now <= later
    case RequestOp(now, _, _, _) => latest <= now
    case ResponseOp(_, now, _) => latest <= now
    case _ => true
  }

  function Latest(op: Op, latest: int): int {
    match op
    case ReadOp(now, _) => now
    case RequireOp(_, _, _, later, _) => later
    case ControlOp(_, _, _, later, _) => later
    case RequestOp(now, _, _, _) => now
    case ResponseOp(_, now, _) => now
    case _ => latest
  }

  lemma ControlSound(right: Right, fine: Candidate -> bool, cfg: Config, c: Clock, kind: Control, token: Option<Token>,
                     now: int, later: int, system: Option<int>)
    requires Carries(right, fine, cfg) && Sound(right, fine, c, now) && now <= later
    ensures Sound(right, fine, ControlSubmitted(c, cfg, kind, token, now, later, system), later)
  {
    RequireSound(right, fine, cfg, c, token, ControlSend, now, later, system);
  }

  lemma SoundLater(right: Right, fine: Candidate -> bool, c: Clock, latest: int, now: int)
    requires Sound(right, fine, c, latest) && latest <= now
    ensures Sound(right, fine, c, now)
  {
  }

  lemma ConnectSound(right: Right, fine: Candidate -> bool, cfg: Config, c: Clock, session: string, latest: int)
    requires Sound(right, fine, c, latest)
    ensures Sound(right, fine, Connect(c, cfg, session).clock, latest)
    ensures Sound(right, fine, Disconnect(c, cfg).clock, latest)
  {
    SameEstimateSound(right, fine, c, Connect(c, cfg, session).clock, latest);
    SameEstimateSound(right, fine, c, Disconnect(c, cfg).clock, latest);
  }

  lemma InvalidateSound(right: Right, fine: Candidate -> bool, c: Clock, state: State, latest: int)
    requires Sound(right, fine, c, latest)
    ensures Sound(right, fine, Invalidate(c, state).clock, latest)
  {
    SameEstimateSound(right, fine, c, Invalidate(c, state).clock, latest);
  }

  lemma BoundarySound(right: Right, fine: Candidate -> bool, cfg: Config, c: Clock, basis: string, lower: Option<int>,
                      latest: int)
    requires Sound(right, fine, c, latest)
    ensures Sound(right, fine, LoadBoundary(c, cfg, basis, lower).clock, latest)
  {
    var c1 := c.(floor := if lower.Some? then Some(Max(if c.floor.Some? then c.floor.value else 0, lower.value))
      else c.floor);
    InvalidateSound(right, fine, c, Maintenance, latest);
    InvalidateSound(right, fine, c1, Maintenance, latest);
  }

  lemma StepSound(right: Right, fine: Candidate -> bool, cfg: Config, c: Clock, op: Op, latest: int)
    requires Carries(right, fine, cfg) && Sound(right, fine, c, latest) && Timely(op, latest)
    requires op.ResponseOp? ==> AnswerFine(fine, cfg, c, op.message, op.now)
    ensures Sound(right, fine, Step(c, cfg, op), Latest(op, latest))
  {
    if op.ReadOp? || op.RequireOp? || op.ControlOp? || op.RequestOp? || op.ResponseOp? {
      SoundLater(right, fine, c, latest, op.now);
    }
    match op
    case ReadOp(now, system) => SnapshotSound(right, fine, cfg, c, now, system);
    case RequireOp(token, purpose, now, later, system) =>
      RequireSound(right, fine, cfg, c, token, purpose, now, later, system);
    case ControlOp(kind, token, now, later, system) =>
      ControlSound(right, fine, cfg, c, kind, token, now, later, system);
    case RequestOp(now, jitter, id, system) => MakeRequestSound(right, fine, cfg, c, now, jitter, id, system);
    case ResponseOp(message, now, jitter) => TakeResponseSound(right, fine, cfg, c, message, now, jitter);
    case ConnectOp(session) => ConnectSound(right, fine, cfg, c, session, latest);
    case DisconnectOp => ConnectSound(right, fine, cfg, c, "disconnected", latest);
    case BoundaryOp(basis, lower) => BoundarySound(right, fine, cfg, c, basis, lower, latest);
    case MaintenanceOp => InvalidateSound(right, fine, c, Maintenance, latest);
  }

  // ---- With true hub time

  /** The answer to the request in flight, if that is what the message is, is honest. */
  ghost predicate HonestFor(hub: real -> real, c: Clock, m: Response) {
    c.pending.Some? && m.id == c.pending.value.id ==>
      exists t1: real, t2: real :: Honest(hub, c.pending.value, m, t1, t2)
  }

  ghost predicate HonestRun(hub: real -> real, cfg: Config, c: Clock, ops: seq<Op>, latest: int)
    decreases |ops|
  {
    ops == [] ||
    (&& Timely(ops[0], latest)
     && (ops[0].ResponseOp? ==> HonestFor(hub, c, ops[0].message))
     && HonestRun(hub, cfg, Step(c, cfg, ops[0]), ops[1..], Latest(ops[0], latest)))
  }

  function LatestOf(ops: seq<Op>, latest: int): int
    decreases |ops|
  {
    if ops == [] then latest else LatestOf(ops[1..], Latest(ops[0], latest))
  }

  ghost function RightFor(hub: real -> real, d: real): Right {
    (m: int, s: int, u: real, e: real) => Near(hub, m, e, Spread(u, m, s, d))
  }

  ghost function FineFor(hub: real -> real): Candidate -> bool {
    (k: Candidate) => Near(hub, k.received, k.target, k.error)
  }

  lemma HubCarries(hub: real -> real, cfg: Config)
    requires HubClock(hub, Drift(cfg))
    ensures Carries(RightFor(hub, Drift(cfg)), FineFor(hub), cfg)
  {
    var right, d := RightFor(hub, Drift(cfg)), Drift(cfg);
    forall m, s, u, e, now, e' | right(m, s, u, e) && m <= now && e' == e + (now - m) as real
      ensures right(now, s, u, e')
    {
      NearLater(hub, d, m, e, Spread(u, m, s, d), now);
      SpreadAdds(u, s, m, now, d);
    }
    forall k, now | FineFor(hub)(k) && k.received <= now
      ensures right(now, now, Carried(k, cfg, now).error, Carried(k, cfg, now).target)
    {
      NearLater(hub, d, k.received, k.target, k.error, now);
      assert Carried(k, cfg, now).error == Spread(k.error, now, k.received, d);
      assert Spread(Carried(k, cfg, now).error, now, now, d) == Carried(k, cfg, now).error;
    }
  }

  lemma {:induction false} RunSound(hub: real -> real, cfg: Config, c: Clock, ops: seq<Op>, latest: int)
    requires HubClock(hub, Drift(cfg)) && HonestRun(hub, cfg, c, ops, latest)
    requires Sound(RightFor(hub, Drift(cfg)), FineFor(hub), c, latest)
    ensures Sound(RightFor(hub, Drift(cfg)), FineFor(hub), Run(c, cfg, ops), LatestOf(ops, latest))
    decreases |ops|
  {
    if ops != [] {
      HubCarries(hub, cfg);
      if ops[0].ResponseOp? { HonestAnswer(hub, cfg, c, ops[0].message, ops[0].now); }
      StepSound(RightFor(hub, Drift(cfg)), FineFor(hub), cfg, c, ops[0], latest);
      RunSound(hub, cfg, Step(c, cfg, ops[0]), ops[1..], Latest(ops[0], latest));
    }
  }

  lemma HonestAnswer(hub: real -> real, cfg: Config, c: Clock, m: Response, now: int)
    requires HubClock(hub, Drift(cfg)) && HonestFor(hub, c, m)
    ensures AnswerFine(FineFor(hub), cfg, c, m, now)
  {
    if c.pending.Some? && m.id == c.pending.value.id && InBounds(c.pending.value, m, now) {
      var t1: real, t2: real :| Honest(hub, c.pending.value, m, t1, t2);
      CandidateNear(hub, cfg, c.pending.value, m, now, t1, t2);
    }
  }

  /** A valid reading's interval contains the given hub time. */
  ghost predicate Encloses(r: Reading, h: real) {
    r.valid && r.utc.Some? && r.error.Some? ==>
      (r.utc.value - r.error.value) as real <= h <= (r.utc.value + r.error.value) as real
  }

  /** A valid reading is the slewed estimate rounded down, and its uncertainty rounded up. */
  lemma ReadingParts(c: Clock, cfg: Config, now: int, system: Option<int>)
    requires c.lastObserved <= now && Snapshot(c, cfg, now, system).Shot?
    ensures var r, c1 := Snapshot(c, cfg, now, system).reading, Slew(c, now);
            r.valid ==>
              && c1.utc.Some? && c1.syncMono.Some? && r.utc == Some(c1.utc.value.Floor)
              && r.error == Some(Ceil(Uncertainty(c1, cfg, now)))
  {
  }

  lemma UncertaintyParts(c: Clock, cfg: Config, now: int)
    requires c.syncMono.Some? && c.syncMono.value <= now
    ensures Uncertainty(c, cfg, now) == Spread(c.uncertainty, now, c.syncMono.value, Drift(cfg)) + Abs(c.residual)
  {
    assert Age(c, now).value == now - c.syncMono.value;
  }

  lemma ReadingEncloses(hub: real -> real, cfg: Config, c: Clock, now: int, system: Option<int>, at: real)
    requires HubClock(hub, Drift(cfg)) && Sound(RightFor(hub, Drift(cfg)), FineFor(hub), c, now)
    requires now as real <= at < (now + 1) as real
    requires Snapshot(c, cfg, now, system).Shot?
    ensures Encloses(Snapshot(c, cfg, now, system).reading, hub(at))
  {
    HubCarries(hub, cfg);
    SlewSound(RightFor(hub, Drift(cfg)), FineFor(hub), cfg, c, now);
    ReadingParts(c, cfg, now, system);
    var r, c1 := Snapshot(c, cfg, now, system).reading, Slew(c, now);
    if r.valid {
      UncertaintyParts(c1, cfg, now);
      SlewedEncloses(hub, Drift(cfg), c1, now, at, Uncertainty(c1, cfg, now), r.utc.value, r.error.value);
    }
  }

  lemma WithinMillisecond(hub: real -> real, d: real, n: real, at: real)
    requires HubClock(hub, d) && n <= at < n + 1.0
    ensures -1.001 <= hub(at) - hub(n) <= 1.001
  {
    var x := at - n;
    assert x - x * d <= hub(at) - hub(n) <= x + x * d;
    SmallDrift(x, d, x * d);
  }

  lemma SlewedEncloses(hub: real -> real, d: real, c: Clock, now: int, at: real, width: real, floor: int, error: int)
    requires HubClock(hub, d) && now as real <= at < (now + 1) as real
    requires c.utc.Some? && c.syncMono.Some? && floor == c.utc.value.Floor
    requires Near(hub, now, c.utc.value + c.residual, Spread(c.uncertainty, now, c.syncMono.value, d))
    requires width == Spread(c.uncertainty, now, c.syncMono.value, d) + Abs(c.residual) && error == Ceil(width)
    ensures (floor - error) as real <= hub(at) <= (floor + error) as real
  {
    WithinMillisecond(hub, d, now as real, at);
    IntervalArithmetic(hub(at), hub(now as real), c.utc.value, c.residual,
      Spread(c.uncertainty, now, c.syncMono.value, d),
                       width, floor, error);
  }

  lemma IntervalArithmetic(h: real, hn: real, utc: real, residual: real, spread: real, width: real, floor: int,
                           error: int)
    requires -1.001 <= h - hn <= 1.001
    requires -(spread - SLACK) <= hn - (utc + residual) <= spread - SLACK
    requires floor == utc.Floor && width == spread + Abs(residual) && error == Ceil(width)
    ensures (floor - error) as real <= h <= (floor + error) as real
  {
  }

  /** In every run from start-up with honest answers and an ordered monotonic clock, true hub time
      lies inside the interval of every valid reading, at every instant of the millisecond it was
      taken in. */
  lemma ClockIntervalSound(hub: real -> real, cfg: Config, start: int, ops: seq<Op>, now: int, system: Option<int>,
                           at: real)
    requires HubClock(hub, Drift(cfg)) && HonestRun(hub, cfg, Initial(start), ops, start)
    requires LatestOf(ops, start) <= now && now as real <= at < (now + 1) as real
    requires Snapshot(Run(Initial(start), cfg, ops), cfg, now, system).Shot?
    ensures Encloses(Snapshot(Run(Initial(start), cfg, ops), cfg, now, system).reading, hub(at))
  {
    RunSound(hub, cfg, Initial(start), ops, start);
    ReadingEncloses(hub, cfg, Run(Initial(start), cfg, ops), now, system, at);
  }
}
