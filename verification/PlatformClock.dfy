/** The process-owned logical clock (src/plcnext_iot/core/platform_time.py) as state and step
    functions. Milliseconds read from clocks are integers, the estimate is a real number. Every
    reading of the monotonic clock is an argument. A step that runs out of revision numbers stops
    where the source raises and leaves the state reached so far. */
module PlatformClock {
  import opened Common

  datatype State = Unsynced | Syncing | Synced | Holdover | Expired | Suspect | Maintenance

  datatype Candidate = Candidate(target: real, received: int, path: int, rtt: int, error: real)

  datatype Request = Request(id: nat, session: string, clientMono: int)

  datatype Config = Config(platform: bool, boot: string, basis: string, drift: real)

  datatype Clock = Clock(
    revision: nat,
    connection: nat,
    session: Option<string>,
    sessionSynced: bool,
    heartbeat: bool,
    get: bool,
    state: State,
    utc: Option<real>,
    lastMono: int,
    syncMono: Option<int>,
    uncertainty: real,
    residual: real,
    floor: Option<int>,
    lastObserved: int,
    pending: Option<Request>,
    roundStart: Option<int>,
    attempts: nat,
    candidates: seq<Candidate>,
    nextSync: int,
    failures: nat,
    suspectConfirm: bool)

  /** The outcome of a step: it completes, or it raises for want of revision numbers. */
  datatype Try = Ok(clock: Clock) | Raised(clock: Clock) {
    predicate IsFailure() { Raised? }
    function PropagateFailure(): Try requires Raised? { this }
    function Extract(): Clock requires Ok? { clock }
  }

  function Max(a: int, b: int): int { if a < b then b else a }
  function RMax(a: real, b: real): real { if a < b then b else a }
  function RMin(a: real, b: real): real { if a < b then a else b }
  function Abs(x: real): real { if x < 0.0 then -x else x }
  function Ceil(x: real): int { -((-x).Floor) }

  /** Python's round: to nearest, ties to even. */
  function Round(x: real): int {
    var low := x.Floor;
    var rest := x - low as real;
    if rest < 0.5 || (rest == 0.5 && low % 2 == 0) then low else low + 1
  }

  /** Drift bound in ms per ms: the configured parts per million over a million. */
  function Drift(cfg: Config): real { cfg.drift }

  function Initial(now: int): Clock {
    Clock(0, 0, None, false, false, false, Unsynced, None, now, None, 0.0, 0.0, None, now, None, None, 0, [], 0, 0,
      false)
  }

  // ---- Revisions and sessions

  function Bump(c: Clock): Try {
    if Max(c.revision, c.connection) >= MAX_SAFE then Raised(c) else Ok(c.(revision := c.revision + 1))
  }

  predicate Trusted(s: State) { s in {Synced, Holdover} }

  function Invalidate(c: Clock, state: State): Try {
    var bumped :- if c.state !in {Unsynced, Expired, Suspect, Maintenance} then Bump(c) else Ok(c);
    Ok(bumped.(state := state, sessionSynced := false, heartbeat := false, get := false, pending := None,
      nextSync := 0))
  }

  function Connect(c: Clock, cfg: Config, session: string): Try {
    if c.connection >= MAX_SAFE then Raised(c)
    else Ok(c.(connection := c.connection + 1, session := Some(session), sessionSynced := !cfg.platform,
               heartbeat := false, get := false, pending := None, roundStart := None, attempts := 0,
               candidates := [], nextSync := 0))
  }

  function Disconnect(c: Clock, cfg: Config): Try {
    var cut :- Connect(c, cfg, "disconnected");
    Ok(cut.(session := None, sessionSynced := false, heartbeat := false, get := false))
  }

  function LoadBoundary(c: Clock, cfg: Config, basis: string, lower: Option<int>): Try {
    if lower.None? then Ok(c)
    else if basis != cfg.basis then Invalidate(c, Maintenance)
    else
      var floor := Max(if c.floor.Some? then c.floor.value else 0, lower.value);
      var c1 := c.(floor := Some(floor));
      if c1.utc.Some? && c1.utc.value + c1.uncertainty < floor as real then Invalidate(c1, Maintenance) else Ok(c1)
  }

  // ---- Advancing and reading

  function Elapsed(c: Clock, now: int): int { Max(0, now - c.lastMono) }

  /** At most half a percent of the elapsed time, towards the residual. */
  function Correction(c: Clock, now: int): real {
    var e := Elapsed(c, now) as real;
    RMax(-(e * 0.005), RMin(e * 0.005, c.residual))
  }

  function Slew(c: Clock, now: int): Clock {
    if c.utc.None? then c.(lastObserved := now, lastMono := now)
    else c.(lastObserved := now, lastMono := now,
            utc := Some(c.utc.value + Elapsed(c, now) as real + Correction(c, now)),
            residual := c.residual - Correction(c, now))
  }

  function Advance(c: Clock, now: int): Try {
    if now < c.lastObserved then
      var cut :- Invalidate(c, Maintenance);
      Ok(Slew(cut.(utc := None), now))
    else Ok(Slew(c, now))
  }

  datatype Reading = Reading(mono: int, utc: Option<int>, error: Option<int>, state: State, valid: bool,
                             age: Option<int>, revision: nat, connection: nat, system: Option<int>)

  datatype Shot = Shot(clock: Clock, reading: Reading) | NoShot(clock: Clock)

  function Age(c: Clock, now: int): Option<int> {
    if c.syncMono.None? then None else Some(Max(0, now - c.syncMono.value))
  }

  /** The error grown with the drift since the last synchronisation, and what is still to be slewed. */
  function Widened(error: real, age: int, drift: real, residual: real): real {
    error + age as real * drift + Abs(residual)
  }

  function Uncertainty(c: Clock, cfg: Config, now: int): real
    requires c.syncMono.Some?
  {
    Widened(c.uncertainty, Age(c, now).value, Drift(cfg), c.residual)
  }

  function Error(c: Clock, cfg: Config, now: int): Option<int> {
    if c.syncMono.None? then None else Some(Ceil(Uncertainty(c, cfg, now)))
  }

  /** Whether an advanced clock may be relied on at this reading. */
  predicate Valid(c: Clock, cfg: Config, now: int) {
    && cfg.platform && c.utc.Some? && Trusted(c.state) && c.syncMono.Some?
    && Age(c, now).value < 3600000 && Error(c, cfg, now).value < 1000
    && 0.0 <= c.utc.value - Error(c, cfg, now).value as real
    && c.utc.value + Error(c, cfg, now).value as real <= MAX_SAFE as real
  }

  function Settle(c: Clock, cfg: Config, now: int): Try {
    if Valid(c, cfg, now) then Ok(c.(state := if c.sessionSynced then Synced else Holdover))
    else if cfg.platform && Trusted(c.state) then Invalidate(c, Expired)
    else Ok(c)
  }

  function ReadingOf(before: Clock, after: Clock, cfg: Config, now: int, system: Option<int>): Reading {
    var valid := Valid(before, cfg, now);
    Reading(now, if valid then Some(before.utc.value.Floor) else None, Error(before, cfg, now), after.state, valid,
            Age(before, now), after.revision, after.connection, system)
  }

  function Snapshot(c: Clock, cfg: Config, now: int, system: Option<int>): Shot {
    var c1 := Advance(c, now);
    if c1.Raised? then NoShot(c1.clock)
    else
      var c2 := Settle(c1.clock, cfg, now);
      if c2.Raised? then NoShot(c2.clock)
      else Shot(c2.clock, ReadingOf(c1.clock, c2.clock, cfg, now, system))
  }

  // ---- Tokens and gates

  datatype Token = Token(boot: string, revision: nat, connection: nat, mono: int)

  datatype Purpose = Capture | AckApply | Enqueue | ControlSend | Send

  function TokenOf(cfg: Config, r: Reading): Token {
    Token(cfg.boot, r.revision, r.connection, r.mono)
  }

  predicate TokenCurrent(c: Clock, cfg: Config, r: Reading, t: Token) {
    && t.boot == cfg.boot && t.revision == c.revision && t.connection == c.connection
    && 0 <= r.mono - t.mono < 2000
  }

  /** The verdict of `valid`, once its snapshot is taken. */
  predicate Accepts(c: Clock, cfg: Config, r: Reading, token: Option<Token>, purpose: Purpose) {
    && (token.Some? ==> TokenCurrent(c, cfg, r, token.value))
    && match purpose
       case Capture => true
       case AckApply => c.session.Some?
       case _ =>
         && (if cfg.platform then r.valid else r.system.Some?)
         && (purpose == Enqueue ||
              (c.session.Some? && c.sessionSynced && (purpose == ControlSend || (c.heartbeat && c.get))))
  }

  datatype Required = Granted(clock: Clock, reading: Reading) | Denied(clock: Clock)

  /** `require` reads the clock twice: once to judge, once for the reading it returns. */
  function Require(c: Clock, cfg: Config, token: Option<Token>, purpose: Purpose, now: int, later: int,
                   system: Option<int>)
    : Required
  {
    if cfg.platform && token.None? && purpose in {Enqueue, ControlSend, Send} then Denied(c)
    else
      var first := Snapshot(c, cfg, now, system);
      if first.NoShot? || !Accepts(first.clock, cfg, first.reading, token, purpose) then Denied(first.clock)
      else
        var second := Snapshot(first.clock, cfg, later, system);
        if second.NoShot? then Denied(second.clock) else Granted(second.clock, second.reading)
  }

  datatype Control = HeartbeatSent | GetSent

  function ControlSubmitted(c: Clock, cfg: Config, kind: Control, token: Option<Token>, now: int, later: int,
                            system: Option<int>)
    : Clock
  {
    match Require(c, cfg, token, ControlSend, now, later, system)
    case Denied(c1) => c1
    case Granted(c1, _) =>
      if kind == HeartbeatSent then c1.(heartbeat := true)
      else if c1.heartbeat then c1.(get := true)
      else c1
  }

  // ---- Synchronisation rounds

  function Adopt(c: Clock, target: real, error: real, now: int, single: bool, jitter: real): Try {
    var c1 :- Advance(c, now);
    if c1.floor.Some? && target + error < c1.floor.value as real then Invalidate(c1, Maintenance)
    else if c1.utc.Some? && Abs(target - c1.utc.value) > 1000.0 then Deviate(c1, target, error, now, single, jitter)
    else Accept(c1, target, error, now, single, jitter)
  }

  /** The first large deviation only closes the gates; a second one is believed unless it goes back. */
  function Deviate(c: Clock, target: real, error: real, now: int, single: bool, jitter: real): Try
    requires c.utc.Some?
  {
    var c1 :- Invalidate(c, Suspect);
    if !c1.suspectConfirm then Ok(c1.(suspectConfirm := true, nextSync := now))
    else if target + error < c1.utc.value then Invalidate(c1, Maintenance)
    else
      var c2 :- Bump(c1);
      Accept(c2.(utc := None), target, error, now, single, jitter)
  }

  function Accept(c: Clock, target: real, error: real, now: int, single: bool, jitter: real): Try {
    var c1 :- if c.utc.None? || c.state in {Expired, Unsynced, Syncing}
              then (var b :- Bump(c); Ok(b.(utc := Some(target), residual := 0.0)))
              else Ok(c.(residual := target - c.utc.value));
    Ok(c1.(suspectConfirm := false, uncertainty := error, syncMono := Some(now), state := Synced,
           sessionSynced := c1.session.Some?,
           nextSync := now + ResyncDelay(single, jitter)))
  }

  /** A round of fewer than three candidates is repeated soon. */
  function ResyncDelay(single: bool, jitter: real): int {
    if single then 10000 else Round(300000.0 * jitter)
  }

  function Aligned(k: Candidate, now: int): real { k.target + (now - k.received) as real }

  predicate Consistent(ks: seq<Candidate>, now: int) {
    forall i, j :: 0 <= i < |ks| && 0 <= j < |ks| ==> Aligned(ks[i], now) - Aligned(ks[j], now) <= 500.0
  }

  function Good(ks: seq<Candidate>): (r: seq<Candidate>)
    ensures forall k :: k in r ==> k in ks
  {
    if ks == [] then [] else (if ks[0].rtt <= 500 then [ks[0]] else []) + Good(ks[1..])
  }

  /** The first candidate with the shortest path. */
  function Shortest(ks: seq<Candidate>): (k: Candidate)
    requires ks != []
    ensures k in ks && forall j :: j in ks ==> k.path <= j.path
  {
    if |ks| == 1 then ks[0]
    else
      var k := Shortest(ks[1..]);
      assert forall j :: j in ks ==> j == ks[0] || j in ks[1..];
      if ks[0].path <= k.path then ks[0] else k
  }

  function Usable(ks: seq<Candidate>): seq<Candidate> {
    if |ks| >= 3 then ks else Good(ks)
  }

  function Backoff(failures: nat): int {
    match failures case 0 => 5000 case 1 => 5000 case 2 => 10000 case 3 => 20000 case 4 => 40000 case _ => 60000
  }

  function RetryDelay(failures: nat, jitter: real): int {
    var wait := Round(Backoff(failures) as real * jitter);
    if wait < 60000 then wait else 60000
  }

  function GiveUp(c: Clock, now: int, jitter: real): Clock {
    var failures := if c.failures + 1 < 5 then c.failures + 1 else 5;
    c.(failures := failures, nextSync := now + RetryDelay(failures, jitter),
       roundStart := None, pending := None, candidates := [],
       state := if c.utc.None? && c.state != Maintenance then Unsynced else c.state)
  }

  function CloseRound(t: Try): Try {
    if t.Raised? then t else Ok(t.clock.(roundStart := None, pending := None, candidates := [], failures := 0))
  }

  /** The candidate carried forward to the moment it is adopted. */
  function Carried(k: Candidate, cfg: Config, now: int): Candidate {
    k.(target := Aligned(k, now), error := k.error + (now - k.received) as real * Drift(cfg))
  }

  function AdoptCandidate(c: Clock, k: Candidate, now: int, jitter: real): Try {
    CloseRound(Adopt(c, k.target, k.error, now, |c.candidates| < 3, jitter))
  }

  function FinishRound(c: Clock, cfg: Config, now: int, jitter: real): Try {
    if c.candidates != [] && Consistent(c.candidates, now) && Usable(c.candidates) != []
    then AdoptCandidate(c, Carried(Shortest(Usable(c.candidates)), cfg, now), now, jitter)
    else Ok(GiveUp(c, now, jitter))
  }

  predicate RoundOver(c: Clock, now: int) {
    c.roundStart.Some? && (now >= c.roundStart.value + 30000 || (c.attempts >= 10 && c.pending.None?))
  }

  /** A request that timed out is dropped; the tenth one ends the round. */
  function DropStale(c: Clock, cfg: Config, now: int, jitter: real): Try {
    var c1 := c.(pending := None);
    if c1.attempts >= 10 then FinishRound(c1, cfg, now, jitter) else Ok(c1)
  }

  function OpenRound(c: Clock, now: int): Clock {
    if c.roundStart.Some? then c
    else c.(roundStart := Some(now), attempts := 0, candidates := [], state := if c.utc.None? then Syncing else c.state)
  }

  /** The last part of `request`: open a round if needed and put one request in flight. */
  function Ask(c: Clock, cfg: Config, now: int, jitter: real, id: nat): Try {
    if now < c.nextSync then Ok(c)
    else
      var c1 := OpenRound(c, now);
      if now >= c1.roundStart.value + 30000 || c1.attempts >= 10 then FinishRound(c1, cfg, now, jitter)
      else if c1.session.None? then Ok(c1)
      else Ok(c1.(pending := Some(Request(id, c1.session.value, now)), attempts := c1.attempts + 1))
  }

  function EndIfOver(c: Clock, cfg: Config, now: int, jitter: real): Try {
    if RoundOver(c, now) then FinishRound(c, cfg, now, jitter) else Ok(c)
  }

  function Pursue(c: Clock, cfg: Config, now: int, jitter: real, id: nat): Try {
    if c.pending.None? then Ask(c, cfg, now, jitter, id)
    else if now < c.pending.value.clientMono + 2000 then Ok(c)
    else
      var c1 :- DropStale(c, cfg, now, jitter);
      Ask(c1, cfg, now, jitter, id)
  }

  function MakeRequest(c: Clock, cfg: Config, now: int, jitter: real, id: nat, system: Option<int>): Try {
    var shot := Snapshot(c, cfg, now, system);
    if shot.NoShot? then Raised(shot.clock)
    else if !cfg.platform || shot.clock.session.None? || shot.clock.state == Maintenance then Ok(shot.clock)
    else
      var c1 :- EndIfOver(shot.clock, cfg, now, jitter);
      Pursue(c1, cfg, now, jitter, id)
  }

  /** A response as delivered, with the two stamps the hub put in it. */
  datatype Response = Response(id: nat, session: string, retained: bool, wellFormed: bool,
                               hubReceived: int, hubSent: int, received: int)

  function PathOf(q: Request, m: Response): int { (m.received - q.clientMono) - (m.hubSent - m.hubReceived) }

  predicate InBounds(q: Request, m: Response, now: int) {
    && 0 <= m.received - q.clientMono < 2000 && 0 <= m.hubSent - m.hubReceived <= 500
    && PathOf(q, m) >= -50 && m.received <= now
  }

  function CandidateOf(q: Request, m: Response, cfg: Config, now: int): Candidate {
    var path := PathOf(q, m);
    Candidate(m.hubSent as real + Max(0, path) as real / 2.0, m.received, Max(0, path), m.received - q.clientMono,
              Max(0, path) as real / 2.0 + Max(0, -path) as real + 22.0 + (now - m.received) as real * Drift(cfg))
  }

  predicate Representable(k: Candidate) {
    0.0 <= k.target - k.error && k.target + k.error <= MAX_SAFE as real
  }

  /** The third candidate ends the round. */
  function Collect(c: Clock, cfg: Config, k: Candidate, now: int, jitter: real): Try {
    if !Representable(k) then Ok(c.(pending := None))
    else
      var c1 := c.(candidates := c.candidates + [k], pending := None);
      if |c1.candidates| >= 3 then FinishRound(c1, cfg, now, jitter) else Ok(c1)
  }

  function TakeResponse(c: Clock, cfg: Config, m: Response, now: int, jitter: real): Try {
    if m.retained || c.session != Some(m.session) || c.pending.None? || c.roundStart.None? then Ok(c)
    else
      var q := c.pending.value;
      if now >= c.roundStart.value + 30000 || now >= q.clientMono + 2000 then Ok(c.(pending := None))
      else if !m.wellFormed || m.id != q.id || m.session != q.session then Ok(c)
      else if !InBounds(q, m, now) then Ok(c.(pending := None))
      else Collect(c, cfg, CandidateOf(q, m, cfg, now), now, jitter)
  }

  // ---- Steps and runs

  datatype Op =
    | ReadOp(now: int, system: Option<int>)
    | RequireOp(token: Option<Token>, purpose: Purpose, now: int, later: int, system: Option<int>)
    | ControlOp(kind: Control, token: Option<Token>, now: int, later: int, system: Option<int>)
    | ConnectOp(session: string)
    | DisconnectOp
    | BoundaryOp(basis: string, lower: Option<int>)
    | MaintenanceOp
    | RequestOp(now: int, jitter: real, id: nat, system: Option<int>)
    | ResponseOp(message: Response, now: int, jitter: real)

  function Step(c: Clock, cfg: Config, op: Op): Clock {
    match op
    case ReadOp(now, system) => Snapshot(c, cfg, now, system).clock
    case RequireOp(token, purpose, now, later, system) => Require(c, cfg, token, purpose, now, later, system).clock
    case ControlOp(kind, token, now, later, system) => ControlSubmitted(c, cfg, kind, token, now, later, system)
    case ConnectOp(session) => Connect(c, cfg, session).clock
    case DisconnectOp => Disconnect(c, cfg).clock
    case BoundaryOp(basis, lower) => LoadBoundary(c, cfg, basis, lower).clock
    case MaintenanceOp => Invalidate(c, Maintenance).clock
    case RequestOp(now, jitter, id, system) => MakeRequest(c, cfg, now, jitter, id, system).clock
    case ResponseOp(message, now, jitter) => TakeResponse(c, cfg, message, now, jitter).clock
  }

  function Run(c: Clock, cfg: Config, ops: seq<Op>): Clock
    decreases |ops|
  {
    if ops == [] then c else Run(Step(c, cfg, ops[0]), cfg, ops[1..])
  }
}
