/** What a granted request for trusted time rests on: the reading, the token, the session, and the two
    control messages that were sent before it (src/plcnext_iot/core/platform_time.py:178-215). */
module PlatformClockGrants {
  import opened Common
  import opened PlatformClock
  import opened PlatformClockRuns
  import Gates = PlatformClockGates

  // ---- The table of purposes

  /** The token was issued by this process under the present revision and connection, less than two
      seconds before the reading. */
  predicate Fresh(c: Clock, cfg: Config, mono: int, t: Token) {
    && t.boot == cfg.boot && t.revision == c.revision && t.connection == c.connection
    && 0 <= mono - t.mono && mono - t.mono < 2000
  }

  /** What each purpose asks of the clock just read and of the reading. */
  predicate Suffices(c: Clock, cfg: Config, r: Reading, purpose: Purpose) {
    var timed := if cfg.platform then r.valid else r.system.Some?;
    match purpose
    case Capture => true
    case AckApply => c.session.Some?
    case Enqueue => timed
    case ControlSend => timed && c.session.Some? && c.sessionSynced
    case Send => timed && c.session.Some? && c.sessionSynced && c.heartbeat && c.get
  }

  predicate Grantable(c: Clock, cfg: Config, token: Option<Token>, purpose: Purpose, now: int, later: int,
                      system: Option<int>) {
    var first := Snapshot(c, cfg, now, system);
    && (cfg.platform && purpose != Capture && purpose != AckApply ==> token.Some?)
    && first.Shot? && (token.Some? ==> Fresh(first.clock, cfg, now, token.value))
    && Suffices(first.clock, cfg, first.reading, purpose)
    && Snapshot(first.clock, cfg, later, system).Shot?
  }

  /** A request is granted exactly when a token is there where platform time demands one, the token is
      fresh, the first reading suffices for the purpose, and neither reading runs out of revisions. */
  lemma GrantedExactly(c: Clock, cfg: Config, token: Option<Token>, purpose: Purpose, now: int, later: int,
                       system: Option<int>)
    ensures Require(c, cfg, token, purpose, now, later, system).Granted?
            <==> Grantable(c, cfg, token, purpose, now, later, system)
  {
    if Snapshot(c, cfg, now, system).Shot? { SnapshotMono(c, cfg, now, system); }
    hide Snapshot;
  }

  lemma SnapshotMono(c: Clock, cfg: Config, now: int, system: Option<int>)
    requires Snapshot(c, cfg, now, system).Shot?
    ensures Snapshot(c, cfg, now, system).reading.mono == now
  {
  }

  // ---- How long a mark lasts

  /** Nothing has been lost: neither the connection nor, if there was trust, trust. */
  ghost predicate Unbroken(c: Clock, c': Clock) {
    && c'.connection == c.connection
    && (Trusted(c.state) ==> Trusted(c'.state) && c'.revision == c.revision)
  }

  predicate Same(c: Clock, c': Clock) {
    Trusted(c.state) && c'.revision == c.revision && c'.connection == c.connection
  }

  /** No mark appears; one that is left has survived unbroken; and as long as trust, revision and
      connection stay, marks and session do too. */
  ghost predicate Lasts(c: Clock, c': Clock) {
    && c.revision <= c'.revision && c.connection <= c'.connection
    && (c'.heartbeat ==> c.heartbeat && Unbroken(c, c')) && (c'.get ==> c.get && Unbroken(c, c'))
    && (Same(c, c') ==> Holds(c, c'))
  }

  ghost predicate Holds(c: Clock, c': Clock) {
    && Trusted(c'.state) && c'.session == c.session
    && (c.heartbeat ==> c'.heartbeat) && (c.get ==> c'.get) && (c.session.Some? && c.sessionSynced ==> c'.sessionSynced)
  }

  lemma LastsTrans(a: Clock, b: Clock, c: Clock)
    requires Lasts(a, b) && Lasts(b, c)
    ensures Lasts(a, c)
  {
  }

  lemma InvalidateLasts(c: Clock, state: State)
    requires Inv(c) && !Trusted(state)
    ensures Lasts(c, Invalidate(c, state).clock)
  {
  }

  lemma SlewLasts(c: Clock, now: int)
    ensures Lasts(c, Slew(c, now))
  {
  }

  lemma AdvanceLasts(c: Clock, now: int)
    requires Inv(c)
    ensures Lasts(c, Advance(c, now).clock)
  {
    InvalidateLasts(c, Maintenance);
    SlewLasts(c, now);
    var cut := Invalidate(c, Maintenance);
    if now < c.lastObserved && cut.Ok? {
      var c1 := cut.clock.(utc := None);
      LastsTrans(c, cut.clock, c1);
      SlewLasts(c1, now);
      LastsTrans(c, c1, Slew(c1, now));
    }
  }

  lemma SettleLasts(c: Clock, cfg: Config, now: int)
    requires Inv(c)
    ensures Lasts(c, Settle(c, cfg, now).clock)
  {
    InvalidateLasts(c, Expired);
    hide Valid;
  }

  lemma SnapshotLasts(c: Clock, cfg: Config, now: int, system: Option<int>)
    requires Inv(c)
    ensures Lasts(c, Snapshot(c, cfg, now, system).clock)
  {
    AdvanceGood(c, now);
    AdvanceLasts(c, now);
    var c1 := Advance(c, now);
    SettleLasts(c1.clock, cfg, now);
    LastsTrans(c, c1.clock, Settle(c1.clock, cfg, now).clock);
    hide Lasts, Advance, Settle;
  }

  lemma AcceptLasts(c: Clock, target: real, error: real, now: int, single: bool, jitter: real)
    requires Inv(c)
    ensures Lasts(c, Accept(c, target, error, now, single, jitter).clock)
  {
    hide ResyncDelay;
  }

  lemma DeviateLasts(c: Clock, target: real, error: real, now: int, single: bool, jitter: real)
    requires Inv(c) && c.utc.Some?
    ensures Lasts(c, Deviate(c, target, error, now, single, jitter).clock)
  {
    InvalidateLasts(c, Suspect);
    InvalidateGood(c, Suspect);
    var t := Invalidate(c, Suspect);
    if t.Ok? && t.clock.suspectConfirm {
      InvalidateLasts(t.clock, Maintenance);
      LastsTrans(c, t.clock, Invalidate(t.clock, Maintenance).clock);
      var b := Bump(t.clock);
      if b.Ok? {
        var c2 := b.clock.(utc := None);
        AcceptLasts(c2, target, error, now, single, jitter);
        LastsTrans(c, t.clock, c2);
        LastsTrans(c, c2, Accept(c2, target, error, now, single, jitter).clock);
      }
    }
  }

  lemma AdoptLasts(c: Clock, target: real, error: real, now: int, single: bool, jitter: real)
    requires Inv(c)
    ensures Lasts(c, Adopt(c, target, error, now, single, jitter).clock)
  {
    AdvanceGood(c, now);
    AdvanceLasts(c, now);
    var c1, r := Advance(c, now).clock, Adopt(c, target, error, now, single, jitter).clock;
    if Advance(c, now).Ok? {
      InvalidateLasts(c1, Maintenance);
      AcceptLasts(c1, target, error, now, single, jitter);
      if c1.utc.Some? { DeviateLasts(c1, target, error, now, single, jitter); }
      hide Lasts, Accept, Deviate, Advance, Invalidate;
      LastsTrans(c, c1, r);
    }
  }

  lemma FinishRoundLasts(c: Clock, cfg: Config, now: int, jitter: real)
    requires Inv(c)
    ensures Lasts(c, FinishRound(c, cfg, now, jitter).clock)
  {
    if c.candidates != [] && Consistent(c.candidates, now) && Usable(c.candidates) != [] {
      var k := Carried(Shortest(Usable(c.candidates)), cfg, now);
      AdoptLasts(c, k.target, k.error, now, |c.candidates| < 3, jitter);
      ClosedLasts(c, Adopt(c, k.target, k.error, now, |c.candidates| < 3, jitter));
      hide Lasts, Adopt, CloseRound, Consistent, Carried;
    } else {
      GiveUpLasts(c, now, jitter);
    }
  }

  lemma ClosedLasts(c: Clock, t: Try)
    requires Lasts(c, t.clock)
    ensures Lasts(c, CloseRound(t).clock)
  {
  }

  lemma GiveUpLasts(c: Clock, now: int, jitter: real)
    requires Inv(c)
    ensures Lasts(c, GiveUp(c, now, jitter))
  {
    hide RetryDelay;
  }

  lemma AskLasts(c: Clock, cfg: Config, now: int, jitter: real, id: nat)
    requires Inv(c)
    ensures Lasts(c, Ask(c, cfg, now, jitter, id).clock)
  {
    hide FinishRound;
    var c1 := OpenRound(c, now);
    assert Inv(c1) && Lasts(c, c1);
    FinishRoundLasts(c1, cfg, now, jitter);
    LastsTrans(c, c1, FinishRound(c1, cfg, now, jitter).clock);
  }

  lemma DropStaleLasts(c: Clock, cfg: Config, now: int, jitter: real)
    requires Inv(c)
    ensures Lasts(c, DropStale(c, cfg, now, jitter).clock) && Inv(DropStale(c, cfg, now, jitter).clock)
  {
    hide FinishRound;
    var c1 := c.(pending := None);
    assert Inv(c1) && Lasts(c, c1);
    FinishRoundLasts(c1, cfg, now, jitter);
    FinishRoundGood(c1, cfg, now, jitter);
    LastsTrans(c, c1, FinishRound(c1, cfg, now, jitter).clock);
  }

  lemma PursueLasts(c: Clock, cfg: Config, now: int, jitter: real, id: nat)
    requires Inv(c)
    ensures Lasts(c, Pursue(c, cfg, now, jitter, id).clock)
  {
    assert Lasts(c, c);
    hide Lasts, Ask, DropStale;
    var t := DropStale(c, cfg, now, jitter);
    AskLasts(c, cfg, now, jitter, id);
    DropStaleLasts(c, cfg, now, jitter);
    AskLasts(t.clock, cfg, now, jitter, id);
    LastsTrans(c, t.clock, Ask(t.clock, cfg, now, jitter, id).clock);
  }

  lemma MakeRequestLasts(c: Clock, cfg: Config, now: int, jitter: real, id: nat, system: Option<int>)
    requires Inv(c)
    ensures Lasts(c, MakeRequest(c, cfg, now, jitter, id, system).clock)
  {
    var shot := Snapshot(c, cfg, now, system).clock;
    SnapshotGood(c, cfg, now, system);
    SnapshotLasts(c, cfg, now, system);
    assert Lasts(shot, shot);
    hide Lasts, Snapshot, FinishRound, Pursue;
    FinishRoundLasts(shot, cfg, now, jitter);
    FinishRoundGood(shot, cfg, now, jitter);
    var t := EndIfOver(shot, cfg, now, jitter);
    PursueLasts(t.clock, cfg, now, jitter, id);
    LastsTrans(c, shot, t.clock);
    LastsTrans(c, t.clock, Pursue(t.clock, cfg, now, jitter, id).clock);
  }

  lemma TakeResponseLasts(c: Clock, cfg: Config, m: Response, now: int, jitter: real)
    requires Inv(c)
    ensures Lasts(c, TakeResponse(c, cfg, m, now, jitter).clock)
  {
    assert Lasts(c, c) && Lasts(c, c.(pending := None));
    hide FinishRound, CandidateOf, InBounds, Representable;
    if c.pending.Some? {
      var c1 := c.(candidates := c.candidates + [CandidateOf(c.pending.value, m, cfg, now)], pending := None);
      assert Inv(c1) && Lasts(c, c1);
      FinishRoundLasts(c1, cfg, now, jitter);
      LastsTrans(c, c1, FinishRound(c1, cfg, now, jitter).clock);
      hide Lasts;
    }
  }

  lemma RequireLasts(c: Clock, cfg: Config, token: Option<Token>, purpose: Purpose, now: int, later: int,
                     system: Option<int>)
    requires Inv(c)
    ensures Lasts(c, Require(c, cfg, token, purpose, now, later, system).clock)
  {
    var first := Snapshot(c, cfg, now, system);
    assert Lasts(c, c);
    SnapshotGood(c, cfg, now, system);
    SnapshotLasts(c, cfg, now, system);
    hide Lasts, Snapshot;
    SnapshotLasts(first.clock, cfg, later, system);
    LastsTrans(c, first.clock, Snapshot(first.clock, cfg, later, system).clock);
  }

  lemma BoundaryLasts(c: Clock, cfg: Config, basis: string, lower: Option<int>)
    requires Inv(c)
    ensures Lasts(c, LoadBoundary(c, cfg, basis, lower).clock)
  {
    InvalidateLasts(c, Maintenance);
    if lower.Some? {
      var c1 := c.(floor := Some(Max(if c.floor.Some? then c.floor.value else 0, lower.value)));
      InvalidateLasts(c1, Maintenance);
      LastsTrans(c, c1, Invalidate(c1, Maintenance).clock);
    }
  }

  lemma ConnectLasts(c: Clock, cfg: Config, session: string)
    ensures Lasts(c, Connect(c, cfg, session).clock) && Lasts(c, Disconnect(c, cfg).clock)
  {
  }

  /** Every step but marking a control message as sent. */
  lemma StepLasts(c: Clock, cfg: Config, op: Op)
    requires Inv(c) && !op.ControlOp?
    ensures Lasts(c, Step(c, cfg, op))
  {
    hide Lasts;
    match op
    case ReadOp(now, system) => SnapshotLasts(c, cfg, now, system);
    case RequireOp(token, purpose, now, later, system) => RequireLasts(c, cfg, token, purpose, now, later, system);
    case ConnectOp(session) => ConnectLasts(c, cfg, session);
    case DisconnectOp => ConnectLasts(c, cfg, "");
    case BoundaryOp(basis, lower) => BoundaryLasts(c, cfg, basis, lower);
    case MaintenanceOp => InvalidateLasts(c, Maintenance);
    case RequestOp(now, jitter, id, system) => MakeRequestLasts(c, cfg, now, jitter, id, system);
    case ResponseOp(message, now, jitter) => TakeResponseLasts(c, cfg, message, now, jitter);
  }

  lemma ControlLasts(c: Clock, cfg: Config, op: Op)
    requires Inv(c) && op.ControlOp?
    ensures var c1, c' := Require(c, cfg, op.token, ControlSend, op.now, op.later, op.system).clock, Step(c, cfg, op);
            && Lasts(c, c1) && c' == c1.(heartbeat := c'.heartbeat, get := c'.get)
            && (c1.heartbeat ==> c'.heartbeat) && (c1.get ==> c'.get)
            && (c'.heartbeat && !c1.heartbeat ==> op.kind == HeartbeatSent && Grants(c, cfg, op))
            && (c'.get && !c1.get ==> op.kind == GetSent && Grants(c, cfg, op) && c1.heartbeat)
            && (Grants(c, cfg, op) ==> if op.kind == HeartbeatSent then c'.heartbeat else c1.heartbeat ==> c'.get)
  {
    RequireLasts(c, cfg, op.token, ControlSend, op.now, op.later, op.system);
    hide Require, Lasts;
  }

  /** The step asks to mark a control message as sent, and is granted. */
  predicate Grants(c: Clock, cfg: Config, op: Op) {
    op.ControlOp? && Require(c, cfg, op.token, ControlSend, op.now, op.later, op.system).Granted?
  }

  /** A granted request leaves a trusted clock exactly if its second reading is still valid; it then was
      trusted before. */
  lemma SnapshotTrust(c: Clock, cfg: Config, now: int, system: Option<int>)
    requires Inv(c) && Snapshot(c, cfg, now, system).Shot? && Trusted(Snapshot(c, cfg, now, system).clock.state)
    ensures var c' := Snapshot(c, cfg, now, system).clock;
            Trusted(c.state) && c'.revision == c.revision && c'.connection == c.connection
  {
    AdvanceTrust(c, now);
    SettleTrust(Advance(c, now).clock, cfg, now);
    hide Advance, Settle, ReadingOf;
  }

  lemma AdvanceTrust(c: Clock, now: int)
    ensures var c' := Advance(c, now).clock;
            Advance(c, now).Ok? && Trusted(c'.state) ==>
              Trusted(c.state) && c'.revision == c.revision && c'.connection == c.connection
  {
    hide Correction, Elapsed;
  }

  lemma SettleTrust(c: Clock, cfg: Config, now: int)
    ensures var c' := Settle(c, cfg, now).clock;
            Settle(c, cfg, now).Ok? && Trusted(c'.state) ==>
              Trusted(c.state) && c'.revision == c.revision && c'.connection == c.connection
  {
    hide Error, Age;
  }

  lemma ValidTrust(c: Clock, cfg: Config, now: int, system: Option<int>)
    requires Snapshot(c, cfg, now, system).Shot? && Snapshot(c, cfg, now, system).reading.valid
    ensures Trusted(Snapshot(c, cfg, now, system).clock.state)
  {
  }

  // ---- Every run from start-up

  /** The clock after the first `i` steps of a run. */
  function At(cfg: Config, start: int, ops: seq<Op>, i: nat): Clock
    requires i <= |ops|
  {
    Run(Initial(start), cfg, ops[..i])
  }

  /** The i-th step marks this control message as sent. */
  ghost predicate Sends(cfg: Config, start: int, ops: seq<Op>, i: nat, kind: Control) {
    i < |ops| && Grants(At(cfg, start, ops, i), cfg, ops[i]) && ops[i].kind == kind
  }

  /** From the i-th state on the connection is the present one. */
  ghost predicate ConnectedFrom(cfg: Config, start: int, ops: seq<Op>, i: nat) {
    forall k :: i <= k <= |ops| ==> At(cfg, start, ops, k).connection == At(cfg, start, ops, |ops|).connection
  }

  /** And trust was not lost. */
  ghost predicate TrustedFrom(cfg: Config, start: int, ops: seq<Op>, i: nat) {
    forall k :: i <= k <= |ops| ==>
      Trusted(At(cfg, start, ops, k).state)
      && At(cfg, start, ops, k).revision == At(cfg, start, ops, |ops|).revision
  }

  /** A heartbeat was sent over the present connection, and if it was not sent in the very moment at which
      trust ran out, trust has not been lost since. */
  ghost predicate HeartbeatAt(cfg: Config, start: int, ops: seq<Op>, i: nat) {
    && Sends(cfg, start, ops, i, HeartbeatSent) && ConnectedFrom(cfg, start, ops, i + 1)
    && (Trusted(At(cfg, start, ops, i + 1).state) ==> TrustedFrom(cfg, start, ops, i + 1))
  }

  /** After it, a configuration was asked for, and neither connection nor trust has been lost since. */
  ghost predicate GetAt(cfg: Config, start: int, ops: seq<Op>, j: nat) {
    && Sends(cfg, start, ops, j, GetSent)
    && ConnectedFrom(cfg, start, ops, j + 1) && TrustedFrom(cfg, start, ops, j + 1)
  }

  ghost predicate HeartbeatSome(cfg: Config, start: int, ops: seq<Op>, before: nat) {
    exists i :: 0 <= i < before && HeartbeatAt(cfg, start, ops, i)
  }

  ghost predicate BothAt(cfg: Config, start: int, ops: seq<Op>, j: nat) {
    GetAt(cfg, start, ops, j) && HeartbeatSome(cfg, start, ops, j)
  }

  lemma AtMore(cfg: Config, start: int, ops: seq<Op>, op: Op)
    ensures forall k :: 0 <= k <= |ops| ==> At(cfg, start, ops + [op], k) == At(cfg, start, ops, k)
    ensures At(cfg, start, ops + [op], |ops| + 1) == Step(At(cfg, start, ops, |ops|), cfg, op)
  {
    forall k | 0 <= k <= |ops| ensures At(cfg, start, ops + [op], k) == At(cfg, start, ops, k) {
      assert (ops + [op])[..k] == ops[..k];
    }
    var all := (ops + [op])[..|ops| + 1];
    RunSplit(Initial(start), cfg, all, |ops|);
    assert all[..|ops|] == ops[..|ops|] && all[|ops|..] == [op] && [op][1..] == [];
    assert Run(Step(At(cfg, start, ops, |ops|), cfg, op), cfg, []) == Step(At(cfg, start, ops, |ops|), cfg, op);
  }

  lemma SendsMore(cfg: Config, start: int, ops: seq<Op>, op: Op, i: nat, kind: Control)
    requires i < |ops|
    ensures Sends(cfg, start, ops + [op], i, kind) <==> Sends(cfg, start, ops, i, kind)
  {
    AtMore(cfg, start, ops, op);
  }

  /** What was sent before an unbroken step still counts after it. */
  lemma HeartbeatMore(cfg: Config, start: int, ops: seq<Op>, op: Op, i: nat)
    requires i < |ops| && HeartbeatAt(cfg, start, ops, i)
    requires Unbroken(At(cfg, start, ops, |ops|), Step(At(cfg, start, ops, |ops|), cfg, op))
    ensures HeartbeatAt(cfg, start, ops + [op], i)
  {
    AtMore(cfg, start, ops, op);
    SendsMore(cfg, start, ops, op, i, HeartbeatSent);
    hide At, Sends, Step;
  }

  lemma GetMore(cfg: Config, start: int, ops: seq<Op>, op: Op, j: nat)
    requires j < |ops| && GetAt(cfg, start, ops, j)
    requires Unbroken(At(cfg, start, ops, |ops|), Step(At(cfg, start, ops, |ops|), cfg, op))
    ensures GetAt(cfg, start, ops + [op], j)
  {
    AtMore(cfg, start, ops, op);
    SendsMore(cfg, start, ops, op, j, GetSent);
    hide At, Sends, Step;
  }

  lemma HeartbeatSomeMore(cfg: Config, start: int, ops: seq<Op>, op: Op, before: nat)
    requires before <= |ops| && HeartbeatSome(cfg, start, ops, before)
    requires Unbroken(At(cfg, start, ops, |ops|), Step(At(cfg, start, ops, |ops|), cfg, op))
    ensures HeartbeatSome(cfg, start, ops + [op], before)
  {
    var i :| 0 <= i < before && HeartbeatAt(cfg, start, ops, i);
    HeartbeatMore(cfg, start, ops, op, i);
    hide HeartbeatAt, At, Step;
  }

  lemma BothMore(cfg: Config, start: int, ops: seq<Op>, op: Op, j: nat)
    requires j < |ops| && BothAt(cfg, start, ops, j)
    requires Unbroken(At(cfg, start, ops, |ops|), Step(At(cfg, start, ops, |ops|), cfg, op))
    ensures BothAt(cfg, start, ops + [op], j)
  {
    hide HeartbeatSome, GetAt, At, Step;
    GetMore(cfg, start, ops, op, j);
    HeartbeatSomeMore(cfg, start, ops, op, j);
  }

  ghost predicate BothSome(cfg: Config, start: int, ops: seq<Op>) {
    exists j :: 0 <= j < |ops| && BothAt(cfg, start, ops, j)
  }

  lemma BothSomeMore(cfg: Config, start: int, ops: seq<Op>, op: Op)
    requires BothSome(cfg, start, ops)
    requires Unbroken(At(cfg, start, ops, |ops|), Step(At(cfg, start, ops, |ops|), cfg, op))
    ensures BothSome(cfg, start, ops + [op])
  {
    var j :| 0 <= j < |ops| && BothAt(cfg, start, ops, j);
    BothMore(cfg, start, ops, op, j);
    hide BothAt, At, Step;
  }

  lemma WiderSome(cfg: Config, start: int, ops: seq<Op>, before: nat, after: nat)
    requires HeartbeatSome(cfg, start, ops, before) && before <= after
    ensures HeartbeatSome(cfg, start, ops, after)
  {
    hide HeartbeatAt;
  }

  /** A mark that was there before the step and survived it unbroken. */
  lemma KeptMore(cfg: Config, start: int, ops: seq<Op>, op: Op)
    requires MarksTell(cfg, start, ops)
    ensures var c, c' := At(cfg, start, ops, |ops|), Step(At(cfg, start, ops, |ops|), cfg, op);
            && (c.heartbeat && Unbroken(c, c') ==> HeartbeatSome(cfg, start, ops + [op], |ops|))
            && (c.get && Unbroken(c, c') ==> Trusted(c'.state) && BothSome(cfg, start, ops + [op]))
  {
    hide HeartbeatSome, BothSome, At, Step;
    var c, c' := At(cfg, start, ops, |ops|), Step(At(cfg, start, ops, |ops|), cfg, op);
    if c.heartbeat && Unbroken(c, c') { HeartbeatSomeMore(cfg, start, ops, op, |ops|); }
    if c.get && Unbroken(c, c') { BothSomeMore(cfg, start, ops, op); }
  }

  /** A mark that the step itself sets. */
  lemma HeartbeatNow(cfg: Config, start: int, ops: seq<Op>, op: Op)
    requires Grants(At(cfg, start, ops, |ops|), cfg, op) && op.kind == HeartbeatSent
    ensures HeartbeatSome(cfg, start, ops + [op], |ops| + 1)
  {
    AtMore(cfg, start, ops, op);
    hide At, Grants, Step;
    assert HeartbeatAt(cfg, start, ops + [op], |ops|);
  }

  lemma GetNow(cfg: Config, start: int, ops: seq<Op>, op: Op)
    requires Grants(At(cfg, start, ops, |ops|), cfg, op) && op.kind == GetSent
    requires Trusted(Step(At(cfg, start, ops, |ops|), cfg, op).state)
    requires HeartbeatSome(cfg, start, ops + [op], |ops|)
    ensures BothSome(cfg, start, ops + [op])
  {
    AtMore(cfg, start, ops, op);
    hide At, Grants, Step, HeartbeatSome;
    assert GetAt(cfg, start, ops + [op], |ops|);
    assert BothAt(cfg, start, ops + [op], |ops|);
  }

  ghost predicate MarksTell(cfg: Config, start: int, ops: seq<Op>) {
    var c := At(cfg, start, ops, |ops|);
    && Inv(c) && (c.heartbeat ==> HeartbeatSome(cfg, start, ops, |ops|))
    && (c.get ==> Trusted(c.state) && BothSome(cfg, start, ops))
  }

  /** A granted control message whose second reading finds a mark leaves a trusted clock. */
  lemma GrantTrust(c: Clock, cfg: Config, op: Op)
    requires cfg.platform && Inv(c) && Grants(c, cfg, op)
    ensures var c1 := Require(c, cfg, op.token, ControlSend, op.now, op.later, op.system).clock;
            c1.heartbeat ==> Trusted(c1.state) && c.heartbeat && Unbroken(c, c1)
  {
    var first := Snapshot(c, cfg, op.now, op.system);
    GrantedExactly(c, cfg, op.token, ControlSend, op.now, op.later, op.system);
    SnapshotGood(c, cfg, op.now, op.system);
    SnapshotLasts(c, cfg, op.now, op.system);
    ValidTrust(c, cfg, op.now, op.system);
    SnapshotLasts(first.clock, cfg, op.later, op.system);
    LastsTrans(c, first.clock, Snapshot(first.clock, cfg, op.later, op.system).clock);
    hide Snapshot, Inv, Accepts;
  }

  lemma ControlTells(cfg: Config, start: int, ops: seq<Op>, op: Op)
    requires cfg.platform && MarksTell(cfg, start, ops) && op.ControlOp?
    ensures MarksTell(cfg, start, ops + [op])
  {
    var c := At(cfg, start, ops, |ops|);
    var c1, c' := Require(c, cfg, op.token, ControlSend, op.now, op.later, op.system).clock, Step(c, cfg, op);
    AtMore(cfg, start, ops, op);
    StepGood(c, cfg, op);
    ControlLasts(c, cfg, op);
    KeptMore(cfg, start, ops, op);
    assert Unbroken(c, c1) ==> Unbroken(c, c');
    hide At, Step, Require, HeartbeatSome, BothSome, Grants, Inv, Later;
    if c'.heartbeat {
      if c1.heartbeat {
        WiderSome(cfg, start, ops + [op], |ops|, |ops| + 1);
      } else {
        HeartbeatNow(cfg, start, ops, op);
      }
    }
    if c'.get && !c1.get {
      GrantTrust(c, cfg, op);
      GetNow(cfg, start, ops, op);
    }
  }

  lemma PlainTells(cfg: Config, start: int, ops: seq<Op>, op: Op)
    requires MarksTell(cfg, start, ops) && !op.ControlOp?
    ensures MarksTell(cfg, start, ops + [op])
  {
    hide Step, Inv, Later, At, HeartbeatSome, BothSome, Unbroken;
    var c := At(cfg, start, ops, |ops|);
    var c' := Step(c, cfg, op);
    AtMore(cfg, start, ops, op);
    StepGood(c, cfg, op);
    StepLasts(c, cfg, op);
    KeptMore(cfg, start, ops, op);
    if c'.heartbeat { WiderSome(cfg, start, ops + [op], |ops|, |ops| + 1); }
  }

  /** In every run from start-up a mark tells of the messages that were sent. */
  lemma {:induction false} RunTells(cfg: Config, start: int, ops: seq<Op>)
    requires cfg.platform
    ensures MarksTell(cfg, start, ops)
    decreases |ops|
  {
    if ops != [] {
      var n := |ops| - 1;
      RunTells(cfg, start, ops[..n]);
      assert ops == ops[..n] + [ops[n]];
      if ops[n].ControlOp? {
        ControlTells(cfg, start, ops[..n], ops[n]);
      } else {
        PlainTells(cfg, start, ops[..n], ops[n]);
      }
      hide MarksTell;
    } else {
      assert At(cfg, start, ops, 0) == Initial(start);
    }
  }

  /** Nothing is sent on platform time but with a valid reading, in a session synchronised by then, under a
      fresh token. And telemetry is sent only after a heartbeat, and after it a request for the
      configuration, were: over the same connection, and with no loss of trust since. (The heartbeat may
      have been sent in the very moment at which trust ran out.) */
  lemma SendRestsOn(cfg: Config, start: int, ops: seq<Op>, token: Option<Token>, purpose: Purpose, now: int, later: int,
                    system: Option<int>)
    requires cfg.platform && (purpose == Send || purpose == ControlSend)
    requires Require(Run(Initial(start), cfg, ops), cfg, token, purpose, now, later, system).Granted?
    ensures var first := Snapshot(Run(Initial(start), cfg, ops), cfg, now, system);
            && first.Shot? && first.reading.valid && first.clock.session.Some? && first.clock.sessionSynced
            && token.Some? && Fresh(first.clock, cfg, now, token.value)
    ensures purpose == Send ==> BothSome(cfg, start, ops)
  {
    var c := Run(Initial(start), cfg, ops);
    var first := Snapshot(c, cfg, now, system);
    GrantedExactly(c, cfg, token, purpose, now, later, system);
    RunTells(cfg, start, ops);
    assert ops[..|ops|] == ops;
    SnapshotLasts(c, cfg, now, system);
    hide Snapshot, Require, BothSome, HeartbeatSome, Inv;
  }

  // ---- When it must be granted

  lemma StepHolds(c: Clock, cfg: Config, op: Op)
    requires Inv(c) && Trusted(c.state)
    requires Step(c, cfg, op).revision == c.revision && Step(c, cfg, op).connection == c.connection
    ensures Holds(c, Step(c, cfg, op))
  {
    if op.ControlOp? { ControlLasts(c, cfg, op); } else { StepLasts(c, cfg, op); }
    hide Step, Require, Inv, Grants;
  }

  lemma AtNext(cfg: Config, start: int, ops: seq<Op>, k: nat)
    requires k < |ops|
    ensures At(cfg, start, ops, k + 1) == Step(At(cfg, start, ops, k), cfg, ops[k]) && Inv(At(cfg, start, ops, k))
  {
    RunGood(Initial(start), cfg, ops[..k]);
    AtMore(cfg, start, ops[..k], ops[k]);
    assert ops[..k] + [ops[k]] == ops[..k + 1] && ops[..k][..k] == ops[..k] && ops[..k + 1][..k + 1] == ops[..k + 1];
  }

  /** While neither connection nor trust is lost, marks and session stay. */
  lemma {:induction false} HoldsAlong(cfg: Config, start: int, ops: seq<Op>, i: nat, k: nat)
    requires i <= k <= |ops| && ConnectedFrom(cfg, start, ops, i) && TrustedFrom(cfg, start, ops, i)
    ensures Holds(At(cfg, start, ops, i), At(cfg, start, ops, k))
    decreases k
  {
    if i < k {
      HoldsAlong(cfg, start, ops, i, k - 1);
      AtNext(cfg, start, ops, k - 1);
      hide At, Step, Inv;
      StepHolds(At(cfg, start, ops, k - 1), cfg, ops[k - 1]);
    } else {
      hide At;
    }
  }

  lemma GrantSynced(c: Clock, cfg: Config, op: Op)
    requires cfg.platform && Inv(c) && Grants(c, cfg, op) && Trusted(Step(c, cfg, op).state)
    ensures var c' := Step(c, cfg, op);
            && c'.session.Some? && c'.sessionSynced && (op.kind == HeartbeatSent ==> c'.heartbeat)
            && (op.kind == GetSent && c.heartbeat && Same(c, c') ==> c'.get)
  {
    var first := Snapshot(c, cfg, op.now, op.system);
    GrantedExactly(c, cfg, op.token, ControlSend, op.now, op.later, op.system);
    ControlLasts(c, cfg, op);
    SnapshotGood(c, cfg, op.now, op.system);
    SnapshotTrust(first.clock, cfg, op.later, op.system);
    SnapshotLasts(first.clock, cfg, op.later, op.system);
    hide Snapshot, Inv, Accepts;
  }

  /** Once both control messages were sent, in this order, and as long as neither connection nor trust is
      lost, telemetry may be sent with every valid reading and fresh token. */
  lemma SendGranted(cfg: Config, start: int, ops: seq<Op>, i: nat, j: nat, token: Token, now: int, later: int,
                    system: Option<int>)
    requires cfg.platform && i < j && Sends(cfg, start, ops, i, HeartbeatSent) && Sends(cfg, start, ops, j, GetSent)
    requires ConnectedFrom(cfg, start, ops, i + 1) && TrustedFrom(cfg, start, ops, i + 1)
    requires var first := Snapshot(Run(Initial(start), cfg, ops), cfg, now, system);
             && first.Shot? && first.reading.valid && Fresh(first.clock, cfg, now, token)
             && Snapshot(first.clock, cfg, later, system).Shot?
    ensures Require(Run(Initial(start), cfg, ops), cfg, Some(token), Send, now, later, system).Granted?
  {
    assert ops[..|ops|] == ops;
    BothMarked(cfg, start, ops, i, j);
    var c := Run(Initial(start), cfg, ops);
    RunGood(Initial(start), cfg, ops);
    ValidTrust(c, cfg, now, system);
    SnapshotTrust(c, cfg, now, system);
    SnapshotLasts(c, cfg, now, system);
    GrantedExactly(c, cfg, Some(token), Send, now, later, system);
    hide Snapshot, Require, Run, Inv, Sends, ConnectedFrom, TrustedFrom;
  }

  lemma BothMarked(cfg: Config, start: int, ops: seq<Op>, i: nat, j: nat)
    requires cfg.platform && i < j && Sends(cfg, start, ops, i, HeartbeatSent) && Sends(cfg, start, ops, j, GetSent)
    requires ConnectedFrom(cfg, start, ops, i + 1) && TrustedFrom(cfg, start, ops, i + 1)
    ensures var c := At(cfg, start, ops, |ops|); c.heartbeat && c.get && c.session.Some? && c.sessionSynced
  {
    HeartbeatMarked(cfg, start, ops, i, j);
    HeartbeatMarked(cfg, start, ops, i, |ops|);
    GetMarked(cfg, start, ops, i, j);
    hide At;
    HoldsAlong(cfg, start, ops, j + 1, |ops|);
  }

  lemma HeartbeatMarked(cfg: Config, start: int, ops: seq<Op>, i: nat, k: nat)
    requires cfg.platform && i < k <= |ops| && Sends(cfg, start, ops, i, HeartbeatSent)
    requires ConnectedFrom(cfg, start, ops, i + 1) && TrustedFrom(cfg, start, ops, i + 1)
    ensures var c := At(cfg, start, ops, k); c.heartbeat && c.session.Some? && c.sessionSynced && Trusted(c.state)
  {
    AtNext(cfg, start, ops, i);
    hide At, Step, Inv, Grants;
    GrantSynced(At(cfg, start, ops, i), cfg, ops[i]);
    HoldsAlong(cfg, start, ops, i + 1, k);
  }

  lemma GetMarked(cfg: Config, start: int, ops: seq<Op>, i: nat, j: nat)
    requires cfg.platform && i < j && Sends(cfg, start, ops, i, HeartbeatSent) && Sends(cfg, start, ops, j, GetSent)
    requires ConnectedFrom(cfg, start, ops, i + 1) && TrustedFrom(cfg, start, ops, i + 1)
    ensures At(cfg, start, ops, j + 1).get
    ensures ConnectedFrom(cfg, start, ops, j + 1) && TrustedFrom(cfg, start, ops, j + 1)
  {
    HeartbeatMarked(cfg, start, ops, i, j);
    AtNext(cfg, start, ops, j);
    hide At, Step, Inv, Grants;
    GrantSynced(At(cfg, start, ops, j), cfg, ops[j]);
  }
}
