/** The logical clock as the object the source has: fields updated step by step, even by reading.
    Every method is tied to the step function of PlatformClock, and the public ones are the steps of the
    run that `history` records. A method that can raise for want of revision numbers returns `ok`, and
    leaves the fields as they were when it raised. */
module PlatformTime {
  import opened Common
  import opened PlatformClock
  import opened PlatformClockRuns
  import Grants = PlatformClockGrants
  import Hub = PlatformClockSoundness

  /** What has been done in the current session. */
  datatype Marks = Marks(synced: bool, heartbeat: bool, get: bool)

  /** The kept estimate: UTC at the last reading, what is still to be slewed, and how far it may be off. */
  datatype Estimate = Estimate(utc: Option<real>, residual: real, uncertainty: real, syncMono: Option<int>,
                               lastMono: int, lastObserved: int)

  /** The synchronisation round under way. */
  datatype SyncRound = SyncRound(pending: Option<Request>, start: Option<int>, attempts: nat,
                                 candidates: seq<Candidate>,
                                 nextSync: int, failures: nat, suspectConfirm: bool)

  // ---- The run so far

  ghost predicate Reached(start: int, cfg: Config, history: seq<Op>, c: Clock) {
    c == Run(Initial(start), cfg, history)
  }

  lemma Extend(start: int, cfg: Config, history: seq<Op>, c: Clock, op: Op)
    requires Reached(start, cfg, history, c)
    ensures Reached(start, cfg, history + [op], Step(c, cfg, op))
  {
    RunSplit(Initial(start), cfg, history + [op], |history|);
    assert (history + [op])[..|history|] == history && (history + [op])[|history|..] == [op];
    assert [op][1..] == [];
    assert Run(Step(c, cfg, op), cfg, []) == Step(c, cfg, op);
  }

  /** If all answers along the run were honest and the monotonic clock in order, true hub time lies in the
      interval of the reading, at every instant of its millisecond. */
  ghost predicate TellsHubTime(start: int, cfg: Config, history: seq<Op>, now: int, r: Reading) {
    forall hub: real -> real, at: real ::
      && Hub.HubClock(hub, Drift(cfg)) && Hub.HonestRun(hub, cfg, Initial(start), history, start)
      && Hub.LatestOf(history, start) <= now && now as real <= at < (now + 1) as real
      ==> Hub.Encloses(r, hub(at))
  }

  /** What `snapshot` returned as the i-th step of a run, if that is what the step was. */
  function Shown(start: int, cfg: Config, history: seq<Op>, i: nat): Option<Reading>
    requires i < |history|
  {
    if !history[i].ReadOp? then None
    else
      var shot := Snapshot(Run(Initial(start), cfg, history[..i]), cfg, history[i].now, history[i].system);
      if shot.Shot? then Some(shot.reading) else None
  }

  /** No earlier valid reading of the same revision was ahead of this one. */
  ghost predicate NeverBack(start: int, cfg: Config, history: seq<Op>, r: Reading) {
    forall i :: 0 <= i < |history| ==>
      var earlier := Shown(start, cfg, history, i);
      earlier.Some? ==> Ordered(earlier.value, r)
  }

  ghost predicate Ordered(earlier: Reading, r: Reading) {
    earlier.valid && r.valid && earlier.revision == r.revision ==>
      earlier.utc.Some? && r.utc.Some? && earlier.utc.value <= r.utc.value
  }

  lemma ReadingHasUtc(c: Clock, cfg: Config, now: int, system: Option<int>)
    requires Snapshot(c, cfg, now, system).Shot?
    ensures var r := Snapshot(c, cfg, now, system).reading; r.valid ==> r.utc.Some?
  {
  }

  lemma InitialInv(start: int)
    ensures Inv(Initial(start))
  {
  }

  lemma ReadingTells(start: int, cfg: Config, history: seq<Op>, c: Clock, now: int, system: Option<int>)
    requires Reached(start, cfg, history, c) && Snapshot(c, cfg, now, system).Shot?
    ensures TellsHubTime(start, cfg, history, now, Snapshot(c, cfg, now, system).reading)
  {
    var r := Snapshot(c, cfg, now, system).reading;
    forall hub: real -> real, at: real |
      && Hub.HubClock(hub, Drift(cfg)) && Hub.HonestRun(hub, cfg, Initial(start), history, start)
      && Hub.LatestOf(history, start) <= now && now as real <= at < (now + 1) as real
      ensures Hub.Encloses(r, hub(at))
    {
      Hub.ClockIntervalSound(hub, cfg, start, history, now, system, at);
    }
  }

  lemma ReadingNeverBack(start: int, cfg: Config, history: seq<Op>, c: Clock, now: int, system: Option<int>)
    requires Reached(start, cfg, history, c) && Snapshot(c, cfg, now, system).Shot?
    ensures NeverBack(start, cfg, history, Snapshot(c, cfg, now, system).reading)
  {
    forall i | 0 <= i < |history| && Shown(start, cfg, history, i).Some?
      ensures Ordered(Shown(start, cfg, history, i).value, Snapshot(c, cfg, now, system).reading)
    {
      EarlierReading(start, cfg, history, c, now, system, i);
    }
  }

  lemma RequireTells(start: int, cfg: Config, history: seq<Op>, c: Clock, token: Option<Token>, purpose: Purpose,
                     now: int, later: int, system: Option<int>)
    requires Reached(start, cfg, history, c)
    ensures var asked := Require(c, cfg, token, purpose, now, later, system);
            && (asked.Granted? <==> Grants.Grantable(c, cfg, token, purpose, now, later, system))
            && (asked.Granted? && cfg.platform && purpose == Send ==> Grants.BothSome(cfg, start, history))
    ensures Step(c, cfg, RequireOp(token, purpose, now, later, system))
         == Require(c, cfg, token, purpose, now, later, system).clock
  {
    hide Require, Grants.Grantable, Grants.BothSome;
    Grants.GrantedExactly(c, cfg, token, purpose, now, later, system);
    if cfg.platform && purpose == Send && Require(c, cfg, token, purpose, now, later, system).Granted? {
      Grants.SendRestsOn(cfg, start, history, token, purpose, now, later, system);
    }
  }

  lemma EarlierReading(start: int, cfg: Config, history: seq<Op>, c: Clock, now: int, system: Option<int>, i: nat)
    requires Reached(start, cfg, history, c) && Snapshot(c, cfg, now, system).Shot?
    requires i < |history| && Shown(start, cfg, history, i).Some?
    ensures Ordered(Shown(start, cfg, history, i).value, Snapshot(c, cfg, now, system).reading)
  {
    var before, op := Run(Initial(start), cfg, history[..i]), history[i];
    InitialInv(start);
    RunGood(Initial(start), cfg, history[..i]);
    RunSplit(Initial(start), cfg, history, i);
    assert history[i..][1..] == history[i + 1..];
    assert c == Run(Step(before, cfg, op), cfg, history[i + 1..]);
    assert Step(before, cfg, op) == Snapshot(before, cfg, op.now, op.system).clock;
    hide Snapshot;
    UtcMonotone(before, cfg, op.now, op.system, history[i + 1..], now, system);
    ReadingHasUtc(before, cfg, op.now, op.system);
    ReadingHasUtc(c, cfg, now, system);
  }

  class PlatformTime {
    const cfg: Config
    var revision: nat
    var connection: nat
    var session: Option<string>
    var marks: Marks
    var state: State
    var est: Estimate
    var floor: Option<int>
    var round: SyncRound
    ghost const start: int
    ghost var history: seq<Op>

    ghost predicate Valid()
      reads this
    {
      Reached(start, cfg, history, View())
    }

    ghost function View(): Clock
      reads this
    {
      Clock(revision, connection, session, marks.synced, marks.heartbeat, marks.get, state,
            est.utc, est.lastMono, est.syncMono, est.uncertainty, est.residual, floor, est.lastObserved,
            round.pending, round.start, round.attempts, round.candidates, round.nextSync, round.failures,
            round.suspectConfirm)
    }

    constructor (cfg: Config, now: int)
      ensures Valid() && this.cfg == cfg && View() == Initial(now) && start == now && history == []
    {
      this.cfg, start, history := cfg, now, [];
      revision, connection, session, marks := 0, 0, None, Marks(false, false, false);
      state, floor := Unsynced, None;
      est := Estimate(None, 0.0, 0.0, None, now, now);
      round := SyncRound(None, None, 0, [], 0, 0, false);
    }

    method BumpRevision() returns (ok: bool)
      modifies this
      ensures history == old(history)
      ensures ok == Bump(old(View())).Ok?
      ensures View() == Bump(old(View())).clock
    {
      if revision >= MAX_SAFE || connection >= MAX_SAFE { return false; }
      revision := revision + 1;
      ok := true;
    }

    method Invalidate(newState: State) returns (ok: bool)
      modifies this
      ensures history == old(history)
      ensures ok == PlatformClock.Invalidate(old(View()), newState).Ok?
      ensures View() == PlatformClock.Invalidate(old(View()), newState).clock
    {
      if state !in {Unsynced, Expired, Suspect, Maintenance} {
        ok := BumpRevision();
        if !ok { return; }
      }
      state := newState;
      marks := Marks(false, false, false);
      round := round.(pending := None, nextSync := 0);
      ok := true;
    }

    method Renew(newSession: string) returns (ok: bool)
      modifies this
      ensures history == old(history)
      ensures ok == PlatformClock.Connect(old(View()), cfg, newSession).Ok?
      ensures View() == PlatformClock.Connect(old(View()), cfg, newSession).clock
    {
      if connection >= MAX_SAFE { return false; }
      connection := connection + 1;
      session := Some(newSession);
      marks := Marks(!cfg.platform, false, false);
      round := round.(pending := None, start := None, attempts := 0, candidates := [], nextSync := 0);
      ok := true;
    }

    method Connect(newSession: string) returns (ok: bool)
      requires Valid()
      modifies this
      ensures Valid() && history == old(history) + [ConnectOp(newSession)]
      ensures ok == PlatformClock.Connect(old(View()), cfg, newSession).Ok?
      ensures View() == PlatformClock.Connect(old(View()), cfg, newSession).clock
    {
      Extend(start, cfg, history, View(), ConnectOp(newSession));
      history := history + [ConnectOp(newSession)];
      ok := Renew(newSession);
    }

    method Disconnect() returns (ok: bool)
      requires Valid()
      modifies this
      ensures Valid() && history == old(history) + [DisconnectOp]
      ensures ok == PlatformClock.Disconnect(old(View()), cfg).Ok?
      ensures View() == PlatformClock.Disconnect(old(View()), cfg).clock
    {
      Extend(start, cfg, history, View(), DisconnectOp);
      history := history + [DisconnectOp];
      ok := Renew("disconnected");
      if ok {
        session := None;
        marks := Marks(false, false, false);
      }
    }

    method RaiseFloor(basis: string, lower: Option<int>) returns (ok: bool)
      modifies this
      ensures history == old(history)
      ensures ok == LoadBoundary(old(View()), cfg, basis, lower).Ok?
      ensures View() == LoadBoundary(old(View()), cfg, basis, lower).clock
    {
      if lower.None? { return true; }
      if basis != cfg.basis {
        ok := Invalidate(Maintenance);
        return;
      }
      var bound := if floor.Some? && floor.value >= lower.value then floor.value else lower.value;
      if floor.None? && lower.value < 0 { bound := 0; }
      floor := Some(bound);
      ok := true;
      if est.utc.Some? && est.utc.value + est.uncertainty < bound as real {
        ok := Invalidate(Maintenance);
      }
    }

    method LoadHistoryBoundary(basis: string, lower: Option<int>) returns (ok: bool)
      requires Valid()
      modifies this
      ensures Valid() && history == old(history) + [BoundaryOp(basis, lower)]
      ensures ok == LoadBoundary(old(View()), cfg, basis, lower).Ok?
      ensures View() == LoadBoundary(old(View()), cfg, basis, lower).clock
    {
      Extend(start, cfg, history, View(), BoundaryOp(basis, lower));
      history := history + [BoundaryOp(basis, lower)];
      ok := RaiseFloor(basis, lower);
    }

    method RequireMaintenance() returns (ok: bool)
      requires Valid()
      modifies this
      ensures Valid() && history == old(history) + [MaintenanceOp]
      ensures ok == PlatformClock.Invalidate(old(View()), Maintenance).Ok?
      ensures View() == PlatformClock.Invalidate(old(View()), Maintenance).clock
    {
      Extend(start, cfg, history, View(), MaintenanceOp);
      history := history + [MaintenanceOp];
      ok := Invalidate(Maintenance);
    }

    method Advance(now: int) returns (ok: bool)
      modifies this
      ensures history == old(history)
      ensures ok == PlatformClock.Advance(old(View()), now).Ok?
      ensures View() == PlatformClock.Advance(old(View()), now).clock
    {
      ok := true;
      if now < est.lastObserved {
        ok := Invalidate(Maintenance);
        if !ok { return; }
        est := est.(utc := None);
      }
      est := est.(lastObserved := now);
      if est.utc.Some? {
        var elapsed := if now - est.lastMono < 0 then 0 else now - est.lastMono;
        var bound := elapsed as real * 0.005;
        var correction := if bound < est.residual then bound else est.residual;
        if correction < -bound { correction := -bound; }
        est := est.(utc := Some(est.utc.value + elapsed as real + correction), residual := est.residual - correction);
      }
      est := est.(lastMono := now);
    }

    /** How old the estimate is and how far it may be off. */
    method Width(now: int) returns (age: Option<int>, error: Option<int>)
      ensures age == Age(View(), now) && error == Error(View(), cfg, now)
    {
      hide Drift, Ceil, Widened;
      if est.syncMono.None? { return None, None; }
      age := Some(if now - est.syncMono.value < 0 then 0 else now - est.syncMono.value);
      error := Some(Ceil(Widened(est.uncertainty, age.value, Drift(cfg), est.residual)));
    }

    method Read(now: int, system: Option<int>) returns (ok: bool, r: Reading)
      modifies this
      ensures history == old(history)
      ensures if ok then Shot(View(), r) == Snapshot(old(View()), cfg, now, system)
              else NoShot(View()) == Snapshot(old(View()), cfg, now, system)
    {
      r := Reading(now, None, None, state, false, None, revision, connection, system);
      ok := Advance(now);
      if !ok { return; }
      hide Error;
      var age, error := Width(now);
      var valid := cfg.platform && est.utc.Some? && state in {Synced, Holdover} && est.syncMono.Some?
                   && age.value < 3600000 && error.value < 1000 && 0.0 <= est.utc.value - error.value as real
                   && est.utc.value + error.value as real <= MAX_SAFE as real;
      var stamp: Option<int> := if valid then Some(est.utc.value.Floor) else None;
      if cfg.platform && state in {Synced, Holdover} && !valid {
        ok := Invalidate(Expired);
        if !ok { return; }
      }
      if valid {
        state := if marks.synced then Synced else Holdover;
      }
      r := Reading(now, stamp, error, state, valid, age, revision, connection, system);
    }

    /** `snapshot`: nothing but a reading, which is true and never runs back. */
    method TakeReading(now: int, system: Option<int>) returns (ok: bool, r: Reading)
      requires Valid()
      modifies this
      ensures Valid() && history == old(history) + [ReadOp(now, system)]
      ensures if ok then Shot(View(), r) == Snapshot(old(View()), cfg, now, system)
              else NoShot(View()) == Snapshot(old(View()), cfg, now, system)
      ensures ok ==> TellsHubTime(start, cfg, old(history), now, r) && NeverBack(start, cfg, old(history), r)
    {
      ghost var c := View();
      Extend(start, cfg, history, c, ReadOp(now, system));
      ok, r := Read(now, system);
      if ok {
        ReadingTells(start, cfg, history, c, now, system);
        ReadingNeverBack(start, cfg, history, c, now, system);
      }
      history := history + [ReadOp(now, system)];
    }

    method Accepted(r: Reading, token: Option<Token>, purpose: Purpose) returns (b: bool)
      ensures b == Accepts(View(), cfg, r, token, purpose)
      ensures b == ((token.Some? ==> Grants.Fresh(View(), cfg, r.mono, token.value))
                    && Grants.Suffices(View(), cfg, r, purpose))
    {
      if token.Some? && (token.value.boot != cfg.boot || token.value.revision != revision
                         || token.value.connection != connection || !(0 <= r.mono - token.value.mono < 2000)) {
        return false;
      }
      if purpose == Capture { return true; }
      if purpose == AckApply { return session.Some?; }
      if !(if cfg.platform then r.valid else r.system.Some?) { return false; }
      if purpose == Enqueue { return true; }
      if session.None? || !marks.synced { return false; }
      if purpose == ControlSend { return true; }
      return marks.heartbeat && marks.get;
    }

    method Demand(token: Option<Token>, purpose: Purpose, now: int, later: int, system: Option<int>)
      returns (granted: bool, r: Reading)
      modifies this
      ensures history == old(history)
      ensures if granted then Granted(View(), r)
              == PlatformClock.Require(old(View()), cfg, token, purpose, now, later, system)
              else Denied(View()) == PlatformClock.Require(old(View()), cfg, token, purpose, now, later, system)
    {
      r := Reading(now, None, None, state, false, None, revision, connection, system);
      if cfg.platform && token.None? && purpose in {Enqueue, ControlSend, Send} { return false, r; }
      var ok;
      ok, r := Read(now, system);
      if !ok { return false, r; }
      var fine := Accepted(r, token, purpose);
      if !fine { return false, r; }
      granted, r := Read(later, system);
    }

    method Require(token: Option<Token>, purpose: Purpose, now: int, later: int, system: Option<int>)
      returns (granted: bool, r: Reading)
      requires Valid()
      modifies this
      ensures Valid() && history == old(history) + [RequireOp(token, purpose, now, later, system)]
      ensures if granted then Granted(View(), r)
              == PlatformClock.Require(old(View()), cfg, token, purpose, now, later, system)
              else Denied(View()) == PlatformClock.Require(old(View()), cfg, token, purpose, now, later, system)
      ensures granted <==> Grants.Grantable(old(View()), cfg, token, purpose, now, later, system)
      ensures granted && cfg.platform && purpose == Send ==> Grants.BothSome(cfg, start, old(history))
    {
      RequireTells(start, cfg, history, View(), token, purpose, now, later, system);
      hide Reached, PlatformClock.Require, Grants.Grantable, Grants.BothSome, Step;
      Extend(start, cfg, history, View(), RequireOp(token, purpose, now, later, system));
      history := history + [RequireOp(token, purpose, now, later, system)];
      granted, r := Demand(token, purpose, now, later, system);
    }

    method Mark(kind: Control, token: Option<Token>, now: int, later: int, system: Option<int>)
      modifies this
      ensures history == old(history)
      ensures View() == PlatformClock.ControlSubmitted(old(View()), cfg, kind, token, now, later, system)
    {
      var granted, _ := Demand(token, ControlSend, now, later, system);
      if granted {
        if kind == HeartbeatSent {
          marks := marks.(heartbeat := true);
        } else if marks.heartbeat {
          marks := marks.(get := true);
        }
      }
    }

    method ControlSubmitted(kind: Control, token: Option<Token>, now: int, later: int, system: Option<int>)
      requires Valid()
      modifies this
      ensures Valid() && history == old(history) + [ControlOp(kind, token, now, later, system)]
      ensures View() == PlatformClock.ControlSubmitted(old(View()), cfg, kind, token, now, later, system)
    {
      Extend(start, cfg, history, View(), ControlOp(kind, token, now, later, system));
      history := history + [ControlOp(kind, token, now, later, system)];
      Mark(kind, token, now, later, system);
    }

    method AcceptTarget(target: real, error: real, now: int, single: bool, jitter: real) returns (ok: bool)
      modifies this
      ensures history == old(history)
      ensures ok == Accept(old(View()), target, error, now, single, jitter).Ok?
      ensures View() == Accept(old(View()), target, error, now, single, jitter).clock
    {
      if est.utc.None? || state in {Expired, Unsynced, Syncing} {
        ok := BumpRevision();
        if !ok { return; }
        est := est.(utc := Some(target), residual := 0.0);
      } else {
        est := est.(residual := target - est.utc.value);
      }
      est := est.(uncertainty := error, syncMono := Some(now));
      state := Synced;
      marks := marks.(synced := session.Some?);
      round := round.(suspectConfirm := false, nextSync := now + ResyncDelay(single, jitter));
      ok := true;
    }

    method Deviate(target: real, error: real, now: int, single: bool, jitter: real) returns (ok: bool)
      requires est.utc.Some?
      modifies this
      ensures history == old(history)
      ensures ok == PlatformClock.Deviate(old(View()), target, error, now, single, jitter).Ok?
      ensures View() == PlatformClock.Deviate(old(View()), target, error, now, single, jitter).clock
    {
      ok := Invalidate(Suspect);
      if !ok { return; }
      if !round.suspectConfirm {
        round := round.(suspectConfirm := true, nextSync := now);
        return;
      }
      if target + error < est.utc.value {
        ok := Invalidate(Maintenance);
        return;
      }
      ok := BumpRevision();
      if !ok { return; }
      est := est.(utc := None);
      ok := AcceptTarget(target, error, now, single, jitter);
    }

    method Adopt(target: real, error: real, now: int, single: bool, jitter: real) returns (ok: bool)
      modifies this
      ensures history == old(history)
      ensures ok == PlatformClock.Adopt(old(View()), target, error, now, single, jitter).Ok?
      ensures View() == PlatformClock.Adopt(old(View()), target, error, now, single, jitter).clock
    {
      ok := Advance(now);
      if !ok { return; }
      if floor.Some? && target + error < floor.value as real {
        ok := Invalidate(Maintenance);
        return;
      }
      if est.utc.Some? && (target - est.utc.value > 1000.0 || est.utc.value - target > 1000.0) {
        ok := Deviate(target, error, now, single, jitter);
        return;
      }
      ok := AcceptTarget(target, error, now, single, jitter);
    }

    method GiveUp(now: int, jitter: real)
      modifies this
      ensures history == old(history)
      ensures View() == PlatformClock.GiveUp(old(View()), now, jitter)
    {
      var failures := if round.failures + 1 < 5 then round.failures + 1 else 5;
      round := round.(failures := failures, nextSync := now + RetryDelay(failures, jitter),
                      start := None, pending := None, candidates := []);
      if est.utc.None? && state != Maintenance { state := Unsynced; }
    }

    method FinishRound(now: int, jitter: real) returns (ok: bool)
      modifies this
      ensures history == old(history)
      ensures ok == PlatformClock.FinishRound(old(View()), cfg, now, jitter).Ok?
      ensures View() == PlatformClock.FinishRound(old(View()), cfg, now, jitter).clock
    {
      if round.candidates != [] && Consistent(round.candidates, now) {
        var usable := Usable(round.candidates);
        if usable != [] {
          var chosen := Carried(Shortest(usable), cfg, now);
          ok := AdoptCandidate(chosen, now, jitter);
          return;
        }
      }
      GiveUp(now, jitter);
      ok := true;
    }

    method AdoptCandidate(chosen: Candidate, now: int, jitter: real) returns (ok: bool)
      modifies this
      ensures history == old(history)
      ensures ok == PlatformClock.AdoptCandidate(old(View()), chosen, now, jitter).Ok?
      ensures View() == PlatformClock.AdoptCandidate(old(View()), chosen, now, jitter).clock
    {
      ok := Adopt(chosen.target, chosen.error, now, |round.candidates| < 3, jitter);
      if !ok { return; }
      round := round.(start := None, pending := None, candidates := [], failures := 0);
    }

    /** The last part of `request`. */
    method Ask(now: int, jitter: real, id: nat) returns (ok: bool, sent: Option<Request>)
      modifies this
      ensures history == old(history)
      ensures ok == PlatformClock.Ask(old(View()), cfg, now, jitter, id).Ok?
      ensures View() == PlatformClock.Ask(old(View()), cfg, now, jitter, id).clock
      ensures sent.Some? ==> ok && round.pending == sent && sent.value.id == id && sent.value.clientMono == now
    {
      sent := None;
      if now < round.nextSync { return true, None; }
      if round.start.None? {
        round := round.(start := Some(now), attempts := 0, candidates := []);
        if est.utc.None? { state := Syncing; }
      }
      if now >= round.start.value + 30000 || round.attempts >= 10 {
        ok := FinishRound(now, jitter);
        return;
      }
      if session.None? { return true, None; }
      sent := Some(Request(id, session.value, now));
      round := round.(pending := sent, attempts := round.attempts + 1);
      ok := true;
    }

    /** Wait for the request in flight, or drop it when it is stale, and ask again. */
    method Pursue(now: int, jitter: real, id: nat) returns (ok: bool, sent: Option<Request>)
      modifies this
      ensures history == old(history)
      ensures ok == PlatformClock.Pursue(old(View()), cfg, now, jitter, id).Ok?
      ensures View() == PlatformClock.Pursue(old(View()), cfg, now, jitter, id).clock
      ensures sent.Some? ==> ok && round.pending == sent && sent.value.id == id && sent.value.clientMono == now
    {
      sent := None;
      if round.pending.Some? {
        if now < round.pending.value.clientMono + 2000 { return true, None; }
        round := round.(pending := None);
        if round.attempts >= 10 {
          ok := FinishRound(now, jitter);
          if !ok { return; }
        }
      }
      ok, sent := Ask(now, jitter, id);
    }

    method Poll(now: int, jitter: real, id: nat, system: Option<int>) returns (ok: bool, sent: Option<Request>)
      modifies this
      ensures history == old(history)
      ensures ok == PlatformClock.MakeRequest(old(View()), cfg, now, jitter, id, system).Ok?
      ensures View() == PlatformClock.MakeRequest(old(View()), cfg, now, jitter, id, system).clock
      ensures sent.Some? ==> ok && round.pending == sent && sent.value.id == id && sent.value.clientMono == now
    {
      sent := None;
      var r;
      ok, r := Read(now, system);
      if !ok { return; }
      if !cfg.platform || session.None? || state == Maintenance { return; }
      if round.start.Some? && (now >= round.start.value + 30000 || (round.attempts >= 10 && round.pending.None?)) {
        ok := FinishRound(now, jitter);
        if !ok { return; }
      }
      ok, sent := Pursue(now, jitter, id);
    }

    method MakeRequest(now: int, jitter: real, id: nat, system: Option<int>) returns (ok: bool, sent: Option<Request>)
      requires Valid()
      modifies this
      ensures Valid() && history == old(history) + [RequestOp(now, jitter, id, system)]
      ensures ok == PlatformClock.MakeRequest(old(View()), cfg, now, jitter, id, system).Ok?
      ensures View() == PlatformClock.MakeRequest(old(View()), cfg, now, jitter, id, system).clock
      ensures sent.Some? ==> ok && round.pending == sent && sent.value.id == id && sent.value.clientMono == now
    {
      Extend(start, cfg, history, View(), RequestOp(now, jitter, id, system));
      history := history + [RequestOp(now, jitter, id, system)];
      ok, sent := Poll(now, jitter, id, system);
    }

    method Hear(m: Response, now: int, jitter: real) returns (ok: bool, taken: bool)
      modifies this
      ensures history == old(history)
      ensures ok == PlatformClock.TakeResponse(old(View()), cfg, m, now, jitter).Ok?
      ensures View() == PlatformClock.TakeResponse(old(View()), cfg, m, now, jitter).clock
      ensures taken ==> old(round.pending).Some? && round.pending.None?
    {
      taken := false;
      if m.retained || session != Some(m.session) || round.pending.None? || round.start.None? { return true, false; }
      var q := round.pending.value;
      if now >= round.start.value + 30000 || now >= q.clientMono + 2000 {
        round := round.(pending := None);
        return true, false;
      }
      if !m.wellFormed || m.id != q.id || m.session != q.session { return true, false; }
      if !InBounds(q, m, now) {
        round := round.(pending := None);
        return true, false;
      }
      var candidate := CandidateOf(q, m, cfg, now);
      if !Representable(candidate) {
        round := round.(pending := None);
        return true, false;
      }
      round := round.(candidates := round.candidates + [candidate], pending := None);
      ok := true;
      if |round.candidates| >= 3 {
        ok := FinishRound(now, jitter);
      }
      taken := ok && round.pending.None?;
    }

    method TakeResponse(m: Response, now: int, jitter: real) returns (ok: bool, taken: bool)
      requires Valid()
      modifies this
      ensures Valid() && history == old(history) + [ResponseOp(m, now, jitter)]
      ensures ok == PlatformClock.TakeResponse(old(View()), cfg, m, now, jitter).Ok?
      ensures View() == PlatformClock.TakeResponse(old(View()), cfg, m, now, jitter).clock
      ensures taken ==> old(round.pending).Some? && round.pending.None?
    {
      Extend(start, cfg, history, View(), ResponseOp(m, now, jitter));
      history := history + [ResponseOp(m, now, jitter)];
      ok, taken := Hear(m, now, jitter);
    }
  }
}
