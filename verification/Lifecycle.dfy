/** Applying a configuration (src/plcnext_iot/core/lifecycle.py): prepare in the store, activate the
    runners, commit, publish; or undo. Any storage call may fail before or after taking effect, any
    runner call may fail half-way. */
module Lifecycle {
  import opened Common
  import opened ConfigPatch
  import opened ConfigTables
  import Store = ConfigStore
  import opened DeviceRuntime

  datatype AgentState = New | WaitingConfig | Running | Disabled | Applying | Stopping | AgentFailed

  datatype Request =
    | ConfigSet(parsed: Parsed<Snapshot>)
    | ConfigPatch(payload: Bytes, command: Parsed<Command>, valid: bool, size: nat)

  datatype ApplyStatus = ApplyApplied | ApplyRejected | ApplyFailed

  datatype ApplyResult = ApplyResult(status: ApplyStatus, active: Option<nat>, code: string,
                                     appliedVersion: Option<Version>)

  /** Same version and content; the message may differ. */
  ghost predicate Agree(a: Option<Snapshot>, b: Option<Snapshot>) {
    && a.Some? == b.Some?
    && (a.Some? ==> a.value.version == b.value.version && a.value.content == b.value.content)
  }

  ghost predicate Untouched(before: seq<Action>, after: seq<Action>, r: RunnerId) {
    before <= after && forall i :: |before| <= i < |after| ==> after[i].runner != r
  }

  // ---- What the store's steps mean for an apply

  /** The snapshot a request stands for, over the configuration active when it is prepared. */
  ghost predicate StandsFor(req: Request, active: Option<Snapshot>, snap: Snapshot) {
    match req
    case ConfigSet(parsed) => parsed == Parsed(snap)
    case ConfigPatch(_, command, valid, size) =>
      command.Parsed? && Materialized(command.value, active, valid, size) == Parsed(snap)
  }

  /** Preparing does not move the active configuration; an accepted candidate waits under its token. */
  ghost predicate PreparedFrom(t: Tables, req: Request, t': Tables, r: PrepareResult) {
    && LoadActive(t).Done? && LoadActive(t') == LoadActive(t) && t'.active == t.active == r.active
    && (r.status == StatusApplied ==> t.active != 0)
    && (r.status == StatusPrepared ==>
        && r.token.Some?
        && (req.ConfigPatch? ==> r.snapshot.Some?)
        && (req.ConfigSet? ==> req.parsed.Parsed?)
        && var snap := if req.ConfigPatch? then r.snapshot.value else req.parsed.value;
           StandsFor(req, LoadActive(t).value, snap) && Waiting(t', r.token.value, snap, LoadActive(t).value))
  }

  lemma SetPrepared(t: Tables, lim: Limits, parsed: Parsed<Snapshot>)
    requires Inv(t)
    ensures PreparedFrom(t, ConfigSet(parsed), Prepare(t, lim, parsed).0, Prepare(t, lim, parsed).1)
  {
    var (t', r) := Prepare(t, lim, parsed);
    if parsed.Parsed? && Verdict(t, lim, parsed.value, None).None? {
      PrepareRowInv(t, lim, parsed.value, None);
      AdmittedWaits(t, parsed.value, None);
      hide Inv, Verdict, Admitted, Admissible, LoadActive, Waiting;
      assert (t', r) == Admitted(t, parsed.value, None);
    }
    hide Inv, Verdict, Admitted, Waiting;
  }

  lemma LoadedVersion(t: Tables)
    requires Inv(t) && LoadActive(t).Done?
    ensures var active := LoadActive(t).value;
            t.active == if active.Some? then active.value.version else 0
  {
  }

  lemma AdmittedWaits(t: Tables, snap: Snapshot, command: Option<Bytes>)
    requires Inv(t) && Admissible(t, snap, command)
    ensures var (t', r) := Admitted(t, snap, command);
            && LoadActive(t).Done? && LoadActive(t') == LoadActive(t) && t'.active == t.active == r.active
            && (r.status == StatusApplied ==> t.active != 0)
            && (r.status == StatusPrepared ==> r.token.Some? && Waiting(t', r.token.value, snap, LoadActive(t).value))
            && r.status != StatusRejected
            && (command.Some? ==> r.snapshot == Some(snap))
  {
  }

  lemma PatchPrepared(t: Tables, payload: Bytes, command: Parsed<Command>, valid: bool, size: nat, t': Tables,
                      r: PrepareResult)
    requires Inv(t) && PatchOutcome(t, payload, command, valid, size, t', r)
    ensures PreparedFrom(t, ConfigPatch(payload, command, valid, size), t', r)
  {
  }

  lemma FailKeepsActive(t: Tables, token: Token, snap: Snapshot, active: Option<Snapshot>)
    requires Inv(t) && Waiting(t, token, snap, active)
    ensures LoadActive(Fail(t, token).0) == Done(active) && Fail(t, token).0.active == t.active
  {
  }

  lemma TouchesTrans(a: seq<Action>, b: seq<Action>, c: seq<Action>, runners: set<RunnerId>)
    requires OnlyTouches(a, b, runners) && OnlyTouches(b, c, runners)
    ensures OnlyTouches(a, c, runners)
  {
  }

  /** A transition never calls a runner whose device keeps its execution key. */
  ghost predicate SparesKept(before: Option<Snapshot>, runners: map<string, RunnerId>, candidate: Snapshot,
                             log: seq<Action>, log': seq<Action>) {
    forall k :: k in runners && Kept(before, candidate, k) ==> Untouched(log, log', runners[k])
  }

  lemma SparesSame(before: Option<Snapshot>, runners: map<string, RunnerId>, candidate: Snapshot, log: seq<Action>,
                   log': seq<Action>)
    requires SparesKept(before, runners, candidate, log, log')
    ensures forall k :: k in runners && SamePolling(before, candidate, k) ==> Untouched(log, log', runners[k])
  {
    forall k ensures Kept(before, candidate, k) <==> SamePolling(before, candidate, k) {
      KeptExactly(before, candidate, k);
    }
    hide Kept, SamePolling, Untouched;
  }

  lemma KeptAreSpared(before: Option<Snapshot>, t: Transition, log: seq<Action>, log': seq<Action>)
    requires t.Shaped() && OnlyTouches(log, log', t.Touched())
    requires forall k :: k in t.proposed <==> Runs(t.snapshot, k)
    requires forall k :: k in t.proposed && Kept(before, t.snapshot, k) ==>
             k in t.before && t.proposed[k] == t.before[k]
    ensures SparesKept(before, t.before, t.snapshot, log, log')
  {
    forall k | k in t.before && Kept(before, t.snapshot, k) ensures Untouched(log, log', t.before[k]) {
      assert k in t.proposed;
      assert t.before[k] !in t.Touched();
    }
  }

  class AgentLifecycle {
    const store: Store.ConfigStore
    const runtime: Runtime
    var state: AgentState
    var active: Option<Snapshot>
    var durable: Option<nat>
    var closing: bool

    /** Database, published runtime, running runners and agent agree. */
    ghost predicate Valid()
      reads this, store, runtime, runtime.drivers
    {
      && store.Valid() && runtime.Quiet()
      && LoadActive(store.View()) == Done(active)
      && durable == Some(store.activeVersion)
      && Agree(active, runtime.snapshot)
    }

    /** Exactly the devices that the active configuration asks to poll have a runner; each runs, and was made
        to poll exactly what the active configuration says of its device. */
    ghost predicate Polling()
      reads this, runtime, runtime.drivers
    {
      && (forall k :: k in runtime.runners <==> active.Some? && Operates(active.value, k))
      && (forall k :: k in runtime.runners ==> runtime.runners[k] in runtime.drivers.running)
      && (active.Some? ==> Executes(runtime.programs, runtime.runners, active.value))
    }

    lemma ValidPolls()
      requires Valid()
      ensures Polling()
    {
      if active.Some? {
        forall k ensures Runs(runtime.snapshot.value, k) <==> Operates(runtime.snapshot.value, k) {
          RunsExactly(runtime.snapshot.value, k);
        }
        assert forall k :: Operates(active.value, k) <==> Operates(runtime.snapshot.value, k);
      }
      assert forall k :: k in runtime.runners ==> runtime.runners[k] in Values(runtime.runners);
      hide Runs, Operates, ProgramOf, Inv;
    }

    constructor (store: Store.ConfigStore, runtime: Runtime)
      requires store.Valid() && runtime.Quiet()
      ensures this.store == store && this.runtime == runtime && state == AgentState.New && !closing
    {
      this.store, this.runtime := store, runtime;
      state, active, durable, closing := AgentState.New, None, Some(0), false;
    }

    /** Out of trouble: stopping if asked to, else waiting for a first configuration, running one, or having
        one that is switched off. */
    ghost predicate InService()
      reads this
    {
      state == if closing then Stopping else if active.None? then WaitingConfig
               else if "enabled" in active.value.content.settings && active.value.content.settings["enabled"] == "true"
               then Running else Disabled
    }

    method Steady()
      requires state != AgentFailed
      modifies this`state
      ensures state != AgentFailed && InService()
    {
      if closing {
        state := Stopping;
      } else if active.None? {
        state := WaitingConfig;
      } else {
        state := if GatewayEnabled(active.value.content) then Running else Disabled;
      }
    }

    method Fatal()
      modifies this`state, runtime, runtime.drivers
      ensures state == AgentFailed
    {
      state := AgentFailed;
      var _ := runtime.Shutdown();
    }

    method Result(status: ApplyStatus, code: string, appliedVersion: Option<Version>) returns (r: ApplyResult)
      ensures r == ApplyResult(status, durable, code, appliedVersion)
    {
      r := ApplyResult(status, durable, code, appliedVersion);
    }

    // ---- Storage calls: they may fail without effect, or take effect and still report failure

    method CallPrepare(req: Request) returns (r: Outcome<PrepareResult>)
      requires store.Valid()
      modifies store
      ensures store.Valid()
      ensures LoadActive(store.View()) == LoadActive(old(store.View()))
              && store.activeVersion == old(store.activeVersion)
      ensures r.Done? ==> PreparedFrom(old(store.View()), req, store.View(), r.value)
    {
      var fault: bool, lost: bool, corrupt: bool := *, *, *;
      if corrupt { return Raised(FormatFault); }
      match req {
        case ConfigSet(parsed) =>
          SetPrepared(store.View(), store.limits, parsed);
          r := store.Prepare(parsed, fault);
        case ConfigPatch(payload, command, valid, size) =>
          ghost var t := store.View();
          PatchShape(t, store.limits, payload, command, valid, size);
          r := store.PreparePatch(payload, command, valid, size, fault);
          if r.Done? { PatchPrepared(t, payload, command, valid, size, store.View(), r.value); }
      }
      if lost { r := Raised(StorageFault); }
    }

    method CallCommit(token: Token, ghost snap: Snapshot) returns (r: Outcome<Snapshot>)
      requires store.Valid() && Waiting(store.View(), token, snap, active)
      modifies store
      ensures store.Valid()
      ensures store.View() == old(store.View()) || Landed(snap)
      ensures r.Done? ==> Landed(snap) && LoadActive(store.View()) == Done(Some(r.value))
    {
      var fault: bool, lost: bool := *, *;
      CommitWaiting(store.View(), token, snap, active);
      r := store.Commit(token, fault);
      if lost { r := Raised(StorageFault); }
    }

    /** The candidate's version and content are the active configuration in the store. */
    ghost predicate Landed(snap: Snapshot)
      reads store
    {
      && store.activeVersion == snap.version
      && LoadActive(store.View()).Done? && LoadActive(store.View()).value.Some?
      && LoadActive(store.View()).value.value.version == snap.version
      && LoadActive(store.View()).value.value.content == snap.content
    }

    method CallFail(token: Token, ghost snap: Snapshot) returns (r: Outcome<()>)
      requires store.Valid() && Waiting(store.View(), token, snap, active)
      modifies store
      ensures store.Valid() && LoadActive(store.View()) == Done(active)
              && store.activeVersion == old(store.activeVersion)
    {
      var fault: bool, lost: bool := *, *;
      FailKeepsActive(store.View(), token, snap, active);
      r := store.Fail(token, fault);
      if lost { r := Raised(StorageFault); }
    }

    method CallLoadActive() returns (r: Outcome<Option<Snapshot>>)
      requires store.Valid()
      ensures r.Done? ==> r == LoadActive(store.View())
    {
      var fault: bool := *;
      if fault { return Raised(StorageFault); }
      r := store.LoadActive();
    }

    /** Everything but the runners in transit is as Valid says, and the candidate waits in the store. */
    ghost predicate InTransition(t: Transition, token: Token)
      reads this, store, runtime, runtime.drivers, t
    {
      && runtime.InFlight(t)
      && store.Valid() && durable == Some(store.activeVersion)
      && Agree(active, runtime.snapshot)
      && Waiting(store.View(), token, t.snapshot, active)
    }

    // ---- Start, apply, restore

    /** Startup restores the committed configuration before anything is announced. */
    method Start(refused: set<string>, now: real) returns (ok: bool)
      requires state == AgentState.New && !closing && store.Valid() && runtime.Quiet() && runtime.snapshot == None
      modifies this, runtime, runtime.drivers
      ensures ok ==> Valid() && state != AgentFailed && runtime.snapshot == active && Polling() && InService()
      ensures !ok ==> state == AgentFailed
    {
      LoadedVersion(store.View());
      assert forall s: Option<Snapshot> :: Agree(s, s);
      hide Inv, LoadActive, Runs, Agree, Polling, InService;
      var loaded := CallLoadActive();
      if loaded.Raised? { Fatal(); return false; }
      durable := Some(if loaded.value.Some? then loaded.value.value.version else 0);
      if loaded.value.Some? {
        ok := Bring(loaded.value.value, refused, now);
        if !ok { Fatal(); return false; }
      }
      active := loaded.value;
      Steady();
      ValidPolls();
      ok := true;
    }

    method Bring(snapshot: Snapshot, refused: set<string>, now: real) returns (ok: bool)
      requires runtime.Quiet()
      modifies runtime, runtime.drivers
      ensures ok ==> runtime.Quiet() && runtime.snapshot == Some(snapshot)
    {
      var t := runtime.Prepare(snapshot, refused);
      if t == null { return false; }
      ok := t.Activate();
      if ok { runtime.Publish(t, now); }
    }

    /** Undo an activation whose commit did not happen. */
    method Restore(t: Transition, token: Token, code: string) returns (r: ApplyResult)
      requires state != AgentFailed && InTransition(t, token)
      modifies this`state, store, runtime, runtime.drivers
      ensures r.status == ApplyFailed
      ensures state != AgentFailed ==>
                && Valid() && runtime.snapshot == old(runtime.snapshot) && runtime.runners == old(runtime.runners)
                && store.activeVersion == old(store.activeVersion) && runtime.boot == old(runtime.boot)
                && OnlyTouches(old(runtime.drivers.log), runtime.drivers.log, t.Touched()) && InService()
    {
      hide Inv, Waiting, Agree, InService;
      var undone := runtime.Abandon(t);
      var failed := CallFail(token, t.snapshot);
      if !undone {
        Fatal();
        r := Result(ApplyFailed, "ROLLBACK_FAILED", None);
        return;
      }
      if failed.Raised? {
        Fatal();
        r := Result(ApplyFailed, "STORAGE_ERROR", None);
        return;
      }
      Steady();
      r := Result(ApplyFailed, code, None);
    }

    /** Commit; when the notification fails, ask the store what happened. `unknown` if it cannot say. */
    method TryCommit(token: Token, snapshot: Snapshot) returns (committed: Option<Snapshot>, unknown: bool)
      requires store.Valid() && Waiting(store.View(), token, snapshot, active)
      modifies store
      ensures store.Valid()
      ensures !unknown && committed.Some? ==>
                Landed(snapshot) && LoadActive(store.View()) == Done(committed)
      ensures !unknown && committed.None? ==> store.View() == old(store.View())
    {
      unknown := false;
      var done := CallCommit(token, snapshot);
      if done.Done? { return Some(done.value), false; }
      var loaded := CallLoadActive();
      if loaded.Raised? { return None, true; }
      committed := loaded.value;
      if committed.None? || committed.value.version != snapshot.version || committed.value.content != snapshot.content {
        if committed == active { return None, false; }
        // The source's UNEXPECTED_COMMITTED_VERSION: no other version can have been committed.
        assert false;
      }
    }

    /** Commit an activated transition and publish it, or undo it. */
    method CommitAndPublish(t: Transition, token: Token, patch: bool, now: real) returns (r: ApplyResult)
      requires state != AgentFailed && InTransition(t, token)
      requires t.activated && runtime.drivers.running == Values(t.proposed)
      requires runtime.Proposes(runtime.snapshot, runtime.runners, t.snapshot, t.proposed)
      modifies this, store, runtime, runtime.drivers
      ensures r.status == ApplyApplied ==>
                && state != AgentFailed && Valid() && r.active == Some(store.activeVersion)
                && runtime.snapshot == Some(t.snapshot) && runtime.runners == t.proposed
                && runtime.boot == Published(old(runtime.boot), t.snapshot, now)
      ensures state != AgentFailed ==> OnlyTouches(old(runtime.drivers.log), runtime.drivers.log, t.Touched())
      ensures r.status != ApplyApplied && state != AgentFailed ==>
                && Valid() && runtime.snapshot == old(runtime.snapshot) && runtime.runners == old(runtime.runners)
                && store.activeVersion == old(store.activeVersion) && active == old(active)
                && runtime.boot == old(runtime.boot)
      ensures state != AgentFailed ==> InService()
      ensures r.status == ApplyApplied || r.status == ApplyFailed
    {
      hide Inv, Waiting, InService, Published, Runs, Kept;
      var committed, unknown := TryCommit(token, t.snapshot);
      if unknown {
        durable := None;
        Fatal();
        r := Result(ApplyFailed, "COMMIT_OUTCOME_UNKNOWN", None);
        return;
      }
      if committed.None? {
        r := Restore(t, token, "STORAGE_ERROR");
        return;
      }
      durable := Some(committed.value.version);
      runtime.Publish(t, now);
      active := committed;
      Steady();
      r := Result(ApplyApplied, "", if patch then Some(committed.value.version) else None);
    }

    /** Everything but the runners' own calls that a candidate's apply guarantees. */
    method Transit(snapshot: Snapshot, token: Token, patch: bool, refused: set<string>, now: real)
      returns (r: ApplyResult)
      requires state != AgentFailed && Valid() && Waiting(store.View(), token, snapshot, active)
      modifies this, store, runtime, runtime.drivers
      ensures r.status == ApplyApplied ==>
                && state != AgentFailed && Valid() && r.active == Some(store.activeVersion)
                && runtime.snapshot == Some(snapshot)
                && runtime.Proposes(old(runtime.snapshot), old(runtime.runners), snapshot, runtime.runners)
                && runtime.boot == Published(old(runtime.boot), snapshot, now)
      ensures r.status != ApplyApplied && state != AgentFailed ==>
                && Valid() && runtime.snapshot == old(runtime.snapshot) && runtime.runners == old(runtime.runners)
                && store.activeVersion == old(store.activeVersion) && active == old(active)
                && runtime.boot == old(runtime.boot)
      ensures state != AgentFailed ==>
                SparesKept(old(runtime.snapshot), old(runtime.runners), snapshot, old(runtime.drivers.log),
                  runtime.drivers.log)
      // Refused before anything was touched, or failed in service or out of it, or applied.
      ensures state != AgentFailed ==> InService()
      ensures r.status == ApplyRejected ==> state != AgentFailed && runtime.drivers.log == old(runtime.drivers.log)
    {
      hide Inv, Waiting, Agree, InService;
      var t := runtime.Prepare(snapshot, refused);
      if t == null {
        var failed := CallFail(token, snapshot);
        if failed.Raised? {
          Fatal();
          r := Result(ApplyFailed, "STORAGE_ERROR", None);
          return;
        }
        Steady();
        r := Result(ApplyRejected, "PREFLIGHT_FAILED", None);
        return;
      }
      ghost var log1 := runtime.drivers.log;
      var ok := t.Activate();
      ghost var log2 := runtime.drivers.log;
      if ok {
        r := CommitAndPublish(t, token, patch, now);
      } else {
        r := Restore(t, token, "APPLY_FAILED");
      }
      if state != AgentFailed {
        TouchesTrans(log1, log2, runtime.drivers.log, t.Touched());
        KeptAreSpared(old(runtime.snapshot), t, log1, runtime.drivers.log);
      }
    }

    /** Nothing to activate: the call failed, the request is refused, or it has been applied before. */
    method Answer(prepared: Outcome<PrepareResult>) returns (r: ApplyResult)
      requires Valid() && state != AgentFailed && (prepared.Done? ==> prepared.value.status != StatusPrepared)
      requires prepared.Done? && prepared.value.status == StatusApplied ==>
                 prepared.value.active == store.activeVersion != 0
      modifies this`state, runtime, runtime.drivers
      ensures state != AgentFailed ==>
                && Valid() && runtime.snapshot == old(runtime.snapshot) && runtime.runners == old(runtime.runners)
                && runtime.drivers.running == old(runtime.drivers.running) && runtime.boot == old(runtime.boot)
                && runtime.drivers.log == old(runtime.drivers.log)
      ensures r.status == ApplyApplied ==> state != AgentFailed && active.Some? && r.active == durable
      ensures if prepared.Raised? then r == ApplyResult(ApplyFailed, durable, "STORAGE_ERROR", None)
              else if prepared.value.status == StatusRejected then r.status == ApplyRejected
              else r == ApplyResult(ApplyApplied, durable, "", prepared.value.appliedVersion)
      ensures state == AgentFailed <==> prepared == Raised(FormatFault)
      ensures state != AgentFailed ==> InService()
    {
      LoadedVersion(store.View());
      hide Inv, Agree, Runs, InService;
      if prepared.Raised? {
        if prepared.fault == FormatFault {
          Fatal();
        } else {
          Steady();
        }
        r := Result(ApplyFailed, "STORAGE_ERROR", None);
      } else if prepared.value.status == StatusRejected {
        Steady();
        r := Result(ApplyRejected, "REJECTED", None);
      } else {
        if active.None? || active.value.version != prepared.value.active {
          // The source's RUNTIME_VERSION_MISMATCH: startup has restored what the store holds.
          assert false;
        }
        Steady();
        r := Result(ApplyApplied, "", prepared.value.appliedVersion);
      }
    }

    method Apply(req: Request, refused: set<string>, now: real)
      returns (r: ApplyResult, ghost candidate: Option<Snapshot>)
      requires Valid() && state != AgentFailed
      modifies this, store, runtime, runtime.drivers
      // Applied: database, runtime and agent are on the same version and content.
      ensures r.status == ApplyApplied ==> state != AgentFailed
      ensures state != AgentFailed ==> Valid()
      ensures r.status == ApplyApplied ==>
                && active.Some? && r.active == Some(store.activeVersion)
                && store.activeVersion == active.value.version == runtime.snapshot.value.version
                && runtime.snapshot.value.content == active.value.content
                  == store.rows[active.value.version].snapshot.content
      // Not applied and still in service: everything is as before.
      ensures r.status != ApplyApplied && state != AgentFailed ==>
                && store.activeVersion == old(store.activeVersion) && active == old(active)
                && runtime.snapshot == old(runtime.snapshot) && runtime.runners == old(runtime.runners)
                && runtime.drivers.running == old(runtime.drivers.running) && runtime.boot == old(runtime.boot)
      // Runners whose execution key is unchanged are neither stopped nor started.
      ensures state != AgentFailed ==>
                if candidate.Some?
                then SparesKept(old(runtime.snapshot), old(runtime.runners), candidate.value, old(runtime.drivers.log),
                  runtime.drivers.log)
                else runtime.drivers.log == old(runtime.drivers.log)
      // What is applied is what the request stands for.
      ensures candidate.Some? ==> StandsFor(req, old(active), candidate.value)
      // What an applied candidate leaves running: kept runners where the key is unchanged, new ones elsewhere.
      ensures r.status == ApplyApplied && candidate.Some? ==>
                && runtime.snapshot == candidate
                && runtime.Proposes(old(runtime.snapshot), old(runtime.runners), candidate.value, runtime.runners)
                && runtime.boot == Published(old(runtime.boot), candidate.value, now)
      // A rejected command has touched no runner; and the agent is in service unless it has failed.
      ensures r.status == ApplyRejected ==> state != AgentFailed && runtime.drivers.log == old(runtime.drivers.log)
      ensures state != AgentFailed ==> InService()
      // Whatever the outcome, every device polls exactly what the active configuration says.
      ensures state != AgentFailed ==> Polling()
      // A device polled before and after in the same way keeps its runner, undisturbed, and no other does.
      ensures r.status == ApplyApplied && candidate.Some? ==>
                Serves(old(runtime.snapshot), old(runtime.runners), candidate.value, runtime.runners)
      ensures state != AgentFailed && candidate.Some? ==>
                forall k :: k in old(runtime.runners) && SamePolling(old(runtime.snapshot), candidate.value, k) ==>
                  Untouched(old(runtime.drivers.log), runtime.drivers.log, old(runtime.runners)[k])
    {
      LoadedVersion(store.View());
      candidate := None;
      state := if closing then Stopping else Applying;
      var prepared := CallPrepare(req);
      LoadedVersion(store.View());
      hide Inv, Waiting, StandsFor, SparesKept, Runs, Kept, Published, LoadActive, Polling, Serves, SamePolling,
        Operates,
        InService;
      if prepared.Raised? || prepared.value.status != StatusPrepared {
        r := Answer(prepared);
        if state != AgentFailed { ValidPolls(); }
        return;
      }
      var snapshot := if req.ConfigPatch? then prepared.value.snapshot.value else req.parsed.value;
      var token := prepared.value.token.value;
      candidate := Some(snapshot);
      r := Transit(snapshot, token, req.ConfigPatch?, refused, now);
      if state != AgentFailed {
        LoadedVersion(store.View());
        ValidPolls();
        SparesSame(old(runtime.snapshot), old(runtime.runners), snapshot, old(runtime.drivers.log),
          runtime.drivers.log);
      }
      if r.status == ApplyApplied {
        runtime.ProposesServes(old(runtime.snapshot), old(runtime.runners), snapshot, runtime.runners);
      }
    }
  }
}
