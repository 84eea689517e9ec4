/** Transactional ownership of device runners (src/plcnext_iot/devices/runtime.py). A driver call
    may fail at any point, leaving its own runner running or not; nothing else is assumed of it. */
module DeviceRuntime {
  import opened Common
  import opened ConfigPatch

  type RunnerId = nat

  datatype Action = Started(runner: RunnerId) | Stopped(runner: RunnerId)

  function Values(m: map<string, RunnerId>): set<RunnerId> {
    set k | k in m :: m[k]
  }

  /** Two maps that share runners only under the same device: without what only `b` has, `a`'s are left. */
  lemma OwnRunners(a: map<string, RunnerId>, b: map<string, RunnerId>)
    requires forall j, k :: j in a && k in b && a[j] == b[k] ==> j == k
    ensures Values(a) + Values(b) - (set k | k in b && !(k in a && a[k] == b[k]) :: b[k]) == Values(a)
    ensures Values(b) + Values(a) - (set k | k in b && !(k in a && a[k] == b[k]) :: b[k]) == Values(a)
  {
    var gone := set k | k in b && !(k in a && a[k] == b[k]) :: b[k];
    forall r | r in Values(a) ensures r !in gone {
      var k :| k in a && a[k] == r;
    }
    forall r | r in Values(b) && r !in gone ensures r in Values(a) {
      var k :| k in b && b[k] == r;
    }
    assert Values(a) + Values(b) - gone == Values(a);
    assert Values(b) + Values(a) == Values(a) + Values(b);
  }

  ghost predicate Injective(m: map<string, RunnerId>) {
    forall j, k :: j in m && k in m && m[j] == m[k] ==> j == k
  }

  // ---- Which devices run, and when a runner may be kept

  function EnabledPoints(points: seq<PointSettings>): seq<(string, string)> {
    if points == [] then []
    else (if points[0].enabled then [(points[0].pointId, points[0].acquisition)] else []) + EnabledPoints(points[1..])
  }

  datatype ExecutionKey = ExecutionKey(protocol: string, connection: string, points: seq<(string, string)>)

  /** Reporting settings, names and disabled points do not belong to the key. */
  function KeyOf(d: Device): ExecutionKey {
    ExecutionKey(d.protocol, d.connection, EnabledPoints(d.points))
  }

  predicate GatewayEnabled(content: Content) {
    "enabled" in content.settings && content.settings["enabled"] == "true"
  }

  predicate Runs(snap: Snapshot, k: string) {
    && k in snap.content.devices && GatewayEnabled(snap.content) && snap.content.devices[k].enabled
    && exists p :: p in snap.content.devices[k].points && p.enabled
  }

  /** The device runs before and after with the same execution key. */
  predicate Kept(before: Option<Snapshot>, after: Snapshot, k: string) {
    && before.Some? && Runs(before.value, k) && Runs(after, k)
    && KeyOf(before.value.content.devices[k]) == KeyOf(after.content.devices[k])
  }

  // ---- What a runner does

  datatype Poll = Poll(pointId: string, acquisition: string)

  /** What a runner is made with: how to reach the device, and what to poll there, in order. */
  datatype Program = Program(protocol: string, connection: string, polls: seq<Poll>)

  /** How many of the points are enabled. */
  function Enabled(points: seq<PointSettings>): nat {
    if points == [] then 0 else Enabled(points[..|points| - 1]) + if points[|points| - 1].enabled then 1 else 0
  }

  function Polls(points: seq<PointSettings>): seq<Poll> {
    if points == [] then []
    else
      var n := |points| - 1;
      Polls(points[..n]) + if points[n].enabled then [Poll(points[n].pointId, points[n].acquisition)] else []
  }

  /** One poll for each enabled point, in the order of the points, and no other. */
  lemma {:induction false} PollsExactly(points: seq<PointSettings>)
    ensures |Polls(points)| == Enabled(points)
    ensures forall i :: 0 <= i < |points| && points[i].enabled ==>
              Enabled(points[..i]) < |Polls(points)|
              && Polls(points)[Enabled(points[..i])] == Poll(points[i].pointId, points[i].acquisition)
  {
    if points != [] {
      var n := |points| - 1;
      PollsExactly(points[..n]);
      forall i | 0 <= i < |points| && points[i].enabled
        ensures Enabled(points[..i]) < |Polls(points)|
                && Polls(points)[Enabled(points[..i])] == Poll(points[i].pointId, points[i].acquisition)
      {
        if i < n { assert points[..n][..i] == points[..i] && points[..n][i] == points[i]; }
      }
    }
  }

  function ProgramOf(d: Device): Program { Program(d.protocol, d.connection, Polls(d.points)) }

  /** The device is polled under the snapshot: gateway and device are enabled, and there is something to poll. */
  predicate Operates(snap: Snapshot, k: string) {
    && k in snap.content.devices && "enabled" in snap.content.settings && snap.content.settings["enabled"] == "true"
    && snap.content.devices[k].enabled && Polls(snap.content.devices[k].points) != []
  }

  lemma {:induction false} SomePolls(points: seq<PointSettings>)
    ensures Polls(points) != [] <==> exists p :: p in points && p.enabled
  {
    if points != [] {
      var n := |points| - 1;
      SomePolls(points[..n]);
      assert forall p :: p in points <==> p in points[..n] || p == points[n];
    }
  }

  lemma RunsExactly(snap: Snapshot, k: string)
    ensures Runs(snap, k) <==> Operates(snap, k)
  {
    if k in snap.content.devices { SomePolls(snap.content.devices[k].points); }
  }

  lemma {:induction false} EnabledMore(points: seq<PointSettings>, p: PointSettings)
    ensures EnabledPoints(points + [p]) == EnabledPoints(points) + if p.enabled then [(p.pointId, p.acquisition)]
            else []
  {
    if points != [] {
      assert (points + [p])[1..] == points[1..] + [p];
      EnabledMore(points[1..], p);
    } else {
      assert points + [p] == [p] && [p][1..] == [];
    }
  }

  /** The points of a key are the polls of the program. */
  lemma {:induction false} KeyPoints(points: seq<PointSettings>)
    ensures |EnabledPoints(points)| == |Polls(points)|
    ensures forall i :: 0 <= i < |Polls(points)| ==>
              EnabledPoints(points)[i] == (Polls(points)[i].pointId, Polls(points)[i].acquisition)
  {
    if points != [] {
      var n := |points| - 1;
      KeyPoints(points[..n]);
      EnabledMore(points[..n], points[n]);
      assert points == points[..n] + [points[n]];
    }
  }

  /** Two devices have the same execution key exactly if their runners would do the same. */
  lemma KeyExactly(d: Device, d': Device)
    ensures KeyOf(d) == KeyOf(d') <==> ProgramOf(d) == ProgramOf(d')
  {
    KeyPoints(d.points);
    KeyPoints(d'.points);
    var p, p' := Polls(d.points), Polls(d'.points);
    if KeyOf(d) == KeyOf(d') {
      forall i | 0 <= i < |p| ensures p[i] == p'[i] {
        assert EnabledPoints(d.points)[i] == EnabledPoints(d'.points)[i];
      }
      assert p == p';
    } else if p == p' {
      assert EnabledPoints(d.points) == EnabledPoints(d'.points);
    }
  }

  /** The device is polled before and after, and in the same way. */
  predicate SamePolling(before: Option<Snapshot>, after: Snapshot, k: string) {
    && before.Some? && Operates(before.value, k) && Operates(after, k)
    && ProgramOf(before.value.content.devices[k]) == ProgramOf(after.content.devices[k])
  }

  lemma KeptExactly(before: Option<Snapshot>, after: Snapshot, k: string)
    ensures Kept(before, after, k) <==> SamePolling(before, after, k)
  {
    if before.Some? {
      RunsExactly(before.value, k);
      RunsExactly(after, k);
      if Operates(before.value, k) && Operates(after, k) {
        KeyExactly(before.value.content.devices[k], after.content.devices[k]);
      }
    }
    hide Runs, KeyOf, Operates, ProgramOf;
  }

  /** Each device's runner was made with the program the snapshot has for it. */
  ghost predicate Executes(programs: map<RunnerId, Program>, runners: map<string, RunnerId>, snap: Snapshot) {
    forall k :: k in runners ==>
      && runners[k] in programs && k in snap.content.devices
      && programs[runners[k]] == ProgramOf(snap.content.devices[k])
  }

  /** Runners have been made: what the others were made with stays, and all numbers lie below the next. */
  ghost predicate Made(programs: map<RunnerId, Program>, made: map<RunnerId, Program>, next: RunnerId) {
    && (forall r :: r in programs ==> r in made && made[r] == programs[r])
    && (forall r :: r in made ==> r < next)
  }

  /** A runner that is kept was made for just this. */
  lemma KeptExecutes(programs: map<RunnerId, Program>, made: map<RunnerId, Program>, next: RunnerId,
                     runners: map<string, RunnerId>, before: Snapshot, proposed: map<string, RunnerId>, snap: Snapshot,
                     key: string)
    requires Made(programs, made, next) && Executes(programs, runners, before) && Executes(made, proposed, snap)
    requires key in runners && key in before.content.devices && key in snap.content.devices
    requires KeyOf(before.content.devices[key]) == KeyOf(snap.content.devices[key])
    ensures Executes(made, proposed[key := runners[key]], snap)
  {
    KeyExactly(before.content.devices[key], snap.content.devices[key]);
    hide KeyOf, ProgramOf;
  }

  lemma NewExecutes(programs: map<RunnerId, Program>, made: map<RunnerId, Program>, next: RunnerId,
                    proposed: map<string, RunnerId>, snap: Snapshot, key: string)
    requires Made(programs, made, next) && Executes(made, proposed, snap) && key in snap.content.devices
    ensures var made' := made[next := ProgramOf(snap.content.devices[key])];
            Made(programs, made', next + 1) && Executes(made', proposed[key := next], snap)
  {
    hide ProgramOf;
  }

  lemma StillExecutes(programs: map<RunnerId, Program>, made: map<RunnerId, Program>, next: RunnerId,
                      runners: map<string, RunnerId>, before: Option<Snapshot>)
    requires Made(programs, made, next) && (before.Some? ==> Executes(programs, runners, before.value))
    ensures before.Some? ==> Executes(made, runners, before.value)
    ensures forall r :: r in made ==> r < next
  {
    hide ProgramOf;
  }

  /** What a proposal means for each device: it gets a runner exactly if it is to be polled, and keeps its
      present one exactly if it is polled already, in the same way. */
  ghost predicate Serves(before: Option<Snapshot>, old': map<string, RunnerId>, snap: Snapshot,
                         proposed: map<string, RunnerId>) {
    && (forall k :: k in proposed <==> Operates(snap, k))
    && (forall k :: k in proposed ==> (SamePolling(before, snap, k) <==> k in old' && proposed[k] == old'[k]))
  }

  /** The runners under way: what is running, and a record of every start and stop issued. */
  class Drivers {
    var running: set<RunnerId>
    ghost var log: seq<Action>

    constructor ()
      ensures running == {} && log == []
    {
      running, log := {}, [];
    }

    method Start(r: RunnerId) returns (ok: bool)
      modifies this
      ensures log == old(log) + [Started(r)]
      ensures running == old(running) + {r} || (!ok && running == old(running) - {r})
    {
      log := log + [Started(r)];
      ok := *;
      var up: bool := *;
      running := if ok || up then running + {r} else running - {r};
    }

    method Stop(r: RunnerId) returns (ok: bool)
      modifies this
      ensures log == old(log) + [Stopped(r)]
      ensures running == old(running) - {r} || (!ok && running == old(running) + {r})
    {
      log := log + [Stopped(r)];
      ok := *;
      var up: bool := *;
      running := if !ok && up then running + {r} else running - {r};
    }
  }

  /** The calls issued since `before` concern only these runners. */
  ghost predicate OnlyTouches(before: seq<Action>, after: seq<Action>, runners: set<RunnerId>) {
    before <= after && forall i :: |before| <= i < |after| ==> after[i].runner in runners
  }

  lemma TouchesOne(start: seq<Action>, log: seq<Action>, action: Action, runners: set<RunnerId>)
    requires OnlyTouches(start, log, runners) && action.runner in runners
    ensures OnlyTouches(start, log + [action], runners)
  {
  }

  /** Runners of `a` that `b` does not keep under the same device. */
  ghost function Without(a: map<string, RunnerId>, b: map<string, RunnerId>): set<RunnerId> {
    set k | k in a && !(k in b && b[k] == a[k]) :: a[k]
  }

  class Transition {
    const drivers: Drivers
    const snapshot: Snapshot
    const proposed: map<string, RunnerId>
    const before: map<string, RunnerId>
    var stopped: seq<RunnerId>
    var started: seq<RunnerId>
    var activated: bool

    constructor (drivers: Drivers, snapshot: Snapshot, proposed: map<string, RunnerId>, before: map<string, RunnerId>)
      ensures this.drivers == drivers && this.snapshot == snapshot && this.proposed == proposed && this.before == before
      ensures stopped == [] && started == [] && !activated
    {
      this.drivers, this.snapshot, this.proposed, this.before := drivers, snapshot, proposed, before;
      stopped, started, activated := [], [], false;
    }

    /** Runners are shared between the two maps only under the same device. */
    ghost predicate Shaped() {
      && Injective(proposed) && Injective(before)
      && forall j, k :: j in proposed && k in before && proposed[j] == before[k] ==> j == k
    }

    ghost function Touched(): set<RunnerId> {
      Without(before, proposed) + Without(proposed, before)
    }

    /** Only replaced runners were stopped and only new ones started; all others are as they were. */
    ghost predicate Undoable()
      reads this, drivers
    {
      && (forall r :: r in stopped ==> r in Without(before, proposed))
      && (forall r :: r in started ==> r in Without(proposed, before))
      && (forall r :: r !in stopped && r !in started ==> (r in drivers.running <==> r in Values(before)))
    }

    method StopReplaced() returns (ok: bool)
      requires Shaped() && stopped == [] && started == [] && drivers.running == Values(before)
      modifies this`stopped, drivers
      ensures Undoable() && OnlyTouches(old(drivers.log), drivers.log, Touched())
      ensures ok ==> drivers.running == Values(before) - Without(before, proposed)
    {
      assert OnlyTouches(drivers.log, drivers.log, Touched());
      hide OnlyTouches, Injective;
      ghost var gone: set<RunnerId> := {};
      var rest := before.Keys;
      while rest != {}
        invariant rest <= before.Keys && started == []
        invariant OnlyTouches(old(drivers.log), drivers.log, Touched())
        invariant gone <= Without(before, proposed) && drivers.running == Values(before) - gone
        invariant forall r :: r in stopped <==> r in gone
        invariant forall k :: k in before && k !in rest && Replaced(k) ==> before[k] in gone
        decreases |rest|
      {
        var key :| key in rest;
        rest := rest - {key};
        var runner := before[key];
        if !(key in proposed && proposed[key] == runner) {
          assert Replaced(key) && runner in Without(before, proposed);
          stopped := stopped + [runner];
          gone := gone + {runner};
          TouchesOne(old(drivers.log), drivers.log, Stopped(runner), Touched());
          var done := drivers.Stop(runner);
          if !done { return false; }
        }
      }
      ok := true;
    }

    ghost predicate Replaced(k: string)
      requires k in before
    {
      !(k in proposed && proposed[k] == before[k])
    }

    ghost predicate Introduced(k: string)
      requires k in proposed
    {
      !(k in before && before[k] == proposed[k])
    }

    lemma KeptAndIntroduced(fresh': set<RunnerId>)
      requires Shaped() && fresh' <= Without(proposed, before)
      requires forall k :: k in proposed && Introduced(k) ==> proposed[k] in fresh'
      ensures Values(before) - Without(before, proposed) + fresh' == Values(proposed)
    {
      var kept := Values(before) - Without(before, proposed);
      forall r | r in Values(proposed) ensures r in kept + fresh' {
        var k :| k in proposed && proposed[k] == r;
        if !Introduced(k) { assert before[k] == r; }
      }
      forall r | r in kept ensures r in Values(proposed) {
        var k :| k in before && before[k] == r;
        assert !Replaced(k);
      }
    }

    method StartIntroduced() returns (ok: bool)
      requires started == []
      modifies this`started, drivers
      ensures OnlyTouches(old(drivers.log), drivers.log, Touched())
      ensures forall r :: r in started ==> r in Without(proposed, before)
      ensures forall r :: r !in started ==> (r in drivers.running <==> r in old(drivers.running))
      ensures ok ==> forall r :: r in started ==> r in drivers.running
      ensures ok ==> forall k :: k in proposed && Introduced(k) ==> proposed[k] in started
    {
      ghost var fresh': set<RunnerId> := {};
      var rest := proposed.Keys;
      while rest != {}
        invariant rest <= proposed.Keys
        invariant OnlyTouches(old(drivers.log), drivers.log, Touched())
        invariant fresh' <= Without(proposed, before) && drivers.running == old(drivers.running) + fresh'
        invariant forall r :: r in started <==> r in fresh'
        invariant forall k :: k in proposed && k !in rest && Introduced(k) ==> proposed[k] in fresh'
        decreases |rest|
      {
        var key :| key in rest;
        rest := rest - {key};
        var runner := proposed[key];
        if !(key in before && before[key] == runner) {
          assert Introduced(key) && runner in Without(proposed, before);
          started := started + [runner];
          fresh' := fresh' + {runner};
          var done := drivers.Start(runner);
          if !done { return false; }
        }
      }
      ok := true;
    }

    method Activate() returns (ok: bool)
      requires Shaped() && stopped == [] && started == [] && !activated && drivers.running == Values(before)
      modifies this, drivers
      ensures Undoable() && OnlyTouches(old(drivers.log), drivers.log, Touched())
      ensures ok == activated
      ensures ok ==> drivers.running == Values(proposed)
    {
      ok := StopReplaced();
      if ok {
        ok := StartIntroduced();
        activated := ok;
        if ok { KeptAndIntroduced(set r | r in started); }
      }
    }

    /** Candidates are stopped first, in reverse; then every stopped runner is restarted. */
    method Rollback() returns (ok: bool)
      requires Shaped() && Undoable()
      modifies drivers
      ensures OnlyTouches(old(drivers.log), drivers.log, Touched())
      ensures ok ==> drivers.running == Values(before)
    {
      var i := |started|;
      while i > 0
        invariant 0 <= i <= |started|
        invariant OnlyTouches(old(drivers.log), drivers.log, Touched())
        invariant forall j :: i <= j < |started| ==> started[j] !in drivers.running
        invariant Undoable()
      {
        i := i - 1;
        var done := drivers.Stop(started[i]);
        if !done { return false; }
      }
      for n := 0 to |stopped|
        invariant OnlyTouches(old(drivers.log), drivers.log, Touched())
        invariant forall r :: r in started && r !in stopped ==> r !in drivers.running
        invariant forall j :: 0 <= j < n ==> stopped[j] in drivers.running
        invariant Undoable()
      {
        var done := drivers.Stop(stopped[n]);
        if !done { return false; }
        done := drivers.Start(stopped[n]);
        if !done { return false; }
      }
      ok := true;
    }
  }

  /** What samples are stamped with: how many snapshots the process has published, the latest, and when. */
  datatype Sampling = Sampling(generation: nat, snapshot: Option<Snapshot>, publishedAt: real)

  /** Publishing the snapshot that samples are already stamped with does not count again. */
  function Published(boot: Sampling, snap: Snapshot, now: real): Sampling {
    if boot.snapshot == Some(snap) then boot else Sampling(boot.generation + 1, Some(snap), now)
  }

  class Runtime {
    const drivers: Drivers
    /** The process's stamp outlives this runtime's snapshot; `generation` and `publishedAt` are the runtime's copy. */
    var boot: Sampling
    var generation: nat
    var publishedAt: real
    var runners: map<string, RunnerId>
    var managed: set<RunnerId>
    var pending: Transition?
    var snapshot: Option<Snapshot>
    var nextRunner: RunnerId
    /** What each runner was made with. */
    ghost var programs: map<RunnerId, Program>

    constructor (drivers: Drivers, boot: Sampling)
      requires drivers.running == {}
      ensures this.drivers == drivers && this.boot == boot && Quiet() && snapshot == None
    {
      this.drivers, this.boot, generation, publishedAt := drivers, boot, 0, 0.0;
      runners, managed, pending, snapshot, nextRunner := map[], {}, null, None, 0;
      programs := map[];
    }

    /** Samples of the published configuration carry the stamp under which the process published it. */
    ghost predicate Stamped()
      reads this
    {
      snapshot.Some? ==> boot.snapshot == snapshot && generation == boot.generation && publishedAt == boot.publishedAt
    }

    /** Each device of the published configuration is served by a runner made for just what it says. */
    ghost predicate Faithful()
      reads this
    {
      && (forall r :: r in programs ==> r < nextRunner)
      && (snapshot.Some? ==> Executes(programs, runners, snapshot.value))
    }

    /** No transition under way: exactly the published configuration's runners are running. */
    ghost predicate Quiet()
      reads this, drivers
    {
      && pending == null && Stamped() && Faithful()
      && Injective(runners) && managed == Values(runners) && drivers.running == Values(runners)
      && (forall r :: r in managed ==> r < nextRunner)
      && (forall k :: k in runners <==> snapshot.Some? && Runs(snapshot.value, k))
    }

    /** The proposed map keeps a runner exactly where the execution key is unchanged. */
    ghost predicate Proposes(before: Option<Snapshot>, old': map<string, RunnerId>, snap: Snapshot,
                             proposed: map<string, RunnerId>) {
      && (forall k :: k in proposed <==> Runs(snap, k))
      && (forall k :: k in proposed ==> (Kept(before, snap, k) <==> k in old' && proposed[k] == old'[k]))
    }

    lemma ProposesServes(before: Option<Snapshot>, old': map<string, RunnerId>, snap: Snapshot,
                         proposed: map<string, RunnerId>)
      requires Proposes(before, old', snap, proposed)
      ensures Serves(before, old', snap, proposed)
    {
      forall k ensures Runs(snap, k) <==> Operates(snap, k) { RunsExactly(snap, k); }
      forall k ensures Kept(before, snap, k) <==> SamePolling(before, snap, k) { KeptExactly(before, snap, k); }
      hide Runs, Kept, Operates, SamePolling;
    }

    /** A transition is prepared and nothing has been started or stopped yet. */
    ghost predicate Ready(t: Transition)
      reads this, t, drivers
    {
      && pending == t && t.drivers == drivers && t.before == runners && t.Shaped()
      && t.stopped == [] && t.started == [] && !t.activated
      && Proposes(snapshot, runners, t.snapshot, t.proposed)
      && managed == Values(runners) + Values(t.proposed)
    }

    /** A transition is under way, undoable, and what is published has not moved. */
    ghost predicate InFlight(t: Transition)
      reads this, t, drivers
    {
      && pending == t && t.drivers == drivers && t.before == runners && t.Shaped() && t.Undoable() && Stamped()
      && Faithful() && Executes(programs, t.proposed, t.snapshot)
      && managed == Values(runners) + Values(t.proposed)
      && (forall r :: r in managed ==> r < nextRunner)
      && (forall k :: k in runners <==> snapshot.Some? && Runs(snapshot.value, k))
    }

    /** Kept runners where the execution key is unchanged, new ones elsewhere; none if a factory refuses. */
    method Propose(snap: Snapshot, refused: set<string>)
      returns (ok: bool, proposed: map<string, RunnerId>, next: RunnerId, ghost made: map<RunnerId, Program>)
      requires Quiet()
      ensures nextRunner <= next
      ensures ok ==> forall k :: k in proposed <==> Runs(snap, k)
      ensures ok ==> forall k :: k in proposed ==> proposed[k] < next && Assigned(snap, k, proposed[k])
      ensures ok ==> Injective(proposed)
      ensures ok ==> Made(programs, made, next) && Executes(made, proposed, snap)
    {
      proposed, next, made := map[], nextRunner, programs;
      assert Made(programs, made, next) && Executes(made, proposed, snap);
      var rest := set k | k in snap.content.devices && Runs(snap, k);
      assert Proposing(snap, rest, proposed, next);
      assert forall k :: k in runners ==> snapshot.Some? && k in snapshot.value.content.devices;
      hide KeyOf, Executes, Made, ProgramOf, Proposing;
      while rest != {}
        invariant Proposing(snap, rest, proposed, next) && forall k :: k in rest ==> k in snap.content.devices
        invariant Made(programs, made, next) && Executes(made, proposed, snap)
        decreases |rest|
      {
        var key :| key in rest;
        if key in runners && KeyOf(snapshot.value.content.devices[key]) == KeyOf(snap.content.devices[key]) {
          ProposesKept(snap, rest, proposed, next, key);
          KeptExecutes(programs, made, next, runners, snapshot.value, proposed, snap, key);
          proposed := proposed[key := runners[key]];
        } else {
          if key in refused { return false, map[], next, made; }
          ProposesNew(snap, rest, proposed, next, key);
          NewExecutes(programs, made, next, proposed, snap, key);
          made := made[next := ProgramOf(snap.content.devices[key])];
          proposed := proposed[key := next];
          next := next + 1;
        }
        rest := rest - {key};
      }
      ProposesAll(snap, proposed, next);
      ok := true;
    }

    /** A proposal for all devices to be polled but those in `rest`. */
    ghost predicate Proposing(snap: Snapshot, rest: set<string>, proposed: map<string, RunnerId>, next: RunnerId)
      reads this
    {
      && (forall k :: k in rest || k in proposed <==> Runs(snap, k)) && rest !! proposed.Keys && nextRunner <= next
      && (forall k :: k in proposed ==> proposed[k] < next && Assigned(snap, k, proposed[k])) && Injective(proposed)
    }

    lemma ProposesKept(snap: Snapshot, rest: set<string>, proposed: map<string, RunnerId>, next: RunnerId, key: string)
      requires Quiet() && Proposing(snap, rest, proposed, next) && key in rest && key in runners
      requires key in snap.content.devices && snapshot.Some? && key in snapshot.value.content.devices
      requires KeyOf(snapshot.value.content.devices[key]) == KeyOf(snap.content.devices[key])
      ensures Proposing(snap, rest - {key}, proposed[key := runners[key]], next)
    {
      hide KeyOf;
      assert runners[key] in Values(runners);
      assert Kept(snapshot, snap, key);
      assert forall k :: k in proposed ==> proposed[k] != runners[key];
    }

    lemma ProposesNew(snap: Snapshot, rest: set<string>, proposed: map<string, RunnerId>, next: RunnerId, key: string)
      requires Quiet() && Proposing(snap, rest, proposed, next) && key in rest && key in snap.content.devices
      requires key in runners ==>
                 snapshot.Some? && key in snapshot.value.content.devices
                 && KeyOf(snapshot.value.content.devices[key]) != KeyOf(snap.content.devices[key])
      ensures Proposing(snap, rest - {key}, proposed[key := next], next + 1)
    {
      hide KeyOf;
      assert !Kept(snapshot, snap, key);
    }

    lemma ProposesAll(snap: Snapshot, proposed: map<string, RunnerId>, next: RunnerId)
      requires Proposing(snap, {}, proposed, next)
      ensures nextRunner <= next && Injective(proposed) && forall k :: k in proposed <==> Runs(snap, k)
      ensures forall k :: k in proposed ==> proposed[k] < next && Assigned(snap, k, proposed[k])
    {
      hide Runs;
    }

    ghost predicate Assigned(snap: Snapshot, k: string, r: RunnerId)
      reads this
    {
      if Kept(snapshot, snap, k) then k in runners && r == runners[k] else nextRunner <= r
    }

    lemma ProposalReady(snap: Snapshot, proposed: map<string, RunnerId>, next: RunnerId)
      requires Quiet() && nextRunner <= next && Injective(proposed) && forall k :: k in proposed <==> Runs(snap, k)
      requires forall k :: k in proposed ==> proposed[k] < next && Assigned(snap, k, proposed[k])
      ensures Proposes(snapshot, runners, snap, proposed) && Serves(snapshot, runners, snap, proposed)
      ensures forall j, k :: j in proposed && k in runners && proposed[j] == runners[k] ==> j == k
      ensures forall r :: r in managed + Values(proposed) ==> r < next
    {
      hide Runs, KeyOf, Executes, Serves;
      assert forall k :: k in runners ==> runners[k] in Values(runners);
      ProposesServes(snapshot, runners, snap, proposed);
    }

    /** A factory may refuse a device; then nothing changes. Runners it makes are new objects. */
    method Prepare(snap: Snapshot, refused: set<string>) returns (t: Transition?)
      requires Quiet()
      modifies this
      ensures snapshot == old(snapshot) && runners == old(runners) && boot == old(boot)
      ensures t == null ==> Quiet()
      ensures t != null ==> fresh(t) && t.snapshot == snap && Ready(t) && InFlight(t)
      ensures t != null ==> Serves(old(snapshot), old(runners), snap, t.proposed)
    {
      hide Runs, KeyOf, ProgramOf;
      var ok, proposed, next, made := Propose(snap, refused);
      if !ok { return null; }
      StillExecutes(programs, made, next, runners, snapshot);
      ProposalReady(snap, proposed, next);
      hide Executes, Assigned, Proposes, Kept, Serves;
      t := new Transition(drivers, snap, proposed, runners);
      nextRunner, programs := next, made;
      managed := managed + Values(proposed);
      pending := t;
    }

    /** Rolling a transition back forgets its candidates. */
    method Abandon(t: Transition) returns (ok: bool)
      requires InFlight(t)
      modifies this`managed, this`pending, drivers
      ensures OnlyTouches(old(drivers.log), drivers.log, t.Touched())
      ensures ok ==> Quiet()
    {
      hide Runs, Kept, Executes, OnlyTouches, Values;
      ok := t.Rollback();
      if ok { Forget(t); }
    }

    method Forget(t: Transition)
      requires t.Shaped() && t.before == runners && managed == Values(runners) + Values(t.proposed)
      modifies this`managed, this`pending
      ensures managed == Values(runners) && managed <= old(managed) && pending == null
    {
      OwnRunners(t.before, t.proposed);
      managed := managed - (set k | k in t.proposed
        && !(k in t.before && t.before[k] == t.proposed[k]) :: t.proposed[k]);
      pending := null;
    }

    /** A snapshot the process has not published last is stamped anew. */
    method Stamp(snap: Snapshot, now: real)
      requires Stamped()
      modifies this`boot, this`generation, this`publishedAt
      ensures boot == Published(old(boot), snap, now)
      ensures if old(boot).snapshot == Some(snap) then boot == old(boot)
              else boot.generation == old(boot).generation + 1 && boot.publishedAt == now
      ensures boot.snapshot == Some(snap) && generation == boot.generation && publishedAt == boot.publishedAt
    {
      if snapshot != Some(snap) {
        if boot.snapshot != Some(snap) { boot := Sampling(boot.generation + 1, Some(snap), now); }
        generation, publishedAt := boot.generation, boot.publishedAt;
      }
    }

    /** Synchronous: runners, published snapshot, stamp and bookkeeping change together. */
    method Publish(t: Transition, now: real)
      requires InFlight(t) && t.activated && drivers.running == Values(t.proposed)
      requires Proposes(snapshot, runners, t.snapshot, t.proposed)
      modifies this
      ensures Quiet() && snapshot == Some(t.snapshot) && runners == t.proposed
      ensures boot == Published(old(boot), t.snapshot, now)
      ensures if old(boot).snapshot == Some(t.snapshot) then boot == old(boot)
              else boot.generation == old(boot).generation + 1 && boot.publishedAt == now
    {
      hide Runs, Kept, Executes, ProgramOf, Published;
      OwnRunners(t.proposed, t.before);
      Stamp(t.snapshot, now);
      managed := managed - (set k | k in runners && !(k in t.proposed && t.proposed[k] == runners[k]) :: runners[k]);
      runners := t.proposed;
      snapshot := Some(t.snapshot);
      pending := null;
    }

    /** Stops everything it still manages; the maps are cleared only if every stop succeeded. What could not
        be stopped stays managed, and nothing else does. */
    method Shutdown() returns (ok: bool)
      modifies this, drivers
      ensures ok == (managed == {}) && managed <= old(managed) && boot == old(boot)
      ensures if ok then runners == map[] && pending == null && snapshot == None
              else runners == old(runners) && pending == old(pending) && snapshot == old(snapshot)
      ensures drivers.running - managed == old(drivers.running) - old(managed)
      ensures OnlyTouches(old(drivers.log), drivers.log, old(managed))
    {
      assert OnlyTouches(drivers.log, drivers.log, managed);
      hide OnlyTouches;
      var failures: set<RunnerId> := {};
      var rest := managed;
      while rest != {}
        invariant rest <= old(managed) && rest <= managed
        invariant managed == rest + failures && rest !! failures && managed <= old(managed) && boot == old(boot)
        invariant runners == old(runners) && pending == old(pending) && snapshot == old(snapshot)
        invariant OnlyTouches(old(drivers.log), drivers.log, old(managed))
        invariant drivers.running - managed == old(drivers.running) - old(managed)
        decreases |rest|
      {
        var r :| r in rest;
        rest := rest - {r};
        ghost var before := drivers.log;
        var done := drivers.Stop(r);
        TouchesOne(old(drivers.log), before, Stopped(r), old(managed));
        if done { managed := managed - {r}; } else { failures := failures + {r}; }
      }
      ok := failures == {};
      if ok {
        runners, pending, snapshot := map[], null, None;
      }
    }
  }
}
