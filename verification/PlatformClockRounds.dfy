/** What a round of synchronisation ends in, which answers count, and when a reading is valid, told from
    the measurements alone (src/plcnext_iot/core/platform_time.py:154-172, 227-348). */
module PlatformClockRounds {
  import opened Common
  import opened PlatformClock
  import opened PlatformClockRuns
  import Hub = PlatformClockSoundness

  // ---- Which candidate is adopted

  /** Moved to the same moment, no two candidates are more than half a second apart. */
  ghost predicate Agreeing(ks: seq<Candidate>, now: int) {
    forall i, j :: 0 <= i < |ks| && 0 <= j < |ks| ==>
      (ks[i].target + (now - ks[i].received) as real) - (ks[j].target + (now - ks[j].received) as real) <= 500.0
  }

  /** The estimate it stands for at the moment of adoption. */
  function Now(k: Candidate, cfg: Config, now: int): Candidate {
    k.(target := k.target + (now - k.received) as real, error := k.error + (now - k.received) as real * cfg.drift)
  }

  /** The first of those with the shortest path among the candidates that are quick, or among all. */
  ghost predicate Least(ks: seq<Candidate>, all: bool, k: Candidate) {
    exists i: nat :: LeastAt(ks, all, i) && ks[i] == k
  }

  ghost predicate LeastAt(ks: seq<Candidate>, all: bool, i: nat) {
    && i < |ks| && (all || ks[i].rtt <= 500)
    && forall j :: 0 <= j < |ks| && (all || ks[j].rtt <= 500) ==>
         ks[i].path <= ks[j].path && (j < i ==> ks[i].path < ks[j].path)
  }

  lemma LeastLater(ks: seq<Candidate>, all: bool, k: Candidate)
    requires ks != [] && Least(ks[1..], all, k) && (all || ks[0].rtt <= 500 ==> k.path < ks[0].path)
    ensures Least(ks, all, k)
  {
    var i: nat :| LeastAt(ks[1..], all, i) && ks[1..][i] == k;
    assert forall j :: 1 <= j < |ks| ==> ks[j] == ks[1..][j - 1];
    assert LeastAt(ks, all, i + 1) && ks[i + 1] == k;
  }

  lemma LeastFirst(ks: seq<Candidate>, all: bool)
    requires ks != [] && (all || ks[0].rtt <= 500)
    requires forall k :: k in ks[1..] && (all || k.rtt <= 500) ==> ks[0].path <= k.path
    ensures Least(ks, all, ks[0])
  {
    assert forall j :: 1 <= j < |ks| ==> ks[j] in ks[1..];
    assert LeastAt(ks, all, 0);
  }

  lemma LeastBounds(ks: seq<Candidate>, all: bool, k: Candidate)
    requires Least(ks, all, k)
    ensures forall j :: j in ks && (all || j.rtt <= 500) ==> k.path <= j.path
  {
  }

  lemma {:induction false} ShortestLeast(ks: seq<Candidate>)
    requires ks != []
    ensures Least(ks, true, Shortest(ks))
  {
    if |ks| > 1 {
      ShortestLeast(ks[1..]);
      var k := Shortest(ks[1..]);
      LeastBounds(ks[1..], true, k);
      if ks[0].path <= k.path { LeastFirst(ks, true); } else { LeastLater(ks, true, k); }
    } else {
      LeastFirst(ks, true);
    }
    hide Least;
  }

  lemma {:induction false} QuickExist(ks: seq<Candidate>)
    ensures Good(ks) != [] <==> exists k :: k in ks && k.rtt <= 500
  {
    if ks != [] { QuickExist(ks[1..]); }
  }

  lemma {:induction false} ShortestQuick(ks: seq<Candidate>)
    requires Good(ks) != []
    ensures Least(ks, false, Shortest(Good(ks)))
  {
    hide Least, Shortest;
    var rest := ks[1..];
    QuickExist(rest);
    if Good(rest) == [] {
      assert Good(ks) == [ks[0]];
      QuickOnly(ks[0]);
      LeastFirst(ks, false);
    } else {
      ShortestQuick(rest);
      var k := Shortest(Good(rest));
      LeastBounds(rest, false, k);
      if ks[0].rtt > 500 {
        assert Good(ks) == Good(rest);
        LeastLater(ks, false, k);
      } else {
        QuickHead(ks);
        if ks[0].path <= k.path { LeastFirst(ks, false); } else { LeastLater(ks, false, k); }
      }
    }
  }

  lemma QuickOnly(k: Candidate)
    ensures Shortest([k]) == k
  {
  }

  lemma QuickHead(ks: seq<Candidate>)
    requires ks != [] && ks[0].rtt <= 500 && Good(ks[1..]) != []
    ensures var k := Shortest(Good(ks[1..])); Shortest(Good(ks)) == if ks[0].path <= k.path then ks[0] else k
  {
    assert Good(ks) == [ks[0]] + Good(ks[1..]);
    assert Good(ks)[1..] == Good(ks[1..]);
  }

  ghost predicate AdoptsBest(c: Clock, cfg: Config, now: int, jitter: real, t: Try) {
    exists k :: Least(c.candidates, |c.candidates| >= 3, k) && t == AdoptCandidate(c, Now(k, cfg, now), now, jitter)
  }

  /** A round of three candidates adopts the first of the shortest paths, a smaller one the first of the
      shortest among its quick exchanges, carried forward to the moment with the drift added, if all agree;
      else it is given up. */
  lemma FinishExactly(c: Clock, cfg: Config, now: int, jitter: real)
    ensures var t := FinishRound(c, cfg, now, jitter);
            if Agreeing(c.candidates, now) && (|c.candidates| >= 3 || exists k :: k in c.candidates && k.rtt <= 500)
            then AdoptsBest(c, cfg, now, jitter, t) else t == Ok(GiveUp(c, now, jitter))
  {
    var ks := c.candidates;
    AgreeExactly(ks, now);
    QuickExist(ks);
    hide AdoptCandidate, GiveUp, Consistent, Agreeing, Good, Now, Carried;
    if Usable(ks) != [] && Consistent(ks, now) {
      if |ks| >= 3 { ShortestLeast(ks); } else { ShortestQuick(ks); }
      var k := Shortest(Usable(ks));
      NowExactly(k, cfg, now);
      hide Least, Shortest;
      assert Least(ks, |ks| >= 3, k)
        && FinishRound(c, cfg, now, jitter) == AdoptCandidate(c, Now(k, cfg, now), now, jitter);
    }
  }

  lemma NowExactly(k: Candidate, cfg: Config, now: int)
    ensures Now(k, cfg, now) == Carried(k, cfg, now)
  {
  }

  lemma AgreeExactly(ks: seq<Candidate>, now: int)
    ensures Agreeing(ks, now) <==> Consistent(ks, now)
  {
    assert forall i :: 0 <= i < |ks| ==> Aligned(ks[i], now) == ks[i].target + (now - ks[i].received) as real;
    hide Aligned;
  }

  // ---- What adoption does

  /** The estimate is more than a second away from the target. */
  predicate Far(c: Clock, target: real) {
    c.utc.Some? && (target - c.utc.value > 1000.0 || c.utc.value - target > 1000.0)
  }

  /** The target would rewrite history that is already stored. */
  predicate BelowFloor(c: Clock, target: real, error: real) {
    c.floor.Some? && target + error < c.floor.value as real
  }

  /** Where adopting a target leads: below the floor, or a confirmed step backwards, to maintenance; a first
      large deviation to suspicion, with the estimate kept; everything else to a synchronised clock. A clock
      that was trusted, suspected or under maintenance and has an estimate nearby slews to the target under
      the same revision; every other estimate is replaced, under a new one. */
  lemma AdoptExactly(c: Clock, target: real, error: real, now: int, single: bool, jitter: real)
    requires Adopt(c, target, error, now, single, jitter).Ok?
    ensures var c1, c' := Advance(c, now).clock, Adopt(c, target, error, now, single, jitter).clock;
            var far, low := Far(c1, target), BelowFloor(c1, target, error);
            && c'.state == (if low then Maintenance
                            else if far && !c1.suspectConfirm then Suspect
                            else if far && target + error < c1.utc.value then Maintenance
                            else Synced)
            && (c'.state != Synced ==> c'.utc == c1.utc && c'.residual == c1.residual && Closed(c'))
            && (c'.state == Synced ==> Adopted(c1, c', target, error, now, far))
  {
    var c1 := Advance(c, now).clock;
    AdvancedFrom(c, target, error, now, single, jitter);
    AcceptExactly(c1, target, error, now, single, jitter);
    if Far(c1, target) && !BelowFloor(c1, target, error) { DeviateExactly(c1, target, error, now, single, jitter); }
    hide Advance, Accept, Deviate, Adopt, Far, BelowFloor, Adopted;
  }

  lemma AcceptExactly(c: Clock, target: real, error: real, now: int, single: bool, jitter: real)
    ensures Accept(c, target, error, now, single, jitter).Ok? ==>
              var c' := Accept(c, target, error, now, single, jitter).clock;
              c'.state == Synced && Adopted(c, c', target, error, now, false)
  {
    hide ResyncDelay;
  }

  lemma DeviateExactly(c: Clock, target: real, error: real, now: int, single: bool, jitter: real)
    requires c.utc.Some? && Deviate(c, target, error, now, single, jitter).Ok?
    ensures var c' := Deviate(c, target, error, now, single, jitter).clock;
            && c'.state == (if !c.suspectConfirm then Suspect else if target + error < c.utc.value then Maintenance
                            else Synced)
            && (c'.state != Synced ==> c'.utc == c.utc && c'.residual == c.residual && Closed(c'))
            && (c'.state == Synced ==> Adopted(c, c', target, error, now, true))
  {
    hide ResyncDelay;
  }

  predicate Closed(c: Clock) { !c.sessionSynced && !c.heartbeat && !c.get }

  predicate Adopted(c: Clock, c': Clock, target: real, error: real, now: int, far: bool) {
    && c'.uncertainty == error && c'.syncMono == Some(now) && c'.sessionSynced == c'.session.Some?
    && if far || c.utc.None? || c.state in {Expired, Unsynced, Syncing}
       then c'.utc == Some(target) && c'.residual == 0.0 && c'.revision > c.revision
       else c'.utc == c.utc && c'.residual == target - c.utc.value && c'.revision == c.revision
            && c'.heartbeat == c.heartbeat && c'.get == c.get
  }

  lemma AdvancedFrom(c: Clock, target: real, error: real, now: int, single: bool, jitter: real)
    ensures Adopt(c, target, error, now, single, jitter).Ok? ==>
              var c1 := Advance(c, now).clock;
              Adopt(c, target, error, now, single, jitter)
              == if BelowFloor(c1, target, error) then Invalidate(c1, Maintenance)
                 else if Far(c1, target) then Deviate(c1, target, error, now, single, jitter)
                 else Accept(c1, target, error, now, single, jitter)
  {
    hide Advance, Invalidate, Deviate, Accept;
  }

  /** When the next round is due: soon after a round of fewer than three candidates, else in about five
      minutes. */
  lemma ResyncExactly(single: bool, jitter: real)
    ensures var wait := ResyncDelay(single, jitter);
            if single then wait == 10000 else 300000.0 * jitter - 0.5 <= wait as real <= 300000.0 * jitter + 0.5
  {
  }

  /** Five seconds after a first failure, then twice as long each time up to a minute. */
  function Wait(failures: nat): int {
    if failures <= 1 then 5000 else if failures == 2 then 10000 else if failures == 3 then 20000
    else if failures == 4 then 40000 else 60000
  }

  lemma GiveUpExactly(c: Clock, now: int, jitter: real)
    ensures var c' := GiveUp(c, now, jitter);
            var wait, due := c'.nextSync - now, Wait(c'.failures) as real * jitter;
            && c'.failures == (if c.failures < 5 then c.failures + 1 else 5)
            && wait <= 60000 && (if wait < 60000 then due - 0.5 <= wait as real <= due + 0.5 else due >= 59999.5)
            && c'.candidates == [] && c'.pending.None? && c'.roundStart.None?
            && c'.state == if c.utc.None? && c.state != Maintenance then Unsynced else c.state
  {
    var failures := if c.failures + 1 < 5 then c.failures + 1 else 5;
    assert Backoff(failures) == Wait(failures);
    RoundNear(Backoff(failures) as real * jitter);
    hide Round, Backoff;
  }

  lemma RoundNear(x: real)
    ensures x - 0.5 <= Round(x) as real <= x + 0.5
  {
  }

  // ---- Which answers count

  /** An answer is a measurement if it came within two seconds, was served within half a second, took no
      more than 50 ms less than no time on the way, and leaves its whole interval representable. */
  predicate Measures(q: Request, m: Response, now: int, target: real, error: real) {
    var rtt, processing := m.received - q.clientMono, m.hubSent - m.hubReceived;
    && 0 <= rtt < 2000 && 0 <= processing <= 500 && rtt - processing >= -50 && m.received <= now
    && 0.0 <= target - error && target + error <= 9007199254740991.0
  }

  /** The measurement: half the path on top of the hub's stamp, and what may be wrong about it. */
  function Measured(q: Request, m: Response, cfg: Config, now: int): Candidate {
    var rtt := m.received - q.clientMono;
    var path := rtt - (m.hubSent - m.hubReceived);
    var up, down := if path > 0 then path else 0, if path < 0 then -path else 0;
    Candidate(m.hubSent as real + up as real / 2.0, m.received, up, rtt,
              up as real / 2.0 + down as real + 22.0 + (now - m.received) as real * cfg.drift)
  }

  lemma MeasuredExactly(q: Request, m: Response, cfg: Config, now: int)
    ensures CandidateOf(q, m, cfg, now) == Measured(q, m, cfg, now)
  {
  }

  /** A response that is not the answer in flight is ignored, one that comes too late or measures nothing
      ends its request, and every other is a candidate; the third ends the round. */
  lemma ResponseExactly(c: Clock, cfg: Config, m: Response, now: int, jitter: real)
    ensures var t := TakeResponse(c, cfg, m, now, jitter);
            if m.retained || c.session != Some(m.session) || c.pending.None? || c.roundStart.None? then t == Ok(c)
            else
              var q := c.pending.value;
              if now >= c.roundStart.value + 30000 || now >= q.clientMono + 2000 then t == Ok(c.(pending := None))
              else if !m.wellFormed || m.id != q.id || m.session != q.session then t == Ok(c)
              else
                var k := Measured(q, m, cfg, now);
                if !Measures(q, m, now, k.target, k.error) then t == Ok(c.(pending := None))
                else
                  var c1 := c.(candidates := c.candidates + [k], pending := None);
                  t == if |c1.candidates| >= 3 then FinishRound(c1, cfg, now, jitter) else Ok(c1)
  {
    if c.pending.Some? { MeasuredExactly(c.pending.value, m, cfg, now); }
    hide FinishRound, CandidateOf, Measured;
  }

  // ---- When a request is made

  /** A request goes out only on platform time, in a session, not under maintenance, when one is due, never
      beside one of the same round less than two seconds old, and at most ten in the thirty seconds of a
      round. */
  lemma RequestOnly(c: Clock, cfg: Config, now: int, jitter: real, id: nat, system: Option<int>)
    requires Snapshot(c, cfg, now, system).Shot?
    ensures var c1, c' := Snapshot(c, cfg, now, system).clock, MakeRequest(c, cfg, now, jitter, id, system).clock;
            c'.pending.Some? && c'.pending != c1.pending ==>
              && cfg.platform && c1.session.Some? && c1.state != Maintenance && NewRequest(c', id, now)
              && (c1.pending.Some? ==>
                    now >= c1.pending.value.clientMono + 2000
                    || (c1.roundStart.Some? && now >= c1.roundStart.value + 30000))
  {
    var c1 := Snapshot(c, cfg, now, system).clock;
    hide Snapshot, FinishRound, Pursue, NewRequest;
    EndedPending(c1, cfg, now, jitter);
    PursueOnly(EndIfOver(c1, cfg, now, jitter).clock, cfg, now, jitter, id);
  }

  predicate NewRequest(c: Clock, id: nat, now: int) {
    && c.session.Some? && c.pending == Some(Request(id, c.session.value, now)) && c.nextSync <= now
    && 0 < c.attempts <= 10 && c.roundStart.Some? && now < c.roundStart.value + 30000
  }

  /** No request has been made; one in flight may have been dropped. */
  predicate NoneMade(c: Clock, c': Clock) {
    c'.session == c.session && (c'.pending.None? || c'.pending == c.pending)
  }

  lemma InvalidatePending(c: Clock, state: State)
    ensures NoneMade(c, Invalidate(c, state).clock)
  {
  }

  lemma AdoptPending(c: Clock, target: real, error: real, now: int, single: bool, jitter: real)
    ensures NoneMade(c, Adopt(c, target, error, now, single, jitter).clock)
  {
    var c1 := Advance(c, now);
    AdvancePending(c, now);
    InvalidatePending(c1.clock, Maintenance);
    AcceptPending(c1.clock, target, error, now, single, jitter);
    if c1.clock.utc.Some? { DeviatePending(c1.clock, target, error, now, single, jitter); }
    hide Advance, Invalidate, Accept, Deviate, Abs;
  }

  lemma AdvancePending(c: Clock, now: int)
    ensures NoneMade(c, Advance(c, now).clock)
  {
    InvalidatePending(c, Maintenance);
    hide Invalidate, Correction, Elapsed;
  }

  lemma AcceptPending(c: Clock, target: real, error: real, now: int, single: bool, jitter: real)
    ensures Accept(c, target, error, now, single, jitter).clock.pending == c.pending
    ensures Accept(c, target, error, now, single, jitter).clock.session == c.session
  {
    hide ResyncDelay;
  }

  lemma DeviatePending(c: Clock, target: real, error: real, now: int, single: bool, jitter: real)
    requires c.utc.Some?
    ensures NoneMade(c, Deviate(c, target, error, now, single, jitter).clock)
  {
    var c1 := Invalidate(c, Suspect).clock;
    InvalidatePending(c, Suspect);
    InvalidatePending(c1, Maintenance);
    AcceptPending(Bump(c1).clock.(utc := None), target, error, now, single, jitter);
    hide Invalidate, Accept;
  }

  lemma EndedPending(c: Clock, cfg: Config, now: int, jitter: real)
    ensures NoneMade(c, FinishRound(c, cfg, now, jitter).clock)
  {
    if c.candidates != [] && Consistent(c.candidates, now) && Usable(c.candidates) != [] {
      var k := Carried(Shortest(Usable(c.candidates)), cfg, now);
      AdoptPending(c, k.target, k.error, now, |c.candidates| < 3, jitter);
    }
    hide Adopt, Consistent, Usable, Shortest, Carried, RetryDelay;
  }

  lemma AskOnly(c: Clock, cfg: Config, now: int, jitter: real, id: nat)
    ensures var c' := Ask(c, cfg, now, jitter, id).clock; NoneMade(c, c') || NewRequest(c', id, now)
  {
    EndedPending(OpenRound(c, now), cfg, now, jitter);
    hide FinishRound;
  }

  lemma PursueOnly(c: Clock, cfg: Config, now: int, jitter: real, id: nat)
    ensures var c' := Pursue(c, cfg, now, jitter, id).clock;
            NoneMade(c, c') || (NewRequest(c', id, now)
              && (c.pending.Some? ==> now >= c.pending.value.clientMono + 2000))
  {
    AskOnly(c, cfg, now, jitter, id);
    EndedPending(c.(pending := None), cfg, now, jitter);
    AskOnly(DropStale(c, cfg, now, jitter).clock, cfg, now, jitter, id);
    hide FinishRound, Ask, NewRequest;
  }

  /** A round is judged thirty seconds after its start, or once its tenth request is answered or two
      seconds old. */
  predicate ToBeJudged(c: Clock, now: int) {
    c.roundStart.Some? && (now >= c.roundStart.value + 30000
      || (c.attempts >= 10 && (c.pending.None? || now >= c.pending.value.clientMono + 2000)))
  }

  /** Outside a round nothing happens before one is due; then the first request of a new one is made. */
  predicate Begun(c: Clock, c': Clock, id: nat, now: int)
    requires c.session.Some?
  {
    if now < c.nextSync then c' == c
    else c' == c.(roundStart := Some(now), attempts := 1, candidates := [],
                  pending := Some(Request(id, c.session.value, now)),
                  state := if c.utc.None? then Syncing else c.state)
  }

  /** Within a round a request two seconds old is given up, and the next one is made when due. */
  predicate Continued(c: Clock, c': Clock, id: nat, now: int)
    requires c.session.Some?
  {
    if c.pending.Some? && now < c.pending.value.clientMono + 2000 then c' == c
    else if now < c.nextSync then c' == c.(pending := None)
    else c' == c.(pending := Some(Request(id, c.session.value, now)), attempts := c.attempts + 1)
  }

  /** What is judged: a request in flight counts for nothing, unless the round's time is up. */
  function Ended(c: Clock, now: int): Clock {
    if c.roundStart.Some? && now < c.roundStart.value + 30000 then c.(pending := None) else c
  }

  /** What asking does to the clock, once its reading is taken. */
  lemma RequestExactly(c: Clock, cfg: Config, now: int, jitter: real, id: nat, system: Option<int>)
    requires Inv(c) && Snapshot(c, cfg, now, system).Shot?
    ensures var c1, t := Snapshot(c, cfg, now, system).clock, MakeRequest(c, cfg, now, jitter, id, system);
            if !cfg.platform || c1.session.None? || c1.state == Maintenance then t == Ok(c1)
            else if ToBeJudged(c1, now) then
              var judged := FinishRound(Ended(c1, now), cfg, now, jitter);
              if judged.Raised? then t == judged
              else t.Ok? && judged.clock.session == c1.session && Begun(judged.clock, t.clock, id, now)
            else t.Ok? && if c1.roundStart.None? then Begun(c1, t.clock, id, now)
                          else Continued(c1, t.clock, id, now)
  {
    var c1 := Snapshot(c, cfg, now, system).clock;
    SnapshotGood(c, cfg, now, system);
    hide Snapshot, Begun, Continued, FinishRound, Pursue;
    if cfg.platform && c1.session.Some? && c1.state != Maintenance { PursueExactly(c1, cfg, now, jitter, id); }
    hide ToBeJudged, Ended, EndIfOver;
  }

  lemma PursueExactly(c: Clock, cfg: Config, now: int, jitter: real, id: nat)
    requires c.session.Some? && (c.roundStart.None? ==> c.pending.None?)
    ensures var start := EndIfOver(c, cfg, now, jitter);
            var t := if start.Raised? then start else Pursue(start.clock, cfg, now, jitter, id);
            if ToBeJudged(c, now) then
              var judged := FinishRound(Ended(c, now), cfg, now, jitter);
              if judged.Raised? then t == judged
              else t.Ok? && judged.clock.session == c.session && Begun(judged.clock, t.clock, id, now)
            else t.Ok? && if c.roundStart.None? then Begun(c, t.clock, id, now) else Continued(c, t.clock, id, now)
  {
    FinishCloses(c, cfg, now, jitter);
    FinishCloses(Ended(c, now), cfg, now, jitter);
    hide FinishRound, Ask, Begun, Continued;
    if ToBeJudged(c, now) {
      var judged := FinishRound(Ended(c, now), cfg, now, jitter);
      if judged.Ok? { AskExactly(judged.clock, cfg, now, jitter, id); }
      if !RoundOver(c, now) { assert Ended(c, now) == c.(pending := None); }
      else { assert c.pending.None? || Ended(c, now) == c; }
    } else if c.pending.Some? && now < c.pending.value.clientMono + 2000 {
      WaitExactly(c, id, now);
    } else {
      AskExactly(c.(pending := None), cfg, now, jitter, id);
      Resumed(c, cfg, now, jitter, id);
    }
  }

  lemma WaitExactly(c: Clock, id: nat, now: int)
    requires c.session.Some? && c.pending.Some? && now < c.pending.value.clientMono + 2000
    ensures Continued(c, c, id, now)
  {
  }

  /** Giving up a request in flight before asking changes nothing else. */
  lemma Resumed(c: Clock, cfg: Config, now: int, jitter: real, id: nat)
    requires c.session.Some? && (c.roundStart.None? ==> c.pending.None?) && !ToBeJudged(c, now)
    ensures Continued(c.(pending := None), Ask(c.(pending := None), cfg, now, jitter, id).clock, id, now)
         && c.roundStart.Some? && !(c.pending.Some? && now < c.pending.value.clientMono + 2000)
         ==> Continued(c, Ask(c.(pending := None), cfg, now, jitter, id).clock, id, now)
  {
    hide Ask;
  }

  lemma FinishCloses(c: Clock, cfg: Config, now: int, jitter: real)
    ensures var t := FinishRound(c, cfg, now, jitter);
            t.Ok? ==> t.clock.roundStart.None? && t.clock.pending.None? && t.clock.session == c.session
  {
    EndedPending(c, cfg, now, jitter);
    hide Adopt, Consistent, Usable, Shortest, Carried, RetryDelay;
  }

  lemma AskExactly(c: Clock, cfg: Config, now: int, jitter: real, id: nat)
    requires c.session.Some? && c.pending.None? && !(c.roundStart.Some? && RoundOver(c, now))
    ensures var t := Ask(c, cfg, now, jitter, id);
            t.Ok? && if c.roundStart.None? then Begun(c, t.clock, id, now) else Continued(c, t.clock, id, now)
  {
    hide FinishRound;
  }

  // ---- When a reading is valid

  /** How far an estimate that has been advanced may be off, in whole milliseconds. */
  function Off(c: Clock, cfg: Config, age: int): int {
    -((-Grown(c.uncertainty, age, cfg.drift, c.residual)).Floor)
  }

  /** The error at the last synchronisation, the drift since, and what is still to be slewed. */
  function Grown(error: real, age: int, drift: real, residual: real): real {
    error + age as real * drift + (if residual < 0.0 then -residual else residual)
  }

  lemma GrownExactly(error: real, age: int, drift: real, residual: real)
    ensures Widened(error, age, drift, residual) == Grown(error, age, drift, residual)
  {
  }

  lemma OffExactly(c: Clock, cfg: Config, now: int)
    requires c.syncMono.Some?
    ensures Error(c, cfg, now) == Some(Off(c, cfg, if now > c.syncMono.value then now - c.syncMono.value else 0))
  {
    GrownExactly(c.uncertainty, Age(c, now).value, cfg.drift, c.residual);
    hide Widened, Grown;
  }

  /** A reading is valid exactly if the monotonic clock has not run back, trust is there, the last
      synchronisation is less than an hour old, and the estimate is off by less than a second and
      representable with all its error; it then is the estimate rounded down. */
  lemma ValidExactly(c: Clock, cfg: Config, now: int, system: Option<int>)
    requires Inv(c) && Snapshot(c, cfg, now, system).Shot?
    ensures var r, c1 := Snapshot(c, cfg, now, system).reading, Slew(c, now);
            if !cfg.platform || (c.state != Synced && c.state != Holdover) || now < c.lastObserved then !r.valid
            else
              var age := if now > c.syncMono.value then now - c.syncMono.value else 0;
              var off := Off(c1, cfg, age);
              && (r.valid <==> age < 3600000 && off < 1000 && 0.0 <= c1.utc.value - off as real
                               && c1.utc.value + off as real <= 9007199254740991.0)
              && (r.valid ==> r.utc == Some(c1.utc.value.Floor) && r.error == Some(off) && r.age == Some(age))
  {
    if Trusted(c.state) && c.lastObserved <= now { OffExactly(Slew(c, now), cfg, now); }
    hide Error, Off, Correction, Elapsed;
  }

  /** Synchronised means: valid, in a session that has synchronised; holding over: valid, but not so; and a
      trusted clock that is not valid any more has expired. */
  lemma StateExactly(c: Clock, cfg: Config, now: int, system: Option<int>)
    requires Inv(c) && Snapshot(c, cfg, now, system).Shot? && cfg.platform && c.lastObserved <= now
    ensures var r, c' := Snapshot(c, cfg, now, system).reading, Snapshot(c, cfg, now, system).clock;
            && r.state == c'.state
            && if r.valid then c'.state == (if c'.sessionSynced then Synced else Holdover) && c'.revision == c.revision
               else if c.state == Synced || c.state == Holdover
               then c'.state == Expired && c'.revision == c.revision + 1 && Closed(c')
               else c'.state == c.state && c'.revision == c.revision
  {
    hide Error, Age, Correction, Elapsed;
  }

  /** In every honest run a valid reading is less than a second from true hub time, and no older than an hour. */
  lemma WithinSecond(hub: real -> real, cfg: Config, start: int, ops: seq<Op>, now: int, system: Option<int>, at: real)
    requires Hub.HubClock(hub, Drift(cfg)) && Hub.HonestRun(hub, cfg, Initial(start), ops, start)
    requires Hub.LatestOf(ops, start) <= now && now as real <= at < (now + 1) as real
    requires Snapshot(Run(Initial(start), cfg, ops), cfg, now, system).Shot?
    ensures var r := Snapshot(Run(Initial(start), cfg, ops), cfg, now, system).reading;
            r.valid ==> r.utc.Some? && -1000.0 < hub(at) - r.utc.value as real < 1000.0
                        && r.age.Some? && r.age.value < 3600000
  {
    Hub.ClockIntervalSound(hub, cfg, start, ops, now, system, at);
    RunGood(Initial(start), cfg, ops);
    ValidExactly(Run(Initial(start), cfg, ops), cfg, now, system);
    hide Snapshot, Run, Off, Slew, Hub.HonestRun, Hub.HubClock;
  }

  // ---- When a session is synchronised, and what a stored boundary does

  /** A session that is synchronised was so already, over the same connection, or a round has been adopted in
      it at this moment. */
  ghost predicate SyncedBy(c: Clock, c': Clock, now: int) {
    && (c'.syncMono == c.syncMono || c'.syncMono == Some(now))
    && (c'.connection == c.connection ==> c'.session == c.session)
    && (c'.sessionSynced ==>
          || (c.sessionSynced && c'.connection == c.connection)
          || (c'.session.Some? && c'.syncMono == Some(now)))
  }

  lemma SyncedTrans(a: Clock, b: Clock, c: Clock, now: int)
    requires SyncedBy(a, b, now) && SyncedBy(b, c, now)
    requires a.connection <= b.connection <= c.connection
    ensures SyncedBy(a, c, now)
  {
  }

  /** What neither synchronises a session nor carries it over to another connection. */
  ghost predicate StillSynced(c: Clock, c': Clock) {
    && c'.syncMono == c.syncMono && (c'.connection == c.connection ==> c'.session == c.session)
    && (c'.sessionSynced ==> c.sessionSynced && c'.connection == c.connection)
  }

  lemma InvalidateSynced(c: Clock, state: State)
    ensures StillSynced(c, Invalidate(c, state).clock) && Invalidate(c, state).clock.connection == c.connection
  {
  }

  lemma AdvanceSynced(c: Clock, now: int)
    ensures StillSynced(c, Advance(c, now).clock) && Advance(c, now).clock.connection == c.connection
  {
    hide Correction, Elapsed;
    InvalidateSynced(c, Maintenance);
    hide Invalidate;
  }

  lemma SnapshotSynced(c: Clock, cfg: Config, now: int, system: Option<int>)
    ensures StillSynced(c, Snapshot(c, cfg, now, system).clock)
  {
    AdvanceSynced(c, now);
    InvalidateSynced(Advance(c, now).clock, Expired);
    hide Valid, Advance, Invalidate;
  }

  lemma AcceptSynced(c: Clock, target: real, error: real, now: int, single: bool, jitter: real)
    ensures SyncedBy(c, Accept(c, target, error, now, single, jitter).clock, now)
  {
    hide ResyncDelay;
  }

  lemma DeviateSynced(c: Clock, target: real, error: real, now: int, single: bool, jitter: real)
    requires c.utc.Some?
    ensures SyncedBy(c, Deviate(c, target, error, now, single, jitter).clock, now)
  {
    var c1 := Invalidate(c, Suspect).clock;
    InvalidateSynced(c, Suspect);
    InvalidateSynced(c1, Maintenance);
    AcceptSynced(Bump(c1).clock.(utc := None), target, error, now, single, jitter);
    hide Accept, Invalidate;
  }

  lemma AdoptSynced(c: Clock, target: real, error: real, now: int, single: bool, jitter: real)
    ensures SyncedBy(c, Adopt(c, target, error, now, single, jitter).clock, now)
  {
    var c1 := Advance(c, now).clock;
    hide Accept, Deviate, Invalidate, Abs, Slew;
    AdvanceSynced(c, now);
    InvalidateSynced(c1, Maintenance);
    AcceptSynced(c1, target, error, now, single, jitter);
    if c1.utc.Some? { DeviateSynced(c1, target, error, now, single, jitter); }
    hide Advance;
  }

  lemma FinishSynced(c: Clock, cfg: Config, now: int, jitter: real)
    ensures SyncedBy(c, FinishRound(c, cfg, now, jitter).clock, now)
  {
    if c.candidates != [] && Consistent(c.candidates, now) && Usable(c.candidates) != [] {
      var k := Carried(Shortest(Usable(c.candidates)), cfg, now);
      AdoptSynced(c, k.target, k.error, now, |c.candidates| < 3, jitter);
    }
    hide Adopt, Consistent, Usable, Shortest, Carried, RetryDelay;
  }

  lemma AskSynced(c: Clock, cfg: Config, now: int, jitter: real, id: nat)
    ensures SyncedBy(c, Ask(c, cfg, now, jitter, id).clock, now)
  {
    FinishSynced(OpenRound(c, now), cfg, now, jitter);
    hide FinishRound;
  }

  lemma DropSynced(c: Clock, cfg: Config, now: int, jitter: real)
    ensures SyncedBy(c, DropStale(c, cfg, now, jitter).clock, now)
  {
    FinishSynced(c.(pending := None), cfg, now, jitter);
    hide FinishRound;
  }

  /** Requests and answers synchronise a session only by adopting a round at that moment. */
  lemma RequestSynced(c: Clock, cfg: Config, now: int, jitter: real, id: nat, system: Option<int>)
    requires Inv(c)
    ensures SyncedBy(c, MakeRequest(c, cfg, now, jitter, id, system).clock, now)
  {
    var c1 := Snapshot(c, cfg, now, system).clock;
    var c2 := EndIfOver(c1, cfg, now, jitter).clock;
    var c3 := DropStale(c2, cfg, now, jitter).clock;
    SnapshotSynced(c, cfg, now, system);
    SnapshotGood(c, cfg, now, system);
    FinishSynced(c1, cfg, now, jitter);
    FinishRoundGood(c1, cfg, now, jitter);
    DropSynced(c2, cfg, now, jitter);
    DropGood(c2, cfg, now, jitter);
    AskSynced(c2, cfg, now, jitter, id);
    AskGood(c2, cfg, now, jitter, id);
    AskSynced(c3, cfg, now, jitter, id);
    AskGood(c3, cfg, now, jitter, id);
    assert SyncedBy(c, c1, now) && SyncedBy(c1, c2, now);
    hide Snapshot, FinishRound, DropStale, Ask, EndIfOver, SyncedBy, Inv;
    SyncedTrans(c, c1, c2, now);
    SyncedTrans(c, c2, c3, now);
    SyncedTrans(c, c2, Ask(c2, cfg, now, jitter, id).clock, now);
    SyncedTrans(c, c3, Ask(c3, cfg, now, jitter, id).clock, now);
  }

  lemma DropGood(c: Clock, cfg: Config, now: int, jitter: real)
    requires Inv(c)
    ensures Follows(c, DropStale(c, cfg, now, jitter).clock)
  {
    FinishRoundGood(c.(pending := None), cfg, now, jitter);
    LaterTrans(c, c.(pending := None), FinishRound(c.(pending := None), cfg, now, jitter).clock);
    hide FinishRound;
  }

  lemma ResponseSynced(c: Clock, cfg: Config, m: Response, now: int, jitter: real)
    ensures SyncedBy(c, TakeResponse(c, cfg, m, now, jitter).clock, now)
  {
    ResponseExactly(c, cfg, m, now, jitter);
    if c.pending.Some? {
      FinishSynced(c.(candidates := c.candidates + [Measured(c.pending.value, m, cfg, now)], pending := None), cfg, now,
                   jitter);
    }
    hide FinishRound, TakeResponse, Measured, Measures;
  }

  /** A new connection on platform time starts unsynchronised, with its gates closed and its round forgotten;
      without platform time it needs no synchronisation. */
  lemma ConnectExactly(c: Clock, cfg: Config, session: string)
    ensures var t := Connect(c, cfg, session);
            if c.connection >= 9007199254740991 then t == Raised(c)
            else && t.Ok? && t.clock.connection == c.connection + 1 && t.clock.revision == c.revision
                 && t.clock.session == Some(session) && t.clock.sessionSynced == !cfg.platform
                 && !t.clock.heartbeat && !t.clock.get && t.clock.pending.None? && t.clock.roundStart.None?
                 && t.clock.candidates == [] && t.clock.state == c.state && t.clock.utc == c.utc
  {
  }

  /** The floor only rises, and a clock that may be below it goes under maintenance. */
  lemma BoundaryExactly(c: Clock, cfg: Config, basis: string, lower: Option<int>)
    requires LoadBoundary(c, cfg, basis, lower).Ok?
    ensures var c' := LoadBoundary(c, cfg, basis, lower).clock;
            var old' := if c.floor.Some? then c.floor.value else 0;
            && (lower.None? ==> c' == c)
            && (lower.Some? && basis != cfg.basis ==> c'.state == Maintenance && Closed(c') && c'.floor == c.floor)
            && (lower.Some? && basis == cfg.basis ==>
                  && c'.floor == Some(if old' < lower.value then lower.value else old')
                  && if c.utc.Some? && c.utc.value + c.uncertainty < c'.floor.value as real
                     then c'.state == Maintenance && Closed(c') else c' == c.(floor := c'.floor))
  {
  }

  // ---- Giving up trust, and a clock that runs back

  /** Leaving trust or synchronisation costs a revision, of which there must be one; every gate closes, and a
      new round may begin at once. */
  lemma InvalidateExactly(c: Clock, state: State)
    ensures var t := Invalidate(c, state);
            var leaves := c.state == Synced || c.state == Holdover || c.state == Syncing;
            if leaves && (c.revision >= 9007199254740991 || c.connection >= 9007199254740991) then t == Raised(c)
            else && t.Ok? && t.clock.state == state && Closed(t.clock) && t.clock.pending.None? && t.clock.nextSync == 0
                 && t.clock.revision == (if leaves then c.revision + 1 else c.revision)
                 && t.clock.utc == c.utc && t.clock.residual == c.residual && t.clock.connection == c.connection
                 && t.clock.session == c.session
  {
  }

  /** A monotonic clock that runs back ends in maintenance without an estimate; else the estimate is slewed. */
  lemma AdvanceExactly(c: Clock, now: int)
    requires Advance(c, now).Ok?
    ensures var c' := Advance(c, now).clock;
            && c'.lastObserved == now && c'.lastMono == now
            && if now < c.lastObserved then c'.state == Maintenance && Closed(c') && c'.utc.None?
               else c' == Slew(c, now)
  {
    hide Correction, Elapsed;
  }
}
