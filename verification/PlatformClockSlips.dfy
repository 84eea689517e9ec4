/** What follows from the window in which a heartbeat is marked although time has run out: once the clock
    is synchronised again, that mark opens the gates, and telemetry is sent although trust was lost since
    the only heartbeat (src/plcnext_iot/core/platform_time.py:201-215). The run is given step by step. */
module PlatformClockSlips {
  import opened Common
  import opened PlatformClock
  import opened PlatformClockRuns
  import opened PlatformClockGates
  import opened PlatformClockGrants

  const Again := Candidate(3605000.0, 3600000, 0, 0, 22.0)

  /** Time has run out while a heartbeat was being marked. */
  function Slipped(): Clock {
    Clock(2, 1, Some("s"), false, true, false, Expired, Some(3605000.0), 3600000, Some(0), 22.0, 0.0, None, 3600000,
      None,
          None, 3, [], 0, 0, false)
  }

  /** A new round of synchronisation is under way. */
  function Resyncing(candidates: seq<Candidate>, attempts: nat, pending: Option<Request>): Clock {
    Slipped().(pending := pending, roundStart := Some(3600000), attempts := attempts, candidates := candidates)
  }

  /** It has been adopted; the heartbeat's mark is still there. */
  function Resynced(get: bool): Clock {
    Clock(3, 1, Some("s"), true, true, get, Synced, Some(3605000.0), 3600000, Some(3600000), 22.0, 0.0, None, 3600000,
          None, None, 3, [], 3900000, 0, false)
  }

  function Heartbeat(cfg: Config): Op {
    ControlOp(HeartbeatSent, Some(Token(cfg.boot, 1, 1, 3599999)), 3599999, 3600000, None)
  }

  function AskingAgain(id: nat): Op { RequestOp(3600000, 1.0, id, None) }

  function AnsweringAgain(id: nat): Op {
    ResponseOp(Response(id, "s", false, true, 3605000, 3605000, 3600000), 3600000, 1.0)
  }

  function Getting(cfg: Config): Op {
    ControlOp(GetSent, Some(Token(cfg.boot, 3, 1, 3600000)), 3600000, 3600000, None)
  }

  // ---- Step by step

  /** The second reading of a granted heartbeat expires, and the mark is set nevertheless. */
  lemma MarksExpired(c: Clock, cfg: Config, now: int)
    requires cfg.platform && cfg.drift == 0.0 && AlmostExpired(c, now) && c.pending.None?
    ensures ControlSubmitted(c, cfg, HeartbeatSent, Some(Token(cfg.boot, c.revision, c.connection, now)), now, now + 1,
            None)
         == c.(revision := c.revision + 1, state := Expired, sessionSynced := false, heartbeat := true, get := false,
               nextSync := 0, lastObserved := now + 1, lastMono := now + 1, utc := Some(c.utc.value + 1.0))
  {
    IdleReading(c, cfg, now);
    FirstIsValid(c, cfg, now);
    IdleSlew(c, now + 1);
    ExpiredReading(c, cfg, now + 1);
    GrantedExactly(c, cfg, Some(Token(cfg.boot, c.revision, c.connection, now)), ControlSend, now, now + 1, None);
    hide Snapshot, Accepts;
  }

  lemma FirstIsValid(c: Clock, cfg: Config, now: int)
    requires cfg.platform && cfg.drift == 0.0 && AlmostExpired(c, now)
    ensures var first := Snapshot(c, cfg, now, None);
            first.Shot? && first.clock == c && first.reading.valid && first.reading.mono == now
  {
    IdleSlew(c, now);
    var c1 := Slew(c, now);
    assert c1 == c && Uncertainty(c1, cfg, now) == 22.0;
    assert Valid(c1, cfg, now);
  }

  lemma ExpiredReading(c: Clock, cfg: Config, later: int)
    requires cfg.platform && Trusted(c.state) && c.lastObserved <= later && c.revision < MAX_SAFE
             && c.connection < MAX_SAFE
    requires c.syncMono.Some? && later - c.syncMono.value >= 3600000
    ensures Snapshot(c, cfg, later, None).Shot?
    ensures Snapshot(c, cfg, later, None).clock
         == Slew(c, later).(revision := c.revision + 1, state := Expired, sessionSynced := false, heartbeat := false,
                            get := false, pending := None, nextSync := 0)
  {
    assert !Valid(Slew(c, later), cfg, later) by { assert Age(Slew(c, later), later).value >= 3600000; }
    hide Valid, Correction, Elapsed, ReadingOf;
  }

  lemma SlipStep(cfg: Config)
    requires cfg.platform && cfg.drift == 0.0
    ensures Step(Adopted(3599999), cfg, Heartbeat(cfg)) == Slipped()
  {
    AlmostExpiredReached(cfg);
    MarksExpired(Adopted(3599999), cfg, 3599999);
    hide ControlSubmitted, AlmostExpired;
  }

  /** Reading a clock that is not trusted, at the moment it was last read, changes nothing. */
  lemma StillReading(c: Clock, cfg: Config, now: int, system: Option<int>)
    requires c.lastMono == c.lastObserved == now && c.residual == 0.0 && !Trusted(c.state)
    ensures Snapshot(c, cfg, now, system).Shot? && Snapshot(c, cfg, now, system).clock == c
  {
    if c.utc.Some? { IdleSlew(c, now); }
    hide Error, Correction, Elapsed;
  }

  lemma AskAgain(cfg: Config, candidates: seq<Candidate>, n: nat, id: nat)
    requires cfg.platform && n < 10
    ensures Step(Resyncing(candidates, n, None), cfg, AskingAgain(id))
         == Resyncing(candidates, n + 1, Some(Request(id, "s", 3600000)))
  {
    StillReading(Resyncing(candidates, n, None), cfg, 3600000, None);
    hide Snapshot, FinishRound;
  }

  lemma AskFirstAgain(cfg: Config, id: nat)
    requires cfg.platform
    ensures Step(Slipped(), cfg, AskingAgain(id)) == Resyncing([], 1, Some(Request(id, "s", 3600000)))
  {
    StillReading(Slipped(), cfg, 3600000, None);
    hide Snapshot, FinishRound;
  }

  lemma AnswerIsAgain(cfg: Config, id: nat)
    requires cfg.drift == 0.0
    ensures var q, m := Request(id, "s", 3600000), AnsweringAgain(id).message;
            CandidateOf(q, m, cfg, 3600000) == Again && InBounds(q, m, 3600000) && Representable(Again)
  {
  }

  lemma CollectAgain(cfg: Config, candidates: seq<Candidate>, n: nat, id: nat)
    requires cfg.drift == 0.0 && |candidates| < 2
    ensures Step(Resyncing(candidates, n, Some(Request(id, "s", 3600000))), cfg, AnsweringAgain(id))
         == Resyncing(candidates + [Again], n, None)
  {
    AnswerIsAgain(cfg, id);
    hide CandidateOf, InBounds, Representable, FinishRound;
  }

  /** An expired clock adopts a candidate that agrees with it. */
  lemma AdoptsAgain(c: Clock, k: Candidate, now: int, jitter: real)
    requires c.utc == Some(k.target) && c.floor.None? && c.session.Some? && c.lastMono == c.lastObserved == now
    requires c.state == Expired && c.residual == 0.0 && |c.candidates| >= 3
    requires c.revision < MAX_SAFE && c.connection < MAX_SAFE
    ensures AdoptCandidate(c, k, now, jitter)
         == Ok(c.(revision := c.revision + 1, suspectConfirm := false, uncertainty := k.error, syncMono := Some(now),
                  state := Synced, sessionSynced := true, nextSync := now + ResyncDelay(false, jitter),
                  roundStart := None,
                  pending := None, candidates := [], failures := 0))
  {
    IdleSlew(c, now);
    assert Advance(c, now) == Ok(c);
    hide ResyncDelay;
  }

  function FullAgain(): seq<Candidate> { [Again, Again] + [Again] }

  lemma FinishAgain(cfg: Config)
    requires cfg.drift == 0.0
    ensures FinishRound(Resyncing(FullAgain(), 3, None), cfg, 3600000, 1.0) == Ok(Resynced(false))
  {
    assert FullAgain() == [Again, Again, Again];
    FinishesRound(cfg, Resyncing(FullAgain(), 3, None), Again, 3600000, 1.0);
    AdoptsAgain(Resyncing(FullAgain(), 3, None), Again, 3600000, 1.0);
    LongDelay();
    hide FinishRound, AdoptCandidate, ResyncDelay;
  }

  lemma ThirdAgain(cfg: Config, id: nat)
    requires cfg.drift == 0.0
    ensures Step(Resyncing([Again, Again], 3, Some(Request(id, "s", 3600000))), cfg, AnsweringAgain(id))
            == Resynced(false)
  {
    AnswerIsAgain(cfg, id);
    FinishAgain(cfg);
    hide FinishRound, CandidateOf, InBounds, Representable, TakeResponse, Resynced;
    ThirdTaken(Resyncing([Again, Again], 3, Some(Request(id, "s", 3600000))), cfg, Request(id, "s", 3600000),
               AnsweringAgain(id).message, 3600000, 1.0);
  }

  lemma ResyncedReading(cfg: Config, get: bool)
    requires cfg.platform && cfg.drift == 0.0
    ensures var first := Snapshot(Resynced(get), cfg, 3600000, None);
            first.Shot? && first.clock == Resynced(get) && first.reading.valid && first.reading.mono == 3600000
  {
    IdleSlew(Resynced(get), 3600000);
    var c1 := Slew(Resynced(get), 3600000);
    assert c1 == Resynced(get) && Uncertainty(c1, cfg, 3600000) == 22.0;
    assert Valid(c1, cfg, 3600000);
  }

  lemma GetStep(cfg: Config)
    requires cfg.platform && cfg.drift == 0.0
    ensures Step(Resynced(false), cfg, Getting(cfg)) == Resynced(true)
  {
    ResyncedReading(cfg, false);
    GrantedExactly(Resynced(false), cfg, Getting(cfg).token, ControlSend, 3600000, 3600000, None);
    hide Snapshot, Accepts;
  }

  lemma SendStep(cfg: Config)
    requires cfg.platform && cfg.drift == 0.0
    ensures Require(Resynced(true), cfg, Some(Token(cfg.boot, 3, 1, 3600000)), Send, 3600000, 3600000, None).Granted?
  {
    ResyncedReading(cfg, true);
    GrantedExactly(Resynced(true), cfg, Some(Token(cfg.boot, 3, 1, 3600000)), Send, 3600000, 3600000, None);
    hide Snapshot, Require;
  }

  // ---- The run

  /** One more exchange, and what comes then. */
  function ExchangingAgain(id: nat, rest: seq<Op>): seq<Op> { [AskingAgain(id)] + ([AnsweringAgain(id)] + rest) }

  /** The heartbeat, a new round of three exchanges, and the request for the configuration. */
  function Afterwards(cfg: Config): seq<Op> {
    [Heartbeat(cfg)] + ExchangingAgain(4, ExchangingAgain(5, ExchangingAgain(6, [Getting(cfg)])))
  }

  lemma FirstAgain(cfg: Config, rest: seq<Op>)
    requires cfg.platform && cfg.drift == 0.0
    ensures Run(Slipped(), cfg, ExchangingAgain(4, rest)) == Run(Resyncing([Again], 1, None), cfg, rest)
  {
    var c := Resyncing([], 1, Some(Request(4, "s", 3600000)));
    AskFirstAgain(cfg, 4);
    CollectAgain(cfg, [], 1, 4);
    assert [] + [Again] == [Again];
    hide Step, Resyncing, Slipped;
    RunThen(Slipped(), cfg, AskingAgain(4), c, [AnsweringAgain(4)] + rest);
    RunThen(c, cfg, AnsweringAgain(4), Resyncing([Again], 1, None), rest);
  }

  lemma SecondAgain(cfg: Config, rest: seq<Op>)
    requires cfg.platform && cfg.drift == 0.0
    ensures Run(Resyncing([Again], 1, None), cfg, ExchangingAgain(5, rest))
         == Run(Resyncing([Again, Again], 2, None), cfg, rest)
  {
    var c := Resyncing([Again], 2, Some(Request(5, "s", 3600000)));
    AskAgain(cfg, [Again], 1, 5);
    CollectAgain(cfg, [Again], 2, 5);
    assert [Again] + [Again] == [Again, Again];
    hide Step, Resyncing;
    RunThen(Resyncing([Again], 1, None), cfg, AskingAgain(5), c, [AnsweringAgain(5)] + rest);
    RunThen(c, cfg, AnsweringAgain(5), Resyncing([Again, Again], 2, None), rest);
  }

  lemma LastAgain(cfg: Config, rest: seq<Op>)
    requires cfg.platform && cfg.drift == 0.0
    ensures Run(Resyncing([Again, Again], 2, None), cfg, ExchangingAgain(6, rest)) == Run(Resynced(false), cfg, rest)
  {
    var c := Resyncing([Again, Again], 3, Some(Request(6, "s", 3600000)));
    hide Step, Resyncing, Resynced;
    AskAgain(cfg, [Again, Again], 2, 6);
    ThirdAgain(cfg, 6);
    RunThen(Resyncing([Again, Again], 2, None), cfg, AskingAgain(6), c, [AnsweringAgain(6)] + rest);
    RunThen(c, cfg, AnsweringAgain(6), Resynced(false), rest);
  }

  lemma AfterwardsReached(cfg: Config)
    requires cfg.platform && cfg.drift == 0.0
    ensures Run(Adopted(3599999), cfg, Afterwards(cfg)) == Resynced(true)
  {
    hide Step, Run, Resyncing, Resynced, Slipped, ExchangingAgain, Adopted;
    SlipStep(cfg);
    var last := [Getting(cfg)];
    RunThen(Adopted(3599999), cfg, Heartbeat(cfg), Slipped(),
      ExchangingAgain(4, ExchangingAgain(5, ExchangingAgain(6, last))));
    FirstAgain(cfg, ExchangingAgain(5, ExchangingAgain(6, last)));
    SecondAgain(cfg, ExchangingAgain(6, last));
    LastAgain(cfg, last);
    GetLast(cfg);
  }

  lemma GetLast(cfg: Config)
    requires cfg.platform && cfg.drift == 0.0
    ensures Run(Resynced(false), cfg, [Getting(cfg)]) == Resynced(true)
  {
    GetStep(cfg);
    hide Step, Resynced;
    assert [Getting(cfg)] + [] == [Getting(cfg)];
    RunThen(Resynced(false), cfg, Getting(cfg), Resynced(true), []);
  }

  /** The run has one heartbeat, the ninth step. */
  lemma OneHeartbeat(cfg: Config, i: nat)
    requires i < |AlmostAnHourIdle() + Afterwards(cfg)|
    requires var op := (AlmostAnHourIdle() + Afterwards(cfg))[i]; op.ControlOp? && op.kind == HeartbeatSent
    ensures i == |AlmostAnHourIdle()|
  {
  }

  lemma HeartbeatSlips(cfg: Config)
    requires cfg.platform && cfg.drift == 0.0
    ensures |AlmostAnHourIdle()| < |AlmostAnHourIdle() + Afterwards(cfg)|
    ensures At(cfg, 0, AlmostAnHourIdle() + Afterwards(cfg), |AlmostAnHourIdle()| + 1) == Slipped()
  {
    var idle, after := AlmostAnHourIdle(), Afterwards(cfg);
    AlmostExpiredReached(cfg);
    SlipStep(cfg);
    AtMore(cfg, 0, idle, Heartbeat(cfg));
    assert after[0] == Heartbeat(cfg);
    hide AlmostAnHourIdle, Afterwards, Run, Step, Slipped, AlmostExpired, Adopted;
    assert (idle + after)[..|idle| + 1] == idle + [Heartbeat(cfg)];
    assert (idle + [Heartbeat(cfg)])[..|idle| + 1] == idle + [Heartbeat(cfg)] && idle[..|idle|] == idle;
  }

  /** Every heartbeat of the run left a clock that had just expired. */
  ghost predicate EachSlips(cfg: Config, ops: seq<Op>) {
    forall i: nat :: Sends(cfg, 0, ops, i, HeartbeatSent) ==> At(cfg, 0, ops, i + 1).state == Expired
  }

  lemma AllSlip(cfg: Config)
    requires cfg.platform && cfg.drift == 0.0
    ensures EachSlips(cfg, AlmostAnHourIdle() + Afterwards(cfg))
  {
    HeartbeatSlips(cfg);
    assert Slipped().state == Expired;
    hide Grants, At;
    forall i: nat | Sends(cfg, 0, AlmostAnHourIdle() + Afterwards(cfg), i, HeartbeatSent)
      ensures At(cfg, 0, AlmostAnHourIdle() + Afterwards(cfg), i + 1).state == Expired
    {
      OneHeartbeat(cfg, i);
    }
  }

  lemma SentAfterwards(cfg: Config)
    requires cfg.platform && cfg.drift == 0.0
    ensures Run(Initial(0), cfg, AlmostAnHourIdle() + Afterwards(cfg)) == Resynced(true)
  {
    var idle, after := AlmostAnHourIdle(), Afterwards(cfg);
    AlmostExpiredReached(cfg);
    AfterwardsReached(cfg);
    hide AlmostAnHourIdle, Afterwards, Run, Resynced, Adopted, AlmostExpired;
    RunSplit(Initial(0), cfg, idle + after, |idle|);
    assert (idle + after)[..|idle|] == idle && (idle + after)[|idle|..] == after;
  }

  /** Telemetry is sent although trust was lost with every heartbeat: there are runs in which a request to
      send is granted and each heartbeat left a clock that had just expired. */
  lemma SendAfterSlip(cfg: Config)
    requires cfg.platform && cfg.drift == 0.0
    ensures exists ops, token :: EachSlips(cfg, ops)
              && Require(Run(Initial(0), cfg, ops), cfg, Some(token), Send, 3600000, 3600000, None).Granted?
  {
    AllSlip(cfg);
    SentAfterwards(cfg);
    SendStep(cfg);
    hide AlmostAnHourIdle, Afterwards, Run, Require, Resynced, EachSlips;
    var token := Token(cfg.boot, 3, 1, 3600000);
    assert EachSlips(cfg, AlmostAnHourIdle() + Afterwards(cfg));
    assert Require(Run(Initial(0), cfg, AlmostAnHourIdle() + Afterwards(cfg)), cfg, Some(token), Send, 3600000, 3600000,
                   None).Granted?;
  }
}
