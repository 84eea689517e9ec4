/** One boot's event counters and gauges (src/plcnext_iot/reporting/accounting.py). Counters saturate
    and then latch `overflow`; a set of pending decisions that had to be trimmed latches `unknown`. */
module Accounts {
  import opened Common
  import opened Outbox

  datatype Counters = Counters(captured: nat, eligible: nat, filtered: nat, undecidedLost: nat, knownUnsent: nat,
                               isolated: nat, uncertain: nat, stored: nat, lateStored: nat)

  /** Gauges of what is pending and dead: own events, batches, payload bytes, and batches whose events are unknown. */
  datatype Gauges = Gauges(pending: int, dead: int, pendingBatches: int, deadBatches: int, payloadBytes: int,
                           unknownPending: int, unknownDead: int)

  datatype Account = Account(boot: string, counters: Counters, overflow: bool, decisions: set<nat>, unknown: bool,
                             frozen: map<nat, Key>, gauges: Gauges)

  const Zero := Counters(0, 0, 0, 0, 0, 0, 0, 0, 0)
  const Nothing := Gauges(0, 0, 0, 0, 0, 0, 0)

  function Opened(boot: string): Account { Account(boot, Zero, false, {}, false, map[], Nothing) }

  function Bump(v: nat, n: nat): nat { if v + n <= MAX_SAFE then v + n else MAX_SAFE }

  predicate Spills(v: nat, n: nat) { v + n > MAX_SAFE }

  // ---- Decisions about captured events

  /** `room`: the set is not full and its metadata fits. */
  function Captured(a: Account, seqno: nat, room: bool): Account {
    a.(counters := a.counters.(captured := Bump(a.counters.captured, 1)),
       overflow := a.overflow || Spills(a.counters.captured, 1),
       decisions := if room then a.decisions + {seqno} else a.decisions,
       unknown := a.unknown || !room)
  }

  /** The whole set is dropped when metadata does not fit. */
  function Trimmed(a: Account): Account { a.(decisions := {}, unknown := true) }

  predicate Awaits(a: Account, boot: string, seqno: nat) { boot == a.boot && seqno in a.decisions }

  function Undecided(a: Account, boot: string, seqno: nat): Account {
    if !Awaits(a, boot, seqno) then a
    else a.(decisions := a.decisions - {seqno},
            counters := a.counters.(undecidedLost := Bump(a.counters.undecidedLost, 1)),
            overflow := a.overflow || Spills(a.counters.undecidedLost, 1))
  }

  function FilteredOut(a: Account): Account {
    a.(counters := a.counters.(filtered := Bump(a.counters.filtered, 1)),
       overflow := a.overflow || Spills(a.counters.filtered, 1))
  }

  /** Selected: pending if admitted, known unsent otherwise. */
  function Selected(a: Account, admitted: bool): Account {
    var c := a.counters.(eligible := Bump(a.counters.eligible, 1));
    if admitted
    then a.(counters := c, overflow := a.overflow || Spills(a.counters.eligible, 1),
      gauges := a.gauges.(pending := a.gauges.pending + 1))
    else a.(counters := c.(knownUnsent := Bump(c.knownUnsent, 1)),
            overflow := a.overflow || Spills(a.counters.eligible, 1) || Spills(c.knownUnsent, 1))
  }

  function Decided(a: Account, boot: string, seqno: nat, selected: bool, admitted: bool): Account {
    if !Awaits(a, boot, seqno) then a
    else
      var a' := a.(decisions := a.decisions - {seqno});
      if selected then Selected(a', admitted) else FilteredOut(a')
  }

  // ---- Batches

  function Materialized(a: Account, sequence: nat, key: Key): Account {
    a.(frozen := a.frozen[sequence := key], gauges := a.gauges.(pendingBatches := a.gauges.pendingBatches + 1))
  }

  /** What looking a message id up among the batches frozen here finds. */
  predicate Finds(frozen: map<nat, Key>, key: Key, found: Option<nat>) {
    if found.Some? then found.value in frozen && frozen[found.value] == key
    else forall q :: q in frozen ==> frozen[q] != key
  }

  predicate Mine(a: Account, e: Entry) { e.boot == Some(a.boot) }

  /** The batch is durable; if it was frozen here it stays one pending batch. */
  function Committed(a: Account, e: Entry, found: Option<nat>): Account {
    var g := a.gauges.(payloadBytes := a.gauges.payloadBytes + e.meta.size,
                       pendingBatches := a.gauges.pendingBatches + (if found.Some? then 0 else 1),
                       unknownPending := a.gauges.unknownPending + (if Mine(a, e) then 0 else 1));
    a.(frozen := if found.Some? then a.frozen - {found.value} else a.frozen, gauges := g)
  }

  /** Which counter a dead batch's own events go to. */
  function Condemned(c: Counters, e: Entry, source: Source): Counters {
    var n := |e.events|;
    if source == PermanentReject then c.(isolated := Bump(c.isolated, n))
    else if e.everSent then c.(uncertain := Bump(c.uncertain, n))
    else c.(knownUnsent := Bump(c.knownUnsent, n))
  }

  predicate CondemnSpills(c: Counters, e: Entry, source: Source) {
    Spills(if source == PermanentReject then c.isolated else if e.everSent then c.uncertain else c.knownUnsent,
      |e.events|)
  }

  function TerminalBatch(a: Account, e: Entry, source: Source): Account {
    var g := a.gauges.(pendingBatches := a.gauges.pendingBatches - 1, deadBatches := a.gauges.deadBatches + 1);
    if Mine(a, e)
    then a.(gauges := g.(pending := g.pending - |e.events|, dead := g.dead + |e.events|),
            counters := Condemned(a.counters, e, source),
            overflow := a.overflow || CondemnSpills(a.counters, e, source))
    else a.(gauges := g.(unknownPending := g.unknownPending - 1, unknownDead := g.unknownDead + 1))
  }

  function RemovedGauges(g: Gauges, e: Entry, mine: bool): Gauges {
    var n := |e.events|;
    var g' := g.(payloadBytes := g.payloadBytes - e.meta.size);
    if e.meta.dead then
      (if mine then g'.(deadBatches := g.deadBatches - 1, dead := g.dead - n)
       else g'.(deadBatches := g.deadBatches - 1, unknownDead := g.unknownDead - 1))
    else
      (if mine then g'.(pendingBatches := g.pendingBatches - 1, pending := g.pending - n)
       else g'.(pendingBatches := g.pendingBatches - 1, unknownPending := g.unknownPending - 1))
  }

  /** A batch leaves the outbox: confirmed, or pruned as dead. */
  function Removed(a: Account, e: Entry, stored: bool): Account {
    var a' := a.(gauges := RemovedGauges(a.gauges, e, Mine(a, e)));
    if !stored || !Mine(a, e) then a'
    else
      var c, n := a.counters, |e.events|;
      var late := e.meta.source == Some(AgeExpired);
      a'.(counters := c.(stored := Bump(c.stored, n),
        lateStored := if late then Bump(c.lateStored, n) else c.lateStored),
          overflow := a.overflow || Spills(c.stored, n) || (late && Spills(c.lateStored, n)))
  }

  function RestoredBatch(a: Account, e: Entry): Account {
    var g := a.gauges.(payloadBytes := a.gauges.payloadBytes + e.meta.size);
    a.(gauges := if e.meta.dead then g.(deadBatches := g.deadBatches + 1, unknownDead := g.unknownDead + 1)
                 else g.(pendingBatches := g.pendingBatches + 1, unknownPending := g.unknownPending + 1))
  }

  /** Everything still in RAM is known to be unsent. */
  function GivenUp(a: Account, count: nat, sequences: set<nat>): Account {
    var left := a.frozen - sequences;
    a.(counters := a.counters.(knownUnsent := Bump(a.counters.knownUnsent, count)),
       overflow := a.overflow || Spills(a.counters.knownUnsent, count), frozen := left,
       gauges := a.gauges.(pending := a.gauges.pending - count,
                           pendingBatches := a.gauges.pendingBatches - (|a.frozen| - |left|)))
  }

  // ---- What the counters promise

  /** Every captured event is decided once, lost undecided, or awaits its decision. */
  ghost predicate DecisionsBalance(a: Account) {
    !a.overflow && !a.unknown ==>
      a.counters.captured == a.counters.eligible + a.counters.filtered + a.counters.undecidedLost + |a.decisions|
  }

  /** Every selected event is pending, or its outcome is counted; a late confirmation takes one back. */
  ghost predicate EventsBalance(a: Account) {
    !a.overflow ==>
      a.counters.eligible == a.gauges.pending + a.counters.knownUnsent + a.counters.isolated + a.counters.uncertain
                             + (a.counters.stored - a.counters.lateStored)
  }

  ghost predicate Balanced(a: Account) { DecisionsBalance(a) && EventsBalance(a) }

  lemma MaterializedBalanced(a: Account, sequence: nat, key: Key)
    requires Balanced(a)
    ensures Balanced(Materialized(a, sequence, key))
  {
  }

  lemma CommittedBalanced(a: Account, e: Entry, found: Option<nat>)
    requires Balanced(a)
    ensures Balanced(Committed(a, e, found))
  {
  }

  /** A decision is awaited once. */
  lemma TakenOnce(a: Account, boot: string, seqno: nat, selected: bool, admitted: bool)
    ensures !Awaits(Decided(a, boot, seqno, selected, admitted), boot, seqno)
    ensures !Awaits(Undecided(a, boot, seqno), boot, seqno)
  {
  }

  lemma CapturedBalanced(a: Account, seqno: nat, room: bool)
    requires Balanced(a) && seqno !in a.decisions
    ensures Balanced(Captured(a, seqno, room))
  {
  }

  lemma DecidedBalanced(a: Account, boot: string, seqno: nat, selected: bool, admitted: bool)
    requires Balanced(a)
    ensures Balanced(Decided(a, boot, seqno, selected, admitted)) && Balanced(Undecided(a, boot, seqno))
  {
  }

  lemma TerminalBalanced(a: Account, e: Entry, source: Source)
    requires Balanced(a)
    ensures Balanced(TerminalBatch(a, e, source))
  {
  }

  /** A dead batch can only be confirmed late: it must have been declared too old. */
  lemma RemovedBalanced(a: Account, e: Entry, stored: bool)
    requires Balanced(a) && (if stored then e.meta.dead <==> e.meta.source == Some(AgeExpired) else e.meta.dead)
    ensures Balanced(Removed(a, e, stored))
  {
  }

  // ---- The object

  class Accounting {
    var account: Account

    constructor (boot: string)
      ensures account == Opened(boot)
    {
      account := Opened(boot);
    }

    /** At most 8192 decisions are remembered; trimming follows when metadata does not fit. */
    method NoteCaptured(seqno: nat, fits: bool)
      modifies this
      ensures account == (var a := Captured(old(account), seqno, |old(account).decisions| < 8192);
                          if fits then a else Trimmed(a))
    {
      var room := |account.decisions| < 8192;
      account := account.(counters := account.counters.(captured := Bump(account.counters.captured, 1)),
                          overflow := account.overflow || Spills(account.counters.captured, 1));
      if room {
        account := account.(decisions := account.decisions + {seqno});
      } else {
        account := account.(unknown := true);
      }
      if !fits { account := account.(decisions := {}, unknown := true); }
    }

    method NoteUndecided(boot: string, seqno: nat) returns (ok: bool)
      modifies this
      ensures ok == Awaits(old(account), boot, seqno) && account == Undecided(old(account), boot, seqno)
    {
      ok := boot == account.boot && seqno in account.decisions;
      if ok {
        var c := account.counters;
        account := account.(decisions := account.decisions - {seqno},
          overflow := account.overflow || Spills(c.undecidedLost, 1),
                            counters := c.(undecidedLost := Bump(c.undecidedLost, 1)));
      }
    }

    method NoteDecided(boot: string, seqno: nat, selected: bool, admitted: bool) returns (ok: bool)
      modifies this
      ensures ok == Awaits(old(account), boot, seqno)
              && account == Decided(old(account), boot, seqno, selected, admitted)
    {
      ok := boot == account.boot && seqno in account.decisions;
      if !ok { return; }
      account := account.(decisions := account.decisions - {seqno});
      account := if selected then Selected(account, admitted) else FilteredOut(account);
    }

    /** The engine keeps at most eight batches frozen here (`Pipeline.EventConservation`), so it is never refused. */
    method NoteMaterialized(sequence: nat, key: Key) returns (ok: bool)
      modifies this
      ensures ok == (|old(account).frozen| < 64)
      ensures account == if ok then Materialized(old(account), sequence, key) else old(account)
    {
      ok := |account.frozen| < 64;
      if ok {
        account := account.(frozen := account.frozen[sequence := key],
                            gauges := account.gauges.(pendingBatches := account.gauges.pendingBatches + 1));
      }
    }

    method NoteTerminal(e: Entry, source: Source)
      modifies this
      ensures account == TerminalBatch(old(account), e, source)
      ensures var c, c', n := old(account).counters, account.counters, |e.events|;
              && (e.boot != Some(account.boot) ==> c' == c)
              && (e.boot == Some(account.boot) && source == PermanentReject ==>
                c' == c.(isolated := Bump(c.isolated, n)))
              && (e.boot == Some(account.boot) && source == AgeExpired && e.everSent ==>
                    c' == c.(uncertain := Bump(c.uncertain, n)))
              && (e.boot == Some(account.boot) && source == AgeExpired && !e.everSent ==>
                    c' == c.(knownUnsent := Bump(c.knownUnsent, n)))
    {
      var g, c, n := account.gauges, account.counters, |e.events|;
      g := g.(pendingBatches := g.pendingBatches - 1, deadBatches := g.deadBatches + 1);
      if e.boot == Some(account.boot) {
        g := g.(pending := g.pending - n, dead := g.dead + n);
        var spilt;
        if source == PermanentReject {
          spilt, c := c.isolated + n > MAX_SAFE, c.(isolated := Bump(c.isolated, n));
        } else if e.everSent {
          spilt, c := c.uncertain + n > MAX_SAFE, c.(uncertain := Bump(c.uncertain, n));
        } else {
          spilt, c := c.knownUnsent + n > MAX_SAFE, c.(knownUnsent := Bump(c.knownUnsent, n));
        }
        account := account.(gauges := g, counters := c, overflow := account.overflow || spilt);
      } else {
        account := account.(gauges := g.(unknownPending := g.unknownPending - 1, unknownDead := g.unknownDead + 1));
      }
    }

    method NoteRemoved(e: Entry, stored: bool)
      modifies this
      ensures account == Removed(old(account), e, stored)
    {
      var g, n, mine := account.gauges, |e.events|, e.boot == Some(account.boot);
      g := if e.meta.dead then g.(deadBatches := g.deadBatches - 1) else g.(pendingBatches := g.pendingBatches - 1);
      if mine {
        g := if e.meta.dead then g.(dead := g.dead - n) else g.(pending := g.pending - n);
      } else {
        g := if e.meta.dead then g.(unknownDead := g.unknownDead - 1) else g.(unknownPending := g.unknownPending - 1);
      }
      g := g.(payloadBytes := g.payloadBytes - e.meta.size);
      if mine && stored {
        var c, spilt := account.counters, Spills(account.counters.stored, n);
        c := c.(stored := Bump(c.stored, n));
        if e.meta.source == Some(AgeExpired) {
          spilt, c := spilt || Spills(c.lateStored, n), c.(lateStored := Bump(c.lateStored, n));
        }
        account := account.(counters := c, overflow := account.overflow || spilt);
      }
      account := account.(gauges := g);
    }

    method NoteRestored(e: Entry)
      modifies this
      ensures account == RestoredBatch(old(account), e)
    {
      var g := account.gauges;
      if e.meta.dead {
        g := g.(deadBatches := g.deadBatches + 1, unknownDead := g.unknownDead + 1);
      } else {
        g := g.(pendingBatches := g.pendingBatches + 1, unknownPending := g.unknownPending + 1);
      }
      account := account.(gauges := g.(payloadBytes := g.payloadBytes + e.meta.size));
    }

    /** The frozen batch of this message id, if it was frozen here. */
    method FindFrozen(key: Key) returns (found: Option<nat>)
      ensures Finds(account.frozen, key, found)
    {
      var todo := account.frozen.Keys;
      while todo != {}
        invariant todo <= account.frozen.Keys
                  && forall q :: q in account.frozen && q !in todo ==> account.frozen[q] != key
        decreases |todo|
      {
        var q :| q in todo;
        if account.frozen[q] == key { return Some(q); }
        todo := todo - {q};
      }
      found := None;
    }

    method NoteCommitted(key: Key, e: Entry) returns (found: Option<nat>)
      modifies this
      ensures Finds(old(account).frozen, key, found)
      ensures account == Committed(old(account), e, found)
    {
      found := FindFrozen(key);
      var g := account.gauges;
      if found.Some? {
        account := account.(frozen := account.frozen - {found.value});
      } else {
        g := g.(pendingBatches := g.pendingBatches + 1);
      }
      g := g.(payloadBytes := g.payloadBytes + e.meta.size);
      if e.boot != Some(account.boot) { g := g.(unknownPending := g.unknownPending + 1); }
      account := account.(gauges := g);
    }

    method NoteAbandoned(count: nat, sequences: seq<nat>)
      modifies this
      ensures account == GivenUp(old(account), count, set q | q in sequences)
    {
      var left, gone := Unfreeze(account.frozen, sequences);
      account := account.(counters := account.counters.(knownUnsent := Bump(account.counters.knownUnsent, count)),
                          overflow := account.overflow || Spills(account.counters.knownUnsent, count), frozen := left,
                          gauges := account.gauges.(pending := account.gauges.pending - count,
                                                    pendingBatches := account.gauges.pendingBatches - gone));
    }
  }

  /** Drops the given sequences one by one and counts those that were there. */
  method Unfreeze(frozen: map<nat, Key>, sequences: seq<nat>) returns (left: map<nat, Key>, gone: nat)
    ensures left == frozen - (set q | q in sequences) && gone == |frozen| - |left|
  {
    left, gone := frozen, 0;
    for i := 0 to |sequences|
      invariant forall q :: q in left <==> q in frozen && q !in sequences[..i]
      invariant forall q :: q in left ==> left[q] == frozen[q]
      invariant gone + |left.Keys| == |frozen.Keys|
    {
      var q := sequences[i];
      assert sequences[..i + 1] == sequences[..i] + [q];
      if q in left {
        assert (left - {q}).Keys == left.Keys - {q};
        left, gone := left - {q}, gone + 1;
      }
    }
    assert sequences[..|sequences|] == sequences;
    assert left == frozen - (set q | q in sequences);
  }
}
