/** Which counter each event ends in, told from the run: what was captured, selected, refused, given up, sent
    and confirmed, with "sent" meaning a hand-out that the SDK did not undo
    (src/plcnext_iot/reporting/accounting.py:86-230). */
module PipelineFates {
  import opened Common
  import opened Outbox
  import opened OutboxRuns
  import opened Accounts
  import opened PipelineGauges
  import opened Pipeline
  import E = EngineModel
  import ES = EngineStock
  import R = PipelineRam

  // ---- Hand-outs and what is left of them

  /** A batch, named by its order, is handed to the SDK; or the SDK says that it did not send it. */
  datatype Deed = HandedOut(order: nat) | Undone(order: nat)

  /** The i-th deed was undone before the batch was handed out again. */
  predicate UndoneAfter(deeds: seq<Deed>, order: nat, i: nat) {
    exists j :: i < j < |deeds| && deeds[j] == Undone(order)
                && forall m :: i < m < j ==> deeds[m] != HandedOut(order)
  }

  predicate StandsAt(deeds: seq<Deed>, order: nat, i: nat) {
    i < |deeds| && deeds[i] == HandedOut(order) && !UndoneAfter(deeds, order, i)
  }

  /** Some hand-out of the batch was not undone: as far as the outbox knows, its payload is published. */
  predicate Standing(deeds: seq<Deed>, order: nat) {
    exists i :: 0 <= i < |deeds| && StandsAt(deeds, order, i)
  }

  predicate HandedAfter(deeds: seq<Deed>, order: nat, i: nat) {
    exists j :: i < j < |deeds| && deeds[j] == HandedOut(order)
  }

  /** Some hand-out before the last one was not undone. */
  predicate Earlier(deeds: seq<Deed>, order: nat) {
    exists i :: 0 <= i < |deeds| && StandsAt(deeds, order, i) && HandedAfter(deeds, order, i)
  }

  lemma UndoneMore(deeds: seq<Deed>, d: Deed, order: nat, i: nat)
    requires i < |deeds|
    ensures UndoneAfter(deeds + [d], order, i)
            <==> UndoneAfter(deeds, order, i) || (d == Undone(order) && !HandedAfter(deeds, order, i))
    ensures HandedAfter(deeds + [d], order, i) <==> HandedAfter(deeds, order, i) || d == HandedOut(order)
  {
    var more := deeds + [d];
    assert more[|deeds|] == d && forall j :: 0 <= j < |deeds| ==> more[j] == deeds[j];
    if UndoneAfter(deeds, order, i) {
      var j :| i < j < |deeds| && deeds[j] == Undone(order) && forall m :: i < m < j ==> deeds[m] != HandedOut(order);
      assert more[j] == Undone(order);
    }
    if HandedAfter(deeds, order, i) {
      var j :| i < j < |deeds| && deeds[j] == HandedOut(order);
      assert more[j] == HandedOut(order);
    }
  }

  lemma StandsMore(deeds: seq<Deed>, d: Deed, order: nat, i: nat)
    requires i < |deeds|
    ensures StandsAt(deeds + [d], order, i)
            <==> StandsAt(deeds, order, i) && !(d == Undone(order) && !HandedAfter(deeds, order, i))
  {
    UndoneMore(deeds, d, order, i);
    assert (deeds + [d])[i] == deeds[i];
    hide UndoneAfter, HandedAfter;
  }

  /** What one more deed does to what stands. */
  lemma StandingMore(deeds: seq<Deed>, d: Deed, order: nat)
    ensures d == HandedOut(order) ==>
              Standing(deeds + [d], order) && (Earlier(deeds + [d], order) <==> Standing(deeds, order))
    ensures d == Undone(order) ==>
              && (Standing(deeds + [d], order) <==> Earlier(deeds, order))
              && (Earlier(deeds + [d], order) <==> Earlier(deeds, order))
    ensures d.order != order ==>
              && (Standing(deeds + [d], order) <==> Standing(deeds, order))
              && (Earlier(deeds + [d], order) <==> Earlier(deeds, order))
  {
    var more, n := deeds + [d], |deeds|;
    forall i | 0 <= i < n
      ensures StandsAt(more, order, i)
              <==> StandsAt(deeds, order, i) && !(d == Undone(order) && !HandedAfter(deeds, order, i))
      ensures HandedAfter(more, order, i) <==> HandedAfter(deeds, order, i) || d == HandedOut(order)
    {
      StandsMore(deeds, d, order, i);
      UndoneMore(deeds, d, order, i);
    }
    LastStands(deeds, d, order);
    hide StandsAt, HandedAfter;
  }

  lemma LastStands(deeds: seq<Deed>, d: Deed, order: nat)
    ensures StandsAt(deeds + [d], order, |deeds|) <==> d == HandedOut(order)
    ensures !HandedAfter(deeds + [d], order, |deeds|)
  {
    assert (deeds + [d])[|deeds|] == d;
  }

  lemma NoDeeds(deeds: seq<Deed>, order: nat)
    requires forall d :: d in deeds ==> d.order != order
    ensures !Standing(deeds, order) && !Earlier(deeds, order)
  {
  }

  // ---- The run, told

  function DeedsOf(p: Pipe, e: Event): seq<Deed> {
    if e.Store? && (e.op.Reserve? || e.op.SdkRejected?) && e.op.key in p.outbox.session.entries
    then
      var order := p.outbox.session.entries[e.op.key].meta.order;
      [if e.op.Reserve? then HandedOut(order) else Undone(order)]
    else []
  }

  /** The batch was enqueued by this process. */
  predicate Own(p: Pipe, k: Key) {
    k in p.outbox.session.entries && p.outbox.session.entries[k].boot == Some(p.account.boot)
  }

  /** An event whose decision is awaited. */
  predicate Awaited(p: Pipe, boot: string, seqno: nat) { boot == p.account.boot && seqno in p.account.decisions }

  /** The counts with what the event adds to them. A dead batch's events are isolated if it was rejected for
      good; if it died of age they are uncertain while a hand-out stands, and known unsent else. */
  function Fated(c: Counters, p: Pipe, deeds: seq<Deed>, e: Event): Counters {
    match e
    case Capture(room) => c.(captured := c.captured + 1)
    case Lose(boot, seqno) => if Awaited(p, boot, seqno) then c.(undecidedLost := c.undecidedLost + 1) else c
    case Decide(s, selected, admitted, limit) =>
      if !Awaited(p, s.boot, s.seqno) then c
      else if !selected then c.(filtered := c.filtered + 1)
      else if admitted then c.(eligible := c.eligible + 1)
      else c.(eligible := c.eligible + 1, knownUnsent := c.knownUnsent + 1)
    case Abandon => c.(knownUnsent := c.knownUnsent + |p.stock.owned|)
    case Store(op, order) =>
      if op.Terminate? && Own(p, op.key) then
        var b := p.outbox.session.entries[op.key];
        var n := |b.events|;
        if op.source == PermanentReject then c.(isolated := c.isolated + n)
        else if Standing(deeds, b.meta.order) then c.(uncertain := c.uncertain + n)
        else c.(knownUnsent := c.knownUnsent + n)
      else if op.AckStored? && Own(p, op.key) then
        var b := p.outbox.session.entries[op.key];
        c.(stored := c.stored + |b.events|,
           lateStored := c.lateStored + if b.meta.dead && b.meta.source == Some(AgeExpired) then |b.events| else 0)
      else c
    case _ => c
  }

  /** What this process has handed out and had undone, and what its events have come to. */
  datatype Tale = Tale(deeds: seq<Deed>, fates: Counters)

  const Untold := Tale([], Counters(0, 0, 0, 0, 0, 0, 0, 0, 0))

  function ToldOf(t: Tale, p: Pipe, e: Event): Tale {
    if e.Crash? then Untold else Tale(t.deeds + DeedsOf(p, e), Fated(t.fates, p, t.deeds, e))
  }

  /** The tale of a run. */
  function TaleOf(t: Tale, p: Pipe, x: E.Setup, events: seq<Event>): Tale
    decreases |events|
  {
    if events == [] then t else TaleOf(ToldOf(t, p, events[0]), Next(p, x, events[0]), x, events[1..])
  }

  // ---- What holds throughout

  /** The flags of the process's own batches say what the deeds say. */
  ghost predicate FlagsTell(o: Outbox, boot: string, deeds: seq<Deed>) {
    && (forall d :: d in deeds ==> d.order < o.nextOrder)
    && (forall k :: k in o.session.entries && o.session.entries[k].boot == Some(boot) ==>
          FlagTells(o.session.entries[k], deeds))
  }

  ghost predicate FlagTells(b: Entry, deeds: seq<Deed>) {
    && (b.everSent <==> Standing(deeds, b.meta.order))
    && (b.previousSent <==> Earlier(deeds, b.meta.order))
  }

  ghost predicate Telling(p: Pipe, t: Tale) {
    && FlagsTell(p.outbox, p.account.boot, t.deeds)
    && (!p.account.overflow ==> p.account.counters == t.fates)
  }

  /** A step that keeps what the outbox knows of each batch it keeps, or brings a new one. */
  ghost predicate SameFlags(o: Outbox, o': Outbox) {
    && o.nextOrder <= o'.nextOrder
    && forall k :: k in o'.session.entries ==>
         var b' := o'.session.entries[k];
         || (k in o.session.entries && SameFlag(o.session.entries[k], b'))
         || (o.nextOrder <= b'.meta.order && !b'.everSent && !b'.previousSent)
         || b'.boot.None?
  }

  predicate SameFlag(b: Entry, b': Entry) {
    b'.meta.order == b.meta.order && b'.boot == b.boot && b'.everSent == b.everSent && b'.previousSent == b.previousSent
  }

  lemma SameTells(o: Outbox, o': Outbox, boot: string, deeds: seq<Deed>)
    requires FlagsTell(o, boot, deeds) && SameFlags(o, o')
    ensures FlagsTell(o', boot, deeds)
  {
    hide Standing, Earlier;
    forall k | k in o'.session.entries && o'.session.entries[k].boot == Some(boot)
      ensures FlagTells(o'.session.entries[k], deeds)
    {
      var b' := o'.session.entries[k];
      if k in o.session.entries && SameFlag(o.session.entries[k], b') {
        assert FlagTells(o.session.entries[k], deeds);
      } else {
        NoDeeds(deeds, b'.meta.order);
      }
    }
  }

  /** Every step but handing out and its undoing. */
  lemma StepSame(o: Outbox, lim: Limits, op: Op)
    requires Durable(o) && Can(o, lim, op) && !op.Reserve? && !op.SdkRejected?
    ensures SameFlags(o, Step(o, op))
  {
    StagedUnsent(o);
    assert SameFlags(o, o);
    hide Durable, SameFlags, Can;
    match op
    case Reattach(mono) => MirrorOf(o); ReattachSame(o, mono);
    case Insert(k, payload, stamp, wire, truth) => InsertSame(o, k, payload, stamp, wire, truth);
    case Terminate(k, reason, source, pruned, mono, now, truth) => TerminateSame(o, k, reason, source, pruned, truth);
    case Restart(mono) => RestartSame(o, mono);
    case Release(mono) => ReleaseSame(o, mono);
    case OpenGate(watermark) => GateSame(o, watermark);
    case AckRetry(k, mono) => RetrySame(o, k, mono);
    case AckStored(k) => StoredSame(o, k);
    case _ => RestSame(o, op);
  }

  lemma MirrorOf(o: Outbox)
    requires Durable(o)
    ensures Mirror(o)
  {
  }

  lemma StagedUnsent(o: Outbox)
    requires Durable(o)
    ensures forall k :: k in o.session.staged ==> NeverSent(o.session.staged[k])
  {
  }

  lemma InsertSame(o: Outbox, k: Key, payload: Bytes, stamp: Option<Stamp>, wire: int, truth: real)
    requires forall k :: k in o.session.staged ==> NeverSent(o.session.staged[k])
    ensures SameFlags(o, InsertStep(o, k, payload, stamp, wire, truth))
  {
  }

  lemma TerminateSame(o: Outbox, k: Key, reason: string, source: Source, pruned: set<Key>, truth: real)
    ensures SameFlags(o, TerminateStep(o, k, reason, source, pruned, truth))
  {
  }

  lemma RestartSame(o: Outbox, mono: real)
    ensures SameFlags(o, RestartStep(o, mono))
  {
  }

  lemma ReleaseSame(o: Outbox, mono: real)
    ensures SameFlags(o, ReleaseStep(o, mono))
  {
  }

  lemma GateSame(o: Outbox, watermark: nat)
    ensures SameFlags(o, OpenGateStep(o, watermark))
  {
  }

  lemma RetrySame(o: Outbox, k: Key, mono: real)
    ensures SameFlags(o, AckRetryStep(o, k, mono))
  {
  }

  lemma StoredSame(o: Outbox, k: Key)
    ensures SameFlags(o, AckStoredStep(o, k))
  {
  }

  lemma RestSame(o: Outbox, op: Op)
    requires op.Stage? || op.DropRate? || op.DropStaged?
    ensures SameFlags(o, Step(o, op))
  {
  }

  lemma ReserveTells(o: Outbox, boot: string, deeds: seq<Deed>, k: Key, later: real)
    requires Durable(o) && FlagsTell(o, boot, deeds) && k in o.session.entries
    ensures FlagsTell(ReserveStep(o, k, later), boot, deeds + [HandedOut(o.session.entries[k].meta.order)])
  {
    OrderBelow(o, k);
    ChangedTells(o, ReserveStep(o, k, later), boot, deeds, HandedOut(o.session.entries[k].meta.order), k);
  }

  lemma OrderBelow(o: Outbox, k: Key)
    requires Durable(o) && k in o.session.entries
    ensures o.session.entries[k].meta.order < o.nextOrder && k in o.rows
    ensures forall j :: j in o.session.entries && j != k ==>
              o.session.entries[j].meta.order != o.session.entries[k].meta.order
  {
  }

  /** One batch is handed out, or its hand-out undone. */
  lemma ChangedTells(o: Outbox, o': Outbox, boot: string, deeds: seq<Deed>, d: Deed, k: Key)
    requires FlagsTell(o, boot, deeds) && k in o.session.entries && d.order == o.session.entries[k].meta.order
    requires d.order < o.nextOrder == o'.nextOrder && o'.session.entries.Keys == o.session.entries.Keys
    requires forall j :: j in o.session.entries && j != k ==>
               o'.session.entries[j] == o.session.entries[j] && o.session.entries[j].meta.order != d.order
    requires var b, b' := o.session.entries[k], o'.session.entries[k];
             && b'.meta.order == b.meta.order && b'.boot == b.boot
             && b'.everSent == (if d.HandedOut? then true else b.previousSent)
             && b'.previousSent == (if d.HandedOut? then b.everSent else b.previousSent)
    ensures FlagsTell(o', boot, deeds + [d])
  {
    hide Standing, Earlier;
    forall j | j in o'.session.entries && o'.session.entries[j].boot == Some(boot)
      ensures FlagTells(o'.session.entries[j], deeds + [d])
    {
      StandingMore(deeds, d, o'.session.entries[j].meta.order);
      assert FlagTells(o.session.entries[j], deeds);
    }
  }

  lemma RejectTells(o: Outbox, boot: string, deeds: seq<Deed>, k: Key)
    requires Durable(o) && FlagsTell(o, boot, deeds) && k in o.session.entries
    ensures FlagsTell(SdkRejectedStep(o, k), boot, deeds + [Undone(o.session.entries[k].meta.order)])
  {
    OrderBelow(o, k);
    ChangedTells(o, SdkRejectedStep(o, k), boot, deeds, Undone(o.session.entries[k].meta.order), k);
  }

  // ---- Counters

  lemma {:induction false} PrunedCounters(a: Account, entries: map<Key, Entry>, order: seq<Key>)
    ensures RemovedAll(a, entries, order).counters == a.counters && RemovedAll(a, entries, order).overflow == a.overflow
    decreases |order|
  {
    if order != [] {
      if order[0] in entries {
        PrunedCounters(Removed(a, entries[order[0]], false), entries - {order[0]}, order[1..]);
      } else {
        PrunedCounters(a, entries, order[1..]);
      }
    }
  }

  /** Of a batch declared dead, the counter that its events are added to. */
  lemma TerminateCounts(p: Pipe, lim: Limits, deeds: seq<Deed>, c: Counters, op: Op, order: seq<Key>)
    requires FlagsTell(p.outbox, p.account.boot, deeds) && op.Terminate? && op.key in p.outbox.session.entries
    requires !p.account.overflow ==> p.account.counters == c
    ensures var a' := StoreStep(p, op, order).account;
            !a'.overflow ==> a'.counters == Fated(c, p, deeds, Store(op, order))
  {
    var a, entries := p.account, p.outbox.session.entries;
    var b := entries[op.key];
    var b' := b.(meta := Killed(b.meta, op.reason, op.source), active := false);
    PrunedCounters(TerminalBatch(a, b, op.source), entries[op.key := b'], order);
    CondemnedExactly(a, b, op.source, deeds);
    hide RemovedAll, TerminalBatch, Standing, Earlier, Killed;
  }

  lemma CondemnedExactly(a: Account, b: Entry, source: Source, deeds: seq<Deed>)
    requires b.boot == Some(a.boot) ==> FlagTells(b, deeds)
    ensures var a', n := TerminalBatch(a, b, source), |b.events|;
            && (!a'.overflow ==> !a.overflow)
            && (!a'.overflow ==> a'.counters == if b.boot != Some(a.boot) then a.counters
                                 else if source == PermanentReject
                                 then a.counters.(isolated := a.counters.isolated + n)
                                 else if Standing(deeds, b.meta.order)
                                 then a.counters.(uncertain := a.counters.uncertain + n)
                                 else a.counters.(knownUnsent := a.counters.knownUnsent + n))
  {
    hide Standing, Earlier;
  }

  lemma StoredCounts(p: Pipe, deeds: seq<Deed>, c: Counters, op: Op, order: seq<Key>)
    requires Durable(p.outbox) && op.AckStored? && op.key in p.outbox.session.entries
    requires !p.account.overflow ==> p.account.counters == c
    ensures var a' := StoreStep(p, op, order).account;
            !a'.overflow ==> a'.counters == Fated(c, p, deeds, Store(op, order))
  {
    DeadHasCause(p.outbox, op.key);
    hide Durable, Standing, Removed, Step;
    RemovedExactly(p.account, p.outbox.session.entries[op.key]);
  }

  lemma DeadHasCause(o: Outbox, k: Key)
    requires Durable(o) && k in o.session.entries
    ensures EntryOk(o.session.entries[k])
  {
  }

  lemma RemovedExactly(a: Account, b: Entry)
    requires EntryOk(b)
    ensures var a', late := Removed(a, b, true), b.meta.dead && b.meta.source == Some(AgeExpired);
            && (!a'.overflow ==> !a.overflow)
            && (!a'.overflow && b.boot != Some(a.boot) ==> a'.counters == a.counters)
            && (!a'.overflow && b.boot == Some(a.boot) ==>
                  a'.counters == a.counters.(stored := a.counters.stored + |b.events|,
                                             lateStored := a.counters.lateStored + if late then |b.events| else 0))
  {
  }

  lemma StoreCounts(p: Pipe, lim: Limits, deeds: seq<Deed>, c: Counters, op: Op, order: seq<Key>)
    requires Durable(p.outbox) && FlagsTell(p.outbox, p.account.boot, deeds) && MayStoreOp(p, lim, op, order)
    requires !p.account.overflow ==> p.account.counters == c
    ensures var a' := StoreStep(p, op, order).account;
            !a'.overflow ==> a'.counters == Fated(c, p, deeds, Store(op, order))
  {
    if op.Terminate? {
      TerminateCounts(p, lim, deeds, c, op, order);
    } else if op.AckStored? {
      StoredCounts(p, deeds, c, op, order);
    }
    hide Durable, FlagsTell, Standing, Can;
  }

  lemma DecideCounts(p: Pipe, deeds: seq<Deed>, c: Counters, s: E.Sample, selected: bool, admitted: bool, limit: nat)
    requires !p.account.overflow ==> p.account.counters == c
    ensures var a' := DecideStep(p, s, selected, admitted, limit).account;
            !a'.overflow ==> a'.counters == Fated(c, p, deeds, Decide(s, selected, admitted, limit))
  {
    hide Standing, E.Own;
  }

  lemma RestCounts(p: Pipe, x: E.Setup, deeds: seq<Deed>, c: Counters, e: Event)
    requires !e.Store? && !e.Decide? && !e.Crash? && !e.Reload? && (!p.account.overflow ==> p.account.counters == c)
    ensures var a' := Next(p, x, e).account; !a'.overflow ==> a'.counters == Fated(c, p, deeds, e)
  {
    hide Standing, E.Freeze, E.Gate, ES.Dropped, Step;
  }

  lemma NextCounts(p: Pipe, x: E.Setup, lim: Limits, deeds: seq<Deed>, c: Counters, e: Event)
    requires PipeOk(p, x) && Possible(p, x, lim, e) && !e.Crash?
    requires FlagsTell(p.outbox, p.account.boot, deeds) && (!p.account.overflow ==> p.account.counters == c)
    ensures var a' := Next(p, x, e).account; !a'.overflow ==> a'.counters == Fated(c, p, deeds, e)
  {
    hide FlagsTell, ES.StockOk, Tallied, FiledOk, IdsOk, Durable, Fated;
    match e
    case Store(op, order) => StoreCounts(p, lim, deeds, c, op, order);
    case Decide(s, selected, admitted, limit) => DecideCounts(p, deeds, c, s, selected, admitted, limit);
    case Reload(mono, order) => MirrorOf(p.outbox); ReloadSame(p, mono, order); ReloadFated(c, p, deeds, e);
    case _ => RestCounts(p, x, deeds, c, e);
  }

  lemma ReloadFated(c: Counters, p: Pipe, deeds: seq<Deed>, e: Event)
    requires e.Reload?
    ensures Fated(c, p, deeds, e) == c
  {
  }

  // ---- Every event

  lemma BootKept(p: Pipe, x: E.Setup, e: Event)
    requires !e.Crash? && !e.Store? && !e.Reload?
    ensures Next(p, x, e).account.boot == p.account.boot
    ensures e.Enqueue? || Next(p, x, e).outbox == p.outbox
    ensures e.Enqueue? ==> Next(p, x, e).outbox == p.outbox || Next(p, x, e).outbox == Step(p.outbox, e.op)
  {
    hide E.Freeze, E.Gate, ES.Dropped, Step, E.Own;
  }

  lemma StoreBoot(p: Pipe, op: Op, order: seq<Key>)
    ensures StoreStep(p, op, order).account.boot == p.account.boot
            && StoreStep(p, op, order).outbox == Step(p.outbox, op)
  {
    var a, entries := p.account, p.outbox.session.entries;
    if op.Terminate? && op.key in entries {
      var b := entries[op.key];
      RemovedAllFrame(TerminalBatch(a, b, op.source),
                      entries[op.key := b.(meta := Killed(b.meta, op.reason, op.source), active := false)], order);
    }
    hide RemovedAll, Step;
  }

  lemma StoreFlags(p: Pipe, lim: Limits, deeds: seq<Deed>, op: Op, order: seq<Key>)
    requires Durable(p.outbox) && FlagsTell(p.outbox, p.account.boot, deeds) && Can(p.outbox, lim, op)
    ensures FlagsTell(Step(p.outbox, op), p.account.boot, deeds + DeedsOf(p, Store(op, order)))
  {
    hide FlagsTell, Durable;
    if op.Reserve? {
      ReserveTells(p.outbox, p.account.boot, deeds, op.key, op.later);
    } else if op.SdkRejected? {
      RejectTells(p.outbox, p.account.boot, deeds, op.key);
    } else {
      StepSame(p.outbox, lim, op);
      SameTells(p.outbox, Step(p.outbox, op), p.account.boot, deeds);
      assert deeds + [] == deeds;
    }
  }

  lemma EnqueueFlags(p: Pipe, x: E.Setup, lim: Limits, deeds: seq<Deed>, e: Event)
    requires Durable(p.outbox) && e.Enqueue? && MayEnqueue(p, lim, e.index, e.op, e.found)
    requires FlagsTell(p.outbox, p.account.boot, deeds)
    ensures FlagsTell(Next(p, x, e).outbox, p.account.boot, deeds)
  {
    assert Can(p.outbox, lim, e.op);
    BootKept(p, x, e);
    hide Next, Durable, FlagsTell, MayEnqueue, Can, Step;
    StepSame(p.outbox, lim, e.op);
    SameTells(p.outbox, Step(p.outbox, e.op), p.account.boot, deeds);
  }

  lemma ReloadFlags(p: Pipe, x: E.Setup, deeds: seq<Deed>, e: Event)
    requires Durable(p.outbox) && e.Reload? && ES.EmptyOf(p.stock)
    ensures Next(p, x, e).outbox == p.outbox && Next(p, x, e).account == p.account
  {
    MirrorOf(p.outbox);
    hide Durable, ReloadStep;
    ReloadSame(p, e.mono, e.order);
  }

  lemma NextFlags(p: Pipe, x: E.Setup, lim: Limits, deeds: seq<Deed>, e: Event)
    requires PipeOk(p, x) && Possible(p, x, lim, e) && !e.Crash? && FlagsTell(p.outbox, p.account.boot, deeds)
    ensures var p' := Next(p, x, e); FlagsTell(p'.outbox, p'.account.boot, deeds + DeedsOf(p, e))
  {
    hide Durable, PipeOk, Next, FlagsTell, Step, DeedsOf, Possible;
    PipeDurable(p, x);
    PossibleParts(p, x, lim, e);
    if e.Store? {
      StoreNext(p, x, e);
      StoreFlags(p, lim, deeds, e.op, e.order);
      assert e == Store(e.op, e.order);
    } else {
      NoDeed(p, e);
      assert deeds + [] == deeds;
      if e.Reload? {
        ReloadFlags(p, x, deeds, e);
      } else {
        BootKept(p, x, e);
        if e.Enqueue? { EnqueueFlags(p, x, lim, deeds, e); }
      }
    }
  }

  lemma PipeDurable(p: Pipe, x: E.Setup)
    requires PipeOk(p, x)
    ensures Durable(p.outbox)
  {
  }

  lemma PossibleParts(p: Pipe, x: E.Setup, lim: Limits, e: Event)
    requires Possible(p, x, lim, e)
    ensures e.Store? ==> Can(p.outbox, lim, e.op)
    ensures e.Reload? ==> ES.EmptyOf(p.stock)
    ensures e.Enqueue? ==> MayEnqueue(p, lim, e.index, e.op, e.found)
  {
    hide MayEnqueue, Can;
  }

  lemma NoDeed(p: Pipe, e: Event)
    requires !e.Store?
    ensures DeedsOf(p, e) == []
  {
  }

  lemma StoreNext(p: Pipe, x: E.Setup, e: Event)
    requires e.Store?
    ensures Next(p, x, e).account.boot == p.account.boot && Next(p, x, e).outbox == Step(p.outbox, e.op)
  {
    StoreBoot(p, e.op, e.order);
    hide StoreStep, Step;
  }

  lemma CrashTells(p: Pipe, x: E.Setup, mono: real, boot: string, order: seq<Key>)
    ensures Telling(CrashStep(p, mono, boot, order), Untold)
  {
    var o := RestartStep(p.outbox, mono);
    RestoredFrame(Opened(boot), o.session.entries, order);
    hide RestoredAll;
  }

  lemma {:induction false} RestoredFrame(a: Account, entries: map<Key, Entry>, order: seq<Key>)
    ensures var a' := RestoredAll(a, entries, order);
            a'.counters == a.counters && a'.overflow == a.overflow && a'.boot == a.boot
    decreases |order|
  {
    if order != [] {
      if order[0] in entries {
        RestoredFrame(RestoredBatch(a, entries[order[0]]), entries - {order[0]}, order[1..]);
      } else {
        RestoredFrame(a, entries, order[1..]);
      }
    }
  }

  lemma NextTells(p: Pipe, x: E.Setup, lim: Limits, t: Tale, e: Event)
    requires PipeOk(p, x) && Possible(p, x, lim, e) && Telling(p, t)
    ensures Telling(Next(p, x, e), ToldOf(t, p, e))
  {
    hide PipeOk, Possible, FlagsTell, Fated, DeedsOf, CrashStep, Next;
    if e.Crash? {
      CrashNext(p, x, e);
      CrashTells(p, x, e.mono, e.boot, e.order);
    } else {
      NextFlags(p, x, lim, t.deeds, e);
      NextCounts(p, x, lim, t.deeds, t.fates, e);
    }
  }

  lemma CrashNext(p: Pipe, x: E.Setup, e: Event)
    requires e.Crash?
    ensures Next(p, x, e) == CrashStep(p, e.mono, e.boot, e.order)
  {
    hide CrashStep;
  }

  lemma {:induction false} RunTells(p: Pipe, x: E.Setup, lim: Limits, t: Tale, events: seq<Event>)
    requires PipeOk(p, x) && Happens(p, x, lim, events) && Telling(p, t)
    ensures Telling(Evolve(p, x, events), TaleOf(t, p, x, events))
    decreases |events|
  {
    if events != [] {
      NextOk(p, x, lim, events[0]);
      NextTells(p, x, lim, t, events[0]);
      hide PipeOk, Possible, Telling, ToldOf, Next;
      RunTells(Next(p, x, events[0]), x, lim, ToldOf(t, p, events[0]), events[1..]);
    }
  }

  /** In every reachable state, while no counter has saturated, each counter is the number of events that the
      run of this process has brought to that fate. */
  lemma FatesExact(boot: string, x: E.Setup, lim: Limits, events: seq<Event>)
    requires Happens(Booted(boot), x, lim, events)
    ensures var a, t := Evolve(Booted(boot), x, events).account, TaleOf(Untold, Booted(boot), x, events);
            !a.overflow ==> a.counters == t.fates
  {
    hide FlagsTell, Evolve, TaleOf, PipeOk, Happens, Booted;
    BootedOk(boot, x);
    BootTells(boot);
    RunTells(Booted(boot), x, lim, Untold, events);
  }

  lemma BootTells(boot: string)
    ensures Telling(Booted(boot), Untold)
  {
  }

  /** And whatever is then counted as known unsent because it died of age was in no payload that is published
      as far as the outbox knows: every hand-out of its batch was undone before the next. */
  lemma UnsentIsUnpublished(boot: string, x: E.Setup, lim: Limits, events: seq<Event>, op: Op, order: seq<Key>, i: nat)
    requires Happens(Booted(boot), x, lim, events)
    requires Possible(Evolve(Booted(boot), x, events), x, lim, Store(op, order))
    requires op.Terminate? && op.source == AgeExpired && Own(Evolve(Booted(boot), x, events), op.key)
    ensures var p, t := Evolve(Booted(boot), x, events), TaleOf(Untold, Booted(boot), x, events);
            var b := p.outbox.session.entries[op.key];
            var c, c' := p.account.counters, Next(p, x, Store(op, order)).account.counters;
            !Next(p, x, Store(op, order)).account.overflow && c'.knownUnsent > c.knownUnsent ==>
              i < |t.deeds| && t.deeds[i] == HandedOut(b.meta.order) ==> UndoneAfter(t.deeds, b.meta.order, i)
  {
    hide FlagsTell, Evolve, TaleOf, PipeOk, Happens, Booted, Next, UndoneAfter, Possible;
    BootedOk(boot, x);
    BootTells(boot);
    RunTells(Booted(boot), x, lim, Untold, events);
    EvolveOk(Booted(boot), x, lim, events);
    UnsentNow(Evolve(Booted(boot), x, events), x, lim, TaleOf(Untold, Booted(boot), x, events), op, order, i);
  }

  lemma UnsentNow(p: Pipe, x: E.Setup, lim: Limits, t: Tale, op: Op, order: seq<Key>, i: nat)
    requires PipeOk(p, x) && Telling(p, t) && Possible(p, x, lim, Store(op, order))
    requires op.Terminate? && op.source == AgeExpired && Own(p, op.key)
    ensures var b, a' := p.outbox.session.entries[op.key], Next(p, x, Store(op, order)).account;
            !a'.overflow && a'.counters.knownUnsent > p.account.counters.knownUnsent ==>
              i < |t.deeds| && t.deeds[i] == HandedOut(b.meta.order) ==> UndoneAfter(t.deeds, b.meta.order, i)
  {
    hide FlagsTell, PipeOk, UndoneAfter, Possible, TerminalBatch, Next;
    NextCounts(p, x, lim, t.deeds, t.fates, Store(op, order));
    LatchedNext(p, x, op, order);
    assert StandsAt(t.deeds, p.outbox.session.entries[op.key].meta.order, i)
           ==> Standing(t.deeds, p.outbox.session.entries[op.key].meta.order);
    hide Standing;
  }

  lemma LatchedNext(p: Pipe, x: E.Setup, op: Op, order: seq<Key>)
    requires op.Terminate?
    ensures !Next(p, x, Store(op, order)).account.overflow ==> !p.account.overflow
  {
    OverflowLatches(p, op, order);
    hide StoreStep;
  }

  lemma OverflowLatches(p: Pipe, op: Op, order: seq<Key>)
    ensures op.Terminate? && !StoreStep(p, op, order).account.overflow ==> !p.account.overflow
  {
    var a, entries := p.account, p.outbox.session.entries;
    if op.Terminate? && op.key in entries {
      var b := entries[op.key];
      PrunedCounters(TerminalBatch(a, b, op.source),
                     entries[op.key := b.(meta := Killed(b.meta, op.reason, op.source), active := false)], order);
    }
    hide RemovedAll, Step;
  }

  // ---- The engine's answers

  /** What an answer adds to the counters, if the decision was awaited: filtered samples are filtered, those
      that come out of place or malformed are lost undecided, admitted ones are eligible, those without time
      or room are eligible and known to be unsent, and a stale one changes nothing. */
  function AnsweredWith(c: Counters, v: E.Verdict): Counters {
    match v
    case Filtered => c.(filtered := c.filtered + 1)
    case Discarded => c.(undecidedLost := c.undecidedLost + 1)
    case Malformed => c.(undecidedLost := c.undecidedLost + 1)
    case SlotError => c.(undecidedLost := c.undecidedLost + 1)
    case TimeInvalid => c.(eligible := c.eligible + 1, knownUnsent := c.knownUnsent + 1)
    case NoRoom => c.(eligible := c.eligible + 1, knownUnsent := c.knownUnsent + 1)
    case Admitted => c.(eligible := c.eligible + 1)
    case _ => c
  }

  lemma AnswerCounts(p: Pipe, x: E.Setup, s: E.Sample, limit: nat, v: E.Verdict)
    requires v != E.Unaccounted
    ensures var a' := Next(p, x, EventFor(s, limit, v)).account;
            !a'.overflow ==>
              a'.counters == if s.boot == p.account.boot && s.seqno in p.account.decisions
                             then AnsweredWith(p.account.counters, v) else p.account.counters
  {
    hide E.Own;
  }
}
