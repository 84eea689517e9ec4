/** Quotas and slots of the outbox: every step keeps at most eight batches in flight and stays within
    the batch, byte and DEAD quotas (src/plcnext_iot/storage/outbox.py:118-150, 200-247). */
module OutboxBounds {
  import opened Common
  import opened Outbox
  import opened OutboxRuns

  ghost predicate Bounded(m: map<Key, Entry>, lim: Limits) {
    && |m| <= lim.maxBatches && TotalSize(m) <= lim.maxBytes
    && |Dead(m)| <= lim.maxDead && |Active(m)| <= 8
  }

  // ---- Sums over entries

  lemma {:induction false} TotalSplit(m: map<Key, Entry>, k: Key)
    requires k in m
    ensures TotalSize(m) == m[k].meta.size + TotalSize(m - {k})
    decreases |m|
  {
    var j :| j in m && TotalSize(m) == m[j].meta.size + TotalSize(m - {j});
    if j != k {
      TotalSplit(m - {j}, k);
      TotalSplit(m - {k}, j);
      assert m - {j} - {k} == m - {k} - {j};
    }
  }

  /** Fewer entries of the same sizes weigh no more. */
  lemma {:induction false} TotalShrinks(m: map<Key, Entry>, m': map<Key, Entry>)
    requires m'.Keys <= m.Keys && forall k :: k in m' ==> m'[k].meta.size == m[k].meta.size
    ensures TotalSize(m') <= TotalSize(m)
    decreases |m|
  {
    if m != map[] {
      var k :| k in m;
      TotalSplit(m, k);
      if k in m' { TotalSplit(m', k); } else { assert m' - {k} == m'; }
      TotalShrinks(m - {k}, m' - {k});
    }
  }

  lemma CountShrinks<T>(a: set<T>, b: set<T>)
    requires a <= b
    ensures |a| <= |b|
  {
    assert b == a + (b - a);
  }

  // ---- Steps

  ghost predicate Lighter(m: map<Key, Entry>, m': map<Key, Entry>) {
    && m'.Keys <= m.Keys
    && forall k :: k in m' ==>
         && m'[k].meta.size == m[k].meta.size
         && (m'[k].meta.dead ==> m[k].meta.dead)
         && (m'[k].active ==> m[k].active)
  }

  lemma LighterBounded(m: map<Key, Entry>, m': map<Key, Entry>, lim: Limits)
    requires Bounded(m, lim) && Lighter(m, m')
    ensures Bounded(m', lim)
  {
    CountShrinks(m'.Keys, m.Keys);
    TotalShrinks(m, m');
    CountShrinks(Dead(m'), Dead(m));
    CountShrinks(Active(m'), Active(m));
  }

  lemma AddedBounded(m: map<Key, Entry>, k: Key, e: Entry, lim: Limits)
    requires Bounded(m, lim) && k !in m && !e.meta.dead && !e.active
    requires |m| < lim.maxBatches && TotalSize(m) + e.meta.size <= lim.maxBytes
    ensures Bounded(m[k := e], lim)
  {
    TotalSplit(m[k := e], k);
    AddedSets(m, k, e);
    hide TotalSize, Dead, Active;
  }

  lemma AddedSets(m: map<Key, Entry>, k: Key, e: Entry)
    requires k !in m && !e.meta.dead && !e.active
    ensures m[k := e] - {k} == m && |m[k := e]| == |m| + 1 && Dead(m[k := e]) == Dead(m)
            && Active(m[k := e]) == Active(m)
  {
    assert m[k := e].Keys == m.Keys + {k};
  }

  lemma LaunchedBounded(m: map<Key, Entry>, k: Key, e: Entry, lim: Limits)
    requires Bounded(m, lim) && k in m && |Active(m)| < 8
    requires e.meta.size == m[k].meta.size && e.meta.dead == m[k].meta.dead
    ensures Bounded(m[k := e], lim)
  {
    TotalShrinks(m, m[k := e]);
    LaunchedSets(m, k, e);
    hide TotalSize, Dead, Active;
    CountShrinks(Active(m[k := e]), Active(m) + {k});
  }

  lemma LaunchedSets(m: map<Key, Entry>, k: Key, e: Entry)
    requires k in m && e.meta.dead == m[k].meta.dead
    ensures |m[k := e]| == |m| && Dead(m[k := e]) == Dead(m) && Active(m[k := e]) <= Active(m) + {k}
  {
    assert m[k := e].Keys == m.Keys;
  }

  lemma KilledCount(m: map<Key, Entry>, k: Key, e: Entry, pruned: set<Key>, maxDead: nat)
    requires k in m && e.meta.dead && Overflow(m, k, maxDead, pruned)
    ensures |Dead(m[k := e] - pruned)| <= maxDead
  {
    assert Dead(m[k := e] - pruned) == (Dead(m) + {k}) - pruned;
    assert |Dead(m) + {k} - pruned| == |Dead(m) + {k}| - |pruned|;
  }

  lemma KilledBounded(m: map<Key, Entry>, k: Key, e: Entry, pruned: set<Key>, lim: Limits)
    requires Bounded(m, lim) && k in m && Overflow(m, k, lim.maxDead, pruned)
    requires e.meta.size == m[k].meta.size && e.meta.dead && !e.active
    ensures Bounded(m[k := e] - pruned, lim)
  {
    var m' := m[k := e] - pruned;
    KilledCount(m, k, e, pruned, lim.maxDead);
    CountShrinks(m'.Keys, m.Keys);
    TotalShrinks(m, m');
    CountShrinks(Active(m'), Active(m));
  }

  lemma InsertBounded(o: Outbox, lim: Limits, k: Key, payload: Bytes, stamp: Option<Stamp>, wire: int, truth: real)
    requires Durable(o) && Bounded(o.session.entries, lim) && MayInsert(o, lim, k, payload, stamp, truth)
    ensures Bounded(InsertStep(o, k, payload, stamp, wire, truth).session.entries, lim)
  {
    AddedBounded(o.session.entries, k, InsertStep(o, k, payload, stamp, wire, truth).session.entries[k], lim);
  }

  lemma ReserveBounded(o: Outbox, lim: Limits, k: Key, later: real)
    requires Durable(o) && Bounded(o.session.entries, lim) && k in o.session.entries && |Active(o.session.entries)| < 8
    ensures Bounded(ReserveStep(o, k, later).session.entries, lim)
  {
    LaunchedBounded(o.session.entries, k, Handed(o.session.entries[k], later), lim);
  }

  lemma TerminateBounded(o: Outbox, lim: Limits, k: Key, reason: string, source: Source, pruned: set<Key>, truth: real)
    requires Durable(o) && Bounded(o.session.entries, lim) && k in o.session.entries
    requires Overflow(o.session.entries, k, lim.maxDead, pruned)
    ensures Bounded(TerminateStep(o, k, reason, source, pruned, truth).session.entries, lim)
  {
    var e := o.session.entries[k];
    KilledBounded(o.session.entries, k, e.(meta := Killed(e.meta, reason, source), active := false), pruned, lim);
  }

  lemma RestartBounded(o: Outbox, lim: Limits, mono: real)
    requires Mirror(o) && Bounded(o.session.entries, lim)
    ensures Bounded(RestartStep(o, mono).session.entries, lim)
  {
    LighterBounded(o.session.entries, RestartStep(o, mono).session.entries, lim);
  }

  lemma RemovedBounded(o: Outbox, lim: Limits, k: Key)
    requires Bounded(o.session.entries, lim)
    ensures Bounded(AckStoredStep(o, k).session.entries, lim)
  {
    LighterBounded(o.session.entries, AckStoredStep(o, k).session.entries, lim);
  }

  lemma VolatileBounded(o: Outbox, lim: Limits, op: Op)
    requires Durable(o) && Bounded(o.session.entries, lim) && Volatile(op) && Can(o, lim, op)
    ensures Bounded(Step(o, op).session.entries, lim)
  {
    VolatileCalm(o, lim, op);
    LighterBounded(o.session.entries, Step(o, op).session.entries, lim);
  }

  lemma StepBounded(o: Outbox, lim: Limits, op: Op)
    requires Durable(o) && Bounded(o.session.entries, lim) && Can(o, lim, op)
    ensures Bounded(Step(o, op).session.entries, lim)
  {
    if op.AckStored? { RemovedBounded(o, lim, op.key); }
    assert Mirror(o);
    hide Durable, Mirror, Bounded, InsertStep, ReserveStep, TerminateStep, AckStoredStep, RestartStep, ReattachStep,
      MayInsert, MayStage, Overflow, Expired, Encloses, Correlates, SumRate, TotalSize;
    match op
    case Insert(k, payload, stamp, wire, truth) => InsertBounded(o, lim, k, payload, stamp, wire, truth);
    case Reserve(k, mono, later, now) => ReserveBounded(o, lim, k, later);
    case Terminate(k, reason, source, pruned, mono, now, truth) =>
      TerminateBounded(o, lim, k, reason, source, pruned, truth);
    case AckStored(k) =>
    case Restart(mono) => RestartBounded(o, lim, mono);
    case Reattach(mono) => ReattachSame(o, mono);
    case _ => VolatileBounded(o, lim, op);
  }

  // ---- Who is served

  lemma SlotTaken(m: map<Key, Entry>, k: Key, e: Entry)
    requires k in m && e.active && e.category == m[k].category
    ensures ActiveIn(m[k := e], e.category) == ActiveIn(m, e.category) + {k}
  {
  }

  /** `reserve` grants no class an eighth slot. */
  lemma NoEighthSlot(o: Outbox, lim: Limits, k: Key, mono: real, later: real, now: Readings)
    requires Durable(o) && Can(o, lim, Reserve(k, mono, later, now))
    ensures var m, m' := o.session.entries, Step(o, Reserve(k, mono, later, now)).session.entries;
            |ActiveIn(m, m[k].category)| < 7 && |ActiveIn(m', m[k].category)| <= 7
  {
    SlotTaken(o.session.entries, k, Handed(o.session.entries[k], later));
  }
}
