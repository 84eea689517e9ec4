/** Ownership, bytes and batch formation in the report engine
    (src/plcnext_iot/reporting/engine.py:66-102, 142-148, 192-284). */
module EngineStock {
  import opened Common
  import opened EngineModel

  // ---- Where owned events are

  function FrozenFlow(frozen: seq<Held>): multiset<Sample> {
    if frozen == [] then multiset{} else multiset(frozen[0].batch.samples) + FrozenFlow(frozen[1..])
  }

  /** Every event waiting in a queue or in a frozen batch, as often as it does. */
  function Flow(st: Stock): multiset<Sample> {
    multiset(SamplesOf(st.recent)) + multiset(SamplesOf(st.history)) + FrozenFlow(st.frozen)
  }

  /** A frozen batch: not empty, one configuration, no point twice, no more than 500. */
  ghost predicate BatchOk(b: Batch) {
    && 0 < |b.samples| <= 500
    && (forall i :: 0 <= i < |b.samples| ==> b.samples[i].epoch.version == b.version)
    && (forall i, j :: 0 <= i < j < |b.samples| ==> b.samples[i].name != b.samples[j].name)
  }

  ghost predicate FrozenOk(frozen: seq<Held>, sequence: nat) {
    && |frozen| <= 8
    && (forall i :: 0 <= i < |frozen| ==> BatchOk(frozen[i].batch) && frozen[i].batch.sequence <= sequence)
    && (forall i, j :: 0 <= i < j < |frozen| ==> frozen[i].batch.sequence < frozen[j].batch.sequence)
  }

  ghost predicate Labelled(owned: map<nat, Sample>) {
    forall id :: id in owned ==> owned[id].seqno == id
  }

  /** The owned events are the disjoint union of both queues and the frozen batches. */
  ghost predicate StockOk(x: Setup, st: Stock) {
    && Flow(st) == multiset(st.owned.Values) && Labelled(st.owned)
    && |st.owned| <= x.capacity && FrozenOk(st.frozen, st.sequence)
  }

  predicate EmptyOf(st: Stock) { st.owned == map[] && st.recent == [] && st.history == [] && st.frozen == [] }

  lemma EmptyStock(x: Setup, st: Stock)
    requires EmptyOf(st)
    ensures StockOk(x, st)
  {
    assert SamplesOf([]) == [];
  }

  lemma {:induction false} FlowSplit(a: seq<Held>, b: seq<Held>)
    ensures FrozenFlow(a + b) == FrozenFlow(a) + FrozenFlow(b)
  {
    if a == [] {
      assert a + b == b;
    } else {
      assert (a + b)[1..] == a[1..] + b;
      FlowSplit(a[1..], b);
    }
  }

  lemma FlowOne(h: Held)
    ensures FrozenFlow([h]) == multiset(h.batch.samples)
  {
    assert [h][1..] == [];
  }

  lemma SamplesSplit(q: seq<Queued>, n: nat)
    requires n <= |q|
    ensures multiset(SamplesOf(q)) == multiset(SamplesOf(q[..n])) + multiset(SamplesOf(q[n..]))
  {
    assert SamplesOf(q) == SamplesOf(q[..n]) + SamplesOf(q[n..]);
  }

  lemma OwnedAdds(owned: map<nat, Sample>, s: Sample)
    requires Labelled(owned) && s.seqno !in owned
    ensures multiset(owned[s.seqno := s].Values) == multiset(owned.Values) + multiset{s}
  {
    var owned' := owned[s.seqno := s];
    assert owned'[s.seqno] == s;
    assert s !in owned.Values;
    assert owned'.Values == owned.Values + {s} by {
      forall t | t in owned.Values ensures t in owned'.Values {
        var id :| id in owned && owned[id] == t;
        assert owned'[id] == t;
      }
    }
  }

  lemma SamplesAppend(q: seq<Queued>, one: Queued)
    ensures multiset(SamplesOf(q + [one])) == multiset(SamplesOf(q)) + multiset{one.sample}
  {
    assert SamplesOf(q + [one]) == SamplesOf(q) + [one.sample];
  }

  lemma OwnFlow(st: Stock, s: Sample, limit: nat)
    ensures Flow(Own(st, s, limit)) == Flow(st) + multiset{s}
  {
    SamplesAppend(st.history, Queued(s, limit));
    SamplesAppend(st.recent, Queued(s, limit));
  }

  lemma OwnOk(x: Setup, st: Stock, s: Sample, limit: nat)
    requires StockOk(x, st) && s.seqno !in st.owned && |st.owned| < x.capacity
    ensures StockOk(x, Own(st, s, limit))
  {
    OwnedAdds(st.owned, s);
    OwnFlow(st, s, limit);
    OwnedCount(st.owned, s);
  }

  lemma OwnedCount(owned: map<nat, Sample>, s: Sample)
    requires Labelled(owned) && s.seqno !in owned
    ensures Labelled(owned[s.seqno := s]) && |owned[s.seqno := s]| == |owned| + 1
  {
    assert owned[s.seqno := s].Keys == owned.Keys + {s.seqno};
  }

  // ---- The next batch is the longest admissible prefix

  /** A prefix that may become one batch. A single event always may. */
  ghost predicate Admissible(x: Setup, q: seq<Queued>, n: nat) {
    && 0 < n <= |q| && n <= 500
    && (n > 1 ==>
          && (forall i, j :: 0 <= i < j < n ==> q[i].sample.name != q[j].sample.name)
          && (forall i :: 0 <= i < n ==> q[i].sample.epoch.version == q[0].sample.epoch.version)
          && (forall i :: 0 <= i < n ==> n <= q[i].limit)
          && 512 + SumWidth(x, q[..n]) <= 131072)
  }

  lemma {:induction false} CapBound(q: seq<Queued>, n: nat, k: int)
    requires n <= |q|
    ensures k < Cap(q, n) <==> k < 500 && forall i :: 0 <= i < n ==> k < q[i].limit
  {
    if n > 0 { CapBound(q, n - 1, k); }
  }

  lemma JoinsAdmissible(x: Setup, q: seq<Queued>, n: nat)
    requires 0 < n < |q| && Admissible(x, q, n)
    ensures n < 500 && Joins(x, q, n) <==> Admissible(x, q, n + 1)
  {
    CapBound(q, n + 1, n);
    assert q[..n + 1][..n] == q[..n];
    assert SumWidth(x, q[..n + 1]) == SumWidth(x, q[..n]) + x.width(q[n].sample) + 1;
  }

  lemma {:induction false} SumWidthGrows(x: Setup, q: seq<Queued>, n: nat, m: nat)
    requires n <= m <= |q|
    ensures SumWidth(x, q[..n]) <= SumWidth(x, q[..m])
    decreases m
  {
    if n < m {
      assert q[..m][..m - 1] == q[..m - 1];
      SumWidthGrows(x, q, n, m - 1);
    }
  }

  /** Admissibility is inherited by shorter prefixes. */
  lemma AdmissibleShrinks(x: Setup, q: seq<Queued>, n: nat, m: nat)
    requires 0 < n <= m && Admissible(x, q, m)
    ensures Admissible(x, q, n)
  {
    SumWidthGrows(x, q, n, m);
  }

  lemma {:induction false} CutFromLongest(x: Setup, q: seq<Queued>, n: nat)
    requires Admissible(x, q, n)
    ensures Admissible(x, q, CutFrom(x, q, n))
    ensures forall m: nat :: Admissible(x, q, m) ==> m <= CutFrom(x, q, n)
    decreases |q| - n
  {
    if n < |q| {
      JoinsAdmissible(x, q, n);
      if n < 500 && Joins(x, q, n) { CutFromLongest(x, q, n + 1); }
    }
    if CutFrom(x, q, n) == n {
      forall m: nat | Admissible(x, q, m) ensures m <= n {
        if m > n { AdmissibleShrinks(x, q, n + 1, m); }
      }
    }
  }

  /** What is frozen is the longest admissible prefix of its queue. */
  lemma CutLongest(x: Setup, q: seq<Queued>)
    requires q != []
    ensures Admissible(x, q, Cut(x, q)) && forall m: nat :: Admissible(x, q, m) ==> m <= Cut(x, q)
  {
    assert Admissible(x, q, 1);
    CutFromLongest(x, q, 1);
  }

  lemma NewBatchOk(x: Setup, st: Stock, c: Class, now: real, wall: int, id: string)
    requires QueueOf(st, c) != []
    ensures BatchOk(NewBatch(x, st, c, now, wall, id))
  {
    CutLongest(x, QueueOf(st, c));
  }

  lemma FrozenMore(frozen: seq<Held>, h: Held, sequence: nat)
    requires FrozenOk(frozen, sequence) && |frozen| < 8 && BatchOk(h.batch) && h.batch.sequence == sequence + 1
    ensures FrozenOk(frozen + [h], sequence + 1)
  {
    hide BatchOk;
  }

  /** Events that leave the front of a queue and become the last frozen batch are where they were. */
  lemma FreezeFlow(q: seq<Queued>, n: nat, frozen: seq<Held>, h: Held)
    requires n <= |q| && h.batch.samples == SamplesOf(q[..n])
    ensures multiset(SamplesOf(q[n..])) + FrozenFlow(frozen + [h]) == multiset(SamplesOf(q)) + FrozenFlow(frozen)
  {
    SamplesSplit(q, n);
    FlowSplit(frozen, [h]);
    FlowOne(h);
  }

  /** What freezing changes. */
  lemma FreezeShape(x: Setup, st: Stock, c: Class, now: real, wall: int, id: string)
    requires QueueOf(st, c) != []
    ensures var st' := Freeze(x, st, c, now, wall, id);
            var q, h := QueueOf(st, c), Held(NewBatch(x, st, c, now, wall, id), c);
            && st'.owned == st.owned && st'.sequence == st.sequence + 1 == h.batch.sequence
            && st'.frozen == st.frozen + [h]
            && h.batch.samples == SamplesOf(q[..Cut(x, q)])
            && st'.recent == (if c == New then q[Cut(x, q)..] else st.recent)
            && st'.history == (if c == New then st.history else q[Cut(x, q)..])
  {
    hide Cut, SamplesOf;
  }

  lemma Moved(a: multiset<Sample>, a': multiset<Sample>, b: multiset<Sample>, f: multiset<Sample>, f': multiset<Sample>)
    requires a' + f' == a + f
    ensures a' + b + f' == a + b + f && b + a' + f' == b + a + f
  {
    assert a' + b + f' == (a' + f') + b && a + b + f == (a + f) + b;
    assert b + a' + f' == (a' + f') + b && b + a + f == (a + f) + b;
  }

  lemma FlowMoved(x: Setup, st: Stock, c: Class, now: real, wall: int, id: string)
    requires QueueOf(st, c) != []
    ensures Flow(Freeze(x, st, c, now, wall, id)) == Flow(st)
  {
    var q, h := QueueOf(st, c), Held(NewBatch(x, st, c, now, wall, id), c);
    FreezeShape(x, st, c, now, wall, id);
    hide Freeze, FrozenFlow, SamplesOf, NewBatch, Cut;
    FreezeFlow(q, Cut(x, q), st.frozen, h);
    Moved(multiset(SamplesOf(q)), multiset(SamplesOf(q[Cut(x, q)..])), multiset(SamplesOf(QueueOf(st, Other(c)))),
          FrozenFlow(st.frozen), FrozenFlow(st.frozen + [h]));
  }

  /** Freezing moves events from a queue to the last frozen batch and leaves the earlier ones alone. */
  lemma FreezeOk(x: Setup, st: Stock, c: Class, now: real, wall: int, id: string)
    requires StockOk(x, st) && QueueOf(st, c) != [] && |st.frozen| < 8
    ensures StockOk(x, Freeze(x, st, c, now, wall, id))
  {
    FreezeShape(x, st, c, now, wall, id);
    NewBatchOk(x, st, c, now, wall, id);
    FlowMoved(x, st, c, now, wall, id);
    hide Freeze, Flow, FrozenOk, Labelled, BatchOk, NewBatch;
    FrozenMore(st.frozen, Held(NewBatch(x, st, c, now, wall, id), c), st.sequence);
  }

  // ---- Turns

  lemma {:induction false} InClassAppend(a: seq<Held>, h: Held, c: Class)
    ensures InClass(a + [h], c) == InClass(a, c) + if h.category == c then 1 else 0
  {
    if a == [] {
      assert a + [h] == [h] && [h][1..] == [];
    } else {
      assert (a + [h])[1..] == a[1..] + [h];
      InClassAppend(a[1..], h, c);
    }
  }

  /** Freezing gives no class an eighth slot, and a class the next turn again only when the other has
      no event or no slot. */
  lemma FreezeFair(x: Setup, st: Stock, c: Class, now: real, wall: int, id: string)
    requires NextClass(st) == Some(c)
    ensures QueueOf(st, c) != []
    ensures var st' := Freeze(x, st, c, now, wall, id);
            InClass(st'.frozen, c) <= 7 && (NextClass(st') == Some(c) ==> !Available(st', Other(c)))
  {
    InClassAppend(st.frozen, Held(NewBatch(x, st, c, now, wall, id), c), c);
  }

  // ---- Letting go

  lemma {:induction false} FlowHas(frozen: seq<Held>, i: nat)
    requires i < |frozen|
    ensures FrozenFlow(frozen) == FrozenFlow(frozen[..i] + frozen[i + 1..]) + multiset(frozen[i].batch.samples)
  {
    assert frozen == frozen[..i] + ([frozen[i]] + frozen[i + 1..]);
    FlowSplit(frozen[..i], [frozen[i]] + frozen[i + 1..]);
    FlowSplit([frozen[i]], frozen[i + 1..]);
    FlowOne(frozen[i]);
    FlowSplit(frozen[..i], frozen[i + 1..]);
  }

  lemma OwnedDrops(owned: map<nat, Sample>, samples: seq<Sample>)
    requires Labelled(owned) && multiset(samples) <= multiset(owned.Values)
    ensures multiset((owned - Ids(samples)).Values) == multiset(owned.Values) - multiset(samples)
  {
    var owned' := owned - Ids(samples);
    forall t ensures multiset(owned'.Values)[t] == (multiset(owned.Values) - multiset(samples))[t] {
      assert multiset(samples)[t] <= multiset(owned.Values)[t];
      if t in owned.Values {
        assert t.seqno in owned && owned[t.seqno] == t;
        if t in samples { assert t.seqno in Ids(samples); } else { DropsKeep(owned, samples, t); }
      }
    }
  }

  lemma DropsKeep(owned: map<nat, Sample>, samples: seq<Sample>, t: Sample)
    requires Labelled(owned) && multiset(samples) <= multiset(owned.Values) && t in owned.Values && t !in samples
    ensures t in (owned - Ids(samples)).Values
  {
    assert t.seqno in owned && owned[t.seqno] == t;
    forall s | s in samples ensures s.seqno != t.seqno {
      assert s in multiset(samples);
      assert s in owned.Values;
      assert owned[s.seqno] == s;
    }
    assert (owned - Ids(samples))[t.seqno] == t;
  }

  function Dropped(st: Stock, i: nat): Stock
    requires i < |st.frozen|
  {
    st.(frozen := st.frozen[..i] + st.frozen[i + 1..], owned := st.owned - Ids(st.frozen[i].batch.samples))
  }

  lemma DroppedFlow(st: Stock, i: nat)
    requires i < |st.frozen| && Flow(st) == multiset(st.owned.Values) && Labelled(st.owned)
    ensures Flow(Dropped(st, i)) == multiset(Dropped(st, i).owned.Values)
  {
    FlowHas(st.frozen, i);
    OwnedDrops(st.owned, st.frozen[i].batch.samples);
  }

  lemma DroppedFrozen(frozen: seq<Held>, sequence: nat, i: nat)
    requires i < |frozen| && FrozenOk(frozen, sequence)
    ensures FrozenOk(frozen[..i] + frozen[i + 1..], sequence)
  {
  }

  lemma DroppedOk(x: Setup, st: Stock, i: nat)
    requires StockOk(x, st) && i < |st.frozen|
    ensures StockOk(x, Dropped(st, i))
  {
    DroppedFlow(st, i);
    DroppedFrozen(st.frozen, st.sequence, i);
    FewerKeys(Dropped(st, i).owned.Keys, st.owned.Keys);
  }

  lemma FewerKeys(a: set<nat>, b: set<nat>)
    requires a <= b
    ensures |a| <= |b|
  {
    assert b == a + (b - a);
  }

  lemma {:induction false} RelabelFlow(a: seq<Held>, b: seq<Held>)
    requires |a| == |b| && forall i :: 0 <= i < |a| ==> a[i].batch == b[i].batch
    ensures FrozenFlow(a) == FrozenFlow(b) && SumCost(a) == SumCost(b)
  {
    if a != [] { RelabelFlow(a[1..], b[1..]); }
  }

  lemma GateOk(x: Setup, st: Stock, watermark: nat)
    requires StockOk(x, st)
    ensures StockOk(x, Gate(st, watermark))
  {
    GateFlow(st, watermark);
    RelabelFrozen(st.frozen, Gate(st, watermark).frozen, st.sequence);
    hide Flow, FrozenOk, Labelled;
  }

  lemma GateFlow(st: Stock, watermark: nat)
    ensures Flow(Gate(st, watermark)) == Flow(st)
  {
    var all := st.history + st.recent;
    RelabelFlow(st.frozen, Gate(st, watermark).frozen);
    SamplesSplit(all, |st.history|);
    assert all[..|st.history|] == st.history && all[|st.history|..] == st.recent;
    hide FrozenFlow, SamplesOf;
  }

  lemma RelabelFrozen(a: seq<Held>, b: seq<Held>, sequence: nat)
    requires FrozenOk(a, sequence) && |a| == |b| && forall i :: 0 <= i < |a| ==> a[i].batch == b[i].batch
    ensures FrozenOk(b, sequence)
  {
    hide BatchOk;
  }

  // ---- Bytes

  lemma {:induction false} SumSplit(charge: Sample -> nat, a: set<Sample>, s: Sample)
    requires s in a
    ensures SumCharge(charge, a) == charge(s) + SumCharge(charge, a - {s})
    decreases |a|
  {
    var t :| t in a && SumCharge(charge, a) == charge(t) + SumCharge(charge, a - {t});
    if t != s {
      SumSplit(charge, a - {t}, s);
      SumSplit(charge, a - {s}, t);
      assert a - {t} - {s} == a - {s} - {t};
    }
  }

  lemma {:induction false} SumShrinks(charge: Sample -> nat, a: set<Sample>, b: set<Sample>)
    requires a <= b
    ensures SumCharge(charge, a) <= SumCharge(charge, b)
    decreases |b|
  {
    if b != {} {
      var s :| s in b;
      SumSplit(charge, b, s);
      if s in a { SumSplit(charge, a, s); } else { assert a - {s} == a; }
      SumShrinks(charge, a - {s}, b - {s});
    }
  }

  lemma SumAdds(charge: Sample -> nat, a: set<Sample>, s: Sample)
    ensures SumCharge(charge, a + {s}) == SumCharge(charge, a) + if s in a then 0 else charge(s)
  {
    if s in a {
      assert a + {s} == a;
    } else {
      SumSplit(charge, a + {s}, s);
      assert a + {s} - {s} == a;
    }
  }

  lemma {:induction false} CostSplit(a: seq<Held>, b: seq<Held>)
    ensures SumCost(a + b) == SumCost(a) + SumCost(b)
  {
    if a == [] {
      assert a + b == b;
    } else {
      assert (a + b)[1..] == a[1..] + b;
      CostSplit(a[1..], b);
    }
  }

  lemma CostWithout(frozen: seq<Held>, i: nat)
    requires i < |frozen|
    ensures SumCost(frozen) == SumCost(frozen[..i] + frozen[i + 1..]) + Cost(frozen[i].batch)
  {
    assert frozen == frozen[..i] + frozen[i..];
    CostSplit(frozen[..i], frozen[i..]);
    CostSplit(frozen[..i], frozen[i + 1..]);
    assert frozen[i..][1..] == frozen[i + 1..];
  }
}
