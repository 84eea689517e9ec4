/** Reference counts and a running byte total, and why they are exact
    (src/plcnext_iot/reporting/engine.py:66-78). */
module EngineLedger {
  import opened Common
  import opened EngineModel
  import opened EngineStock

  datatype Ref = Ref(sample: Sample, count: nat)

  datatype Ledger = Ledger(refs: map<nat, Ref>, used: int)

  function Retain(x: Setup, l: Ledger, s: Sample): Ledger {
    if s.seqno in l.refs then l.(refs := l.refs[s.seqno := l.refs[s.seqno].(count := l.refs[s.seqno].count + 1)])
    else Ledger(l.refs[s.seqno := Ref(s, 1)], l.used + x.charge(s))
  }

  function Forget(x: Setup, l: Ledger, s: Sample): Ledger {
    if s.seqno !in l.refs || l.refs[s.seqno].count == 0 then l
    else if l.refs[s.seqno].count > 1
      then l.(refs := l.refs[s.seqno := l.refs[s.seqno].(count := l.refs[s.seqno].count - 1)])
    else Ledger(l.refs - {s.seqno}, l.used - x.charge(s))
  }

  /** The places that name a sample. */
  datatype Root = Latest(name: Name) | Base(name: Name) | Owned(id: nat)

  /** What a place names. */
  function At(e: Engine, r: Root): Option<Sample> {
    match r
    case Latest(k) => Get(e.latest, k)
    case Base(k) => Get(e.memory.baselines, k)
    case Owned(id) => Get(e.stock.owned, id)
  }

  ghost predicate Rooted(roots: map<Root, Sample>, e: Engine) {
    forall r :: Get(roots, r) == At(e, r)
  }

  function Holders(roots: map<Root, Sample>, s: Sample): set<Root> {
    set r | r in roots && roots[r] == s
  }

  function Counted(refs: map<nat, Ref>): set<Sample> { set id | id in refs :: refs[id].sample }

  /** Each count is the number of places that name the sample, and no other sample is counted. */
  ghost predicate CountsOk(refs: map<nat, Ref>, roots: map<Root, Sample>) {
    && (forall id :: id in refs ==>
      refs[id].sample.seqno == id && refs[id].count > 0 && refs[id].count == |Holders(roots, refs[id].sample)|)
    && (forall r :: r in roots ==> roots[r].seqno in refs && refs[roots[r].seqno].sample == roots[r])
  }

  ghost predicate Exact(x: Setup, l: Ledger, roots: map<Root, Sample>, cost: nat) {
    CountsOk(l.refs, roots) && l.used == SumCharge(x.charge, Counted(l.refs)) + cost
  }

  // ---- Naming a sample once more

  lemma HoldersAdd(roots: map<Root, Sample>, r: Root, s: Sample, t: Sample)
    requires r !in roots
    ensures Holders(roots[r := s], t) == if t == s then Holders(roots, t) + {r} else Holders(roots, t)
  {
  }

  lemma HoldersDrop(roots: map<Root, Sample>, r: Root, t: Sample)
    requires r in roots
    ensures Holders(roots - {r}, t) == if t == roots[r] then Holders(roots, t) - {r} else Holders(roots, t)
  {
  }

  lemma NoHolders(refs: map<nat, Ref>, roots: map<Root, Sample>, s: Sample)
    requires CountsOk(refs, roots) && s.seqno !in refs
    ensures Holders(roots, s) == {}
  {
  }

  lemma RetainCount(x: Setup, l: Ledger, roots: map<Root, Sample>, r: Root, s: Sample, id: nat)
    requires CountsOk(l.refs, roots) && r !in roots && (s.seqno in l.refs ==> l.refs[s.seqno].sample == s)
    requires id in Retain(x, l, s).refs
    ensures var ref := Retain(x, l, s).refs[id];
            ref.sample.seqno == id && ref.count > 0 && ref.count == |Holders(roots[r := s], ref.sample)|
  {
    if s.seqno !in l.refs { NoHolders(l.refs, roots, s); }
    HoldersAdd(roots, r, s, Retain(x, l, s).refs[id].sample);
    hide Holders;
  }

  lemma RetainRoots(x: Setup, l: Ledger, roots: map<Root, Sample>, r: Root, s: Sample)
    requires CountsOk(l.refs, roots) && (s.seqno in l.refs ==> l.refs[s.seqno].sample == s)
    ensures var refs, roots' := Retain(x, l, s).refs, roots[r := s];
            forall q :: q in roots' ==> roots'[q].seqno in refs && refs[roots'[q].seqno].sample == roots'[q]
  {
    hide Holders;
  }

  lemma RetainCounts(x: Setup, l: Ledger, roots: map<Root, Sample>, r: Root, s: Sample)
    requires CountsOk(l.refs, roots) && r !in roots && (s.seqno in l.refs ==> l.refs[s.seqno].sample == s)
    ensures CountsOk(Retain(x, l, s).refs, roots[r := s])
  {
    RetainRoots(x, l, roots, r, s);
    forall id | id in Retain(x, l, s).refs
      ensures var ref := Retain(x, l, s).refs[id];
              ref.sample.seqno == id && ref.count > 0 && ref.count == |Holders(roots[r := s], ref.sample)|
    {
      RetainCount(x, l, roots, r, s, id);
    }
    hide Retain, Holders;
  }

  lemma CountedAdds(x: Setup, l: Ledger, s: Sample)
    requires forall id :: id in l.refs ==> l.refs[id].sample.seqno == id
    requires s.seqno in l.refs ==> l.refs[s.seqno].sample == s
    ensures Counted(Retain(x, l, s).refs) == Counted(l.refs) + {s}
    ensures s in Counted(l.refs) <==> s.seqno in l.refs
  {
    var refs := Retain(x, l, s).refs;
    forall t ensures t in Counted(refs) <==> t in Counted(l.refs) + {s} {
      if t in Counted(l.refs) { assert refs[t.seqno].sample == t; }
      if t in Counted(refs) && t != s { assert l.refs[t.seqno].sample == t; }
      assert refs[s.seqno].sample == s;
    }
  }

  lemma RetainExact(x: Setup, l: Ledger, roots: map<Root, Sample>, cost: nat, r: Root, s: Sample)
    requires Exact(x, l, roots, cost) && r !in roots && (s.seqno in l.refs ==> l.refs[s.seqno].sample == s)
    ensures Exact(x, Retain(x, l, s), roots[r := s], cost)
  {
    RetainCounts(x, l, roots, r, s);
    CountedAdds(x, l, s);
    SumAdds(x.charge, Counted(l.refs), s);
  }

  // ---- Naming it once less

  lemma ForgetCounts(x: Setup, l: Ledger, roots: map<Root, Sample>, r: Root)
    requires CountsOk(l.refs, roots) && r in roots
    ensures CountsOk(Forget(x, l, roots[r]).refs, roots - {r})
  {
    var s, refs, roots' := roots[r], Forget(x, l, roots[r]).refs, roots - {r};
    assert r in Holders(roots, s);
    HoldersDrop(roots, r, s);
    forall id | id in refs
      ensures refs[id].sample.seqno == id && refs[id].count > 0
      ensures refs[id].count == |Holders(roots', refs[id].sample)|
    {
      HoldersDrop(roots, r, refs[id].sample);
    }
    forall q | q in roots' ensures roots'[q].seqno in refs && refs[roots'[q].seqno].sample == roots'[q] {
      if roots[q] == s { TwoHolders(roots, s, q, r); }
    }
  }

  lemma TwoHolders(roots: map<Root, Sample>, s: Sample, q: Root, r: Root)
    requires q in roots && r in roots && q != r && roots[q] == s && roots[r] == s
    ensures |Holders(roots, s)| >= 2
  {
    assert {q, r} <= Holders(roots, s);
    assert Holders(roots, s) == {q, r} + (Holders(roots, s) - {q, r});
  }

  lemma CountedDrops(x: Setup, l: Ledger, s: Sample)
    requires forall id :: id in l.refs ==> l.refs[id].sample.seqno == id
    requires s.seqno in l.refs && l.refs[s.seqno].sample == s && l.refs[s.seqno].count > 0
    ensures Counted(Forget(x, l, s).refs) == if l.refs[s.seqno].count == 1 then Counted(l.refs) - {s}
            else Counted(l.refs)
    ensures s in Counted(l.refs)
  {
    var refs := Forget(x, l, s).refs;
    forall t ensures t in Counted(refs) <==> t in Counted(l.refs) && (l.refs[s.seqno].count == 1 ==> t != s) {
      if t in Counted(l.refs) && t.seqno in refs { assert refs[t.seqno].sample == t; }
      if t in Counted(refs) { assert l.refs[t.seqno].sample == t; }
    }
  }

  lemma ForgetExact(x: Setup, l: Ledger, roots: map<Root, Sample>, cost: nat, r: Root)
    requires Exact(x, l, roots, cost) && r in roots
    ensures Exact(x, Forget(x, l, roots[r]), roots - {r}, cost)
  {
    var s := roots[r];
    ForgetCounts(x, l, roots, r);
    CountedDrops(x, l, s);
    SumSplit(x.charge, Counted(l.refs), s);
  }

  // ---- The total

  lemma CountedIsRoots(refs: map<nat, Ref>, roots: map<Root, Sample>)
    requires CountsOk(refs, roots)
    ensures Counted(refs) == roots.Values
  {
    forall id | id in refs ensures refs[id].sample in roots.Values {
      assert |Holders(roots, refs[id].sample)| > 0;
      var r :| r in Holders(roots, refs[id].sample);
      assert roots[r] == refs[id].sample;
    }
    forall r | r in roots ensures roots[r] in Counted(refs) { assert refs[roots[r].seqno].sample == roots[r]; }
  }

  lemma RootsRetained(roots: map<Root, Sample>, e: Engine)
    requires Rooted(roots, e)
    ensures roots.Values == Retained(e)
  {
    forall t | t in roots.Values ensures t in Retained(e) {
      var r :| r in roots && roots[r] == t;
      assert Get(roots, r) == At(e, r);
    }
    forall t | t in e.latest.Values ensures t in roots.Values {
      var k :| k in e.latest && e.latest[k] == t;
      assert Get(roots, Latest(k)) == At(e, Latest(k));
    }
    forall t | t in e.memory.baselines.Values ensures t in roots.Values {
      var k :| k in e.memory.baselines && e.memory.baselines[k] == t;
      assert Get(roots, Base(k)) == At(e, Base(k));
    }
    forall t | t in e.stock.owned.Values ensures t in roots.Values {
      var id :| id in e.stock.owned && e.stock.owned[id] == t;
      assert Get(roots, Owned(id)) == At(e, Owned(id));
    }
  }

  /** The running total is the sum over what is retained. */
  lemma ExactUsed(x: Setup, l: Ledger, roots: map<Root, Sample>, e: Engine)
    requires Rooted(roots, e) && Exact(x, l, roots, SumCost(e.stock.frozen))
    ensures l.used == Used(x, e)
  {
    CountedIsRoots(l.refs, roots);
    RootsRetained(roots, e);
  }
}
