/** Selection refines a one-sample memory: comparing with "the newest of shadow and baseline" is
    comparing with the last admitted sample of the point's current epoch, whatever has been frozen
    and committed since, in whatever order (src/plcnext_iot/reporting/engine.py:104-190, 241-271). */
module EngineMemory {
  import opened Common
  import opened EngineModel

  // ---- The reference

  /** Per point: its epoch, the last number seen, the next report slot and one sample. */
  datatype Recall = Recall(epochs: map<Name, Epoch>, seen: map<Name, nat>, due: map<Name, int>, last: map<Name, Sample>)

  function LastOf(r: Recall, k: Name): Option<Sample> { if k in r.last then Some(r.last[k]) else None }

  function RecallBegin(r: Recall, s: Sample): Recall {
    var r' := r.(seen := r.seen[s.name := s.seqno]);
    if s.name in r.epochs && r.epochs[s.name] == s.epoch then r'
    else r'.(epochs := r.epochs[s.name := s.epoch], last := r.last - {s.name}, due := r.due[s.name := s.origin])
  }

  /** What is decided about a sample before admission. */
  datatype Finding = Ignored | Unslotted | Passed | Picked

  function RecallFinding(x: Setup, conf: Option<Conf>, generation: Option<int>, r: Recall, s: Sample): Finding {
    if Foreign(x, conf, generation, s) || !s.captured || s.boot != x.boot || SeenBefore(r.seen, s) then Ignored
    else
      var r', p := RecallBegin(r, s), conf.value.points[s.name];
      var due := if s.name in r'.due then r'.due[s.name] else 0;
      if BadSlot(p, s) then Unslotted
      else if Differs(p, LastOf(r', s.name), s) || Triggers(p, due, s) then Picked
      else Passed
  }

  function RecallAccept(x: Setup, conf: Option<Conf>, generation: Option<int>, r: Recall, s: Sample,
                        admitted: bool): Recall {
    var finding := RecallFinding(x, conf, generation, r, s);
    if finding == Ignored then r
    else
      var r', p := RecallBegin(r, s), conf.value.points[s.name];
      var due := if s.name in r'.due then r'.due[s.name] else 0;
      if finding == Unslotted then r'
      else
        var r'' := r'.(due := r'.due[s.name := NextDue(p, due, s)]);
        if finding == Picked && admitted then r''.(last := r''.last[s.name := s]) else r''
  }

  // ---- What the engine's memory recalls

  function RecallOf(m: Memory): Recall {
    Recall(m.epochs, m.seen, m.due, map k | k in m.epochs && Baseline(m, k).Some? :: Baseline(m, k).value)
  }

  function FindingOf(v: Verdict): Finding {
    match v
    case Discarded => Ignored
    case Malformed => Ignored
    case Stale => Ignored
    case SlotError => Unslotted
    case Filtered => Passed
    case _ => Picked
  }

  predicate Current(m: Memory, k: Name, e: Epoch) { k in m.epochs && m.epochs[k] == e }

  /** Each group of owned samples is what its label says, and none is empty. */
  ghost predicate GroupOk(g: (Epoch, Name), mine: map<nat, Sample>) {
    mine != map[] && forall q :: q in mine ==> mine[q].seqno == q && mine[q].epoch == g.0 && mine[q].name == g.1
  }

  /** All that selection knows of one point in one epoch. */
  datatype Spot = Spot(seen: Option<nat>, shadow: Option<Sample>, base: Option<Sample>, mine: map<nat, Sample>)

  function MineOf(owners: map<(Epoch, Name), map<nat, Sample>>, g: (Epoch, Name)): map<nat, Sample> {
    if g in owners then owners[g] else map[]
  }

  function At(m: Memory, k: Name, e: Epoch): Spot {
    Spot(Get(m.seen, k), Get(m.shadows, k), Get(m.baselines, k), MineOf(m.owners, (e, k)))
  }

  function NewerOf(shadow: Option<Sample>, base: Option<Sample>): Option<Sample> {
    if shadow.None? then base
    else if base.None? || shadow.value.seqno >= base.value.seqno then shadow
    else base
  }

  /** The shadow is the newest owned sample, the baseline one already released, and neither is newer
      than what has been seen. */
  ghost predicate SpotOk(p: Spot, k: Name, e: Epoch) {
    && p.seen.Some?
    && (p.shadow.Some? <==> p.mine != map[])
    && (forall q :: q in p.mine ==> p.mine[q].seqno == q && p.mine[q].epoch == e && p.mine[q].name == k)
    && (p.shadow.Some? ==> IsMax(p.mine, p.shadow.value.seqno) && p.mine[p.shadow.value.seqno] == p.shadow.value)
    && (p.shadow.Some? ==> p.shadow.value.seqno <= p.seen.value)
    && (p.base.Some? ==> p.base.value.epoch == e && p.base.value.name == k && p.base.value.seqno <= p.seen.value)
    && (p.base.Some? ==> p.base.value.seqno !in p.mine)
  }

  /** Groups of owned samples are what their labels say, and every point is in order. */
  ghost predicate Kept(m: Memory) {
    && (forall g :: g in m.owners ==> GroupOk(g, m.owners[g]))
    && (forall k :: k in m.epochs ==> SpotOk(At(m, k, m.epochs[k]), k, m.epochs[k]))
    && m.shadows.Keys <= m.epochs.Keys && m.baselines.Keys <= m.epochs.Keys
  }

  /** A point's epoch opens while events of an earlier time it was open are still owned. */
  predicate Reopens(m: Memory, s: Sample) {
    !Current(m, s.name, s.epoch) && (s.epoch, s.name) in m.owners
  }

  lemma BaselineAt(m: Memory, k: Name, e: Epoch)
    ensures Baseline(m, k) == NewerOf(At(m, k, e).shadow, At(m, k, e).base)
  {
  }

  /** `m'` differs from `m` only in what it knows of point `k`. */
  ghost predicate Elsewhere(m: Memory, m': Memory, k: Name) {
    && (forall j :: j != k ==> (j in m.epochs <==> j in m'.epochs))
    && (forall j :: j != k && j in m.epochs ==>
      m'.epochs[j] == m.epochs[j] && At(m', j, m.epochs[j]) == At(m, j, m.epochs[j]))
    && m'.shadows.Keys <= m.shadows.Keys + {k} && m'.baselines.Keys <= m.baselines.Keys + {k}
  }

  lemma KeptFrom(m: Memory, m': Memory, k: Name)
    requires Kept(m) && Elsewhere(m, m', k)
    requires forall g :: g in m'.owners ==> GroupOk(g, m'.owners[g])
    requires if k in m'.epochs then SpotOk(At(m', k, m'.epochs[k]), k, m'.epochs[k])
             else k !in m'.shadows && k !in m'.baselines
    ensures Kept(m')
  {
    hide At, SpotOk, GroupOk;
    forall j | j in m'.epochs ensures SpotOk(At(m', j, m'.epochs[j]), j, m'.epochs[j]) {
      if j != k { assert SpotOk(At(m, j, m.epochs[j]), j, m.epochs[j]); }
    }
  }

  lemma RecallFrom(m: Memory, m': Memory, k: Name, last: Option<Sample>)
    requires Elsewhere(m, m', k) && k in m'.epochs && Baseline(m', k) == last
    ensures RecallOf(m').last == if last.Some? then RecallOf(m).last[k := last.value] else RecallOf(m).last - {k}
  {
    forall j | j != k && j in m.epochs ensures Baseline(m', j) == Baseline(m, j) {
      BaselineAt(m, j, m.epochs[j]);
      BaselineAt(m', j, m.epochs[j]);
    }
  }

  // ---- Seeing a sample

  lemma BeginAt(m: Memory, s: Sample, j: Name, e: Epoch)
    requires j != s.name
    ensures At(Begin(m, s), j, e) == At(m, j, e)
  {
  }

  lemma BeginKeys(m: Memory, s: Sample)
    ensures var m' := Begin(m, s);
            && (forall j :: j != s.name ==> (j in m.epochs <==> j in m'.epochs))
            && (forall j :: j != s.name && j in m.epochs ==> m'.epochs[j] == m.epochs[j])
            && m'.shadows.Keys <= m.shadows.Keys + {s.name} && m'.baselines.Keys <= m.baselines.Keys + {s.name}
            && Current(m', s.name, s.epoch) && m'.owners == m.owners
  {
  }

  lemma BeginElsewhere(m: Memory, s: Sample)
    ensures Elsewhere(m, Begin(m, s), s.name) && Current(Begin(m, s), s.name, s.epoch) && Begin(m, s).owners == m.owners
  {
    BeginKeys(m, s);
    forall j | j != s.name && j in m.epochs ensures At(Begin(m, s), j, m.epochs[j]) == At(m, j, m.epochs[j]) {
      BeginAt(m, s, j, m.epochs[j]);
    }
    hide Begin, At;
  }

  lemma BeginSpot(m: Memory, s: Sample)
    requires Current(m, s.name, s.epoch) ==> SpotOk(At(m, s.name, s.epoch), s.name, s.epoch)
    requires !SeenBefore(m.seen, s) && !Reopens(m, s)
    ensures SpotOk(At(Begin(m, s), s.name, s.epoch), s.name, s.epoch)
  {
    if Current(m, s.name, s.epoch) {
      assert At(Begin(m, s), s.name, s.epoch) == At(m, s.name, s.epoch).(seen := Some(s.seqno));
    }
  }

  lemma BeginKept(m: Memory, s: Sample)
    requires Kept(m) && !SeenBefore(m.seen, s) && !Reopens(m, s)
    ensures Kept(Begin(m, s))
  {
    BeginElsewhere(m, s);
    BeginSpot(m, s);
    KeptFrom(m, Begin(m, s), s.name);
  }

  lemma BeginBaseline(m: Memory, s: Sample)
    ensures Baseline(Begin(m, s), s.name)
         == if Current(m, s.name, s.epoch) then Baseline(m, s.name) else None
  {
  }

  lemma BeginLast(m: Memory, s: Sample)
    ensures RecallOf(Begin(m, s)).last == RecallBegin(RecallOf(m), s).last
  {
    BeginElsewhere(m, s);
    RecallFrom(m, Begin(m, s), s.name, Baseline(Begin(m, s), s.name));
    BeginBaseline(m, s);
    if s.name in m.epochs { RecalledLast(m, s.name); }
    assert RecallOf(m).epochs == m.epochs;
    hide Elsewhere, Baseline, Begin, RecallOf;
  }

  lemma RecalledLast(m: Memory, k: Name)
    requires k in m.epochs
    ensures LastOf(RecallOf(m), k) == Baseline(m, k)
  {
  }

  lemma BeginRecall(m: Memory, s: Sample)
    ensures RecallOf(Begin(m, s)) == RecallBegin(RecallOf(m), s)
  {
    BeginLast(m, s);
    hide Baseline;
  }

  /** Everything remembered of the point is older than the sample. */
  predicate Newest(m: Memory, s: Sample) {
    && (s.name in m.shadows ==> m.shadows[s.name].seqno < s.seqno)
    && (s.name in m.baselines ==> m.baselines[s.name].seqno < s.seqno)
  }

  lemma BeginNewest(m: Memory, s: Sample)
    requires Kept(m) && !SeenBefore(m.seen, s)
    ensures Newest(Begin(m, s), s) && Current(Begin(m, s), s.name, s.epoch) && Begin(m, s).seen[s.name] == s.seqno
  {
    if s.name in m.shadows || s.name in m.baselines {
      assert SpotOk(At(m, s.name, m.epochs[s.name]), s.name, m.epochs[s.name]);
    }
  }

  lemma DueKept(m: Memory, due: map<Name, int>)
    requires Kept(m)
    ensures Kept(m.(due := due))
  {
    assert forall j :: j in m.epochs ==> At(m.(due := due), j, m.epochs[j]) == At(m, j, m.epochs[j]);
  }

  lemma DueRecall(m: Memory, due: map<Name, int>)
    ensures RecallOf(m.(due := due)) == RecallOf(m).(due := due)
  {
    assert forall j :: j in m.epochs ==> Baseline(m.(due := due), j) == Baseline(m, j);
  }

  lemma RememberElsewhere(m: Memory, s: Sample)
    requires Current(m, s.name, s.epoch)
    ensures Elsewhere(m, Remember(m, s), s.name)
  {
  }

  lemma RememberAt(m: Memory, s: Sample)
    ensures var p := At(m, s.name, s.epoch);
            At(Remember(m, s), s.name, s.epoch) == p.(shadow := Some(s), mine := p.mine[s.seqno := s])
  {
  }

  lemma RememberGroups(m: Memory, s: Sample)
    requires forall g :: g in m.owners ==> GroupOk(g, m.owners[g])
    ensures var m' := Remember(m, s); forall g :: g in m'.owners ==> GroupOk(g, m'.owners[g])
  {
    var m', g := Remember(m, s), (s.epoch, s.name);
    assert s.seqno in m'.owners[g];
  }

  lemma RememberKept(m: Memory, s: Sample)
    requires Kept(m) && Newest(m, s) && Current(m, s.name, s.epoch) && m.seen[s.name] == s.seqno
    ensures Kept(Remember(m, s))
  {
    RememberElsewhere(m, s);
    RememberAt(m, s);
    RememberGroups(m, s);
    RememberSpot(At(m, s.name, s.epoch), s.name, s.epoch, s);
    KeptFrom(m, Remember(m, s), s.name);
  }

  lemma RememberRecall(m: Memory, s: Sample)
    requires Newest(m, s) && Current(m, s.name, s.epoch)
    ensures RecallOf(Remember(m, s)) == RecallOf(m).(last := RecallOf(m).last[s.name := s])
  {
    RememberElsewhere(m, s);
    RecallFrom(m, Remember(m, s), s.name, Some(s));
  }

  lemma RememberSpot(p: Spot, k: Name, e: Epoch, s: Sample)
    requires SpotOk(p, k, e) && s.epoch == e && s.name == k && p.seen == Some(s.seqno)
    requires (p.shadow.Some? ==> p.shadow.value.seqno < s.seqno) && (p.base.Some? ==> p.base.value.seqno < s.seqno)
    ensures SpotOk(p.(shadow := Some(s), mine := p.mine[s.seqno := s]), k, e)
    ensures p.mine[s.seqno := s] != map[]
  {
    assert s.seqno in p.mine[s.seqno := s];
  }

  // ---- Committing a sample

  predicate Listed(m: Memory, s: Sample) {
    (s.epoch, s.name) in m.owners && s.seqno in m.owners[(s.epoch, s.name)] && m.owners[(s.epoch, s.name)][s.seqno] == s
  }

  ghost function CommitOne(m: Memory, s: Sample): Memory { Release(Settle(m, s), s) }

  /** What committing `s` makes of its point, if its epoch is current. */
  ghost function CommitSpot(p: Spot, s: Sample): Spot {
    var rest := p.mine - {s.seqno};
    p.(base := if p.base.None? || s.seqno > p.base.value.seqno then Some(s) else p.base, mine := rest,
       shadow := if rest == map[] then None else Some(rest[MaxOf(rest)]))
  }

  lemma OnlyOne(mine: map<nat, Sample>, q: nat)
    requires q in mine && mine - {q} == map[]
    ensures forall j :: j in mine ==> j == q
  {
    assert forall j :: j in mine && j != q ==> j in mine - {q};
  }

  /** The point's memory of its newest sample survives. */
  lemma CommitSpotOk(p: Spot, k: Name, e: Epoch, s: Sample)
    requires SpotOk(p, k, e) && s.seqno in p.mine && p.mine[s.seqno] == s
    ensures SpotOk(CommitSpot(p, s), k, e)
    ensures NewerOf(CommitSpot(p, s).shadow, CommitSpot(p, s).base) == NewerOf(p.shadow, p.base)
  {
    var rest := p.mine - {s.seqno};
    if rest == map[] {
      OnlyOne(p.mine, s.seqno);
    } else {
      var q := MaxOf(rest);
      assert q in p.mine;
      if p.shadow.value.seqno != s.seqno { assert p.shadow.value.seqno in rest; }
    }
  }

  lemma CommitAt(m: Memory, s: Sample)
    requires Current(m, s.name, s.epoch) && Listed(m, s)
    ensures At(CommitOne(m, s), s.name, s.epoch) == CommitSpot(At(m, s.name, s.epoch), s)
  {
  }

  lemma WithoutGroups(owners: map<(Epoch, Name), map<nat, Sample>>, g: (Epoch, Name), q: nat)
    requires forall h :: h in owners ==> GroupOk(h, owners[h])
    ensures forall h :: h in Without(owners, g, q) ==> GroupOk(h, Without(owners, g, q)[h])
  {
    forall h | h in Without(owners, g, q) ensures GroupOk(h, Without(owners, g, q)[h]) { assert GroupOk(h, owners[h]); }
  }

  lemma CommitOther(m: Memory, s: Sample, j: Name, e: Epoch)
    requires j != s.name
    ensures At(CommitOne(m, s), j, e) == At(m, j, e)
  {
    CommitOwners(m, s);
    WithoutAt(m.owners, (s.epoch, s.name), s.seqno, (e, j));
    CommitViews(m, s, j);
  }

  lemma CommitOwners(m: Memory, s: Sample)
    ensures CommitOne(m, s).owners == Without(m.owners, (s.epoch, s.name), s.seqno) && CommitOne(m, s).seen == m.seen
  {
  }

  lemma CommitViews(m: Memory, s: Sample, j: Name)
    requires j != s.name
    ensures Get(CommitOne(m, s).shadows, j) == Get(m.shadows, j)
            && Get(CommitOne(m, s).baselines, j) == Get(m.baselines, j)
  {
    hide MaxOf, Without;
  }

  lemma WithoutAt(owners: map<(Epoch, Name), map<nat, Sample>>, g: (Epoch, Name), q: nat, h: (Epoch, Name))
    requires h != g
    ensures MineOf(Without(owners, g, q), h) == MineOf(owners, h)
  {
  }

  lemma PutKeys<K, V>(m: map<K, V>, k: K, v: V)
    ensures m[k := v].Keys <= m.Keys + {k} && (m - {k}).Keys <= m.Keys + {k}
  {
  }

  lemma SettleKeys(m: Memory, s: Sample)
    ensures var m' := Settle(m, s);
            m'.epochs == m.epochs && m'.shadows == m.shadows && m'.baselines.Keys <= m.baselines.Keys + {s.name}
  {
    PutKeys(m.baselines, s.name, s);
  }

  lemma ReleaseKeys(m: Memory, s: Sample)
    ensures var m' := Release(m, s);
            m'.epochs == m.epochs && m'.shadows.Keys <= m.shadows.Keys + {s.name} && m'.baselines == m.baselines
  {
    hide Without;
    var g := (s.epoch, s.name);
    if g in m.owners {
      var rest := m.owners[g] - {s.seqno};
      PutKeys(m.shadows, s.name, if rest == map[] then s else rest[MaxOf(rest)]);
    }
  }

  lemma CommitKeys(m: Memory, s: Sample)
    ensures var m' := CommitOne(m, s);
            m'.epochs == m.epochs && m'.shadows.Keys <= m.shadows.Keys + {s.name}
              && m'.baselines.Keys <= m.baselines.Keys + {s.name}
  {
    SettleKeys(m, s);
    ReleaseKeys(Settle(m, s), s);
    hide Settle, Release;
  }

  lemma CommitElsewhere(m: Memory, s: Sample)
    ensures Elsewhere(m, CommitOne(m, s), s.name)
  {
    CommitKeys(m, s);
    forall j | j != s.name && j in m.epochs ensures At(CommitOne(m, s), j, m.epochs[j]) == At(m, j, m.epochs[j]) {
      CommitOther(m, s, j, m.epochs[j]);
    }
  }

  lemma CommitFrame(m: Memory, s: Sample)
    requires Listed(m, s)
    ensures var m' := CommitOne(m, s);
            && m'.epochs == m.epochs && m'.seen == m.seen && m'.due == m.due
            && m'.owners == Without(m.owners, (s.epoch, s.name), s.seqno)
            && (!Current(m, s.name, s.epoch) ==> m'.shadows == m.shadows && m'.baselines == m.baselines)
  {
  }

  /** The point of a committed sample stays in order and recalls the same. */
  lemma CommitOwnPoint(m: Memory, s: Sample)
    requires s.name in m.epochs && Listed(m, s) && SpotOk(At(m, s.name, m.epochs[s.name]), s.name, m.epochs[s.name])
    ensures SpotOk(At(CommitOne(m, s), s.name, m.epochs[s.name]), s.name, m.epochs[s.name])
    ensures Baseline(CommitOne(m, s), s.name) == Baseline(m, s.name)
  {
    var m', k, e := CommitOne(m, s), s.name, m.epochs[s.name];
    BaselineAt(m, k, e);
    BaselineAt(m', k, e);
    if e == s.epoch {
      CommitAt(m, s);
      CommitSpotOk(At(m, k, e), k, e, s);
    } else {
      CommitFrame(m, s);
      WithoutAt(m.owners, (s.epoch, s.name), s.seqno, (e, k));
    }
  }

  lemma CommitOneKept(m: Memory, s: Sample)
    requires Kept(m) && Listed(m, s)
    ensures Kept(CommitOne(m, s))
  {
    CommitElsewhere(m, s);
    CommitFrame(m, s);
    WithoutGroups(m.owners, (s.epoch, s.name), s.seqno);
    if s.name in m.epochs { CommitOwnPoint(m, s); }
    KeptFrom(m, CommitOne(m, s), s.name);
  }

  lemma RecallSame(m: Memory, m': Memory, k: Name)
    requires Elsewhere(m, m', k) && m'.epochs == m.epochs && (k in m.epochs ==> Baseline(m', k) == Baseline(m, k))
    ensures RecallOf(m').last == RecallOf(m).last
  {
    forall j | j in m.epochs ensures Baseline(m', j) == Baseline(m, j) {
      BaselineAt(m, j, m.epochs[j]);
      BaselineAt(m', j, m.epochs[j]);
    }
  }

  lemma CommitOneRecall(m: Memory, s: Sample)
    requires Kept(m) && Listed(m, s)
    ensures RecallOf(CommitOne(m, s)) == RecallOf(m)
  {
    CommitElsewhere(m, s);
    CommitFrame(m, s);
    if s.name in m.epochs { CommitOwnPoint(m, s); }
    RecallSame(m, CommitOne(m, s), s.name);
  }

  lemma CommitOneListed(m: Memory, s: Sample, t: Sample)
    requires Listed(m, t) && t.seqno != s.seqno
    ensures Listed(CommitOne(m, s), t)
  {
    var g := (s.epoch, s.name);
    if g in m.owners && g == (t.epoch, t.name) { assert t.seqno in m.owners[g] - {s.seqno}; }
    assert CommitOne(m, s).owners == Without(m.owners, g, s.seqno);
  }

  predicate Distinct(samples: seq<Sample>) {
    forall i, j :: 0 <= i < j < |samples| ==> samples[i].seqno != samples[j].seqno
  }

  /** Committing a batch changes nothing that selection can see. */
  lemma {:induction false} CommitKept(m: Memory, samples: seq<Sample>)
    requires Kept(m) && Distinct(samples) && forall i :: 0 <= i < |samples| ==> Listed(m, samples[i])
    ensures Kept(Commit(m, samples)) && RecallOf(Commit(m, samples)) == RecallOf(m)
    decreases |samples|
  {
    if samples != [] {
      var m', rest := CommitOne(m, samples[0]), samples[1..];
      CommitOneKept(m, samples[0]);
      CommitOneRecall(m, samples[0]);
      forall i | 0 <= i < |rest| ensures Listed(m', rest[i]) { CommitOneListed(m, samples[0], rest[i]); }
      CommitKept(m', rest);
    }
  }
}
