/** What the gauges should read: every outbox entry weighed and added up. */
module PipelineGauges {
  import opened Common
  import opened Outbox
  import opened Accounts

  function Plus(a: Gauges, b: Gauges): Gauges {
    Gauges(a.pending + b.pending, a.dead + b.dead, a.pendingBatches + b.pendingBatches, a.deadBatches + b.deadBatches,
           a.payloadBytes + b.payloadBytes, a.unknownPending + b.unknownPending, a.unknownDead + b.unknownDead)
  }

  /** One entry: its events count only for the boot that captured them. */
  function Weigh(e: Entry, boot: string): Gauges {
    var mine := e.boot == Some(boot);
    var n := if mine then |e.events| else 0;
    var stranger := if mine then 0 else 1;
    if e.meta.dead then Gauges(0, n, 0, 1, e.meta.size, 0, stranger)
    else Gauges(n, 0, 1, 0, e.meta.size, stranger, 0)
  }

  ghost function Total(entries: map<Key, Entry>, boot: string): Gauges {
    if entries == map[] then Nothing
    else var k :| k in entries; Plus(Weigh(entries[k], boot), Total(entries - {k}, boot))
  }

  lemma Swap(a: Gauges, b: Gauges, c: Gauges)
    ensures Plus(a, Plus(b, c)) == Plus(b, Plus(a, c))
  {
  }

  lemma {:induction false} TotalSplit(entries: map<Key, Entry>, k: Key, boot: string)
    requires k in entries
    ensures Total(entries, boot) == Plus(Weigh(entries[k], boot), Total(entries - {k}, boot))
    decreases |entries|
  {
    var j :| j in entries && Total(entries, boot) == Plus(Weigh(entries[j], boot), Total(entries - {j}, boot));
    if j != k {
      TotalSplit(entries - {j}, k, boot);
      TotalSplit(entries - {k}, j, boot);
      assert entries - {j} - {k} == entries - {k} - {j};
      Swap(Weigh(entries[j], boot), Weigh(entries[k], boot), Total(entries - {j} - {k}, boot));
    }
  }

  lemma {:induction false} TotalSame(a: map<Key, Entry>, b: map<Key, Entry>, boot: string)
    requires a.Keys == b.Keys && forall k :: k in a ==> Weigh(a[k], boot) == Weigh(b[k], boot)
    ensures Total(a, boot) == Total(b, boot)
    decreases |a|
  {
    if a != map[] {
      var k :| k in a;
      TotalSplit(a, k, boot);
      TotalSplit(b, k, boot);
      TotalSame(a - {k}, b - {k}, boot);
    } else {
      assert b == map[];
    }
  }

  lemma TotalAdd(entries: map<Key, Entry>, k: Key, e: Entry, boot: string)
    requires k !in entries
    ensures Total(entries[k := e], boot) == Plus(Weigh(e, boot), Total(entries, boot))
  {
    TotalSplit(entries[k := e], k, boot);
    assert entries[k := e] - {k} == entries;
  }

  /** Replacing an entry moves the total by the difference of the two. */
  lemma TotalReplace(entries: map<Key, Entry>, k: Key, e: Entry, boot: string)
    requires k in entries
    ensures Plus(Total(entries[k := e], boot), Weigh(entries[k], boot)) == Plus(Total(entries, boot), Weigh(e, boot))
  {
    TotalSplit(entries, k, boot);
    TotalSplit(entries[k := e], k, boot);
    assert entries[k := e] - {k} == entries - {k};
  }

  // ---- Accounting follows the entries

  /** The gauges read the entries plus `ram` events and the batches frozen here. */
  ghost predicate Exact(a: Account, entries: map<Key, Entry>, ram: nat) {
    a.gauges == Plus(Total(entries, a.boot), Gauges(ram, 0, |a.frozen|, 0, 0, 0, 0))
  }

  lemma RemovedExact(a: Account, entries: map<Key, Entry>, ram: nat, k: Key, stored: bool)
    requires Exact(a, entries, ram) && k in entries
    ensures Exact(Removed(a, entries[k], stored), entries - {k}, ram)
  {
    hide Total;
    TotalSplit(entries, k, a.boot);
  }

  lemma TerminalExact(a: Account, entries: map<Key, Entry>, ram: nat, k: Key, e: Entry, source: Source)
    requires Exact(a, entries, ram) && k in entries && !entries[k].meta.dead
    requires e.meta.dead && e.meta.size == entries[k].meta.size && e.events == entries[k].events
             && e.boot == entries[k].boot
    ensures Exact(TerminalBatch(a, entries[k], source), entries[k := e], ram)
  {
    TotalReplace(entries, k, e, a.boot);
  }

  lemma CommittedExact(a: Account, entries: map<Key, Entry>, ram: nat, ram': nat, k: Key, e: Entry, found: Option<nat>)
    requires Exact(a, entries, ram) && k !in entries && !e.meta.dead && e.boot == Some(a.boot)
             && ram' == ram - |e.events|
    requires found.Some? ==> found.value in a.frozen
    ensures Exact(Committed(a, e, found), entries[k := e], ram')
  {
    TotalAdd(entries, k, e, a.boot);
    if found.Some? { FewerFrozen(a.frozen, found.value); }
  }

  lemma FewerFrozen(frozen: map<nat, Key>, q: nat)
    requires q in frozen
    ensures |frozen - {q}| == |frozen| - 1
  {
    assert (frozen - {q}).Keys == frozen.Keys - {q};
  }

  lemma MaterializedExact(a: Account, entries: map<Key, Entry>, ram: nat, q: nat, key: Key)
    requires Exact(a, entries, ram) && q !in a.frozen
    ensures Exact(Materialized(a, q, key), entries, ram)
  {
    assert a.frozen[q := key].Keys == a.frozen.Keys + {q};
  }

  lemma LeftExact(a: Account, a': Account, entries: map<Key, Entry>, ram: nat)
    requires Exact(a, entries, ram) && a'.boot == a.boot
    requires a'.gauges == a.gauges.(pending := a.gauges.pending - ram,
                                    pendingBatches := a.gauges.pendingBatches - (|a.frozen| - |a'.frozen|))
    ensures Exact(a', entries, 0)
  {
  }

  lemma GivenUpExact(a: Account, entries: map<Key, Entry>, ram: nat, sequences: set<nat>)
    requires Exact(a, entries, ram)
    ensures Exact(GivenUp(a, ram, sequences), entries, 0)
  {
    LeftExact(a, GivenUp(a, ram, sequences), entries, ram);
  }

  lemma LeftBalanced(a: Account, a': Account, ram: nat)
    requires Balanced(a) && a'.decisions == a.decisions && a'.unknown == a.unknown
    requires a'.counters == a.counters.(knownUnsent := Bump(a.counters.knownUnsent, ram))
    requires a'.overflow == (a.overflow || Spills(a.counters.knownUnsent, ram))
             && a'.gauges.pending == a.gauges.pending - ram
    ensures Balanced(a')
  {
  }

  lemma GivenUpBalanced(a: Account, ram: nat, sequences: set<nat>)
    requires Balanced(a)
    ensures Balanced(GivenUp(a, ram, sequences))
  {
    LeftBalanced(a, GivenUp(a, ram, sequences), ram);
  }

  lemma GivenUpFrame(a: Account, ram: nat, sequences: set<nat>)
    ensures var a' := GivenUp(a, ram, sequences);
            a'.decisions == a.decisions && forall q :: q in a'.frozen ==> q in a.frozen
  {
  }

  /** Dead batches pruned one after another. */
  function RemovedAll(a: Account, entries: map<Key, Entry>, order: seq<Key>): Account
    decreases |order|
  {
    if order == [] then a
    else if order[0] !in entries then RemovedAll(a, entries, order[1..])
    else RemovedAll(Removed(a, entries[order[0]], false), entries - {order[0]}, order[1..])
  }

  lemma DropFirst(entries: map<Key, Entry>, order: seq<Key>)
    requires order != []
    ensures entries - (set k | k in order) == entries - {order[0]} - (set k | k in order[1..])
    ensures order[0] !in entries ==> entries - {order[0]} == entries
  {
    assert forall k :: k in order <==> k == order[0] || k in order[1..];
  }

  lemma {:induction false} RemovedAllExact(a: Account, entries: map<Key, Entry>, ram: nat, order: seq<Key>)
    requires Exact(a, entries, ram)
    ensures Exact(RemovedAll(a, entries, order), entries - (set k | k in order), ram)
    decreases |order|
  {
    if order == [] {
      assert entries - (set k | k in order) == entries;
    } else {
      DropFirst(entries, order);
      if order[0] in entries {
        RemovedExact(a, entries, ram, order[0], false);
        RemovedAllExact(Removed(a, entries[order[0]], false), entries - {order[0]}, ram, order[1..]);
      } else {
        RemovedAllExact(a, entries, ram, order[1..]);
      }
    }
  }

  lemma {:induction false} RemovedAllBalanced(a: Account, entries: map<Key, Entry>, order: seq<Key>)
    requires Balanced(a) && forall k :: k in order && k in entries ==> entries[k].meta.dead
    ensures Balanced(RemovedAll(a, entries, order))
    decreases |order|
  {
    if order != [] {
      assert forall k :: k in order[1..] ==> k in order;
      if order[0] in entries {
        RemovedBalanced(a, entries[order[0]], false);
        RemovedAllBalanced(Removed(a, entries[order[0]], false), entries - {order[0]}, order[1..]);
      } else {
        RemovedAllBalanced(a, entries, order[1..]);
      }
    }
  }

  lemma {:induction false} RemovedAllFrame(a: Account, entries: map<Key, Entry>, order: seq<Key>)
    ensures var a' := RemovedAll(a, entries, order);
            a'.decisions == a.decisions && a'.boot == a.boot && a'.frozen == a.frozen
    decreases |order|
  {
    if order != [] {
      if order[0] in entries {
        RemovedAllFrame(Removed(a, entries[order[0]], false), entries - {order[0]}, order[1..]);
      } else {
        RemovedAllFrame(a, entries, order[1..]);
      }
    }
  }

  /** The batches a new process finds. */
  function RestoredAll(a: Account, entries: map<Key, Entry>, order: seq<Key>): Account
    decreases |order|
  {
    if order == [] then a
    else if order[0] !in entries then RestoredAll(a, entries, order[1..])
    else RestoredAll(RestoredBatch(a, entries[order[0]]), entries - {order[0]}, order[1..])
  }

  lemma NoEntries(boot: string)
    ensures Total(map[], boot) == Nothing
  {
  }

  lemma {:induction false} RestoredNone(a: Account, order: seq<Key>)
    ensures RestoredAll(a, map[], order) == a
    decreases |order|
  {
    if order != [] { RestoredNone(a, order[1..]); }
  }

  lemma {:induction false} RestoredAllExact(a: Account, entries: map<Key, Entry>, order: seq<Key>)
    requires (forall k :: k in entries ==> entries[k].boot == None && k in order)
    ensures var a' := RestoredAll(a, entries, order);
            && a'.boot == a.boot && a'.counters == a.counters && a'.decisions == a.decisions && a'.frozen == a.frozen
            && a'.gauges == Plus(a.gauges, Total(entries, a.boot))
    decreases |order|
  {
    NoEntries(a.boot);
    hide Total;
    if order != [] {
      var k := order[0];
      if k in entries {
        TotalSplit(entries, k, a.boot);
        RestoredAllExact(RestoredBatch(a, entries[k]), entries - {k}, order[1..]);
      } else {
        RestoredAllExact(a, entries, order[1..]);
      }
    } else {
      assert entries == map[];
    }
  }
}
