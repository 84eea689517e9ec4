/** What is in RAM only: events the engine owns that no outbox entry holds yet. */
module PipelineRam {
  import opened Common
  import opened EngineModel
  import opened EngineStock
  import opened EngineMemory
  import opened EngineRuns

  /** Events of the frozen batches whose sequence has been handed to the outbox. */
  function GivenIds(frozen: seq<Held>, given: set<nat>): set<nat> {
    if frozen == [] then {}
    else (if frozen[0].batch.sequence in given then Ids(frozen[0].batch.samples) else {}) + GivenIds(frozen[1..], given)
  }

  function Ram(st: Stock, given: set<nat>): set<nat> {
    st.owned.Keys - GivenIds(st.frozen, given)
  }

  lemma {:induction false} GivenSplit(a: seq<Held>, b: seq<Held>, given: set<nat>)
    ensures GivenIds(a + b, given) == GivenIds(a, given) + GivenIds(b, given)
  {
    if a == [] {
      assert a + b == b;
    } else {
      assert (a + b)[1..] == a[1..] + b;
      GivenSplit(a[1..], b, given);
    }
  }

  lemma {:induction false} NoneGiven(frozen: seq<Held>, given: set<nat>)
    requires forall i :: 0 <= i < |frozen| ==> frozen[i].batch.sequence !in given
    ensures GivenIds(frozen, given) == {}
  {
    if frozen != [] { NoneGiven(frozen[1..], given); }
  }

  lemma GivenAround(frozen: seq<Held>, i: nat, given: set<nat>)
    requires i < |frozen|
    ensures GivenIds(frozen, given) == GivenIds(frozen[..i] + frozen[i + 1..], given)
                                       + if frozen[i].batch.sequence in given then Ids(frozen[i].batch.samples) else {}
  {
    assert frozen == frozen[..i] + frozen[i..];
    GivenSplit(frozen[..i], frozen[i..], given);
    GivenSplit(frozen[..i], frozen[i + 1..], given);
    assert frozen[i..][1..] == frozen[i + 1..];
  }

  lemma {:induction false} GivenElsewhere(frozen: seq<Held>, given: set<nat>, q: nat)
    requires forall i :: 0 <= i < |frozen| ==> frozen[i].batch.sequence != q
    ensures GivenIds(frozen, given + {q}) == GivenIds(frozen, given)
            && GivenIds(frozen, given - {q}) == GivenIds(frozen, given)
  {
    if frozen != [] { GivenElsewhere(frozen[1..], given, q); }
  }

  lemma {:induction false} GivenWithin(frozen: seq<Held>, given: set<nat>)
    ensures forall id :: id in GivenIds(frozen, given) ==> exists s :: s in FrozenFlow(frozen) && s.seqno == id
  {
    if frozen != [] {
      GivenWithin(frozen[1..], given);
      forall id | id in GivenIds(frozen, given) ensures exists s :: s in FrozenFlow(frozen) && s.seqno == id {
        if id in GivenIds(frozen[1..], given) {
          var s :| s in FrozenFlow(frozen[1..]) && s.seqno == id;
          assert s in FrozenFlow(frozen);
        } else {
          var s :| s in frozen[0].batch.samples && s.seqno == id;
          assert s in multiset(frozen[0].batch.samples);
        }
      }
    }
  }

  /** No event is in two batches. */
  lemma BatchApart(st: Stock, i: nat, given: set<nat>)
    requires Flow(st) == multiset(st.owned.Values) && Labelled(st.owned) && i < |st.frozen|
    ensures Ids(st.frozen[i].batch.samples) !! GivenIds(st.frozen[..i] + st.frozen[i + 1..], given)
    ensures Ids(st.frozen[i].batch.samples) <= st.owned.Keys
  {
    var samples, rest := st.frozen[i].batch.samples, st.frozen[..i] + st.frozen[i + 1..];
    FlowHas(st.frozen, i);
    FlowDistinct(st, i);
    GivenWithin(rest, given);
    forall id | id in GivenIds(rest, given) ensures id !in Ids(samples) {
      var t :| t in FrozenFlow(rest) && t.seqno == id;
      assert multiset(st.owned.Values)[t] <= 1;
      assert t in Flow(st);
      assert t in st.owned.Values && st.owned[id] == t;
      assert multiset(samples)[t] == 0;
      forall s | s in samples ensures s.seqno != id { assert s in multiset(samples); SampleOwned(st, i, s); }
    }
  }

  lemma SampleOwned(st: Stock, i: nat, s: Sample)
    requires Flow(st) == multiset(st.owned.Values) && Labelled(st.owned) && i < |st.frozen|
             && s in st.frozen[i].batch.samples
    ensures s.seqno in st.owned && st.owned[s.seqno] == s
  {
    FlowDistinct(st, i);
  }

  lemma {:induction false} IdsCount(samples: seq<Sample>)
    requires Distinct(samples)
    ensures |Ids(samples)| == |samples|
  {
    if samples != [] {
      var n := |samples| - 1;
      IdsCount(samples[..n]);
      assert samples == samples[..n] + [samples[n]];
      assert Ids(samples) == Ids(samples[..n]) + {samples[n].seqno};
    }
  }

  // ---- Steps

  lemma SequencesApart(x: Setup, st: Stock, i: nat)
    requires StockOk(x, st) && i < |st.frozen|
    ensures var rest := st.frozen[..i] + st.frozen[i + 1..];
            forall j :: 0 <= j < |rest| ==> rest[j].batch.sequence != st.frozen[i].batch.sequence
  {
  }

  lemma GiveSets(keys: set<nat>, out: set<nat>, ids: set<nat>)
    requires ids <= keys && ids !! out
    ensures |keys - (out + ids)| == |keys - out| - |ids|
  {
    assert keys - (out + ids) == (keys - out) - ids;
    assert ids <= keys - out;
  }

  /** Handing a batch over takes exactly its events out of RAM. */
  lemma GiveRam(x: Setup, st: Stock, i: nat, given: set<nat>)
    requires StockOk(x, st) && i < |st.frozen| && st.frozen[i].batch.sequence !in given
    ensures |Ram(st, given + {st.frozen[i].batch.sequence})| == |Ram(st, given)| - |st.frozen[i].batch.samples|
  {
    var q, rest := st.frozen[i].batch.sequence, st.frozen[..i] + st.frozen[i + 1..];
    SequencesApart(x, st, i);
    GivenElsewhere(rest, given, q);
    GivenAround(st.frozen, i, given);
    GivenAround(st.frozen, i, given + {q});
    BatchApart(st, i, given);
    FlowDistinct(st, i);
    IdsCount(st.frozen[i].batch.samples);
    GiveSets(st.owned.Keys, GivenIds(rest, given), Ids(st.frozen[i].batch.samples));
  }

  /** Letting go of a batch that was handed over leaves RAM as it is. */
  lemma SettleRam(x: Setup, st: Stock, i: nat, given: set<nat>)
    requires StockOk(x, st) && i < |st.frozen| && st.frozen[i].batch.sequence in given
    ensures Ram(Dropped(st, i), given - {st.frozen[i].batch.sequence}) == Ram(st, given)
  {
    var q, ids, rest := st.frozen[i].batch.sequence, Ids(st.frozen[i].batch.samples),
      st.frozen[..i] + st.frozen[i + 1..];
    SequencesApart(x, st, i);
    GivenElsewhere(rest, given, q);
    GivenAround(st.frozen, i, given);
    BatchApart(st, i, given);
  }

  lemma GivenOwned(st: Stock, given: set<nat>)
    requires Flow(st) == multiset(st.owned.Values) && Labelled(st.owned)
    ensures GivenIds(st.frozen, given) <= st.owned.Keys
  {
    GivenWithin(st.frozen, given);
    forall id | id in GivenIds(st.frozen, given) ensures id in st.owned {
      var t :| t in FrozenFlow(st.frozen) && t.seqno == id;
      assert t in Flow(st);
      assert t in st.owned.Values;
    }
  }

  lemma OneMore(keys: set<nat>, out: set<nat>, id: nat)
    requires out <= keys && id !in keys
    ensures |keys + {id} - out| == |keys - out| + 1
  {
    assert keys + {id} - out == (keys - out) + {id};
  }

  lemma OwnRam(st: Stock, s: Sample, limit: nat, given: set<nat>)
    requires s.seqno !in st.owned && Flow(st) == multiset(st.owned.Values) && Labelled(st.owned)
    ensures |Ram(Own(st, s, limit), given)| == |Ram(st, given)| + 1
  {
    hide Flow, Labelled, GivenIds;
    GivenOwned(st, given);
    OneMore(st.owned.Keys, GivenIds(st.frozen, given), s.seqno);
    OwnKeys(st, s, limit);
    hide Own;
  }

  lemma OwnKeys(st: Stock, s: Sample, limit: nat)
    ensures Own(st, s, limit).owned.Keys == st.owned.Keys + {s.seqno} && Own(st, s, limit).frozen == st.frozen
  {
  }

  lemma FreezeRam(x: Setup, st: Stock, c: Class, now: real, wall: int, id: string, given: set<nat>)
    requires QueueOf(st, c) != [] && st.sequence + 1 !in given
    ensures Ram(Freeze(x, st, c, now, wall, id), given) == Ram(st, given)
  {
    var h := Held(NewBatch(x, st, c, now, wall, id), c);
    FreezeFrame(x, st, c, now, wall, id);
    GivenSplit(st.frozen, [h], given);
    NoneGiven([h], given);
  }

  lemma {:induction false} RelabelGiven(a: seq<Held>, b: seq<Held>, given: set<nat>)
    requires |a| == |b| && forall i :: 0 <= i < |a| ==> a[i].batch == b[i].batch
    ensures GivenIds(a, given) == GivenIds(b, given)
  {
    if a != [] { RelabelGiven(a[1..], b[1..], given); }
  }

  lemma GateRam(st: Stock, watermark: nat, given: set<nat>)
    ensures Ram(Gate(st, watermark), given) == Ram(st, given)
  {
    RelabelGiven(st.frozen, Gate(st, watermark).frozen, given);
  }
}
