/** How batches are frozen and what the engine's other calls leave, in plain terms
    (src/plcnext_iot/reporting/engine.py:80-117, 192-284). */
module EngineBatches {
  import opened Common
  import opened EngineModel
  import opened EngineMemory
  import opened EngineStock
  import opened EngineRuns

  // ---- Whose turn it is

  /** How many frozen batches of a class wait. */
  function Waiting(frozen: seq<Held>, c: Class): nat {
    |set i | 0 <= i < |frozen| && frozen[i].category == c|
  }

  lemma {:induction false} WaitingExactly(frozen: seq<Held>, c: Class)
    ensures InClass(frozen, c) == Waiting(frozen, c)
  {
    if frozen != [] {
      var n := |frozen| - 1;
      WaitingExactly(frozen[..n], c);
      InClassAppend(frozen[..n], frozen[n], c);
      assert frozen == frozen[..n] + [frozen[n]];
      var all, less := set i | 0 <= i < |frozen| && frozen[i].category == c,
                       set i | 0 <= i < n && frozen[..n][i].category == c;
      assert all == if frozen[n].category == c then less + {n} else less;
    }
  }

  /** Something of the class may be frozen: an event waits, and fewer than seven of its batches do. */
  predicate MayFreeze(st: Stock, c: Class) {
    (if c == New then st.recent else st.history) != [] && Waiting(st.frozen, c) < 7
  }

  /** The class whose turn it is, if it may; else the other, if that may. */
  lemma NextClassExactly(st: Stock)
    ensures var turn := if st.preferNew then New else History;
            var other := if st.preferNew then History else New;
            NextClass(st) == if MayFreeze(st, turn) then Some(turn) else if MayFreeze(st, other) then Some(other)
              else None
  {
    WaitingExactly(st.frozen, New);
    WaitingExactly(st.frozen, History);
    hide InClass, Waiting;
  }

  /** Freezing takes the first events of the queue, in order, into one batch under the next number, with the
      text made of just them; the rest waits on, and the other class has the next turn. */
  lemma FreezeExactly(x: Setup, st: Stock, c: Class, now: real, wall: int, id: string)
    requires QueueOf(st, c) != []
    ensures var st', q := Freeze(x, st, c, now, wall, id), if c == New then st.recent else st.history;
            exists n: nat :: 0 < n <= |q| && n == Cut(x, q) && |st'.frozen| == |st.frozen| + 1
              && st'.frozen[..|st.frozen|] == st.frozen
              && var b := st'.frozen[|st.frozen|].batch;
                 && st'.frozen[|st.frozen|].category == c && |b.samples| == n
                 && (forall i :: 0 <= i < n ==> b.samples[i] == q[i].sample)
                 && b.version == q[0].sample.epoch.version && b.sequence == st.sequence + 1 && b.preparedAt == now
                 && b.payload == x.text(b.samples, wall, st.sequence + 1, id)
                 && st'.sequence == st.sequence + 1 && st'.preferNew == (c == History) && st'.owned == st.owned
                 && st'.watermark == st.watermark
                 && (if c == New then st'.recent == q[n..] && st'.history == st.history
                     else st'.history == q[n..] && st'.recent == st.recent)
  {
    var st', q := Freeze(x, st, c, now, wall, id), QueueOf(st, c);
    var n := Cut(x, q);
    assert |SamplesOf(q[..n])| == n;
    assert forall i :: 0 <= i < n ==> SamplesOf(q[..n])[i] == q[i].sample;
    assert st'.frozen[|st.frozen|] == Held(NewBatch(x, st, c, now, wall, id), c);
    hide Cut, SamplesOf;
  }

  /** What a batch weighs besides its events: its text, a fixed part, and a reference to each. */
  lemma CostExactly(b: Batch)
    ensures Cost(b) == |b.payload| + 256 + 8 * |b.samples|
  {
  }

  // ---- The gate, a new configuration, and giving up

  /** Everything that waits becomes history, in order: what waited as new behind what already was. */
  lemma GateExactly(st: Stock, watermark: nat)
    ensures var st' := Gate(st, watermark);
            && st'.history == st.history + st.recent && st'.recent == [] && st'.watermark == watermark
            && |st'.frozen| == |st.frozen| && st'.owned == st.owned && st'.sequence == st.sequence
            && forall i :: 0 <= i < |st.frozen| ==>
                 st'.frozen[i].category == History && st'.frozen[i].batch == st.frozen[i].batch
  {
  }

  /** Under a new configuration the engine remembers what the checkpoint of the very same configuration and
      generation does, else nothing; what is owned stays owned, and nothing of it is a shadow any more. */
  lemma ConfiguredExactly(e: Engine, conf: Option<Conf>, generation: Option<int>)
    ensures var e', m := Configured(e, conf, generation), Configured(e, conf, generation).memory;
            var same := e.carried.Some? && e.carried.value.conf == conf && e.carried.value.generation == generation;
            && e'.conf == conf && e'.generation == generation && e'.latest == map[] && e'.stock == e.stock
            && m.shadows == map[] && m.owners == e.memory.owners && e'.carried.None?
            && if same
               then var kept := e.carried.value.memory;
                    m.baselines == kept.baselines && m.epochs == kept.epochs && m.seen == kept.seen && m.due == kept.due
               else m.baselines == map[] && m.epochs == map[] && m.seen == map[] && m.due == map[]
  {
  }

  /** Giving up keeps what is remembered of the points and nothing that was owned. */
  lemma AbandonedExactly(e: Engine)
    ensures var e' := Abandoned(e);
            && e'.stock.owned == map[] && e'.stock.recent == [] && e'.stock.history == [] && e'.stock.frozen == []
            && e'.stock.sequence == e.stock.sequence && e'.memory.baselines == e.memory.baselines
            && e'.memory.epochs == e.memory.epochs && e'.memory.seen == e.memory.seen && e'.memory.due == e.memory.due
            && e'.memory.shadows == map[] && e'.memory.owners == map[] && e'.latest == e.latest
  {
  }
}
