/** What the gauges read, as plain counts of batches, bytes and events
    (src/plcnext_iot/reporting/accounting.py:161-252). */
module PipelineReadings {
  import opened Common
  import opened Outbox
  import opened OutboxBounds
  import opened Accounts
  import opened PipelineGauges
  import opened Pipeline
  import E = EngineModel
  import R = PipelineRam

  /** How many batches there are of a kind, and how many events in them. */
  function Batches(entries: map<Key, Entry>, kind: Entry -> bool): nat {
    |set k | k in entries && kind(entries[k])|
  }

  function Events(entries: map<Key, Entry>, kind: Entry -> bool): nat { |Places(entries, kind)| }

  /** The place of each event: its batch, and where it is there. */
  function Places(entries: map<Key, Entry>, kind: Entry -> bool): set<(Key, nat)> {
    set k, i: nat | k in entries && kind(entries[k]) && i < |entries[k].events| :: (k, i)
  }

  function PlacesIn(k: Key, n: nat): set<(Key, nat)> { set i: nat | i < n :: (k, i) }

  function Of(dead: bool): Entry -> bool { (e: Entry) => e.meta.dead == dead }

  function Ours(boot: string, dead: bool): Entry -> bool { (e: Entry) => e.meta.dead == dead && e.boot == Some(boot) }

  function Foreign(boot: string, dead: bool): Entry -> bool { (e: Entry) =>
    e.meta.dead == dead && e.boot != Some(boot) }

  lemma BatchesSplit(entries: map<Key, Entry>, k: Key, kind: Entry -> bool)
    requires k in entries
    ensures Batches(entries, kind) == Batches(entries - {k}, kind) + if kind(entries[k]) then 1 else 0
  {
    var all := set j | j in entries && kind(entries[j]);
    var rest := set j | j in entries - {k} && kind((entries - {k})[j]);
    assert all == if kind(entries[k]) then rest + {k} else rest;
  }

  lemma PlacesSplit(entries: map<Key, Entry>, k: Key, kind: Entry -> bool)
    requires k in entries
    ensures Places(entries, kind)
            == Places(entries - {k}, kind) + if kind(entries[k]) then PlacesIn(k, |entries[k].events|) else {}
    ensures Places(entries - {k}, kind) !! PlacesIn(k, |entries[k].events|)
  {
  }

  lemma EventsSplit(entries: map<Key, Entry>, k: Key, kind: Entry -> bool)
    requires k in entries
    ensures Events(entries, kind) == Events(entries - {k}, kind) + if kind(entries[k]) then |entries[k].events| else 0
  {
    PlacesSplit(entries, k, kind);
    PlacesCount(k, |entries[k].events|);
    hide Places, PlacesIn;
  }

  lemma {:induction false} PlacesCount(k: Key, n: nat)
    ensures |PlacesIn(k, n)| == n
  {
    if n > 0 {
      PlacesCount(k, n - 1);
      assert PlacesIn(k, n) == PlacesIn(k, n - 1) + {(k, n - 1)};
    }
  }

  /** What a total of weights counts. */
  ghost predicate Counts(g: Gauges, entries: map<Key, Entry>, boot: string) {
    && g.pendingBatches == Batches(entries, Of(false)) && g.deadBatches == Batches(entries, Of(true))
    && g.unknownPending == Batches(entries, Foreign(boot, false))
      && g.unknownDead == Batches(entries, Foreign(boot, true))
    && g.pending == Events(entries, Ours(boot, false)) && g.dead == Events(entries, Ours(boot, true))
    && g.payloadBytes == TotalSize(entries)
  }

  lemma CountsMore(g: Gauges, entries: map<Key, Entry>, k: Key, boot: string)
    requires k in entries && Counts(g, entries - {k}, boot)
    ensures Counts(Plus(Weigh(entries[k], boot), g), entries, boot)
  {
    BatchesSplit(entries, k, Of(false));
    BatchesSplit(entries, k, Of(true));
    BatchesSplit(entries, k, Foreign(boot, false));
    BatchesSplit(entries, k, Foreign(boot, true));
    EventsSplit(entries, k, Ours(boot, false));
    EventsSplit(entries, k, Ours(boot, true));
    OutboxBounds.TotalSplit(entries, k);
    hide Batches, Events, TotalSize;
  }

  lemma {:induction false} TotalCounts(entries: map<Key, Entry>, boot: string)
    ensures Counts(Total(entries, boot), entries, boot)
    decreases |entries|
  {
    if entries != map[] {
      var k :| k in entries;
      PipelineGauges.TotalSplit(entries, k, boot);
      TotalCounts(entries - {k}, boot);
      CountsMore(Total(entries - {k}, boot), entries, k, boot);
      hide Counts, Weigh, Total;
    } else {
      NothingCounts(entries, boot);
    }
  }

  lemma NothingCounts(entries: map<Key, Entry>, boot: string)
    requires entries == map[]
    ensures Counts(Total(entries, boot), entries, boot)
  {
    assert Places(entries, Ours(boot, false)) == {} && Places(entries, Ours(boot, true)) == {};
  }

  /** In every reachable state the gauges are the numbers of pending and dead batches, of those whose events
      are unknown, of own events pending in batches or in RAM and dead, and the bytes of all payloads. */
  lemma GaugesExactly(boot: string, x: E.Setup, lim: Limits, events: seq<Event>)
    requires Happens(Booted(boot), x, lim, events)
    ensures var p := Evolve(Booted(boot), x, events);
            var g, entries, ours := p.account.gauges, p.outbox.session.entries, p.account.boot;
            && g.pending == Events(entries, Ours(ours, false)) + |R.Ram(p.stock, p.given)|
            && g.dead == Events(entries, Ours(ours, true))
            && g.pendingBatches == Batches(entries, Of(false)) + |Sequences(p.stock.frozen) - p.given|
            && g.deadBatches == Batches(entries, Of(true))
            && g.unknownPending == Batches(entries, Foreign(ours, false))
            && g.unknownDead == Batches(entries, Foreign(ours, true))
            && g.payloadBytes == TotalSize(entries)
  {
    EventConservation(boot, x, lim, events);
    var p := Evolve(Booted(boot), x, events);
    TotalCounts(p.outbox.session.entries, p.account.boot);
    hide Evolve, Happens, Batches, Events, TotalSize, Total, Sequences, R.Ram, Booted, DecisionsBalance, EventsBalance;
  }
}
