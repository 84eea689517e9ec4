/** What the engine answers to each sample of a run, told from the samples themselves and the answers
    before: which value counts as changed, which slot as new, which sample as out of place
    (src/plcnext_iot/reporting/engine.py:119-190). */
module EngineAnswers {
  import opened Common
  import opened EngineModel
  import opened EngineMemory
  import opened EngineStock
  import opened EngineRuns
  import opened EngineSelection

  // ---- What has been told of a point

  /** A point since its epoch opened: the last number looked at, where its report grid begins, the slots
      polled, and the last sample admitted. */
  datatype Line = Line(epoch: Option<Epoch>, seen: nat, start: int, slots: set<int>, last: Option<Sample>)

  /** What a memory without owned events starts a point with. */
  function StartLine(m: Memory, k: Name): Line {
    Line(Get(m.epochs, k), if k in m.seen then m.seen[k] else 0, if k in m.due then m.due[k] else 0, {},
         if k in m.epochs then Get(m.baselines, k) else None)
  }

  function Opened(l: Line, s: Sample): Line {
    if l.epoch == Some(s.epoch) then l else Line(Some(s.epoch), l.seen, s.origin, {}, None)
  }

  /** A poll that reports on a grid. */
  predicate Polled(p: Point, s: Sample) { p.mode != Change && s.physical && s.slot.Some? }

  function Noted(l: Line, p: Point, s: Sample, v: Verdict): Line {
    if v in {Discarded, Malformed, Stale} then l
    else
      var l' := Opened(l, s).(seen := s.seqno);
      if v == SlotError then l'
      else l'.(slots := if Polled(p, s) then l'.slots + {s.slot.value} else l'.slots,
               last := if v == Admitted then Some(s) else l'.last)
  }

  function GridPoint(start: int, interval: int, n: nat): int { start + n * interval }

  /** The poll reaches a point of the grid that lies after every slot polled before. */
  ghost predicate NewSlot(l: Line, p: Point, s: Sample) {
    && Polled(p, s)
    && exists n: nat :: GridPoint(l.start, p.interval, n) <= s.slot.value
                        && forall q :: q in l.slots ==> q < GridPoint(l.start, p.interval, n)
  }

  /** Nothing to report against `last`: the same quality and, where changes of good values are reported,
      a number no further away than the deadband, in either direction, or otherwise the same value. */
  predicate Unremarkable(p: Point, last: Option<Sample>, s: Sample) {
    && last.Some? && last.value.quality == s.quality
    && (s.quality == "GOOD" && p.mode != Cyclic ==>
          match (s.value, last.value.value)
          case (Number(a), Number(b)) => -p.deadband <= a - b && a - b <= p.deadband
          case (a, b) => a == b)
  }

  predicate OutOfPlace(x: Setup, conf: Option<Conf>, generation: Option<int>, s: Sample) {
    || conf.None? || s.gateway != x.gateway || s.epoch.version != conf.value.version || s.name !in conf.value.points
    || (generation.Some? && generation.value != s.epoch.generation)
  }

  /** The answer to a sample, up to what depends on the room there is. */
  ghost predicate Answers(x: Setup, conf: Option<Conf>, generation: Option<int>, l: Line, s: Sample, v: Verdict) {
    if OutOfPlace(x, conf, generation, s) then v == Discarded
    else if !s.captured || s.boot != x.boot then v == Malformed
    else if s.seqno <= l.seen then v == Stale
    else
      var p, l' := conf.value.points[s.name], Opened(l, s);
      if p.mode != Change && s.physical && (s.slot.None? || s.slot.value > s.completed) then v == SlotError
      else if Unremarkable(p, l'.last, s) && !NewSlot(l', p, s) then v == Filtered
      else if !s.timed then v == TimeInvalid
      else v in {NoRoom, Unaccounted, Admitted}
  }

  // ---- Lines and what the engine recalls

  /** The next slot is a point of the grid, and the first one after every slot polled. */
  ghost predicate NextIs(l: Line, interval: int, due: int) {
    exists n: nat :: due == GridPoint(l.start, interval, n) && FirstAfter(l, interval, n)
  }

  ghost predicate FirstAfter(l: Line, interval: int, n: nat) {
    && (forall q :: q in l.slots ==> q < GridPoint(l.start, interval, n))
    && (n == 0 || exists q :: q in l.slots && GridPoint(l.start, interval, n - 1) <= q)
  }

  function DueAt(r: Recall, k: Name): int { if k in r.due then r.due[k] else 0 }

  ghost predicate Tells(r: Recall, conf: Option<Conf>, k: Name, l: Line) {
    && l.epoch == Get(r.epochs, k) && l.seen == (if k in r.seen then r.seen[k] else 0)
    && (l.epoch.Some? ==> l.last == LastOf(r, k))
    && (l.epoch.Some? && conf.Some? && k in conf.value.points ==>
          NextIs(l, conf.value.points[k].interval, DueAt(r, k)))
  }

  lemma GridGrows(start: int, interval: int, m: nat, n: nat)
    requires m <= n && 0 < interval
    ensures GridPoint(start, interval, m) <= GridPoint(start, interval, n)
  {
    assert (n - m) * interval >= 0;
    assert n * interval == m * interval + (n - m) * interval;
  }

  /** A new slot is one the next slot does not lie behind. */
  lemma NewSlotExactly(l: Line, p: Point, s: Sample, due: int)
    requires NextIs(l, p.interval, due)
    ensures NewSlot(l, p, s) <==> Polled(p, s) && s.slot.value >= due
  {
    var n: nat :| due == GridPoint(l.start, p.interval, n) && FirstAfter(l, p.interval, n);
    if NewSlot(l, p, s) {
      var m: nat :| GridPoint(l.start, p.interval, m) <= s.slot.value
                    && forall q :: q in l.slots ==> q < GridPoint(l.start, p.interval, m);
      if m < n {
        var q :| q in l.slots && GridPoint(l.start, p.interval, n - 1) <= q;
        GridGrows(l.start, p.interval, m, n - 1);
      } else {
        GridGrows(l.start, p.interval, n, m);
      }
    }
  }

  lemma NextStays(l: Line, l': Line, interval: int, due: int)
    requires NextIs(l, interval, due) && l'.start == l.start && l.slots <= l'.slots
    requires forall q :: q in l'.slots ==> q in l.slots || q < due
    ensures NextIs(l', interval, due)
  {
    var n: nat :| due == GridPoint(l.start, interval, n) && FirstAfter(l, interval, n);
    assert FirstAfter(l', interval, n);
  }

  lemma NextMoves(l: Line, p: Point, due: int, q: int)
    requires NextIs(l, p.interval, due) && due <= q
    ensures NextIs(l.(slots := l.slots + {q}), p.interval, due + Slots(p, due, q) * p.interval)
  {
    var n: nat :| due == GridPoint(l.start, p.interval, n) && FirstAfter(l, p.interval, n);
    SlotsReach(p, due, q);
    var more: nat := Slots(p, due, q);
    var l' := l.(slots := l.slots + {q});
    GridAdds(l.start, p.interval, n, more);
    GridAdds(l.start, p.interval, n, more - 1);
    hide GridPoint, Slots;
    assert FirstAfter(l', p.interval, n + more);
  }

  lemma GridAdds(start: int, interval: int, n: nat, more: nat)
    ensures GridPoint(start, interval, n + more) == GridPoint(start, interval, n) + more * interval
  {
  }

  lemma NextAfter(l: Line, p: Point, due: int, s: Sample)
    requires NextIs(l, p.interval, due)
    ensures NextIs(if Polled(p, s) then l.(slots := l.slots + {s.slot.value}) else l, p.interval, NextDue(p, due, s))
  {
    if Polled(p, s) {
      if s.slot.value >= due {
        NextMoves(l, p, due, s.slot.value);
      } else {
        NextStays(l, l.(slots := l.slots + {s.slot.value}), p.interval, due);
      }
    }
  }

  lemma NextFirst(l: Line, interval: int)
    requires l.slots == {}
    ensures NextIs(l, interval, l.start)
  {
    assert GridPoint(l.start, interval, 0) == l.start && FirstAfter(l, interval, 0);
  }

  lemma BeginTells(r: Recall, conf: Option<Conf>, l: Line, s: Sample)
    requires Tells(r, conf, s.name, l)
    ensures Tells(RecallBegin(r, s), conf, s.name, Opened(l, s).(seen := s.seqno))
  {
    var l' := Opened(l, s).(seen := s.seqno);
    if l.epoch != Some(s.epoch) {
      if conf.Some? && s.name in conf.value.points { NextFirst(l', conf.value.points[s.name].interval); }
    } else if conf.Some? && s.name in conf.value.points {
      NextStays(l, l', conf.value.points[s.name].interval, DueAt(r, s.name));
    }
    hide NextIs;
  }

  // ---- One offer

  /** The engine selects by the last admitted sample and the grid of the line. */
  lemma PickedExactly(p: Point, r: Recall, l: Line, s: Sample)
    requires l.last == LastOf(r, s.name) && NextIs(l, p.interval, DueAt(r, s.name))
    ensures (Differs(p, LastOf(r, s.name), s) || Triggers(p, DueAt(r, s.name), s))
            <==> !(Unremarkable(p, l.last, s) && !NewSlot(l, p, s))
  {
    NewSlotExactly(l, p, s, DueAt(r, s.name));
    hide NextIs, NewSlot;
  }

  /** What the reference finds is what the line says. */
  lemma FindingAnswers(x: Setup, conf: Option<Conf>, generation: Option<int>, r: Recall, l: Line, s: Sample)
    requires Tells(r, conf, s.name, l)
    ensures var f := RecallFinding(x, conf, generation, r, s);
            if OutOfPlace(x, conf, generation, s) || !s.captured || s.boot != x.boot || s.seqno <= l.seen
            then f == Ignored
            else
              var p, l' := conf.value.points[s.name], Opened(l, s);
              if p.mode != Change && s.physical && (s.slot.None? || s.slot.value > s.completed) then f == Unslotted
              else f == if Unremarkable(p, l'.last, s) && !NewSlot(l', p, s) then Passed else Picked
  {
    if !OutOfPlace(x, conf, generation, s) {
      BeginTells(r, conf, l, s);
      var p, l' := conf.value.points[s.name], Opened(l, s).(seen := s.seqno);
      PickedExactly(p, RecallBegin(r, s), l', s);
      assert NewSlot(l', p, s) <==> NewSlot(Opened(l, s), p, s);
      hide NewSlot, NextIs, Unremarkable, Differs, Triggers;
    }
  }

  /** Which of the answers that find nothing, or something, is given. */
  lemma FinerAnswer(x: Setup, e: Engine, s: Sample, accounted: bool)
    requires Kept(e.memory)
    ensures var v := Accept(x, e, s, accounted).1;
            && (v == Discarded <==> OutOfPlace(x, e.conf, e.generation, s))
            && (v == Malformed <==> !OutOfPlace(x, e.conf, e.generation, s) && (!s.captured || s.boot != x.boot))
            && (FindingOf(v) == Picked ==> if s.timed then v in {NoRoom, Unaccounted, Admitted} else v == TimeInvalid)
  {
  }

  lemma OfferAnswers(x: Setup, e: Engine, l: Line, s: Sample, accounted: bool)
    requires Kept(e.memory) && Tells(RecallOf(e.memory), e.conf, s.name, l)
    ensures Answers(x, e.conf, e.generation, l, s, Accept(x, e, s, accounted).1)
  {
    OfferRecall(x, e, s, accounted);
    FindingAnswers(x, e.conf, e.generation, RecallOf(e.memory), l, s);
    FinerAnswer(x, e, s, accounted);
    hide Kept, Accept, RecallOf, RecallFinding, RecallAccept, Unremarkable, NewSlot, Tells, OutOfPlace, Opened;
  }

  /** And the line notes what the reference then recalls. */
  lemma OfferNoted(x: Setup, conf: Option<Conf>, generation: Option<int>, r: Recall, l: Line, s: Sample, v: Verdict)
    requires Tells(r, conf, s.name, l) && FindingOf(v) == RecallFinding(x, conf, generation, r, s)
    requires conf.Some? && s.name in conf.value.points
    ensures Tells(RecallAccept(x, conf, generation, r, s, v == Admitted), conf, s.name,
                  Noted(l, conf.value.points[s.name], s, v))
  {
    BeginTells(r, conf, l, s);
    hide Tells, RecallBegin, RecallFinding, NextDue, Opened;
    if FindingOf(v) in {Passed, Picked} {
      var r', l' := RecallBegin(r, s), Opened(l, s).(seen := s.seqno);
      ProcessedTells(r', conf, conf.value.points[s.name], l', s, v);
      TakenIs(x, conf, generation, r, s, v);
    } else {
      IgnoredIs(x, conf, generation, r, s, v);
    }
  }

  function Taken(r: Recall, p: Point, s: Sample, admitted: bool): Recall {
    var r' := r.(due := r.due[s.name := NextDue(p, DueAt(r, s.name), s)]);
    if admitted then r'.(last := r'.last[s.name := s]) else r'
  }

  lemma TakenIs(x: Setup, conf: Option<Conf>, generation: Option<int>, r: Recall, s: Sample, v: Verdict)
    requires FindingOf(v) == RecallFinding(x, conf, generation, r, s) && FindingOf(v) in {Passed, Picked}
    ensures conf.Some? && s.name in conf.value.points
    ensures RecallAccept(x, conf, generation, r, s, v == Admitted)
            == Taken(RecallBegin(r, s), conf.value.points[s.name], s, v == Admitted)
  {
    hide RecallBegin, NextDue;
  }

  lemma IgnoredIs(x: Setup, conf: Option<Conf>, generation: Option<int>, r: Recall, s: Sample, v: Verdict)
    requires FindingOf(v) == RecallFinding(x, conf, generation, r, s) && FindingOf(v) !in {Passed, Picked}
    ensures RecallAccept(x, conf, generation, r, s, v == Admitted)
            == if FindingOf(v) == Ignored then r else RecallBegin(r, s)
  {
    hide RecallBegin, NextDue;
  }

  lemma ProcessedTells(r: Recall, conf: Option<Conf>, p: Point, l: Line, s: Sample, v: Verdict)
    requires Tells(r, conf, s.name, l) && conf.Some? && s.name in conf.value.points && p == conf.value.points[s.name]
    requires l.epoch.Some? && l.seen == s.seqno
    ensures Tells(Taken(r, p, s, v == Admitted), conf, s.name,
                  l.(slots := if Polled(p, s) then l.slots + {s.slot.value} else l.slots,
                     last := if v == Admitted then Some(s) else l.last))
  {
    var l1 := if Polled(p, s) then l.(slots := l.slots + {s.slot.value}) else l;
    var due := DueAt(Taken(r, p, s, v == Admitted), s.name);
    NextAfter(l, p, DueAt(r, s.name), s);
    NextStays(l1, l1.(last := if v == Admitted then Some(s) else l.last), p.interval, due);
    hide NextIs, NextDue;
  }

  // ---- Every run

  /** A line for each point a configuration has been seen to name. */
  function LineOf(lines: map<Name, Line>, k: Name): Line {
    if k in lines then lines[k] else Line(None, 0, 0, {}, None)
  }

  function NotedAll(lines: map<Name, Line>, conf: Option<Conf>, o: Offered): map<Name, Line> {
    var s := o.sample;
    if conf.None? || s.name !in conf.value.points then lines
    else lines[s.name := Noted(LineOf(lines, s.name), conf.value.points[s.name], s, o.verdict)]
  }

  /** Each sample of the story is answered as the lines told so far demand. */
  ghost predicate Answered(x: Setup, conf: Option<Conf>, generation: Option<int>, lines: map<Name, Line>,
                           story: seq<Offered>)
    decreases |story|
  {
    story != [] ==>
      && Answers(x, conf, generation, LineOf(lines, story[0].sample.name), story[0].sample, story[0].verdict)
      && Answered(x, conf, generation, NotedAll(lines, conf, story[0]), story[1..])
  }

  ghost predicate AllTell(r: Recall, conf: Option<Conf>, lines: map<Name, Line>) {
    forall k :: Tells(r, conf, k, LineOf(lines, k))
  }

  lemma OthersTell(x: Setup, conf: Option<Conf>, generation: Option<int>, r: Recall, s: Sample, v: Verdict, k: Name,
                   l: Line)
    requires Tells(r, conf, k, l) && k != s.name
    ensures Tells(RecallAccept(x, conf, generation, r, s, v == Admitted), conf, k, l)
  {
    hide NextIs, RecallFinding, NextDue;
  }

  lemma StepTells(x: Setup, e: Engine, s: Sample, accounted: bool, lines: map<Name, Line>)
    requires Kept(e.memory) && AllTell(RecallOf(e.memory), e.conf, lines)
    ensures var (e', v) := Accept(x, e, s, accounted);
            && Answers(x, e.conf, e.generation, LineOf(lines, s.name), s, v)
            && AllTell(RecallOf(e'.memory), e.conf, NotedAll(lines, e.conf, Offered(s, v)))
  {
    var (e', v) := Accept(x, e, s, accounted);
    var r, l := RecallOf(e.memory), LineOf(lines, s.name);
    OfferAnswers(x, e, l, s, accounted);
    OfferRecall(x, e, s, accounted);
    hide Kept, Accept, RecallOf, RecallFinding, RecallAccept, Tells, Noted, Answers;
    forall k ensures Tells(RecallOf(e'.memory), e.conf, k, LineOf(NotedAll(lines, e.conf, Offered(s, v)), k)) {
      if k != s.name {
        OthersTell(x, e.conf, e.generation, r, s, v, k, LineOf(lines, k));
      } else if e.conf.Some? && s.name in e.conf.value.points {
        OfferNoted(x, e.conf, e.generation, r, l, s, v);
      } else {
        StrangerTells(x, e.conf, e.generation, r, s, v);
      }
    }
  }

  lemma StrangerTells(x: Setup, conf: Option<Conf>, generation: Option<int>, r: Recall, s: Sample, v: Verdict)
    requires conf.None? || s.name !in conf.value.points
    ensures RecallAccept(x, conf, generation, r, s, v == Admitted) == r
  {
  }

  /** Along every run between two configurations, whatever is frozen and committed meanwhile, each sample
      is answered as the samples and answers before it demand. */
  lemma {:induction false} RunAnswered(x: Setup, e: Engine, ops: seq<Op>, lines: map<Name, Line>)
    requires EngineOk(x, e) && Kept(e.memory) && Permitted(x, e, ops) && EpochsNew(x, e, ops)
    requires (forall i :: 0 <= i < |ops| ==> Plain(ops[i])) && AllTell(RecallOf(e.memory), e.conf, lines)
    ensures Answered(x, e.conf, e.generation, lines, Story(x, e, ops))
    decreases |ops|
  {
    if ops != [] {
      var op, e' := ops[0], Step(x, e, ops[0]);
      StepOk(x, e, op);
      StepKept(x, e, op);
      hide EngineOk, Kept, RecallOf, Accept, AllTell, Answers;
      if op.Offer? {
        StepTells(x, e, op.sample, op.accounted, lines);
        OfferConf(x, e, op.sample, op.accounted);
        TellFirst(x, e, ops);
        RunAnswered(x, e', ops[1..],
          NotedAll(lines, e.conf, Offered(op.sample, Accept(x, e, op.sample, op.accounted).1)));
      } else {
        HousekeepingRecall(x, e, op);
        RunAnswered(x, e', ops[1..], lines);
      }
    }
  }

  /** What a configuration starts with, before anything is offered under it. */
  function StartLines(m: Memory): map<Name, Line> {
    map k | k in m.epochs.Keys + m.seen.Keys :: StartLine(m, k)
  }

  lemma StartTells(m: Memory, conf: Option<Conf>)
    requires m.shadows == map[]
    ensures AllTell(RecallOf(m), conf, StartLines(m))
  {
    forall k ensures Tells(RecallOf(m), conf, k, LineOf(StartLines(m), k)) {
      StartLineTells(m, conf, k);
      hide Tells, RecallOf;
    }
  }

  lemma StartLineTells(m: Memory, conf: Option<Conf>, k: Name)
    requires m.shadows == map[]
    ensures Tells(RecallOf(m), conf, k, StartLine(m, k))
    ensures k !in m.epochs.Keys + m.seen.Keys ==> Tells(RecallOf(m), conf, k, Line(None, 0, 0, {}, None))
  {
    if k in m.epochs { RecalledLast(m, k); }
    if conf.Some? && k in conf.value.points { NextFirst(StartLine(m, k), conf.value.points[k].interval); }
    hide NextIs;
  }

  /** From a configuration on, with what its checkpoint remembers. */
  lemma SelectionAnswers(x: Setup, e: Engine, ops: seq<Op>)
    requires EngineOk(x, e) && Kept(e.memory) && e.memory.shadows == map[]
    requires Permitted(x, e, ops) && EpochsNew(x, e, ops) && forall i :: 0 <= i < |ops| ==> Plain(ops[i])
    ensures Answered(x, e.conf, e.generation, StartLines(e.memory), Story(x, e, ops))
  {
    StartTells(e.memory, e.conf);
    RunAnswered(x, e, ops, StartLines(e.memory));
  }

  /** In the life of a process: under every configuration, from the memory it starts with. */
  lemma ConfigurationAnswers(x: Setup, brought: Option<Checkpoint>, before: seq<Op>, op: Op, ops: seq<Op>)
    requires MayStart(x, brought) && Permitted(x, Initial(brought), before) && EpochsNew(x, Initial(brought), before)
    requires op.Configure? && Can(x, Run(x, Initial(brought), before), op)
    requires var e := Step(x, Run(x, Initial(brought), before), op);
             Permitted(x, e, ops) && EpochsNew(x, e, ops) && forall i :: 0 <= i < |ops| ==> Plain(ops[i])
    ensures var e := Step(x, Run(x, Initial(brought), before), op);
            Answered(x, op.conf, op.generation, StartLines(e.memory), Story(x, e, ops))
  {
    var e0 := Run(x, Initial(brought), before);
    InitialOk(x, brought);
    RunOk(x, Initial(brought), before);
    RunKept(x, Initial(brought), before);
    StepOk(x, e0, op);
    StepKept(x, e0, op);
    SelectionAnswers(x, Step(x, e0, op), ops);
  }

  // ---- What this means for a story

  function LinesAfter(lines: map<Name, Line>, conf: Option<Conf>, story: seq<Offered>): map<Name, Line>
    decreases |story|
  {
    if story == [] then lines else LinesAfter(NotedAll(lines, conf, story[0]), conf, story[1..])
  }

  /** The line on which the i-th sample of a story was judged. */
  function LineAt(lines: map<Name, Line>, conf: Option<Conf>, story: seq<Offered>, i: nat): Line
    requires i < |story|
  {
    Opened(LineOf(LinesAfter(lines, conf, story[..i]), story[i].sample.name), story[i].sample)
  }

  lemma {:induction false} AnsweredAt(x: Setup, conf: Option<Conf>, generation: Option<int>, lines: map<Name, Line>,
                                      story: seq<Offered>, i: nat)
    requires Answered(x, conf, generation, lines, story) && i < |story|
    ensures Answers(x, conf, generation, LineOf(LinesAfter(lines, conf, story[..i]), story[i].sample.name),
                    story[i].sample, story[i].verdict)
    decreases |story|
  {
    if i > 0 {
      assert story[..i][0] == story[0] && story[..i][1..] == story[1..][..i - 1];
      AnsweredAt(x, conf, generation, NotedAll(lines, conf, story[0]), story[1..], i - 1);
    } else {
      assert story[..0] == [];
    }
  }

  /** What a new sample is compared with was admitted earlier in the story, or was there at its start; and
      nothing of the point has been admitted since. */
  ghost predicate LastFrom(lines: map<Name, Line>, story: seq<Offered>, k: Name, last: Sample) {
    || (exists j ::
          0 <= j < |story| && story[j] == Offered(last, Admitted) && last.name == k && NoneSince(story, k, j + 1))
    || (LineOf(lines, k).last == Some(last) && NoneSince(story, k, 0))
  }

  ghost predicate NoneSince(story: seq<Offered>, k: Name, from: nat) {
    forall i :: from <= i < |story| && story[i].sample.name == k ==> story[i].verdict != Admitted
  }

  lemma {:induction false} LastTold(lines: map<Name, Line>, conf: Option<Conf>, story: seq<Offered>, k: Name)
    requires conf.Some? && k in conf.value.points
    ensures var l := LineOf(LinesAfter(lines, conf, story), k);
            l.last.Some? ==> LastFrom(lines, story, k, l.last.value)
    decreases |story|
  {
    if story != [] {
      var rest, lines' := story[1..], NotedAll(lines, conf, story[0]);
      LastTold(lines', conf, rest, k);
      var l := LineOf(LinesAfter(lines, conf, story), k);
      if l.last.Some? { LastBack(lines, lines', story, k, l.last.value, conf); }
    }
  }

  lemma LastBack(lines: map<Name, Line>, lines': map<Name, Line>, story: seq<Offered>, k: Name, last: Sample,
                 conf: Option<Conf>)
    requires story != [] && lines' == NotedAll(lines, conf, story[0]) && conf.Some? && k in conf.value.points
    requires LastFrom(lines', story[1..], k, last)
    ensures LastFrom(lines, story, k, last)
  {
    var rest := story[1..];
    if j :| 0 <= j < |rest| && rest[j] == Offered(last, Admitted) && last.name == k && NoneSince(rest, k, j + 1) {
      assert story[j + 1] == rest[j];
      assert NoneSince(story, k, j + 2) by {
        forall i | j + 2 <= i < |story| && story[i].sample.name == k ensures story[i].verdict != Admitted {
          assert rest[i - 1] == story[i];
        }
      }
    } else {
      assert forall i :: 1 <= i < |story| ==> rest[i - 1] == story[i];
      if story[0].sample.name == k && story[0].verdict == Admitted {
        assert story[0] == Offered(last, Admitted) && NoneSince(story, k, 1);
      }
    }
  }

  /** A good number that is filtered out where changes are reported is never further than the deadband,
      above or below, from the last one of its epoch that was admitted. */
  lemma FilteredIsNear(x: Setup, conf: Option<Conf>, generation: Option<int>, lines: map<Name, Line>,
                       story: seq<Offered>, i: nat)
    requires Answered(x, conf, generation, lines, story) && i < |story| && story[i].verdict == Filtered
    requires conf.Some? && story[i].sample.name in conf.value.points
    requires conf.value.points[story[i].sample.name].mode != Cyclic
    requires story[i].sample.quality == "GOOD" && story[i].sample.value.Number?
    ensures var s, p, last :=
            story[i].sample, conf.value.points[story[i].sample.name], LineAt(lines, conf, story, i).last;
            && last.Some? && last.value.quality == "GOOD" && last.value.value.Number?
            && -p.deadband <= s.value.x - last.value.value.x <= p.deadband
            && LastFrom(lines, story[..i], s.name, last.value)
  {
    AnsweredAt(x, conf, generation, lines, story, i);
    LastTold(lines, conf, story[..i], story[i].sample.name);
    hide Answered, LinesAfter, LastFrom, NewSlot;
  }

  // ---- Room, and where an admitted sample waits

  /** What is kept back for batches: an eighth of the bytes, at most 2 MiB. */
  function Headroom(x: Setup): int { if x.maxBytes / 8 < 2097152 then x.maxBytes / 8 else 2097152 }

  /** Whether a selected sample with a usable time finds a place, after the latest view has been renewed. */
  ghost predicate Fits(x: Setup, e: Engine, s: Sample) {
    && |e.stock.owned| < x.capacity
    && Used(x, e) + (if s in Retained(e) then 0 else x.charge(s)) <= x.maxBytes - Headroom(x)
  }

  /** There is no room exactly when the event count is at capacity or the bytes kept back for batches would
      be touched; with room, a sample is admitted exactly when its decision was awaited. */
  lemma RoomExactly(x: Setup, e: Engine, s: Sample, accounted: bool)
    ensures var (e', v) := Accept(x, e, s, accounted);
            FindingOf(v) == Picked && v != TimeInvalid ==>
              v == if !Fits(x, e'.(stock := e.stock), s) then NoRoom else if accounted then Admitted else Unaccounted
  {
    AcceptCases(x, e, s, accounted);
    if Turned(x, e, s).None? {
      var shown, e' := Shown(x, e, s), Accept(x, e, s, accounted).0;
      ShowStock(x, e, s);
      SameRetained(shown, e'.(stock := e.stock), e.conf.value.points[s.name], Min(500, e.conf.value.maxPoints), s,
                   Accept(x, e, s, accounted).1);
      RulingFits(x, shown, e.conf.value.points[s.name], s, accounted);
      assert Fits(x, shown, s) <==> Fits(x, e'.(stock := e.stock), s);
      hide Retained, SumCharge, Shown, Accept, Applied, Ruling;
    }
  }

  lemma SameRetained(e: Engine, e': Engine, p: Point, limit: nat, s: Sample, v: Verdict)
    requires e' == Applied(e, p, limit, s, v).(stock := e.stock)
    ensures Retained(e') == Retained(e)
  {
  }

  lemma RulingFits(x: Setup, e: Engine, p: Point, s: Sample, accounted: bool)
    ensures var v := Ruling(x, e, p, s, accounted);
            FindingOf(v) == Picked && v != TimeInvalid ==>
              v == if !Fits(x, e, s) then NoRoom else if accounted then Admitted else Unaccounted
  {
  }

  /** The latest view takes each sample that is looked at, if it fits beside everything else without
      touching those bytes; else it shows nothing of the point. */
  lemma ShownExactly(x: Setup, e: Engine, s: Sample, accounted: bool)
    ensures var (e', v) := Accept(x, e, s, accounted);
            if v in {Discarded, Malformed, Stale} then e' == e
            else
              var rest := e'.(stock := e.stock, latest := e.latest - {s.name});
              e'.latest == if Used(x, rest) + x.charge(s) <= x.maxBytes - Headroom(x) then e.latest[s.name := s]
                           else e.latest - {s.name}
  {
    AcceptCases(x, e, s, accounted);
    if Turned(x, e, s).None? {
      var shown, p, limit := Shown(x, e, s), e.conf.value.points[s.name], Min(500, e.conf.value.maxPoints);
      var v := Ruling(x, shown, p, s, accounted);
      RulingRoom(x, shown, p, s, accounted);
      BegunRetained(x, e, s, p, limit, v);
      ShownLatest(x, e, s);
      AppliedLatest(shown, p, limit, s, v);
      SameUsed(x, e.(memory := Begin(e.memory, s), latest := e.latest - {s.name}),
               Applied(shown, p, limit, s, v).(stock := e.stock, latest := e.latest - {s.name}));
      hide Retained, Used, Ruling, Begin, Accept, Applied, Shown;
    }
  }

  lemma SameUsed(x: Setup, a: Engine, b: Engine)
    requires Retained(a) == Retained(b) && a.stock == b.stock
    ensures Used(x, a) == Used(x, b)
  {
  }

  lemma AppliedLatest(e: Engine, p: Point, limit: nat, s: Sample, v: Verdict)
    ensures Applied(e, p, limit, s, v).latest == e.latest
  {
  }

  lemma ShownLatest(x: Setup, e: Engine, s: Sample)
    ensures var rest := e.(memory := Begin(e.memory, s), latest := e.latest - {s.name});
            Shown(x, e, s).latest == if Used(x, rest) + x.charge(s) <= x.maxBytes - Headroom(x)
                                     then e.latest[s.name := s] else e.latest - {s.name}
  {
    assert e.latest[s.name := s] == (e.latest - {s.name})[s.name := s];
    hide Used, Begin;
  }

  lemma BegunRetained(x: Setup, e: Engine, s: Sample, p: Point, limit: nat, v: Verdict)
    ensures Retained(e.(memory := Begin(e.memory, s), latest := e.latest - {s.name}))
            == Retained(Applied(Shown(x, e, s), p, limit, s, v).(stock := e.stock, latest := e.latest - {s.name}))
  {
    ShowMemory(x, e, s);
    hide Begin, Shown;
  }

  /** An admitted sample is owned and waits last in its queue, with the point limit of its configuration;
      any other answer leaves the stock alone. */
  lemma AdmittedWaits(x: Setup, e: Engine, s: Sample, accounted: bool)
    requires e.conf.Some?
    ensures var (e', v) := Accept(x, e, s, accounted);
            var wait := Queued(s, if e.conf.value.maxPoints < 500 then e.conf.value.maxPoints else 500);
            e'.stock == if v != Admitted then e.stock
                        else if s.seqno <= e.stock.watermark
                        then e.stock.(owned := e.stock.owned[s.seqno := s], history := e.stock.history + [wait])
                        else e.stock.(owned := e.stock.owned[s.seqno := s], recent := e.stock.recent + [wait])
  {
    AcceptStock(x, e, s, accounted);
    hide Accept;
  }

  // ---- Judging by the memory at hand

  /** A sample is selected against the newer of the point's owned and committed samples, or for its slot. */
  lemma ChosenExactly(p: Point, m: Memory, s: Sample)
    ensures Chosen(p, m, s)
            <==> !Unremarkable(p, NewerOf(Get(m.shadows, s.name), Get(m.baselines, s.name)), s)
                 || (Polled(p, s) && s.slot.value >= if s.name in m.due then m.due[s.name] else 0)
  {
  }

  /** The answer as the engine's own memory gives it: against the newer of the point's owned and committed
      samples and its next slot, or against nothing if the sample opens an epoch. */
  ghost predicate AnsweredNow(x: Setup, e: Engine, s: Sample, v: Verdict) {
    if OutOfPlace(x, e.conf, e.generation, s) then v == Discarded
    else if !s.captured || s.boot != x.boot then v == Malformed
    else if s.seqno <= (if s.name in e.memory.seen then e.memory.seen[s.name] else 0) then v == Stale
    else
      var p, m, k := e.conf.value.points[s.name], e.memory, s.name;
      var same := Get(m.epochs, k) == Some(s.epoch);
      var last := if same then NewerOf(Get(m.shadows, k), Get(m.baselines, k)) else None;
      var due := if !same then s.origin else if k in m.due then m.due[k] else 0;
      if p.mode != Change && s.physical && (s.slot.None? || s.slot.value > s.completed) then v == SlotError
      else if Unremarkable(p, last, s) && !(Polled(p, s) && s.slot.value >= due) then v == Filtered
      else if !s.timed then v == TimeInvalid
      else v in {NoRoom, Unaccounted, Admitted}
  }

  lemma AcceptAnswersNow(x: Setup, e: Engine, s: Sample, accounted: bool)
    ensures AnsweredNow(x, e, s, Accept(x, e, s, accounted).1)
  {
    AcceptCases(x, e, s, accounted);
    if Turned(x, e, s).None? {
      ShowMemory(x, e, s);
      ChosenExactly(e.conf.value.points[s.name], Begin(e.memory, s), s);
      RulingAnswers(x, Shown(x, e, s), e.conf.value.points[s.name], s, accounted);
      hide Unremarkable, Chosen, Ruling, Accept, Shown;
    }
  }

  lemma RulingAnswers(x: Setup, e: Engine, p: Point, s: Sample, accounted: bool)
    ensures var v := Ruling(x, e, p, s, accounted);
            if p.mode != Change && s.physical && (s.slot.None? || s.slot.value > s.completed) then v == SlotError
            else if !Chosen(p, e.memory, s) then v == Filtered
            else if !s.timed then v == TimeInvalid
            else v in {NoRoom, Unaccounted, Admitted}
  {
    hide Chosen, CanAdmit;
  }
}
