/** The Modbus read planner: a greedy merge of sorted points into hole-free blocks
    (src/plcnext_iot/points/read_plan.py). The plan is shown to be exact and to use the
    fewest blocks any exact plan can use. */
module ReadPlan {

  datatype Area = Coil | DiscreteInput | HoldingRegister | InputRegister

  datatype DataType = Bool | Int16 | UInt16 | Int32 | UInt32 | Float32

  datatype Point = Point(id: string, enabled: bool, dataType: DataType, area: Area, address: int, period: int)

  datatype ReadBlock = ReadBlock(area: Area, address: int, count: int, period: int, points: seq<Point>)

  function Width(p: Point): (w: int)
    ensures 1 <= w <= 2
  {
    if p.dataType in {Int32, UInt32, Float32} then 2 else 1
  }

  function End(p: Point): int {
    p.address + Width(p)
  }

  /** The most bits or registers one request may carry. */
  function Limit(area: Area): int {
    if area in {Coil, DiscreteInput} then 2000 else 125
  }

  /** Position of an area's name in the order of strings. */
  function AreaRank(area: Area): int {
    match area
    case Coil => 0
    case DiscreteInput => 1
    case HoldingRegister => 2
    case InputRegister => 3
  }

  predicate StringLeq(a: string, b: string) {
    a == "" || (b != "" && (a[0] < b[0] || (a[0] == b[0] && StringLeq(a[1..], b[1..]))))
  }

  predicate KeyLeq(p: Point, q: Point) {
    var pr, qr := AreaRank(p.area), AreaRank(q.area);
    pr < qr || (pr == qr &&
      (p.period < q.period || (p.period == q.period &&
        (p.address < q.address || (p.address == q.address && StringLeq(p.id, q.id))))))
  }

  ghost predicate Sorted(s: seq<Point>) {
    forall i, j :: 0 <= i < j < |s| ==> KeyLeq(s[i], s[j])
  }

  lemma {:induction false} StringLeqTotal(a: string, b: string)
    ensures StringLeq(a, b) || StringLeq(b, a)
  {
    if a != "" && b != "" { StringLeqTotal(a[1..], b[1..]); }
  }

  lemma {:induction false} StringLeqTransitive(a: string, b: string, c: string)
    requires StringLeq(a, b) && StringLeq(b, c)
    ensures StringLeq(a, c)
  {
    if a != "" && a[0] == b[0] && b[0] == c[0] { StringLeqTransitive(a[1..], b[1..], c[1..]); }
  }

  lemma KeyLeqOrder(p: Point, q: Point, r: Point)
    ensures KeyLeq(p, q) || KeyLeq(q, p)
    ensures KeyLeq(p, q) && KeyLeq(q, r) ==> KeyLeq(p, r)
  {
    StringLeqTotal(p.id, q.id);
    if StringLeq(p.id, q.id) && StringLeq(q.id, r.id) { StringLeqTransitive(p.id, q.id, r.id); }
  }

  function Enabled(points: seq<Point>): (r: seq<Point>)
    ensures forall p :: p in r <==> p in points && p.enabled
  {
    if points == [] then []
    else if points[0].enabled then [points[0]] + Enabled(points[1..])
    else Enabled(points[1..])
  }

  /** Inserts before the first point that is not smaller, so that sorting is stable. */
  function Insert(p: Point, s: seq<Point>): (r: seq<Point>)
    requires Sorted(s)
    ensures multiset(r) == multiset{p} + multiset(s)
    ensures Sorted(r)
  {
    if s == [] then [p]
    else if KeyLeq(p, s[0]) then
      assert forall j :: 0 <= j < |s| ==> KeyLeq(p, s[j]) by {
        forall j | 0 <= j < |s| ensures KeyLeq(p, s[j]) { KeyLeqOrder(p, s[0], s[j]); }
      }
      [p] + s
    else
      var rest := Insert(p, s[1..]);
      assert KeyLeq(s[0], p) by { KeyLeqOrder(p, s[0], p); }
      assert s == [s[0]] + s[1..];
      assert forall q :: q in rest ==> KeyLeq(s[0], q) by {
        forall q | q in rest ensures KeyLeq(s[0], q) {
          assert q in multiset(rest);
          assert q == p || q in s[1..];
        }
      }
      [s[0]] + rest
  }

  function Sort(s: seq<Point>): (r: seq<Point>)
    ensures multiset(r) == multiset(s)
    ensures Sorted(r)
  {
    if s == [] then [] else
      assert s == [s[0]] + s[1..];
      Insert(s[0], Sort(s[1..]))
  }

  // ---- What a plan has to satisfy

  predicate SameGroup(p: Point, q: Point) {
    p.area == q.area && p.period == q.period
  }

  /** The point lies whole inside the block, and is read at the block's period. */
  predicate Inside(p: Point, b: ReadBlock) {
    && p.area == b.area && p.period == b.period
    && b.address <= p.address && End(p) <= b.address + b.count
  }

  predicate Covers(p: Point, address: int) {
    p.address <= address < End(p)
  }

  ghost predicate Covered(b: ReadBlock, address: int) {
    exists p :: p in b.points && Covers(p, address)
  }

  /** No split value, no unread address, no oversized request. */
  ghost predicate BlockOk(b: ReadBlock) {
    && 0 < b.count <= Limit(b.area)
    && (forall p :: p in b.points ==> Inside(p, b))
    && (forall address :: b.address <= address < b.address + b.count ==> Covered(b, address))
  }

  /** A value of 32 bits takes up its register and the one after it. */
  ghost predicate TakesUp(p: Point, address: int) {
    || address == p.address
    || ((p.dataType == Int32 || p.dataType == UInt32 || p.dataType == Float32) && address == p.address + 1)
  }

  ghost predicate Needed(b: ReadBlock, address: int) {
    exists p :: p in b.points && TakesUp(p, address)
  }

  lemma CoveredIsNeeded(b: ReadBlock, address: int)
    ensures Covered(b, address) <==> Needed(b, address)
  {
    forall p: Point ensures Covers(p, address) <==> TakesUp(p, address) {}
  }

  /** Every point of an admissible block lies inside it when the block reads just what is needed. */
  lemma NeededInside(b: ReadBlock, p: Point)
    requires p in b.points && p.area == b.area && p.period == b.period
    requires forall a :: Needed(b, a) ==> b.address <= a < b.address + b.count
    ensures Inside(p, b)
  {
    assert TakesUp(p, p.address) && TakesUp(p, End(p) - 1);
    assert Needed(b, p.address) && Needed(b, End(p) - 1);
  }

  lemma OnlyNeeded(b: ReadBlock, a: int)
    requires BlockOk(b) && Needed(b, a)
    ensures b.address <= a < b.address + b.count
  {
    var p :| p in b.points && TakesUp(p, a);
    assert Inside(p, b);
  }

  /** An admissible block is a request for at most 2000 bits or 125 registers that reads the
      addresses its points take up and no other. */
  lemma BlockExactly(b: ReadBlock)
    ensures BlockOk(b) <==>
      && 0 < b.count <= (if b.area == Coil || b.area == DiscreteInput then 2000 else 125)
      && (forall p :: p in b.points ==> p.area == b.area && p.period == b.period)
      && (forall a :: Needed(b, a) <==> b.address <= a < b.address + b.count)
  {
    hide Needed;
    forall a ensures Covered(b, a) <==> Needed(b, a) { CoveredIsNeeded(b, a); }
    hide Covered;
    if BlockOk(b) {
      forall a | Needed(b, a) ensures b.address <= a < b.address + b.count { OnlyNeeded(b, a); }
      assert forall p :: p in b.points ==> Inside(p, b);
    } else {
      if (forall p :: p in b.points ==> p.area == b.area && p.period == b.period)
        && forall a :: Needed(b, a) <==> b.address <= a < b.address + b.count
      {
        forall p | p in b.points ensures Inside(p, b) { NeededInside(b, p); }
      }
    }
  }

  function Flatten(blocks: seq<ReadBlock>): seq<Point> {
    if blocks == [] then [] else Flatten(blocks[..|blocks| - 1]) + blocks[|blocks| - 1].points
  }

  /** Every enabled point is served by exactly one block, and every block is admissible. */
  ghost predicate ValidPlan(points: seq<Point>, blocks: seq<ReadBlock>) {
    && multiset(Flatten(blocks)) == multiset(Enabled(points))
    && forall i :: 0 <= i < |blocks| ==> BlockOk(blocks[i])
  }

  lemma {:induction false} FlattenMember(blocks: seq<ReadBlock>, p: Point)
    ensures p in Flatten(blocks) <==> exists i :: 0 <= i < |blocks| && p in blocks[i].points
  {
    if blocks != [] {
      var init := blocks[..|blocks| - 1];
      FlattenMember(init, p);
      if p in Flatten(init) {
        var i :| 0 <= i < |init| && p in init[i].points;
        assert p in blocks[i].points;
      }
      if i :| 0 <= i < |blocks| && p in blocks[i].points {
        if i < |init| { assert p in init[i].points; }
      }
    }
  }

  lemma PlanMember(points: seq<Point>, blocks: seq<ReadBlock>, p: Point)
    requires ValidPlan(points, blocks)
    ensures (p in points && p.enabled) <==> exists i :: 0 <= i < |blocks| && p in blocks[i].points
  {
    FlattenMember(blocks, p);
    assert p in Enabled(points) <==> p in multiset(Enabled(points));
    assert p in Flatten(blocks) <==> p in multiset(Flatten(blocks));
  }

  // ---- Why the greedy plan is minimal

  /** An address that no point of p's group in s touches. */
  ghost predicate Hole(s: seq<Point>, p: Point, address: int) {
    forall q :: q in s && SameGroup(p, q) ==> !Covers(q, address)
  }

  /** No admissible block drawn from s can hold both p and the later point q. */
  ghost predicate Apart(s: seq<Point>, p: Point, q: Point) {
    || !SameGroup(p, q)
    || End(q) - p.address > Limit(p.area)
    || exists address :: p.address <= address < End(q) && Hole(s, p, address)
  }

  lemma SharedNotApart(s: seq<Point>, p: Point, q: Point, b: ReadBlock)
    requires BlockOk(b) && p in b.points && q in b.points
    requires forall r :: r in b.points ==> r in s
    ensures !Apart(s, p, q)
  {
    assert Inside(p, b) && Inside(q, b);
    forall address | p.address <= address < End(q) ensures !Hole(s, p, address) {
      assert Covered(b, address);
      var r :| r in b.points && Covers(r, address);
      assert Inside(r, b) && SameGroup(p, r);
    }
  }

  ghost predicate AnchorsApart(s: seq<Point>, blocks: seq<ReadBlock>) {
    && (forall i :: 0 <= i < |blocks| ==> blocks[i].points != [])
    && (forall i, j :: 0 <= i < j < |blocks| ==> Apart(s, blocks[i].points[0], blocks[j].points[0]))
  }

  /** The blocks that serve distinct anchors are distinct, so any plan has at least as many blocks. */
  lemma AnchorsBound(points: seq<Point>, s: seq<Point>, blocks: seq<ReadBlock>, other: seq<ReadBlock>)
    requires multiset(s) == multiset(Enabled(points))
    requires ValidPlan(points, blocks) && AnchorsApart(s, blocks)
    requires ValidPlan(points, other)
    ensures |blocks| <= |other|
  {
    forall i | 0 <= i < |blocks|
      ensures exists k :: 0 <= k < |other| && blocks[i].points[0] in other[k].points
    {
      var p := blocks[i].points[0];
      PlanMember(points, blocks, p);
      PlanMember(points, other, p);
    }
    var pick := seq(|blocks|, i requires 0 <= i < |blocks| =>
      var k :| 0 <= k < |other| && blocks[i].points[0] in other[k].points; k);
    forall i, j | 0 <= i < j < |blocks| ensures pick[i] != pick[j] {
      if pick[i] == pick[j] {
        var b := other[pick[i]];
        forall r | r in b.points ensures r in s {
          PlanMember(points, other, r);
          assert r in multiset(Enabled(points));
        }
        SharedNotApart(s, blocks[i].points[0], blocks[j].points[0], b);
      }
    }
    Pigeonhole(pick, |other|);
  }

  lemma Pigeonhole(pick: seq<int>, bound: nat)
    requires forall i :: 0 <= i < |pick| ==> 0 <= pick[i] < bound
    requires forall i, j :: 0 <= i < j < |pick| ==> pick[i] != pick[j]
    ensures |pick| <= bound
  {
    var image := set i | 0 <= i < |pick| :: pick[i];
    DistinctImage(pick);
    var range := Range(bound);
    assert range == image + (range - image);
  }

  ghost function Range(bound: nat): (r: set<int>)
    ensures forall k :: k in r <==> 0 <= k < bound
    ensures |r| == bound
  {
    if bound == 0 then {} else Range(bound - 1) + {bound - 1}
  }

  lemma {:induction false} DistinctImage(pick: seq<int>)
    requires forall i, j :: 0 <= i < j < |pick| ==> pick[i] != pick[j]
    ensures |set i | 0 <= i < |pick| :: pick[i]| == |pick|
  {
    if pick != [] {
      var init := pick[..|pick| - 1];
      DistinctImage(init);
      var small := set i | 0 <= i < |init| :: init[i];
      assert (set i | 0 <= i < |pick| :: pick[i]) == small + {pick[|pick| - 1]};
    }
  }

  // ---- The greedy loop

  /** What the loop knows after the first n sorted points. */
  ghost predicate Progress(s: seq<Point>, n: nat, blocks: seq<ReadBlock>)
    requires n <= |s|
  {
    && Flatten(blocks) == s[..n]
    && (forall i :: 0 <= i < |blocks| ==> BlockOk(blocks[i]))
    && AnchorsApart(s, blocks)
    && (forall i :: 0 <= i < |blocks| ==> blocks[i].points[0].address == blocks[i].address)
    && (n == 0 <==> blocks == [])
    && (n > 0 ==> Frontier(s, n, blocks[|blocks| - 1]))
  }

  /** The last block belongs to the last point's group and reaches as far as any of that group so far. */
  ghost predicate Frontier(s: seq<Point>, n: nat, last: ReadBlock)
    requires 0 < n <= |s|
  {
    && last.area == s[n - 1].area && last.period == s[n - 1].period
    && forall i :: 0 <= i < n && SameGroup(s[i], s[n - 1]) ==> End(s[i]) <= last.address + last.count
  }

  lemma FlattenReplaceLast(blocks: seq<ReadBlock>, b: ReadBlock)
    requires blocks != []
    ensures Flatten(blocks[|blocks| - 1 := b]) == Flatten(blocks[..|blocks| - 1]) + b.points
  {
    assert blocks[|blocks| - 1 := b][..|blocks| - 1] == blocks[..|blocks| - 1];
  }

  lemma FlattenAppend(blocks: seq<ReadBlock>, b: ReadBlock)
    ensures Flatten(blocks + [b]) == Flatten(blocks) + b.points
  {
    assert (blocks + [b])[..|blocks|] == blocks;
  }

  /** Sorting keeps each group together: an earlier member of the next point's group puts the
      previous point in that group too. */
  lemma GroupsContiguous(s: seq<Point>, i: nat, n: nat)
    requires Sorted(s) && i < n < |s| && SameGroup(s[i], s[n])
    ensures SameGroup(s[n - 1], s[n]) && s[i].address <= s[n - 1].address <= s[n].address
  {
    assert KeyLeq(s[n - 1], s[n]);
    if i < n - 1 { assert KeyLeq(s[i], s[n - 1]); }
  }

  predicate Fits(old': ReadBlock, p: Point) {
    && old'.area == p.area && old'.period == p.period
    && p.address <= old'.address + old'.count && End(p) - old'.address <= Limit(p.area)
  }

  function Merge(old': ReadBlock, p: Point): ReadBlock {
    ReadBlock(p.area, old'.address, if old'.count < End(p) - old'.address then End(p) - old'.address else old'.count,
              old'.period, old'.points + [p])
  }

  lemma MergedBlockOk(old': ReadBlock, p: Point)
    requires BlockOk(old') && Fits(old', p) && old'.address <= p.address
    ensures BlockOk(Merge(old', p))
  {
    var merged := Merge(old', p);
    forall q | q in merged.points ensures Inside(q, merged) {
      if q in old'.points { assert Inside(q, old'); }
    }
    forall address | merged.address <= address < merged.address + merged.count
      ensures Covered(merged, address)
    {
      if address < old'.address + old'.count {
        assert Covered(old', address);
        var q :| q in old'.points && Covers(q, address);
        assert q in merged.points;
      } else {
        assert p in merged.points && Covers(p, address);
      }
    }
  }

  lemma AnchorSeen(s: seq<Point>, n: nat, blocks: seq<ReadBlock>, i: nat) returns (k: nat)
    requires n <= |s| && Progress(s, n, blocks) && i < |blocks|
    ensures k < n && s[k] == blocks[i].points[0]
  {
    var a := blocks[i].points[0];
    FlattenMember(blocks, a);
    assert a in multiset(Flatten(blocks));
    assert a in s[..n];
    k :| 0 <= k < n && s[k] == a;
  }

  lemma MergeStep(s: seq<Point>, n: nat, blocks: seq<ReadBlock>)
    requires Sorted(s) && n < |s| && Progress(s, n, blocks)
    requires blocks != [] && Fits(blocks[|blocks| - 1], s[n])
    ensures Progress(s, n + 1, blocks[|blocks| - 1 := Merge(blocks[|blocks| - 1], s[n])])
  {
    var p, last := s[n], |blocks| - 1;
    var old', merged := blocks[last], Merge(blocks[last], p);
    var next := blocks[last := merged];
    FlattenReplaceLast(blocks, merged);
    assert s[..n + 1] == s[..n] + [p];
    assert Flatten(next) == Flatten(blocks) + [p];
    var k := AnchorSeen(s, n, blocks, last);
    assert KeyLeq(s[k], s[n]);
    assert Inside(old'.points[0], old');
    MergedBlockOk(old', p);
    forall i | 0 <= i <= n && SameGroup(s[i], p) ensures End(s[i]) <= merged.address + merged.count {
      if i < n { GroupsContiguous(s, i, n); }
    }
    assert forall i :: 0 <= i <= last ==> next[i].points[0] == blocks[i].points[0];
  }

  lemma NewBlockApart(s: seq<Point>, n: nat, blocks: seq<ReadBlock>, i: nat)
    requires Sorted(s) && n < |s| && Progress(s, n, blocks) && i < |blocks|
    requires !Fits(blocks[|blocks| - 1], s[n])
    ensures Apart(s, blocks[i].points[0], s[n])
  {
    var p, last := s[n], |blocks| - 1;
    var old', a, z := blocks[last], blocks[i].points[0], blocks[last].points[0];
    if SameGroup(a, p) {
      var k := AnchorSeen(s, n, blocks, i);
      GroupsContiguous(s, k, n);
      assert Inside(z, old');
      var reach := old'.address + old'.count;
      if reach < p.address {
        assert Hole(s, a, reach) by {
          forall q | q in s && SameGroup(a, q) ensures !Covers(q, reach) {
            var m :| 0 <= m < |s| && s[m] == q;
            if m > n { assert KeyLeq(s[n], s[m]); }
          }
        }
        assert Inside(a, blocks[i]);
        assert End(a) <= reach;
      } else {
        assert End(p) - old'.address > Limit(p.area);
        if i < last { assert Apart(s, a, z); }
      }
    }
  }

  lemma AppendStep(s: seq<Point>, n: nat, blocks: seq<ReadBlock>)
    requires Sorted(s) && n < |s| && Progress(s, n, blocks)
    requires blocks != [] ==> !Fits(blocks[|blocks| - 1], s[n])
    ensures Progress(s, n + 1, blocks + [ReadBlock(s[n].area, s[n].address, Width(s[n]), s[n].period, [s[n]])])
  {
    var p := s[n];
    var b := ReadBlock(p.area, p.address, Width(p), p.period, [p]);
    FlattenAppend(blocks, b);
    assert s[..n + 1] == s[..n] + [p];
    assert BlockOk(b) by {
      forall address | b.address <= address < b.address + b.count ensures Covered(b, address) {
        assert p in b.points && Covers(p, address);
      }
    }
    forall i | 0 <= i < |blocks| ensures Apart(s, blocks[i].points[0], p) { NewBlockApart(s, n, blocks, i); }
    forall i | 0 <= i <= n && SameGroup(s[i], p) ensures End(s[i]) <= b.address + b.count {
      if i < n {
        GroupsContiguous(s, i, n);
        assert End(s[i]) <= blocks[|blocks| - 1].address + blocks[|blocks| - 1].count;
      }
    }
  }

  /** Once every sorted point is placed, the plan is exact and minimal. */
  lemma PlanDone(points: seq<Point>, s: seq<Point>, blocks: seq<ReadBlock>)
    requires multiset(s) == multiset(Enabled(points)) && Progress(s, |s|, blocks)
    ensures ValidPlan(points, blocks) && Flatten(blocks) == s
    ensures forall other :: ValidPlan(points, other) ==> |blocks| <= |other|
  {
    assert s[..|s|] == s;
    forall other | ValidPlan(points, other) ensures |blocks| <= |other| {
      AnchorsBound(points, s, blocks, other);
    }
  }

  /** The blocks after one turn of the loop: the last one extended, or a new one. */
  function Placed(point: Point, blocks: seq<ReadBlock>): seq<ReadBlock> {
    if blocks != [] && Fits(blocks[|blocks| - 1], point)
    then blocks[|blocks| - 1 := Merge(blocks[|blocks| - 1], point)]
    else blocks + [ReadBlock(point.area, point.address, Width(point), point.period, [point])]
  }

  lemma PlacedProgress(s: seq<Point>, n: nat, blocks: seq<ReadBlock>)
    requires Sorted(s) && n < |s| && Progress(s, n, blocks)
    ensures Progress(s, n + 1, Placed(s[n], blocks))
  {
    if blocks != [] && Fits(blocks[|blocks| - 1], s[n]) { MergeStep(s, n, blocks); } else { AppendStep(s, n, blocks); }
  }

  method PlaceNext(point: Point, blocks: seq<ReadBlock>) returns (next: seq<ReadBlock>)
    ensures next == Placed(point, blocks)
  {
    var area, address, end := point.area, point.address, End(point);
    if blocks != [] && Fits(blocks[|blocks| - 1], point) {
      var last := blocks[|blocks| - 1];
      var count := if last.count < end - last.address then end - last.address else last.count;
      next := blocks[|blocks| - 1 := ReadBlock(area, last.address, count, last.period, last.points + [point])];
    } else {
      next := blocks + [ReadBlock(area, address, Width(point), point.period, [point])];
    }
  }

  /** The planner. Besides being exact, its result is minimal among all exact plans, and lists the
      enabled points in the sorted order. */
  method PlanReads(points: seq<Point>) returns (blocks: seq<ReadBlock>)
    ensures ValidPlan(points, blocks) && Sorted(Flatten(blocks))
    ensures forall other :: ValidPlan(points, other) ==> |blocks| <= |other|
  {
    blocks := [];
    var sorted := Sort(Enabled(points));
    for n := 0 to |sorted|
      invariant Progress(sorted, n, blocks)
    {
      PlacedProgress(sorted, n, blocks);
      blocks := PlaceNext(sorted[n], blocks);
    }
    PlanDone(points, sorted, blocks);
  }
}
