/**
 * What the simulated cost means.
 *
 * A served request keeps the disk busy over its own bytes and, at worst, a full
 * seek after them: the interval [offset, end + SEEK_CAP). The union of these
 * intervals, the footprint, depends only on which requests there are. No service
 * order costs less than the size of the footprint, and the offset order of
 * non-overlapping requests costs exactly that.
 */
module ScanTheory {
  import opened DiskSim

  /** The integers from lo up to, not including, hi. */
  ghost function Interval(lo: int, hi: int): (s: set<int>)
    ensures forall t :: t in s <==> lo <= t < hi
    ensures |s| == if lo < hi then hi - lo else 0
    decreases hi - lo
  {
    if lo < hi then Interval(lo, hi - 1) + {hi - 1} else {}
  }

  lemma {:induction false} SubsetSize(a: set<int>, b: set<int>)
    requires a <= b
    ensures |a| <= |b|
  {
    assert b == a + (b - a);
  }

  ghost function Reach(r: IORequest): set<int> {
    Interval(r.offset, r.End() + SEEK_CAP)
  }

  ghost function Footprint(rs: seq<IORequest>): set<int> {
    if rs == [] then {} else Reach(rs[0]) + Footprint(rs[1..])
  }

  ghost predicate NonNegative(rs: seq<IORequest>) {
    forall r <- rs :: r.size >= 0
  }

  lemma {:induction false} InFootprint(rs: seq<IORequest>, t: int)
    ensures t in Footprint(rs) <==> exists i :: 0 <= i < |rs| && t in Reach(rs[i])
  {
    if rs != [] {
      InFootprint(rs[1..], t);
      if t in Footprint(rs[1..]) {
        var i :| 0 <= i < |rs[1..]| && t in Reach(rs[1..][i]);
        assert rs[i + 1] == rs[1..][i];
      }
      if i :| 0 <= i < |rs| && t in Reach(rs[i]) {
        if i > 0 { assert rs[1..][i - 1] == rs[i]; }
      }
    }
  }

  lemma {:induction false} FootprintSnoc(rs: seq<IORequest>, r: IORequest)
    ensures Footprint(rs + [r]) == Footprint(rs) + Reach(r)
  {
    if rs == [] {
      assert [r][1..] == [];
    } else {
      assert (rs + [r])[1..] == rs[1..] + [r];
      FootprintSnoc(rs[1..], r);
    }
  }

  /** The footprint forgets order and multiplicity. */
  lemma {:induction false} FootprintOfSubset(a: seq<IORequest>, b: seq<IORequest>)
    requires forall r <- a :: r in b
    ensures Footprint(a) <= Footprint(b)
  {
    forall t | t in Footprint(a) ensures t in Footprint(b) {
      InFootprint(a, t);
      var i :| 0 <= i < |a| && t in Reach(a[i]);
      assert a[i] in b;
      var j :| 0 <= j < |b| && b[j] == a[i];
      InFootprint(b, t);
    }
  }

  lemma FootprintOfPermutation(a: seq<IORequest>, b: seq<IORequest>)
    requires multiset(a) == multiset(b)
    ensures Footprint(a) == Footprint(b)
  {
    forall r | r in a ensures r in b { assert r in multiset(a); }
    forall r | r in b ensures r in a { assert r in multiset(b); }
    FootprintOfSubset(a, b);
    FootprintOfSubset(b, a);
  }

  // ----- No order beats the footprint -------------------------------------

  /** What serving `r` right after `last` adds to the footprint is never more than it costs. */
  lemma StepCoversReach(last: IORequest, r: IORequest)
    requires last.size >= 0 && r.size >= 0
    ensures |Reach(r) - Reach(last)| <= r.size + SeekTime(last.End(), r.offset)
  {
    var hi := r.End() + SEEK_CAP;
    var left := Interval(r.offset, if hi < last.offset then hi else last.offset);
    var right := Interval(if r.offset > last.End() + SEEK_CAP then r.offset else last.End() + SEEK_CAP, hi);
    assert Reach(r) - Reach(last) <= left + right;
    SubsetSize(Reach(r) - Reach(last), left + right);
    assert |left + right| <= |left| + |right|;
  }

  lemma UnionGrowth(f: set<int>, last: set<int>, r: set<int>)
    requires last <= f
    ensures |f + r| <= |f| + |r - last|
  {
    assert f + r == f + (r - f);
    assert f !! (r - f);
    SubsetSize(r - f, r - last);
  }

  lemma FootprintOfOne(r: IORequest)
    ensures Footprint([r]) == Reach(r)
    ensures r.size >= 0 ==> |Footprint([r])| == FreshCost([r])
  {
    assert [r][1..] == [];
    assert Footprint([r]) == Reach(r);
    assert ServeCost(r.offset, [r]) == r.size;
  }

  lemma PrefixFacts(rs: seq<IORequest>)
    requires |rs| > 1 && NonNegative(rs)
    ensures var front := rs[..|rs| - 1];
            && NonNegative(front) && front[|front| - 1] == rs[|rs| - 2]
            && rs[|rs| - 2].size >= 0 && rs[|rs| - 1].size >= 0
            && Footprint(rs) == Footprint(front) + Reach(rs[|rs| - 1])
            && FreshCost(rs) == FreshCost(front) + rs[|rs| - 1].size
                                + SeekTime(rs[|rs| - 2].End(), rs[|rs| - 1].offset)
  {
    var front, r := rs[..|rs| - 1], rs[|rs| - 1];
    assert rs == front + [r];
    forall x | x in front ensures x.size >= 0 { assert x in rs; }
    assert rs[|rs| - 2] in rs && r in rs;
    FootprintSnoc(front, r);
    ServeCostSnoc(front[0].offset, front, r);
  }

  lemma LastReach(rs: seq<IORequest>)
    requires rs != []
    ensures Reach(rs[|rs| - 1]) <= Footprint(rs)
  {
    forall t | t in Reach(rs[|rs| - 1]) ensures t in Footprint(rs) { InFootprint(rs, t); }
  }

  lemma {:induction false} EveryOrderCoversFootprint(rs: seq<IORequest>)
    requires NonNegative(rs)
    ensures |Footprint(rs)| <= FreshCost(rs)
  {
    if |rs| == 1 {
      FootprintOfOne(rs[0]);
      assert rs == [rs[0]];
    } else if |rs| > 1 {
      PrefixFacts(rs);
      var front := rs[..|rs| - 1];
      EveryOrderCoversFootprint(front);
      LastReach(front);
      UnionGrowth(Footprint(front), Reach(rs[|rs| - 2]), Reach(rs[|rs| - 1]));
      StepCoversReach(rs[|rs| - 2], rs[|rs| - 1]);
    }
  }

  // ----- The offset order of non-overlapping requests attains it ----------

  /** Ordered by offset: what sort() with request_cmp produces, ties in any order. */
  ghost predicate Ordered(rs: seq<IORequest>) {
    forall i, j :: 0 <= i < j < |rs| ==> rs[i].offset <= rs[j].offset
  }

  /** In list order, each request starts at or after the end of the one before. */
  ghost predicate Chained(rs: seq<IORequest>) {
    forall i, j :: 0 <= i < |rs| && j == i + 1 && j < |rs| ==> rs[i].End() <= rs[j].offset
  }

  ghost predicate IsScanOrder(order: seq<IORequest>, rs: seq<IORequest>) {
    Ordered(order) && multiset(order) == multiset(rs)
  }

  lemma ChainedPrefix(rs: seq<IORequest>)
    requires |rs| > 1 && Chained(rs)
    ensures Chained(rs[..|rs| - 1]) && rs[|rs| - 2].End() <= rs[|rs| - 1].offset
  {
  }

  /** Every footprint point of a chained list lies before the last request's reach ends. */
  lemma {:induction false} ChainedStaysBelow(rs: seq<IORequest>, t: int)
    requires NonNegative(rs) && Chained(rs) && rs != [] && t in Footprint(rs)
    ensures t < rs[|rs| - 1].End() + SEEK_CAP
  {
    if |rs| == 1 {
      assert rs == [rs[0]];
      FootprintOfOne(rs[0]);
    } else {
      PrefixFacts(rs);
      ChainedPrefix(rs);
      if t in Footprint(rs[..|rs| - 1]) { ChainedStaysBelow(rs[..|rs| - 1], t); }
    }
  }

  /** A request that starts where or after the last one ended adds exactly its cost. */
  lemma ChainedStepIsExact(f: set<int>, last: IORequest, r: IORequest)
    requires last.size >= 0 && r.size >= 0 && last.End() <= r.offset
    requires Reach(last) <= f && forall t :: t in f ==> t < last.End() + SEEK_CAP
    ensures |f + Reach(r)| == |f| + r.size + SeekTime(last.End(), r.offset)
  {
    var from := if r.offset > last.End() + SEEK_CAP then r.offset else last.End() + SEEK_CAP;
    var added := Interval(from, r.End() + SEEK_CAP);
    forall t | t in Reach(r) ensures t in f + added {
      if t < from { assert t in Reach(last); }
    }
    assert f + Reach(r) == f + added;
    assert f !! added;
  }

  /** A request that starts inside the last one costs more than it adds. */
  lemma OverlappingStepIsWasteful(last: IORequest, r: IORequest)
    requires last.size >= 0 && r.size >= 0 && last.offset <= r.offset < last.End()
    ensures |Reach(r) - Reach(last)| < r.size + SeekTime(last.End(), r.offset)
  {
    var right := Interval(last.End() + SEEK_CAP, r.End() + SEEK_CAP);
    assert Reach(r) - Reach(last) <= right;
    SubsetSize(Reach(r) - Reach(last), right);
  }

  lemma {:induction false} ChainedScanIsExact(rs: seq<IORequest>)
    requires NonNegative(rs) && Chained(rs)
    ensures FreshCost(rs) == |Footprint(rs)|
  {
    if |rs| == 1 {
      FootprintOfOne(rs[0]);
      assert rs == [rs[0]];
    } else if |rs| > 1 {
      PrefixFacts(rs);
      var front := rs[..|rs| - 1];
      ChainedScanIsExact(front);
      ChainedPrefix(rs);
      forall t | t in Footprint(front) ensures t < rs[|rs| - 2].End() + SEEK_CAP {
        ChainedStaysBelow(front, t);
      }
      LastReach(front);
      ChainedStepIsExact(Footprint(front), rs[|rs| - 2], rs[|rs| - 1]);
    }
  }

  lemma ChainedSnoc(rs: seq<IORequest>)
    requires |rs| > 1 && Chained(rs[..|rs| - 1]) && rs[|rs| - 2].End() <= rs[|rs| - 1].offset
    ensures Chained(rs)
  {
    forall i, j | 0 <= i < |rs| && j == i + 1 && j < |rs| ensures rs[i].End() <= rs[j].offset {
      if j < |rs| - 1 { assert rs[..|rs| - 1][i] == rs[i] && rs[..|rs| - 1][j] == rs[j]; }
    }
  }

  lemma {:induction false} UnchainedScanIsWasteful(rs: seq<IORequest>)
    requires NonNegative(rs) && Ordered(rs) && !Chained(rs)
    ensures |Footprint(rs)| < FreshCost(rs)
  {
    var front, last, r := rs[..|rs| - 1], rs[|rs| - 2], rs[|rs| - 1];
    assert Chained(front) ==> last.offset <= r.offset < last.End() by {
      if Chained(front) && last.End() <= r.offset { ChainedSnoc(rs); }
    }
    PrefixFacts(rs);
    LastReach(front);
    UnionGrowth(Footprint(front), Reach(last), Reach(r));
    if Chained(front) {
      EveryOrderCoversFootprint(front);
      OverlappingStepIsWasteful(last, r);
    } else {
      UnchainedScanIsWasteful(front);
      StepCoversReach(last, r);
    }
  }

  /** Offset order is as cheap as the footprint exactly when no neighbours overlap. */
  lemma ScanIsExactIffChained(rs: seq<IORequest>)
    requires NonNegative(rs) && Ordered(rs)
    ensures FreshCost(rs) == |Footprint(rs)| <==> Chained(rs)
  {
    if Chained(rs) { ChainedScanIsExact(rs); } else { UnchainedScanIsWasteful(rs); }
  }

  // ----- Requests that do not touch each other ----------------------------

  ghost predicate Apart(a: IORequest, b: IORequest) {
    || (a.offset < b.offset && a.End() <= b.offset)
    || (b.offset < a.offset && b.End() <= a.offset)
  }

  ghost predicate ApartFromAll(a: IORequest, rs: seq<IORequest>) {
    forall b <- rs :: Apart(a, b)
  }

  /** Distinct offsets and no overlap, whatever the order. */
  ghost predicate Separated(rs: seq<IORequest>) {
    var m := multiset(rs);
    forall a, b :: a in m && b in m ==> (a == b && m[a] == 1) || Apart(a, b)
  }

  lemma TwiceInMultiset(rs: seq<IORequest>, i: nat, j: nat)
    requires i < j < |rs| && rs[i] == rs[j]
    ensures multiset(rs)[rs[i]] >= 2
  {
    assert rs == rs[..j] + rs[j..];
    assert rs[..j][i] == rs[i] && rs[j..][0] == rs[j];
    assert rs[i] in multiset(rs[..j]) && rs[i] in multiset(rs[j..]);
  }

  lemma SeparatedByIndex(rs: seq<IORequest>, i: nat, j: nat)
    requires Separated(rs) && i < j < |rs|
    ensures Apart(rs[i], rs[j])
  {
    assert rs[i] in multiset(rs) && rs[j] in multiset(rs);
    if rs[i] == rs[j] { TwiceInMultiset(rs, i, j); }
  }

  lemma SeparatedScanIsChained(order: seq<IORequest>, rs: seq<IORequest>)
    requires Separated(rs) && IsScanOrder(order, rs)
    ensures Chained(order)
  {
    forall i, j | 0 <= i < |order| && j == i + 1 && j < |order| ensures order[i].End() <= order[j].offset {
      SeparatedByIndex(order, i, j);
    }
  }

  lemma NonNegativeOfPermutation(a: seq<IORequest>, b: seq<IORequest>)
    requires multiset(a) == multiset(b) && NonNegative(a)
    ensures NonNegative(b)
  {
    forall r | r in b ensures r.size >= 0 { assert r in multiset(b); }
  }

  /** The cost of separated requests is a property of the requests, not of how ties are sorted. */
  lemma SeparatedScanCost(order: seq<IORequest>, rs: seq<IORequest>)
    requires NonNegative(rs) && Separated(rs) && IsScanOrder(order, rs)
    ensures FreshCost(order) == |Footprint(rs)|
  {
    SeparatedScanIsChained(order, rs);
    NonNegativeOfPermutation(rs, order);
    ChainedScanIsExact(order);
    FootprintOfPermutation(order, rs);
  }

  /** SCAN is optimal: no service order of the same requests is cheaper than offset order without overlap. */
  lemma ScanIsOptimal(scan: seq<IORequest>, other: seq<IORequest>)
    requires NonNegative(scan) && Chained(scan)
    requires multiset(other) == multiset(scan)
    ensures FreshCost(scan) <= FreshCost(other)
  {
    ChainedScanIsExact(scan);
    NonNegativeOfPermutation(scan, other);
    EveryOrderCoversFootprint(other);
    FootprintOfPermutation(scan, other);
  }

  /** In particular for requests with distinct offsets that do not overlap, however the sort left them. */
  lemma SeparatedScanIsOptimal(scan: seq<IORequest>, rs: seq<IORequest>, other: seq<IORequest>)
    requires NonNegative(rs) && Separated(rs) && IsScanOrder(scan, rs) && multiset(other) == multiset(rs)
    ensures FreshCost(scan) <= FreshCost(other)
  {
    SeparatedScanIsChained(scan, rs);
    NonNegativeOfPermutation(rs, scan);
    ScanIsOptimal(scan, other);
  }

  // ----- What overlaps cost -----------------------------------------------

  /** The furthest end among the requests. */
  ghost function Furthest(rs: seq<IORequest>): int
    requires rs != []
  {
    if |rs| == 1 then rs[0].End()
    else
      var front := Furthest(rs[..|rs| - 1]);
      if front < rs[|rs| - 1].End() then rs[|rs| - 1].End() else front
  }

  lemma {:induction false} FurthestReach(rs: seq<IORequest>, t: int)
    requires rs != [] && NonNegative(rs) && Ordered(rs)
    ensures t in Footprint(rs) ==> t < Furthest(rs) + SEEK_CAP
    ensures rs[|rs| - 1].offset <= t < Furthest(rs) + SEEK_CAP ==> t in Footprint(rs)
    ensures rs[|rs| - 1].End() <= Furthest(rs)
  {
    if |rs| == 1 {
      FootprintOfOne(rs[0]);
      assert rs == [rs[0]];
    } else {
      var front, r := rs[..|rs| - 1], rs[|rs| - 1];
      PrefixFacts(rs);
      assert front[|front| - 1].offset <= r.offset;
      FurthestReach(front, t);
      assert t in Footprint(rs) <==> t in Footprint(front) || t in Reach(r);
    }
  }

  /** How much of r lies beyond everything before it. */
  function Beyond(furthest: int, r: IORequest): nat {
    var from := if furthest + SEEK_CAP < r.offset then r.offset else furthest + SEEK_CAP;
    if from < r.End() + SEEK_CAP then r.End() + SEEK_CAP - from else 0
  }

  lemma FootprintGrows(f: set<int>, furthest: int, r: IORequest)
    requires r.size >= 0
    requires forall t :: t in f ==> t < furthest + SEEK_CAP
    requires forall t :: r.offset <= t < furthest + SEEK_CAP ==> t in f
    ensures |f + Reach(r)| == |f| + Beyond(furthest, r)
  {
    var from := if furthest + SEEK_CAP < r.offset then r.offset else furthest + SEEK_CAP;
    var more := Interval(from, r.End() + SEEK_CAP);
    assert f + Reach(r) == f + more && f !! more;
  }

  /**
   * The price of an offset-ordered list with one more request against its lower bound, overlaps or
   * not: the bound grows by what lies beyond, the price by the size and the seek back or ahead.
   */
  lemma OverlapPrice(rs: seq<IORequest>)
    requires |rs| > 1 && NonNegative(rs) && Ordered(rs)
    ensures var front, last, r := rs[..|rs| - 1], rs[|rs| - 2], rs[|rs| - 1];
      && |Footprint(rs)| == |Footprint(front)| + Beyond(Furthest(front), r)
      && FreshCost(rs) == FreshCost(front) + r.size
           + (var gap := if last.End() < r.offset then r.offset - last.End() else last.End() - r.offset;
              if gap < SEEK_CAP then gap else SEEK_CAP)
  {
    var front, last, r := rs[..|rs| - 1], rs[|rs| - 2], rs[|rs| - 1];
    PrefixFacts(rs);
    forall t
      ensures t in Footprint(front) ==> t < Furthest(front) + SEEK_CAP
      ensures r.offset <= t < Furthest(front) + SEEK_CAP ==> t in Footprint(front)
    {
      assert last.offset <= r.offset;
      FurthestReach(front, t);
    }
    FootprintGrows(Footprint(front), Furthest(front), r);
  }

  // ----- Ties -------------------------------------------------------------

  /** The comparison finds two requests equal only if they are. */
  ghost predicate TieFree(rs: seq<IORequest>) {
    forall i, j :: 0 <= i < |rs| && 0 <= j < |rs| && rs[i].offset == rs[j].offset ==> rs[i] == rs[j]
  }

  ghost predicate TwoScans(a: seq<IORequest>, b: seq<IORequest>) {
    Ordered(a) && Ordered(b) && multiset(a) == multiset(b) && TieFree(a)
  }

  lemma LastsAgree(a: seq<IORequest>, b: seq<IORequest>)
    requires TwoScans(a, b) && a != [] && b != []
    ensures a[|a| - 1] == b[|b| - 1]
  {
    var x, y := a[|a| - 1], b[|b| - 1];
    assert x in multiset(b) && y in multiset(a);
    assert x in b && y in a;
  }

  lemma FrontOfScan(a: seq<IORequest>)
    requires Ordered(a) && a != []
    ensures Ordered(a[..|a| - 1]) && (TieFree(a) ==> TieFree(a[..|a| - 1]))
  {
  }

  lemma WithoutLast(a: seq<IORequest>)
    requires a != []
    ensures multiset(a[..|a| - 1]) == multiset(a) - multiset{a[|a| - 1]}
  {
    assert a == a[..|a| - 1] + [a[|a| - 1]];
  }

  lemma FrontsAreScans(a: seq<IORequest>, b: seq<IORequest>)
    requires TwoScans(a, b) && a != [] && b != []
    ensures TwoScans(a[..|a| - 1], b[..|b| - 1])
  {
    assert a[|a| - 1] == b[|b| - 1] by { LastsAgree(a, b); }
    assert multiset(a[..|a| - 1]) == multiset(b[..|b| - 1]) by {
      WithoutLast(a);
      WithoutLast(b);
    }
    FrontOfScan(a);
    FrontOfScan(b);
  }

  lemma SameLength(a: seq<IORequest>, b: seq<IORequest>)
    requires multiset(a) == multiset(b)
    ensures |a| == |b|
  {
    assert |multiset(a)| == |a| && |multiset(b)| == |b|;
  }

  /** Without ties there is one scan order, overlaps or not, so the sort determines the price. */
  lemma {:induction false} ScanOrderIsUnique(a: seq<IORequest>, b: seq<IORequest>)
    requires TwoScans(a, b)
    ensures a == b
  {
    assert |a| == |b| by { SameLength(a, b); }
    if a != [] {
      assert TwoScans(a[..|a| - 1], b[..|b| - 1]) by { FrontsAreScans(a, b); }
      assert a[|a| - 1] == b[|b| - 1] by { LastsAgree(a, b); }
      ScanOrderIsUnique(a[..|a| - 1], b[..|b| - 1]);
      assert a == a[..|a| - 1] + [a[|a| - 1]];
      assert b == b[..|b| - 1] + [b[|b| - 1]];
    }
  }

  lemma FreshCostOfTwo(a: IORequest, b: IORequest)
    ensures FreshCost([a, b]) == SEEK_CAP + a.size + b.size + SeekTime(a.End(), b.offset)
  {
    ServeCostSnoc(a.offset, [], a);
    ServeCostSnoc(a.offset, [a], b);
    assert [] + [a] == [a] && [a] + [b] == [a, b];
  }

  /** Without separation SCAN can lose: serving the enclosed request first is cheaper. */
  lemma OverlapDefeatsScan()
    ensures var scan, other := [IORequest(0, 100), IORequest(10, 10)], [IORequest(10, 10), IORequest(0, 100)];
            IsScanOrder(scan, other) && FreshCost(other) < FreshCost(scan)
  {
    var a, b := IORequest(0, 100), IORequest(10, 10);
    FreshCostOfTwo(a, b);
    FreshCostOfTwo(b, a);
    var s: seq<IORequest>, t: seq<IORequest> := [a, b], [b, a];
    assert multiset(s) == multiset(t);
  }

  /** With equal offsets the cost depends on how the sort breaks the tie. */
  lemma TiesMakeCostAmbiguous()
    ensures var s, t := [IORequest(0, 5), IORequest(0, 7)], [IORequest(0, 7), IORequest(0, 5)];
            IsScanOrder(s, t) && IsScanOrder(t, s) && FreshCost(s) != FreshCost(t)
  {
    var a, b := IORequest(0, 5), IORequest(0, 7);
    FreshCostOfTwo(a, b);
    FreshCostOfTwo(b, a);
    var s: seq<IORequest>, t: seq<IORequest> := [a, b], [b, a];
    assert multiset(s) == multiset(t);
  }
}
