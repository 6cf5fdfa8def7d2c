/**
 * The bounded, coalescing, caching batch of modules/io_batch.c.
 */
module IoBatch {
  import opened DiskSim
  import opened ScanTheory

  function TotalSize(rs: seq<IORequest>): int {
    if rs == [] then 0 else TotalSize(rs[..|rs| - 1]) + rs[|rs| - 1].size
  }

  /** A request that starts where the last stored one ends is contiguous with it. */
  predicate Contiguous(stored: seq<IORequest>, r: IORequest) {
    |stored| > 0 && r.offset == stored[|stored| - 1].End()
  }

  function Glued(p: IORequest, r: IORequest): IORequest {
    IORequest(p.offset, p.size + r.size)
  }

  /** The stored list after one more request: glued to the last one when contiguous with it. */
  function AddRequest(stored: seq<IORequest>, r: IORequest): seq<IORequest> {
    if Contiguous(stored, r)
    then stored[..|stored| - 1] + [Glued(stored[|stored| - 1], r)]
    else stored + [r]
  }

  // ----- What the stored list says about the requests added ---------------

  /** Whatever keeps clear of every request added keeps clear of every stored one. */
  ghost predicate Shadows(stored: seq<IORequest>, added: seq<IORequest>) {
    forall x :: ApartFromAll(x, added) ==> ApartFromAll(x, stored)
  }

  ghost predicate Represents(stored: seq<IORequest>, added: seq<IORequest>) {
    && (stored == [] <==> added == [])
    && TotalSize(stored) == TotalSize(added)
    && (NonNegative(added) ==>
      && NonNegative(stored)
      && Footprint(stored) == Footprint(added)
      && (Separated(added) ==> Separated(stored) && Shadows(stored, added)))
  }

  lemma GluedReach(p: IORequest, r: IORequest)
    requires p.size >= 0 && r.size >= 0 && r.offset == p.End()
    ensures Reach(Glued(p, r)) == Reach(p) + Reach(r)
  {
  }

  lemma GluedFootprint(front: seq<IORequest>, p: IORequest, r: IORequest)
    requires p.size >= 0 && r.size >= 0 && r.offset == p.End()
    ensures Footprint(front + [Glued(p, r)]) == Footprint(front + [p]) + Reach(r)
  {
    FootprintSnoc(front, p);
    FootprintSnoc(front, Glued(p, r));
    GluedReach(p, r);
  }

  lemma AddNonNegative(stored: seq<IORequest>, r: IORequest)
    requires NonNegative(stored) && r.size >= 0
    ensures NonNegative(AddRequest(stored, r))
  {
    var after := AddRequest(stored, r);
    forall i | 0 <= i < |after| ensures after[i].size >= 0 {
      if i < |stored| { assert stored[i] in stored; }
    }
  }

  lemma AddFootprint(stored: seq<IORequest>, r: IORequest)
    requires NonNegative(stored) && r.size >= 0
    ensures Footprint(AddRequest(stored, r)) == Footprint(stored) + Reach(r)
  {
    var n := |stored|;
    if Contiguous(stored, r) {
      assert stored == stored[..n - 1] + [stored[n - 1]];
      assert stored[n - 1] in stored;
      GluedFootprint(stored[..n - 1], stored[n - 1], r);
    } else {
      FootprintSnoc(stored, r);
    }
  }

  lemma AddTotal(stored: seq<IORequest>, r: IORequest)
    ensures TotalSize(AddRequest(stored, r)) == TotalSize(stored) + r.size
  {
    var n := |stored|;
    var after := AddRequest(stored, r);
    if Contiguous(stored, r) {
      assert after[..|after| - 1] == stored[..n - 1];
    } else {
      assert after[..|after| - 1] == stored;
    }
  }

  /** Clear of both halves of a glued request is clear of the whole. */
  lemma ApartFromGlued(x: IORequest, p: IORequest, r: IORequest)
    requires Apart(x, p) && Apart(x, r) && r.offset == p.End() && p.size >= 0 && r.size >= 0
    ensures Apart(x, Glued(p, r))
  {
  }

  lemma AddShadows(stored: seq<IORequest>, added: seq<IORequest>, r: IORequest)
    requires NonNegative(stored) && r.size >= 0 && Shadows(stored, added)
    ensures Shadows(AddRequest(stored, r), added + [r])
  {
    var n := |stored|;
    forall x | ApartFromAll(x, added + [r]) ensures ApartFromAll(x, AddRequest(stored, r)) {
      forall y | y in added ensures Apart(x, y) { assert y in added + [r]; }
      assert ApartFromAll(x, stored);
      assert r in added + [r];
      if Contiguous(stored, r) {
        ApartFromGlued(x, stored[n - 1], r);
      }
    }
  }

  lemma SeparatedSnoc(front: seq<IORequest>, r: IORequest)
    requires Separated(front) && ApartFromAll(r, front)
    ensures Separated(front + [r])
  {
    var m := multiset(front + [r]);
    assert m == multiset(front) + multiset{r};
    assert r !in front;
    forall a, b | a in m && b in m ensures (a == b && m[a] == 1) || Apart(a, b) {
      assert a == r || a in front;
      assert b == r || b in front;
    }
  }

  lemma AddSeparated(stored: seq<IORequest>, r: IORequest)
    requires NonNegative(stored) && r.size >= 0
    requires Separated(stored) && ApartFromAll(r, stored)
    ensures Separated(AddRequest(stored, r))
  {
    var n := |stored|;
    if Contiguous(stored, r) {
      var front, p := stored[..n - 1], stored[n - 1];
      assert stored == front + [p];
      SeparatedPrefix(front, p);
      forall q | q in front ensures Apart(Glued(p, r), q) {
        assert q in stored;
        ApartFromGlued(q, p, r);
      }
      SeparatedSnoc(front, Glued(p, r));
    } else {
      SeparatedSnoc(stored, r);
    }
  }

  lemma SeparatedPrefix(added: seq<IORequest>, r: IORequest)
    requires Separated(added + [r])
    ensures Separated(added) && ApartFromAll(r, added)
  {
    assert multiset(added + [r]) == multiset(added) + multiset{r};
    forall b | b in added ensures Apart(r, b) {
      assert b in multiset(added) && r in multiset(added + [r]);
    }
  }

  lemma RepresentsAdd(stored: seq<IORequest>, added: seq<IORequest>, r: IORequest)
    requires Represents(stored, added)
    ensures Represents(AddRequest(stored, r), added + [r])
  {
    AddTotal(stored, r);
    assert (added + [r])[..|added|] == added;
    if NonNegative(added + [r]) {
      assert r in added + [r];
      forall x | x in added ensures x.size >= 0 { assert x in added + [r]; }
      AddNonNegative(stored, r);
      AddFootprint(stored, r);
      FootprintSnoc(added, r);
      if Separated(added + [r]) {
        SeparatedPrefix(added, r);
        assert ApartFromAll(r, stored);
        AddSeparated(stored, r);
        AddShadows(stored, added, r);
      }
    }
  }

  lemma {:induction false} TotalOfPermutation(a: seq<IORequest>, b: seq<IORequest>)
    requires multiset(a) == multiset(b)
    ensures TotalSize(a) == TotalSize(b)
    decreases |a|
  {
    if a == [] {
      assert |b| == |multiset(b)|;
    } else {
      var front, r := a[..|a| - 1], a[|a| - 1];
      assert a == front + [r];
      assert r in multiset(b);
      var i :| 0 <= i < |b| && b[i] == r;
      assert b == b[..i] + [r] + b[i + 1..];
      assert multiset(front) == multiset(a) - multiset{r};
      assert multiset(b[..i] + b[i + 1..]) == multiset(b) - multiset{r};
      TotalOfPermutation(front, b[..i] + b[i + 1..]);
      TotalWithout(b, i);
    }
  }

  lemma {:induction false} TotalWithout(b: seq<IORequest>, i: nat)
    requires i < |b|
    ensures TotalSize(b) == TotalSize(b[..i] + b[i + 1..]) + b[i].size
    decreases |b|
  {
    var n := |b|;
    if i == n - 1 {
      assert b[..i] + b[i + 1..] == b[..n - 1];
    } else {
      TotalWithout(b[..n - 1], i);
      var without := b[..i] + b[i + 1..];
      assert without[..n - 2] == b[..n - 1][..i] + b[..n - 1][i + 1..];
    }
  }

  /** Sorting the stored list keeps what it represents. */
  lemma RepresentsSorted(stored: seq<IORequest>, sorted: seq<IORequest>, added: seq<IORequest>)
    requires Represents(stored, added) && multiset(sorted) == multiset(stored)
    ensures Represents(sorted, added)
  {
    TotalOfPermutation(sorted, stored);
    assert |sorted| == |multiset(sorted)| && |stored| == |multiset(stored)|;
    if NonNegative(added) {
      NonNegativeOfPermutation(stored, sorted);
      FootprintOfPermutation(stored, sorted);
      if Separated(added) {
        forall x | ApartFromAll(x, added) ensures ApartFromAll(x, sorted) {
          forall y | y in sorted ensures Apart(x, y) {
            assert y in multiset(sorted);
            assert y in stored;
          }
        }
      }
    }
  }

  /**
   * The cost of the coalesced list is the cost of the list nobody coalesced: sort
   * either one any way its offsets allow, and the simulation comes out the same.
   */
  lemma CoalescingPreservesCost(stored: seq<IORequest>, added: seq<IORequest>,
                                storedOrder: seq<IORequest>, addedOrder: seq<IORequest>)
    requires Represents(stored, added) && NonNegative(added) && Separated(added)
    requires IsScanOrder(storedOrder, stored) && IsScanOrder(addedOrder, added)
    ensures FreshCost(storedOrder) == FreshCost(addedOrder) == |Footprint(added)|
  {
    SeparatedScanCost(storedOrder, stored);
    SeparatedScanCost(addedOrder, added);
  }

  /** The cost of some offset order: all that sorting and simulating a stored list promises. */
  ghost predicate IsScanCost(cost: int, stored: seq<IORequest>) {
    exists order :: IsScanOrder(order, stored) && cost == FreshCost(order)
  }

  // ----- Size of a batch's cost -------------------------------------------

  lemma {:induction false} ServeCostBounds(head: int, rs: seq<IORequest>)
    requires NonNegative(rs)
    ensures TotalSize(rs) <= ServeCost(head, rs) <= TotalSize(rs) + |rs| * SEEK_CAP
    decreases rs
  {
    if rs != [] {
      var front, r := rs[..|rs| - 1], rs[|rs| - 1];
      assert rs == front + [r];
      forall x | x in front ensures x.size >= 0 { assert x in rs; }
      ServeCostBounds(head, front);
      ServeCostSnoc(head, front, r);
    }
  }

  /** The first request is not sought to. */
  lemma NoSeekToFirst(rs: seq<IORequest>)
    requires rs != []
    ensures FreshCost(rs) == SEEK_CAP + rs[0].size + ServeCost(rs[0].End(), rs[1..])
  {
  }

  lemma FirstAndRest(rs: seq<IORequest>)
    requires NonNegative(rs) && rs != []
    ensures NonNegative(rs[1..]) && TotalSize(rs) == TotalSize(rs[1..]) + rs[0].size
  {
    forall x | x in rs[1..] ensures x.size >= 0 { assert x in rs; }
    TotalWithout(rs, 0);
    assert rs[..0] + rs[1..] == rs[1..];
  }

  /** So n requests cost at most n full seeks. */
  lemma FreshCostBounds(rs: seq<IORequest>)
    requires NonNegative(rs)
    ensures rs != [] ==> SEEK_CAP + TotalSize(rs) <= FreshCost(rs)
    ensures FreshCost(rs) <= |rs| * SEEK_CAP + TotalSize(rs)
  {
    if rs != [] {
      NoSeekToFirst(rs);
      FirstAndRest(rs);
      ServeCostBounds(rs[0].End(), rs[1..]);
    }
  }

  // ----- Sorting ----------------------------------------------------------

  function Insert(r: IORequest, rs: seq<IORequest>): (out: seq<IORequest>)
    requires Ordered(rs)
    ensures Ordered(out) && multiset(out) == multiset(rs) + multiset{r} && |out| == |rs| + 1
    ensures rs == [] || rs[|rs| - 1].offset <= r.offset ==> out[|rs|] == r
    ensures rs != [] && r.offset < rs[|rs| - 1].offset ==> out[|rs|] == rs[|rs| - 1]
  {
    var n := |rs|;
    if n == 0 || rs[n - 1].offset <= r.offset then rs + [r]
    else
      assert rs == rs[..n - 1] + [rs[n - 1]];
      Insert(r, rs[..n - 1]) + [rs[n - 1]]
  }

  function Sort(rs: seq<IORequest>): (out: seq<IORequest>)
    ensures IsScanOrder(out, rs)
  {
    if rs == [] then []
    else
      assert rs == [rs[0]] + rs[1..];
      Insert(rs[0], Sort(rs[1..]))
  }

  // ----- The batch itself -------------------------------------------------

  /** The value of `cost` while no result is cached. */
  const NOT_CACHED := -1

  class Batch {
    const disk: Disk
    const reqs: array<IORequest>
    const bytesCap: int
    var reqsSize: nat
    var bytes: int
    var cost: int
    /** Everything added since the last clear, uncoalesced and in arrival order. */
    ghost var added: seq<IORequest>

    ghost function Stored(): seq<IORequest>
      requires reqsSize <= reqs.Length
      reads this, reqs
    {
      reqs[..reqsSize]
    }

    ghost predicate Valid()
      reads this, reqs
    {
      && reqsSize <= reqs.Length
      && Represents(Stored(), added)
      && bytes == TotalSize(added)
      && (cost != NOT_CACHED ==> Ordered(Stored()) && cost == FreshCost(Stored()))
    }

    constructor (capacity: nat, bytesCap: int)
      ensures Valid() && fresh(reqs) && fresh(disk)
      ensures reqs.Length == capacity && this.bytesCap == bytesCap && added == []
    {
      disk := new Disk();
      reqs := new IORequest[capacity];
      this.bytesCap := bytesCap;
      reqsSize, bytes, cost, added := 0, 0, NOT_CACHED, [];
    }

    /** The capacity assertion of the source is the first conjunct of Valid(). */
    method Full() returns (full: bool)
      requires Valid()
      ensures full <==> |Stored()| == reqs.Length || TotalSize(added) >= bytesCap
    {
      assert reqsSize <= reqs.Length;
      full := reqsSize >= reqs.Length || bytes >= bytesCap;
    }

    method Add(offset: int, size: int) returns (glued: bool)
      requires Valid()
      modifies this, reqs
      ensures Valid()
      ensures var room := old(reqsSize < reqs.Length && bytes < bytesCap);
        && Stored() == (if room then AddRequest(old(Stored()), IORequest(offset, size)) else old(Stored()))
        && added == (if room then old(added) + [IORequest(offset, size)] else old(added))
        && (glued <==> room && reqsSize == old(reqsSize))
    {
      glued := false;
      var full := Full();
      if full { return; }
      ghost var r := IORequest(offset, size);
      RepresentsAdd(Stored(), added, r);
      assert (added + [r])[..|added|] == added;
      glued := Store(offset, size);
      cost := NOT_CACHED;
      bytes := bytes + size;
      added := added + [r];
    }

    /** Glue to the last request or append: the array holds AddRequest of what it held. */
    method Store(offset: int, size: int) returns (glued: bool)
      requires reqsSize < reqs.Length
      modifies this`reqsSize, reqs
      ensures reqsSize <= reqs.Length
      ensures Stored() == AddRequest(old(Stored()), IORequest(offset, size))
      ensures glued <==> reqsSize == old(reqsSize)
    {
      var last := reqsSize - 1;
      glued := last >= 0 && offset == reqs[last].offset + reqs[last].size;
      if glued {
        reqs[last] := reqs[last].(size := reqs[last].size + size);
      } else {
        reqs[reqsSize] := IORequest(offset, size);
        reqsSize := reqsSize + 1;
      }
    }

    method Clear()
      requires Valid()
      modifies this
      ensures Valid() && Stored() == [] && added == [] && bytes == 0
    {
      if reqsSize > 0 {
        reqsSize := 0;
        cost := NOT_CACHED;
        bytes := 0;
      }
      added := [];
    }

    /** The kernel's sort(), known only by what it promises. */
    method ScanSort()
      requires reqsSize <= reqs.Length
      modifies reqs
      ensures IsScanOrder(Stored(), old(Stored()))
    {
      var sorted := Sort(reqs[..reqsSize]);
      assert |multiset(sorted)| == |sorted| && |multiset(reqs[..reqsSize])| == reqsSize;
      forall i | 0 <= i < reqsSize { reqs[i] := sorted[i]; }
      assert Stored() == sorted;
    }

    /**
     * The result is a fresh simulation of the stored requests in some offset order. When
     * the requests added since the last clear are separated it is the one cost every
     * offset order of those, uncoalesced, has.
     */
    method GetCost() returns (c: int)
      requires Valid()
      modifies this, reqs, disk
      ensures Valid() && added == old(added) && bytes == old(bytes)
      ensures IsScanOrder(Stored(), old(Stored())) && c == FreshCost(Stored())
      ensures cost == c && (old(cost) != NOT_CACHED ==> c == old(cost))
      ensures NonNegative(added) && Separated(added) ==>
        c == |Footprint(added)| && forall order :: IsScanOrder(order, added) ==> c == FreshCost(order)
    {
      if cost == NOT_CACHED {
        if reqsSize == 0 {
          cost := 0;
        } else {
          ghost var was := Stored();
          ScanSort();
          assert |multiset(Stored())| == reqsSize && |multiset(was)| == |was|;
          RepresentsSorted(was, Stored(), added);
          disk.SetHead(reqs[0].offset);
          cost := Simulate();
        }
      }
      c := cost;
      if NonNegative(added) && Separated(added) {
        SeparatedScanCost(Stored(), Stored());
        forall order | IsScanOrder(order, added) ensures c == FreshCost(order) {
          CoalescingPreservesCost(Stored(), added, Stored(), order);
        }
      }
    }

    method Simulate() returns (c: int)
      requires 0 < reqsSize <= reqs.Length && disk.head == reqs[0].offset
      modifies disk
      ensures c == FreshCost(Stored())
    {
      c := SEEK_CAP;
      var i := 0;
      while i < reqsSize
        invariant 0 <= i <= reqsSize
        invariant disk.head == if i == 0 then reqs[0].offset else reqs[i - 1].End()
        invariant c == SEEK_CAP + ServeCost(reqs[0].offset, reqs[..i])
      {
        ServeCostSnoc(reqs[0].offset, reqs[..i], reqs[i]);
        assert reqs[..i + 1] == reqs[..i] + [reqs[i]];
        ServeCostSnoc(disk.head, [], reqs[i]);
        assert [] + [reqs[i]] == [reqs[i]];
        var spent := disk.Simulate(reqs[i]);
        c := c + spent;
        i := i + 1;
      }
    }
  }
}
