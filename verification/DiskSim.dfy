/** The simulated disk of modules/disk_sim.c: a head with a capped seek. */
module DiskSim {

  /** 2 MB: no seek costs more than reading this much sequentially. */
  const SEEK_CAP: nat := 2 * 1024 * 1024

  datatype IORequest = IORequest(offset: int, size: int) {
    /** The first byte after the request: where the head rests once it is served. */
    function End(): int { offset + size }
  }

  function OffsetDiff(o1: int, o2: int): (d: nat)
    ensures o1 <= o2 ==> o1 + d == o2
    ensures o2 <= o1 ==> o2 + d == o1
  {
    if o1 > o2 then o1 - o2 else o2 - o1
  }

  function SeekTime(o1: int, o2: int): (t: nat)
    ensures t <= SEEK_CAP
  {
    if OffsetDiff(o1, o2) < SEEK_CAP then OffsetDiff(o1, o2) else SEEK_CAP
  }

  /** Seeking is a distance: the same both ways, nothing only on the spot, never longer by way of a detour. */
  lemma SeekIsDistance(a: int, b: int, c: int)
    ensures SeekTime(a, b) == SeekTime(b, a)
    ensures SeekTime(a, b) == 0 <==> a == b
    ensures SeekTime(a, c) <= SeekTime(a, b) + SeekTime(b, c)
  {
    assert OffsetDiff(a, b) == OffsetDiff(b, a);
    assert OffsetDiff(a, c) <= OffsetDiff(a, b) + OffsetDiff(b, c);
  }

  /** Up to the cap a seek costs the bytes it passes over, in either direction, and beyond it the cap. */
  lemma SeekByBytes(a: int, n: nat)
    ensures SeekTime(a, a + n) == SeekTime(a + n, a) == if n < SEEK_CAP then n else SEEK_CAP
  {
  }

  /** Cost of serving `rs` in list order with the head at `head`. */
  function ServeCost(head: int, rs: seq<IORequest>): int
    decreases rs
  {
    if rs == [] then 0
    else rs[0].size + SeekTime(head, rs[0].offset) + ServeCost(rs[0].End(), rs[1..])
  }

  /** Cost of serving `rs` from scratch: one full seek to get to the first request. */
  function FreshCost(rs: seq<IORequest>): int {
    if rs == [] then 0 else SEEK_CAP + ServeCost(rs[0].offset, rs)
  }

  /** Serving one more request costs its own bytes and the seek from the previous one. */
  lemma {:induction false} ServeCostSnoc(head: int, rs: seq<IORequest>, r: IORequest)
    ensures ServeCost(head, rs + [r])
         == ServeCost(head, rs) + r.size
            + SeekTime(if rs == [] then head else rs[|rs| - 1].End(), r.offset)
    decreases rs
  {
    if rs == [] {
      assert [r][1..] == [];
    } else {
      assert (rs + [r])[1..] == rs[1..] + [r];
      ServeCostSnoc(rs[0].End(), rs[1..], r);
    }
  }

  /** The head of the simulated disk, moved by every simulated request. */
  class Disk {
    var head: int

    constructor ()
      ensures head == 0
    {
      head := 0;
    }

    method SetHead(location: int)
      modifies this
      ensures head == location
    {
      head := location;
    }

    method Simulate(r: IORequest) returns (cost: int)
      modifies this
      ensures cost == ServeCost(old(head), [r])
      ensures head == r.End()
    {
      var position := SeekTime(head, r.offset);
      if SEEK_CAP < position { position := SEEK_CAP; }
      cost := r.size + position;
      head := r.offset + r.size;
      assert [r][1..] == [];
    }
  }
}
