/**
 * The deadline scheduler (modules/split_deadline_sched.c): every request is on a FIFO and
 * in a sector-ordered tree of its direction; batches follow the sector order, and reads
 * may starve writes only so many times.
 */
module Deadline {
  import opened Seqs
  import opened Lists

  datatype Dir = Read | Write

  function Other(d: Dir): Dir { if d.Read? then Write else Read }

  datatype Rq = Rq(dir: Dir, pos: int, sectors: nat, expire: int)

  /** One direction: fifo_list, sort_list in order, and next_rq. */
  datatype Lane = Lane(fifo: seq<int>, sorted: seq<int>, next: Option<int>)

  const EmptyLane := Lane([], [], None)

  /** The settings a run is under. A negative writes_starved is compared as an unsigned int. */
  datatype Config = Config(readExpire: nat, writeExpire: nat, fifoBatch: nat, writesStarved: int) {
    function Expire(d: Dir): nat { if d.Read? then readExpire else writeExpire }

    function StarveLimit(): int {
      if writesStarved < 0 then writesStarved + 0x1_0000_0000 else writesStarved
    }
  }

  datatype DD = DD(rq: map<int, Rq>, read: Lane, write: Lane, batching: nat, starved: nat, lastSector: int) {
    function Of(d: Dir): Lane { if d.Read? then read else write }

    function With(d: Dir, lane: Lane): DD {
      if d.Read? then this.(read := lane) else this.(write := lane)
    }
  }

  const Empty := DD(map[], EmptyLane, EmptyLane, 0, 0, 0)

  function Positions(rq: map<int, Rq>): map<int, int> { map id | id in rq :: rq[id].pos }
  function Expiries(rq: map<int, Rq>): map<int, int> { map id | id in rq :: rq[id].expire }

  // ----- The invariant: two indexes of the same requests ------------------

  /** Request `id` is queued in direction d. */
  predicate Queued(rq: map<int, Rq>, d: Dir, id: int) {
    id in rq && rq[id].dir == d
  }

  ghost predicate LaneOk(rq: map<int, Rq>, d: Dir, lane: Lane) {
    && NoDup(lane.fifo) && NoDup(lane.sorted)
    && (forall id :: id in lane.fifo <==> Queued(rq, d, id))
    && (forall id :: id in lane.sorted <==> Queued(rq, d, id))
    && SortedBy(Positions(rq), lane.sorted)
    && (lane.next.Some? ==> lane.next.value in lane.sorted)
  }

  /** Both directions are in order, at most one has a batch going, and a batch has started. */
  ghost predicate Inv(s: DD) {
    && LaneOk(s.rq, Read, s.read) && LaneOk(s.rq, Write, s.write)
    && (s.read.next.None? || s.write.next.None?)
    && (s.read.next.Some? || s.write.next.Some? ==> 0 < s.batching)
  }

  // ----- Adding, merging, removing ----------------------------------------

  function AddRequest(s: DD, id: int, rq: Rq, cfg: Config, now: int): DD
  {
    var d := rq.dir;
    var all := s.rq[id := rq.(expire := now + cfg.Expire(d))];
    s.(rq := all).With(d, s.Of(d).(
      sorted := InsertByKey(Positions(all), s.Of(d).sorted, id),
      fifo := s.Of(d).fifo + [id]))
  }

  /** deadline_remove_request: off the FIFO and out of the tree, stepping next_rq past it. */
  function LaneWithout(lane: Lane, id: int): Lane {
    Lane(Without(lane.fifo, id), Without(lane.sorted, id),
         if lane.next == Some(id) then Latter(lane.sorted, id) else lane.next)
  }

  function RemoveRequest(s: DD, id: int): DD
    requires id in s.rq
  {
    var d := s.rq[id].dir;
    s.(rq := s.rq - {id}).With(d, LaneWithout(s.Of(d), id))
  }

  /** A bio was merged in front of the request: its sector moved down, its place in the tree may too. */
  function FrontMerge(s: DD, id: int, pos: int, sectors: nat): DD
    requires id in s.rq
  {
    var d := s.rq[id].dir;
    var all := s.rq[id := s.rq[id].(pos := pos, sectors := sectors)];
    s.(rq := all).With(d, s.Of(d).(
      sorted := InsertByKey(Positions(all), Without(s.Of(d).sorted, id), id)))
  }

  /** A bio was merged behind the request: only its length changes. */
  function BackMerge(s: DD, id: int, sectors: nat): DD
    requires id in s.rq
  {
    s.(rq := s.rq[id := s.rq[id].(sectors := sectors)])
  }

  /** `gone` was merged into `kept`, which inherits its place in the FIFO if that is the earlier one. */
  function InheritDeadline(s: DD, kept: int, gone: int): DD
    requires kept in s.rq && gone in s.rq
  {
    var d := s.rq[kept].dir;
    if s.rq[gone].expire < s.rq[kept].expire
    then s.(rq := s.rq[kept := s.rq[kept].(expire := s.rq[gone].expire)])
          .With(d, s.Of(d).(fifo := InsertAfter(Without(s.Of(d).fifo, kept), gone, kept)))
    else s
  }

  function MergeRequests(s: DD, kept: int, gone: int): DD
    requires kept in s.rq && gone in s.rq
  {
    RemoveRequest(InheritDeadline(s, kept, gone), gone)
  }

  // ----- Dispatch ---------------------------------------------------------

  /** The batch in progress, if any: writes are looked at first. */
  function NextInBatch(s: DD): Option<int> {
    if s.write.next.Some? then s.write.next else s.read.next
  }

  predicate HeadExpired(s: DD, d: Dir, now: int) {
    var fifo := s.Of(d).fifo;
    fifo != [] && fifo[0] in s.rq && s.rq[fifo[0]].expire < now
  }

  /** A new batch starts at the oldest request if it is overdue or there is nothing to go on from. */
  function BatchStart(s: DD, d: Dir, now: int): int
    requires s.Of(d).fifo != []
  {
    if HeadExpired(s, d, now) || s.Of(d).next.None? then s.Of(d).fifo[0] else s.Of(d).next.value
  }

  datatype Choice = Nothing | Continue(id: int) | Start(dir: Dir, id: int, starved: nat)

  /** The direction of a new batch: reads, unless there are none or writes have starved enough. */
  function NextDirection(s: DD, cfg: Config): Option<Dir> {
    if s.read.fifo != [] && !(s.write.fifo != [] && s.starved >= cfg.StarveLimit()) then Some(Read)
    else if s.write.fifo != [] then Some(Write)
    else None
  }

  function StarvedAfter(s: DD, cfg: Config): nat {
    if NextDirection(s, cfg) == Some(Read) then if s.write.fifo != [] then s.starved + 1 else s.starved
    else if NextDirection(s, cfg) == Some(Write) then 0
    else s.starved
  }

  function Choose(s: DD, cfg: Config, now: int): Choice {
    if NextInBatch(s).Some? && s.batching < cfg.fifoBatch then Continue(NextInBatch(s).value)
    else
      match NextDirection(s, cfg)
      case Some(d) => Start(d, BatchStart(s, d, now), StarvedAfter(s, cfg))
      case None => Nothing
  }

  /** deadline_move_request: the batch goes on from the next sector; the request leaves. */
  function MoveRequest(s: DD, id: int): DD
    requires id in s.rq
  {
    var d, rq := s.rq[id].dir, s.rq[id];
    var t := s.(read := s.read.(next := None), write := s.write.(next := None), lastSector := rq.pos + rq.sectors);
    RemoveRequest(t.With(d, t.Of(d).(next := Latter(t.Of(d).sorted, id))), id)
  }

  function Dispatch(s: DD, cfg: Config, now: int): DD
    requires Inv(s)
  {
    match Choose(s, cfg, now)
    case Nothing => s
    case Continue(id) => MoveRequest(s.(batching := s.batching + 1), id)
    case Start(_, id, starved) => ChosenIsQueued(s, cfg, now); MoveRequest(s.(batching := 1, starved := starved), id)
  }

  /** What is chosen is queued, in the direction it is chosen for. */
  lemma ChosenIsQueued(s: DD, cfg: Config, now: int)
    requires Inv(s)
    ensures match Choose(s, cfg, now)
      case Nothing => s.rq == map[]
      case Continue(id) => id in s.rq && Some(id) == s.Of(s.rq[id].dir).next
      case Start(d, id, _) => id in s.rq && s.rq[id].dir == d
  {
    match Choose(s, cfg, now)
    case Nothing =>
      forall id ensures id !in s.rq { assert id !in s.read.fifo && id !in s.write.fifo; }
    case Continue(id) =>
    case Start(d, id, _) => assert s.Of(d).fifo[0] in s.Of(d).fifo;
  }

  // ----- Every operation keeps the two indexes in agreement ---------------

  lemma LaneOkElsewhere(rq: map<int, Rq>, rq': map<int, Rq>, d: Dir, lane: Lane)
    requires LaneOk(rq, d, lane)
    requires forall id :: Queued(rq, d, id) <==> Queued(rq', d, id)
    requires forall id :: Queued(rq, d, id) ==> id in rq' && rq'[id].pos == rq[id].pos
    ensures LaneOk(rq', d, lane)
  {
    SortedBySame(Positions(rq), Positions(rq'), lane.sorted);
  }

  /** Putting one lane in order, the other being so, puts the whole in order. */
  lemma WithKeepsInv(s: DD, d: Dir, lane: Lane)
    requires LaneOk(s.rq, d, lane) && LaneOk(s.rq, Other(d), s.Of(Other(d)))
    requires lane.next.None? || s.Of(Other(d)).next.None?
    requires lane.next.Some? || s.Of(Other(d)).next.Some? ==> 0 < s.batching
    ensures Inv(s.With(d, lane))
  {
  }

  /** The lane a new or moved request is inserted into. */
  lemma InsertedLaneOk(rq: map<int, Rq>, d: Dir, lane: Lane, rest: seq<int>, id: int)
    requires Queued(rq, d, id)
    requires NoDup(lane.fifo) && (forall x :: x in lane.fifo <==> Queued(rq, d, x))
    requires NoDup(rest) && (forall x :: x in rest <==> Queued(rq, d, x) && x != id)
    requires SortedBy(Positions(rq), rest)
    requires lane.sorted == InsertByKey(Positions(rq), rest, id)
    requires lane.next.Some? ==> Queued(rq, d, lane.next.value)
    ensures LaneOk(rq, d, lane)
  {
    InsertByKeyMembers(Positions(rq), rest, id);
    InsertByKeySorted(Positions(rq), rest, id);
  }

  lemma NextIsQueued(rq: map<int, Rq>, d: Dir, lane: Lane)
    requires LaneOk(rq, d, lane) && lane.next.Some?
    ensures Queued(rq, d, lane.next.value)
  {
    assert lane.next.value in lane.sorted;
  }

  lemma AddedLaneOk(rq: map<int, Rq>, lane: Lane, id: int, r: Rq)
    requires LaneOk(rq, r.dir, lane) && id !in rq
    ensures var all := rq[id := r];
      LaneOk(all, r.dir, lane.(sorted := InsertByKey(Positions(all), lane.sorted, id), fifo := lane.fifo + [id]))
  {
    var all, d := rq[id := r], r.dir;
    assert id !in lane.fifo && id !in lane.sorted;
    SortedBySame(Positions(rq), Positions(all), lane.sorted);
    if lane.next.Some? { NextIsQueued(rq, d, lane); }
    InsertedLaneOk(all, d, lane.(sorted := InsertByKey(Positions(all), lane.sorted, id), fifo := lane.fifo + [id]),
                   lane.sorted, id);
  }

  lemma AddKeepsInv(s: DD, id: int, rq: Rq, cfg: Config, now: int)
    requires Inv(s) && id !in s.rq
    ensures Inv(AddRequest(s, id, rq, cfg, now))
  {
    var d := rq.dir;
    var r := rq.(expire := now + cfg.Expire(d));
    LaneOkElsewhere(s.rq, s.rq[id := r], Other(d), s.Of(Other(d)));
    AddedLaneOk(s.rq, s.Of(d), id, r);
    var all := s.rq[id := r];
    var lane := s.Of(d).(sorted := InsertByKey(Positions(all), s.Of(d).sorted, id), fifo := s.Of(d).fifo + [id]);
    assert AddRequest(s, id, rq, cfg, now) == s.(rq := all).With(d, lane);
    WithKeepsInv(s.(rq := all), d, lane);
  }

  lemma ResortedLaneOk(rq: map<int, Rq>, lane: Lane, id: int, r: Rq)
    requires id in rq && rq[id].dir == r.dir && LaneOk(rq, r.dir, lane)
    ensures var all, rest := rq[id := r], Without(lane.sorted, id);
      LaneOk(all, r.dir, lane.(sorted := InsertByKey(Positions(all), rest, id)))
  {
    var all, d, rest := rq[id := r], r.dir, Without(lane.sorted, id);
    WithoutMembers(lane.sorted, id);
    WithoutSorted(Positions(rq), lane.sorted, id);
    SortedBySame(Positions(rq), Positions(all), rest);
    if lane.next.Some? { NextIsQueued(rq, d, lane); }
    InsertedLaneOk(all, d, lane.(sorted := InsertByKey(Positions(all), rest, id)), rest, id);
  }

  lemma FrontMergeKeepsInv(s: DD, id: int, pos: int, sectors: nat)
    requires Inv(s) && id in s.rq
    ensures Inv(FrontMerge(s, id, pos, sectors))
  {
    var d := s.rq[id].dir;
    var r := s.rq[id].(pos := pos, sectors := sectors);
    LaneOkElsewhere(s.rq, s.rq[id := r], Other(d), s.Of(Other(d)));
    ResortedLaneOk(s.rq, s.Of(d), id, r);
    WithKeepsInv(s.(rq := s.rq[id := r]), d, FrontMerge(s, id, pos, sectors).Of(d));
  }

  lemma BackMergeKeepsInv(s: DD, id: int, sectors: nat)
    requires Inv(s) && id in s.rq
    ensures Inv(BackMerge(s, id, sectors))
  {
    LaneOkElsewhere(s.rq, BackMerge(s, id, sectors).rq, Read, s.read);
    LaneOkElsewhere(s.rq, BackMerge(s, id, sectors).rq, Write, s.write);
  }

  lemma LaneWithoutOk(rq: map<int, Rq>, d: Dir, lane: Lane, id: int)
    requires LaneOk(rq, d, lane) && Queued(rq, d, id)
    ensures LaneOk(rq - {id}, d, LaneWithout(lane, id))
  {
    WithoutMembers(lane.fifo, id);
    WithoutMembers(lane.sorted, id);
    WithoutSorted(Positions(rq), lane.sorted, id);
    SortedBySame(Positions(rq), Positions(rq - {id}), Without(lane.sorted, id));
    LatterIsMember(lane.sorted, id);
    var next := LaneWithout(lane, id).next;
    if next.Some? {
      assert next.value in lane.sorted && next.value != id;
      assert next.value in Without(lane.sorted, id);
    }
  }

  lemma RemoveKeepsInv(s: DD, id: int)
    requires Inv(s) && id in s.rq
    ensures Inv(RemoveRequest(s, id))
  {
    var d := s.rq[id].dir;
    LaneWithoutOk(s.rq, d, s.Of(d), id);
    LaneOkElsewhere(s.rq, s.rq - {id}, Other(d), s.Of(Other(d)));
    WithKeepsInv(s.(rq := s.rq - {id}), d, LaneWithout(s.Of(d), id));
  }

  lemma InheritKeepsInv(s: DD, kept: int, gone: int)
    requires Inv(s) && kept in s.rq && gone in s.rq && kept != gone && s.rq[kept].dir == s.rq[gone].dir
    ensures Inv(InheritDeadline(s, kept, gone))
    ensures InheritDeadline(s, kept, gone).rq.Keys == s.rq.Keys
  {
    var d := s.rq[kept].dir;
    var t := InheritDeadline(s, kept, gone);
    if s.rq[gone].expire < s.rq[kept].expire {
      WithoutMembers(s.Of(d).fifo, kept);
      InsertAfterMembers(Without(s.Of(d).fifo, kept), gone, kept);
      LaneOkElsewhere(s.rq, t.rq, Other(d), s.Of(Other(d)));
      LaneOkElsewhere(s.rq, t.rq, d, s.Of(d));
      WithKeepsInv(s.(rq := t.rq), d, t.Of(d));
    }
  }

  lemma MergeKeepsInv(s: DD, kept: int, gone: int)
    requires Inv(s) && kept in s.rq && gone in s.rq && kept != gone && s.rq[kept].dir == s.rq[gone].dir
    ensures Inv(MergeRequests(s, kept, gone))
  {
    InheritKeepsInv(s, kept, gone);
    RemoveKeepsInv(InheritDeadline(s, kept, gone), gone);
  }

  lemma MoveKeepsInv(s: DD, id: int)
    requires Inv(s) && id in s.rq && 0 < s.batching
    ensures Inv(MoveRequest(s, id)) && MoveRequest(s, id).rq == s.rq - {id}
  {
    var d, rq := s.rq[id].dir, s.rq[id];
    var t := s.(read := s.read.(next := None), write := s.write.(next := None), lastSector := rq.pos + rq.sectors);
    LatterIsMember(s.Of(d).sorted, id);
    var lane := t.Of(d).(next := Latter(t.Of(d).sorted, id));
    WithKeepsInv(t, d, lane);
    RemoveKeepsInv(t.With(d, lane), id);
  }

  /** A dispatch takes exactly one request, whenever there is one. */
  lemma DispatchTakesOne(s: DD, cfg: Config, now: int)
    requires Inv(s)
    ensures Inv(Dispatch(s, cfg, now))
    ensures match Choose(s, cfg, now)
      case Nothing => s.rq == map[] && Dispatch(s, cfg, now) == s
      case Continue(id) => id in s.rq && Dispatch(s, cfg, now).rq == s.rq - {id}
      case Start(_, id, _) => id in s.rq && Dispatch(s, cfg, now).rq == s.rq - {id}
  {
    ChosenIsQueued(s, cfg, now);
    match Choose(s, cfg, now)
    case Nothing =>
    case Continue(id) => MoveKeepsInv(s.(batching := s.batching + 1), id);
    case Start(_, id, starved) => MoveKeepsInv(s.(batching := 1, starved := starved), id);
  }

  // ----- The scheduler itself ---------------------------------------------

  class Scheduler {
    var rq: map<int, Rq>
    var read: Lane
    var write: Lane
    var batching: nat
    var starved: nat
    var lastSector: int
    const cfg: Config

    function AsDD(): DD
      reads this
    {
      DD(rq, read, write, batching, starved, lastSector)
    }

    constructor (cfg: Config)
      ensures AsDD() == Empty && Inv(AsDD()) && this.cfg == cfg
    {
      this.cfg := cfg;
      rq, read, write := map[], EmptyLane, EmptyLane;
      batching, starved, lastSector := 0, 0, 0;
    }

    function Of(d: Dir): Lane
      reads this
    {
      if d.Read? then read else write
    }

    method SetLane(d: Dir, lane: Lane)
      modifies this`read, this`write
      ensures AsDD() == old(AsDD()).With(d, lane)
    {
      if d.Read? { read := lane; } else { write := lane; }
    }

    /** elv_rb_add: walk down past every request at or before this sector. */
    method RbAdd(sorted: seq<int>, id: int) returns (result: seq<int>)
      ensures result == InsertByKey(Positions(rq), sorted, id)
    {
      var pos := Positions(rq);
      var i := 0;
      while i < |sorted| && Key(pos, id) >= Key(pos, sorted[i])
        invariant 0 <= i <= |sorted|
        invariant InsertByKey(pos, sorted, id) == sorted[..i] + InsertByKey(pos, sorted[i..], id)
      {
        assert sorted[i..][1..] == sorted[i + 1..];
        assert sorted[..i + 1] == sorted[..i] + [sorted[i]];
        i := i + 1;
      }
      result := sorted[..i] + [id] + sorted[i..];
      assert sorted[..i] + ([id] + sorted[i..]) == result;
    }

    method Add(id: int, r: Rq, now: int)
      requires id !in rq && Inv(AsDD())
      modifies this
      ensures AsDD() == AddRequest(old(AsDD()), id, r, cfg, now) && Inv(AsDD())
    {
      AddKeepsInv(AsDD(), id, r, cfg, now);
      var d := r.dir;
      rq := rq[id := r.(expire := now + cfg.Expire(d))];
      var lane := Of(d);
      var sorted := RbAdd(lane.sorted, id);
      SetLane(d, lane.(sorted := sorted, fifo := lane.fifo + [id]));
    }

    method Remove(id: int)
      requires id in rq && Inv(AsDD())
      modifies this
      ensures AsDD() == RemoveRequest(old(AsDD()), id) && Inv(AsDD())
    {
      RemoveKeepsInv(AsDD(), id);
      var d := rq[id].dir;
      var lane := Of(d);
      lane := lane.(fifo := Without(lane.fifo, id));
      if lane.next == Some(id) {
        lane := lane.(next := Latter(lane.sorted, id));
      }
      lane := lane.(sorted := Without(lane.sorted, id));
      rq := rq - {id};
      SetLane(d, lane);
    }

    method MergedFront(id: int, pos: int, sectors: nat)
      requires id in rq && Inv(AsDD())
      modifies this
      ensures AsDD() == FrontMerge(old(AsDD()), id, pos, sectors) && Inv(AsDD())
    {
      FrontMergeKeepsInv(AsDD(), id, pos, sectors);
      var d := rq[id].dir;
      rq := rq[id := rq[id].(pos := pos, sectors := sectors)];
      var sorted := RbAdd(Without(Of(d).sorted, id), id);
      SetLane(d, Of(d).(sorted := sorted));
    }

    method Merged(kept: int, gone: int)
      requires kept in rq && gone in rq && kept != gone && rq[kept].dir == rq[gone].dir && Inv(AsDD())
      modifies this
      ensures AsDD() == MergeRequests(old(AsDD()), kept, gone) && Inv(AsDD())
    {
      InheritKeepsInv(AsDD(), kept, gone);
      if rq[gone].expire < rq[kept].expire {
        var d := rq[kept].dir;
        SetLane(d, Of(d).(fifo := InsertAfter(Without(Of(d).fifo, kept), gone, kept)));
        rq := rq[kept := rq[kept].(expire := rq[gone].expire)];
      }
      Remove(gone);
    }

    method CheckFifo(d: Dir, now: int) returns (expired: bool)
      requires Of(d).fifo != [] && Inv(AsDD())
      ensures expired == HeadExpired(AsDD(), d, now)
    {
      var head := Of(d).fifo[0];
      assert head in Of(d).fifo;
      assert Queued(rq, d, head);
      expired := now > rq[head].expire;
    }

    method Move(id: int)
      requires id in rq && Inv(AsDD()) && 0 < batching
      modifies this
      ensures AsDD() == MoveRequest(old(AsDD()), id) && Inv(AsDD())
    {
      var d := rq[id].dir;
      LatterIsMember(Of(d).sorted, id);
      read := read.(next := None);
      write := write.(next := None);
      var lane := Of(d).(next := Latter(Of(d).sorted, id));
      lastSector := rq[id].pos + rq[id].sectors;
      WithKeepsInv(AsDD(), d, lane);
      SetLane(d, lane);
      Remove(id);
    }

    /** The request a new batch in direction d starts from. */
    method FindRequest(d: Dir, now: int) returns (id: int)
      requires Of(d).fifo != [] && Inv(AsDD())
      ensures id == BatchStart(AsDD(), d, now)
    {
      var expired := CheckFifo(d, now);
      if expired || Of(d).next == None {
        id := Of(d).fifo[0];
      } else {
        id := Of(d).next.value;
      }
    }

    /** Decide the direction of a new batch; the source's tree assertions hold on the way. */
    method SelectDirection() returns (d: Option<Dir>)
      requires Inv(AsDD())
      modifies this`starved
      ensures d == NextDirection(old(AsDD()), cfg) && starved == StarvedAfter(old(AsDD()), cfg)
    {
      if read.fifo != [] {
        TreeMatchesFifo(rq, Read, read);
        assert read.sorted != [];
        var starving := false;
        if write.fifo != [] {
          starving := starved >= cfg.StarveLimit();
          starved := starved + 1;
        }
        if !starving { return Some(Read); }
      }
      if write.fifo != [] {
        TreeMatchesFifo(rq, Write, write);
        assert write.sorted != [];
        starved := 0;
        return Some(Write);
      }
      d := None;
    }

    /** Returns whether a request was dispatched. */
    method DispatchRequests(now: int) returns (dispatched: bool)
      requires Inv(AsDD())
      modifies this
      ensures Inv(AsDD()) && AsDD() == Dispatch(old(AsDD()), cfg, now)
      ensures dispatched <==> !Choose(old(AsDD()), cfg, now).Nothing?
    {
      ChosenIsQueued(AsDD(), cfg, now);
      var next := if write.next.Some? then write.next else read.next;
      var id: int;
      if next.Some? && batching < cfg.fifoBatch {
        id := next.value;
      } else {
        var d := SelectDirection();
        if d == None { return false; }
        id := FindRequest(d.value, now);
        batching := 0;
      }
      batching := batching + 1;
      Move(id);
      dispatched := true;
    }
  }

  /** A direction with requests in its FIFO has them in its tree. */
  lemma TreeMatchesFifo(rq: map<int, Rq>, d: Dir, lane: Lane)
    requires LaneOk(rq, d, lane)
    ensures lane.sorted == [] <==> lane.fifo == []
    ensures |lane.sorted| == |lane.fifo|
  {
    SameMembersSameLength(lane.sorted, lane.fifo);
  }
}
