/**
 * Which request a dispatch of the deadline scheduler takes: the one due first when one is overdue or
 * the direction has no place to go on from, and otherwise the next in sector order after the last one
 * served, except for what arrived or moved since.
 */
module DeadlineOrder {
  import opened Seqs
  import opened Lists
  import opened Deadline
  import opened DeadlineRuns

  // ----- Order in the tree ------------------------------------------------

  /** y stands before x in the list, or is x. */
  predicate Before(s: seq<int>, y: int, x: int) {
    s != [] && if s[0] == y then x in s else Before(s[1..], y, x)
  }

  lemma {:induction false} BeforeMembers(s: seq<int>, y: int, x: int)
    requires Before(s, y, x)
    ensures y in s && x in s
  {
    if s[0] != y { BeforeMembers(s[1..], y, x); }
  }

  lemma {:induction false} WithoutBefore(s: seq<int>, y: int, x: int, z: int)
    requires NoDup(s) && Before(s, y, x) && z != y && z != x
    ensures Before(Without(s, z), y, x)
  {
    if s[0] == y {
      WithoutMembers(s, z);
    } else if s[0] != z {
      WithoutBefore(s[1..], y, x, z);
    }
  }

  lemma {:induction false} InsertBefore(keys: map<int, int>, s: seq<int>, y: int, x: int, z: int)
    requires NoDup(s) && Before(s, y, x) && z !in s
    ensures Before(InsertByKey(keys, s, z), y, x)
  {
    InsertByKeyMembers(keys, s, z);
    if Key(keys, z) < Key(keys, s[0]) {
      assert ([z] + s)[1..] == s;
      BeforeMembers(s, y, x);
    } else if s[0] != y {
      InsertBefore(keys, s[1..], y, x, z);
    }
  }

  /** What comes after y comes at or after its successor. */
  lemma {:induction false} LatterBefore(s: seq<int>, y: int, x: int)
    requires NoDup(s) && Before(s, y, x) && x != y
    ensures var n := Latter(s, y); n.Some? && n.value != y && Before(s, n.value, x)
  {
    if s[0] == y {
      assert x in s[1..];
      assert s[1] != s[0];
    } else {
      LatterBefore(s[1..], y, x);
      LatterIsMember(s[1..], y);
      assert s[0] !in s[1..];
    }
  }

  lemma {:induction false} SortedBefore(keys: map<int, int>, s: seq<int>, y: int, x: int)
    requires SortedBy(keys, s) && y in s && x in s && Key(keys, y) < Key(keys, x)
    ensures Before(s, y, x)
  {
    if s[0] != y {
      assert y in s[1..];
      var i :| 0 < i < |s| && s[i] == y;
      assert Key(keys, s[0]) <= Key(keys, s[i]);
      assert x in s[1..];
      SortedBefore(keys, s[1..], y, x);
    }
  }

  lemma {:induction false} BeforeKeys(keys: map<int, int>, s: seq<int>, y: int, x: int)
    requires SortedBy(keys, s) && Before(s, y, x)
    ensures Key(keys, y) <= Key(keys, x)
  {
    if s[0] == y {
      var i :| 0 <= i < |s| && s[i] == x;
      assert i == 0 || Key(keys, s[0]) <= Key(keys, s[i]);
    } else {
      BeforeKeys(keys, s[1..], y, x);
    }
  }

  lemma {:induction false} LatterKeys(keys: map<int, int>, s: seq<int>, y: int)
    requires SortedBy(keys, s) && y in s
    ensures Latter(s, y).Some? ==> Key(keys, y) <= Key(keys, Latter(s, y).value)
  {
    if s[0] == y {
      if |s| > 1 { assert Key(keys, s[0]) <= Key(keys, s[1]); }
    } else {
      assert y in s[1..];
      LatterKeys(keys, s[1..], y);
    }
  }

  // ----- The cursor since the last dispatch -------------------------------

  /** x is no further on than sector p, or the batch cursor of d is not past it. */
  ghost predicate Covered(s: DD, d: Dir, p: int, x: int) {
    Queued(s.rq, d, x) ==>
      s.rq[x].pos <= p || (s.Of(d).next.Some? && Before(s.Of(d).sorted, s.Of(d).next.value, x))
  }

  /** The cursor of d is not before sector p. */
  ghost predicate CursorFrom(s: DD, d: Dir, p: int) {
    s.Of(d).next.Some? && s.Of(d).next.value in s.rq ==> p <= s.rq[s.Of(d).next.value].pos
  }

  /** The step gives x a sector: it arrives, or a bio is merged in front of it. */
  predicate Places(step: Step, x: int) {
    (step.Add? || step.Front?) && step.id == x
  }

  /** A bio merged in front of a request starts at a lower sector. */
  predicate Lowers(s: DD, step: Step) {
    step.Front? && step.id in s.rq ==> step.pos < s.rq[step.id].pos
  }

  lemma MoveCovers(s: DD, id: int, d: Dir, x: int)
    requires Inv(s) && Queued(s.rq, d, id) && 0 < s.batching
    ensures Covered(MoveRequest(s, id), d, s.rq[id].pos, x)
  {
    var sorted, keys := s.Of(d).sorted, Positions(s.rq);
    var t := MoveRequest(s, id);
    assert t.rq == s.rq - {id} by { MoveKeepsInv(s, id); }
    LatterIsMember(sorted, id);
    assert t.Of(d).sorted == Without(sorted, id) && t.Of(d).next == Latter(sorted, id);
    if Queued(t.rq, d, x) && s.rq[id].pos < s.rq[x].pos {
      assert x in sorted && id in sorted;
      SortedBefore(keys, sorted, id, x);
      LatterBefore(sorted, id, x);
      WithoutBefore(sorted, Latter(sorted, id).value, x, id);
    }
  }

  lemma MoveCursor(s: DD, id: int, d: Dir)
    requires Inv(s) && Queued(s.rq, d, id) && 0 < s.batching
    ensures CursorFrom(MoveRequest(s, id), d, s.rq[id].pos)
    ensures MoveRequest(s, id).lastSector == s.rq[id].pos + s.rq[id].sectors
  {
    var sorted := s.Of(d).sorted;
    LatterIsMember(sorted, id);
    assert id in sorted;
    LatterKeys(Positions(s.rq), sorted, id);
    if Latter(sorted, id).Some? { assert Queued(s.rq, d, Latter(sorted, id).value); }
  }

  lemma AddCovers(s: DD, id: int, rq: Rq, cfg: Config, now: int, d: Dir, p: int, x: int)
    requires Inv(s) && id !in s.rq && id != x && Covered(s, d, p, x)
    ensures Covered(AddRequest(s, id, rq, cfg, now), d, p, x)
  {
    var lane := s.Of(d);
    if rq.dir == d && Queued(s.rq, d, x) && p < s.rq[x].pos {
      assert id !in lane.sorted;
      InsertBefore(Positions(AddRequest(s, id, rq, cfg, now).rq), lane.sorted, lane.next.value, x, id);
    }
  }

  lemma FrontCovers(s: DD, id: int, pos: int, sectors: nat, d: Dir, p: int, x: int)
    requires Inv(s) && id in s.rq && pos < s.rq[id].pos && id != x && Covered(s, d, p, x)
    ensures Covered(FrontMerge(s, id, pos, sectors), d, p, x)
  {
    var lane, t := s.Of(d), FrontMerge(s, id, pos, sectors);
    if s.rq[id].dir == d && Queued(s.rq, d, x) && p < s.rq[x].pos {
      var y := lane.next.value;
      WithoutMembers(lane.sorted, id);
      if id == y {
        assert Inv(t) by { FrontMergeKeepsInv(s, id, pos, sectors); }
        BeforeKeys(Positions(s.rq), lane.sorted, y, x);
        assert Queued(t.rq, d, x) && Queued(t.rq, d, y);
        SortedBefore(Positions(t.rq), t.Of(d).sorted, y, x);
      } else {
        WithoutBefore(lane.sorted, y, x, id);
        InsertBefore(Positions(t.rq), Without(lane.sorted, id), y, x, id);
      }
    }
  }

  lemma RemoveCovers(s: DD, id: int, d: Dir, p: int, x: int)
    requires Inv(s) && id in s.rq && Covered(s, d, p, x)
    ensures Covered(RemoveRequest(s, id), d, p, x)
  {
    var lane := s.Of(d);
    if s.rq[id].dir == d && id != x && Queued(s.rq, d, x) && p < s.rq[x].pos {
      var y := lane.next.value;
      if id == y {
        LatterBefore(lane.sorted, y, x);
        WithoutBefore(lane.sorted, Latter(lane.sorted, y).value, x, id);
      } else {
        WithoutBefore(lane.sorted, y, x, id);
      }
    }
  }

  lemma RemoveCursor(s: DD, id: int, d: Dir, p: int)
    requires Inv(s) && id in s.rq && CursorFrom(s, d, p)
    ensures CursorFrom(RemoveRequest(s, id), d, p)
  {
    var lane := s.Of(d);
    if lane.next == Some(id) && s.rq[id].dir == d {
      assert id in lane.sorted;
      LatterKeys(Positions(s.rq), lane.sorted, id);
      LatterIsMember(lane.sorted, id);
      if Latter(lane.sorted, id).Some? { assert Queued(s.rq, d, Latter(lane.sorted, id).value); }
    }
  }

  /** Inheriting a deadline moves nothing in sector order. */
  lemma InheritSectors(s: DD, kept: int, gone: int, d: Dir)
    requires kept in s.rq && gone in s.rq
    ensures var t := InheritDeadline(s, kept, gone);
      && t.Of(d).sorted == s.Of(d).sorted && t.Of(d).next == s.Of(d).next && t.rq.Keys == s.rq.Keys
      && forall x :: x in s.rq ==> t.rq[x].pos == s.rq[x].pos && t.rq[x].dir == s.rq[x].dir
  {
  }

  /** A step that dispatches nothing keeps every request covered to which it gives no sector. */
  lemma StepCovers(s: DD, step: Step, cfg: Config, now: int, d: Dir, p: int, x: int)
    requires Inv(s) && Enabled(s, step) && Covered(s, d, p, x) && !Places(step, x) && Lowers(s, step)
    requires step.Serve? ==> Served(s, cfg, now).None?
    ensures Covered(Next(s, step, cfg, now), d, p, x)
  {
    match step
    case Add(id, rq) => AddCovers(s, id, rq, cfg, now, d, p, x);
    case Front(id, pos, sectors) => FrontCovers(s, id, pos, sectors, d, p, x);
    case Back(id, sectors) =>
    case Merge(kept, gone) =>
      InheritKeepsInv(s, kept, gone);
      InheritSectors(s, kept, gone, d);
      RemoveCovers(InheritDeadline(s, kept, gone), gone, d, p, x);
    case Serve =>
  }

  /** A step that dispatches nothing and merges nothing in front of a request of d keeps the cursor past p. */
  lemma StepCursor(s: DD, step: Step, cfg: Config, now: int, d: Dir, p: int)
    requires Inv(s) && Enabled(s, step) && CursorFrom(s, d, p) && !(step.Front? && s.rq[step.id].dir == d)
    requires step.Serve? ==> Served(s, cfg, now).None?
    ensures CursorFrom(Next(s, step, cfg, now), d, p)
  {
    match step
    case Add(id, rq) => if s.Of(d).next.Some? { NextIsQueued(s.rq, d, s.Of(d)); }
    case Front(id, pos, sectors) => if s.Of(d).next.Some? { NextIsQueued(s.rq, d, s.Of(d)); }
    case Back(id, sectors) =>
    case Merge(kept, gone) =>
      InheritKeepsInv(s, kept, gone);
      InheritSectors(s, kept, gone, d);
      RemoveCursor(InheritDeadline(s, kept, gone), gone, d, p);
    case Serve =>
  }

  // ----- From one dispatch to the next ------------------------------------

  /** The request that a dispatch takes. */
  function Pick(s: DD, cfg: Config, now: int): int
    requires !Choose(s, cfg, now).Nothing?
  {
    Choose(s, cfg, now).id
  }

  /** Request id of direction d leaves, and nothing else does. */
  lemma DispatchTakes(s: DD, cfg: Config, now: int, d: Dir)
    requires Inv(s) && Served(s, cfg, now) == Some(d)
    ensures var id := Pick(s, cfg, now); Queued(s.rq, d, id) && Dispatch(s, cfg, now).rq == s.rq - {id}
  {
    ChosenIsQueued(s, cfg, now);
    DispatchTakesOne(s, cfg, now);
  }

  /** The run's last dispatch before state k is step i, of a request of direction d. */
  ghost predicate LastDispatch(states: seq<DD>, steps: seq<Step>, times: seq<int>, cfg: Config, i: nat, k: nat, d: Dir)
    requires IsRun(states, steps, times, cfg) && i < k <= |steps|
  {
    && Serves(states[i], steps[i], cfg, times[i], d)
    && forall j :: i < j < k ==> steps[j].Serve? ==> Served(states[j], cfg, times[j]).None?
  }

  /** The sector that dispatch served, and where it ended. */
  ghost function SectorServed(states: seq<DD>, steps: seq<Step>, times: seq<int>, cfg: Config, i: nat, d: Dir): int
    requires IsRun(states, steps, times, cfg) && i < |steps| && Serves(states[i], steps[i], cfg, times[i], d)
  {
    var id := Pick(states[i], cfg, times[i]);
    if id in states[i].rq then states[i].rq[id].pos else 0
  }

  /** Since step i, x was given no sector. */
  ghost predicate Unmoved(steps: seq<Step>, i: nat, k: nat, x: int)
    requires k <= |steps|
  {
    forall j :: i < j < k ==> !Places(steps[j], x)
  }

  /** Since step i, bios merged in front of requests lowered their sectors. */
  ghost predicate LowersAll(states: seq<DD>, steps: seq<Step>, i: nat, k: nat)
    requires k <= |steps| <= |states|
  {
    forall j :: i < j < k ==> Lowers(states[j], steps[j])
  }

  lemma DispatchCovers(s: DD, cfg: Config, now: int, d: Dir, x: int)
    requires Inv(s) && Served(s, cfg, now) == Some(d)
    ensures var t, id := Dispatch(s, cfg, now), Pick(s, cfg, now);
      && id in s.rq && Covered(t, d, s.rq[id].pos, x) && CursorFrom(t, d, s.rq[id].pos)
      && t.lastSector == s.rq[id].pos + s.rq[id].sectors
  {
    DispatchTakes(s, cfg, now, d);
    var id := Pick(s, cfg, now);
    var u := if Choose(s, cfg, now).Continue? then s.(batching := s.batching + 1)
             else s.(batching := 1, starved := Choose(s, cfg, now).starved);
    assert Dispatch(s, cfg, now) == MoveRequest(u, id);
    MoveCovers(u, id, d, x);
    MoveCursor(u, id, d);
  }

  lemma {:induction false} WindowCovers(states: seq<DD>, steps: seq<Step>, times: seq<int>, cfg: Config,
                                        i: nat, k: nat, d: Dir, x: int)
    requires IsRun(states, steps, times, cfg) && i < k <= |steps| && LastDispatch(states, steps, times, cfg, i, k, d)
    requires Unmoved(steps, i, k, x) && LowersAll(states, steps, i, k)
    ensures Covered(states[k], d, SectorServed(states, steps, times, cfg, i, d), x)
    decreases k
  {
    var s, step, now := states[k - 1], steps[k - 1], times[k - 1];
    assert Inv(s) by { RunInv(states, steps, times, cfg, k - 1); }
    assert Taken(states, steps, times, cfg, k - 1);
    if i == k - 1 {
      DispatchCovers(s, cfg, now, d, x);
    } else {
      WindowCovers(states, steps, times, cfg, i, k - 1, d, x);
      StepCovers(s, step, cfg, now, d, SectorServed(states, steps, times, cfg, i, d), x);
    }
  }

  /** No bio was merged in front of a request of d since step i. */
  ghost predicate NoFront(states: seq<DD>, steps: seq<Step>, i: nat, k: nat, d: Dir)
    requires k <= |steps| <= |states|
  {
    forall j :: i < j < k && steps[j].Front? ==> !Queued(states[j].rq, d, steps[j].id)
  }

  lemma {:induction false} WindowCursor(states: seq<DD>, steps: seq<Step>, times: seq<int>, cfg: Config,
                                        i: nat, k: nat, d: Dir)
    requires IsRun(states, steps, times, cfg) && i < k <= |steps| && LastDispatch(states, steps, times, cfg, i, k, d)
    requires NoFront(states, steps, i, k, d)
    ensures CursorFrom(states[k], d, SectorServed(states, steps, times, cfg, i, d))
    decreases k
  {
    var s, step, now := states[k - 1], steps[k - 1], times[k - 1];
    assert Inv(s) by { RunInv(states, steps, times, cfg, k - 1); }
    assert Taken(states, steps, times, cfg, k - 1);
    if i == k - 1 {
      DispatchCovers(s, cfg, now, d, 0);
    } else {
      WindowCursor(states, steps, times, cfg, i, k - 1, d);
      StepCursor(s, step, cfg, now, d, SectorServed(states, steps, times, cfg, i, d));
    }
  }

  // ----- What a dispatch takes --------------------------------------------

  /** Some queued request of d is overdue. */
  ghost predicate Overdue(s: DD, d: Dir, now: int) {
    exists x :: Queued(s.rq, d, x) && s.rq[x].expire < now
  }

  /** y is queued in d and none of d is due before it. */
  ghost predicate DueFirst(s: DD, d: Dir, y: int) {
    Queued(s.rq, d, y) && forall x :: Queued(s.rq, d, x) ==> s.rq[y].expire <= s.rq[x].expire
  }

  /** y is the next queued request of d in sector order after sector p. */
  ghost predicate NextAfter(s: DD, d: Dir, p: int, y: int) {
    && Queued(s.rq, d, y) && p <= s.rq[y].pos
    && forall x :: Queued(s.rq, d, x) ==> s.rq[x].pos <= p || s.rq[y].pos <= s.rq[x].pos
  }

  /** The call goes on with a batch of d. */
  predicate GoesOn(s: DD, cfg: Config, d: Dir) {
    s.Of(d).next.Some? && s.batching < cfg.fifoBatch
  }

  /**
   * In every run from an empty scheduler, a dispatch that starts a batch in direction d takes a request
   * due first in d if one of d is overdue or the direction has no cursor; otherwise it takes the cursor.
   */
  lemma BatchStartsWith(states: seq<DD>, steps: seq<Step>, times: seq<int>, cfg: Config, k: nat, d: Dir)
    requires IsRun(states, steps, times, cfg) && states[0] == Empty && k < |steps|
    requires Serves(states[k], steps[k], cfg, times[k], d) && Choose(states[k], cfg, times[k]).Start?
    ensures var s, y := states[k], Pick(states[k], cfg, times[k]);
      && states[k + 1].rq == s.rq - {y}
      && (Overdue(s, d, times[k]) || s.Of(d).next.None? ==> DueFirst(s, d, y))
      && (!Overdue(s, d, times[k]) && s.Of(d).next.Some? ==> s.Of(d).next == Some(y))
  {
    var s, now := states[k], times[k];
    assert Taken(states, steps, times, cfg, k);
    RunInv(states, steps, times, cfg, k);
    DispatchTakes(s, cfg, now, d);
    RunFifo(states, steps, times, cfg, k, d);
    HeadDecides(s, cfg, if k > 0 then times[k - 1] else now, d, now);
  }

  /** A dispatch that goes on with a batch takes the cursor. */
  lemma BatchGoesOn(s: DD, cfg: Config, now: int, d: Dir)
    requires Inv(s) && GoesOn(s, cfg, d)
    ensures Served(s, cfg, now) == Some(d) && s.Of(d).next == Some(Pick(s, cfg, now))
    ensures Dispatch(s, cfg, now).rq == s.rq - {Pick(s, cfg, now)}
  {
    DispatchTakesOne(s, cfg, now);
  }

  /** Step k takes the cursor of d: it goes on with a batch, or starts one with nothing of d overdue. */
  ghost predicate TakesCursor(states: seq<DD>, steps: seq<Step>, times: seq<int>, cfg: Config, k: nat, d: Dir)
    requires IsRun(states, steps, times, cfg) && k < |steps|
  {
    && Serves(states[k], steps[k], cfg, times[k], d) && states[k].Of(d).next.Some?
    && (GoesOn(states[k], cfg, d) || !Overdue(states[k], d, times[k]))
  }

  lemma CursorIsTaken(states: seq<DD>, steps: seq<Step>, times: seq<int>, cfg: Config, k: nat, d: Dir)
    requires IsRun(states, steps, times, cfg) && states[0] == Empty && k < |steps|
    requires TakesCursor(states, steps, times, cfg, k, d)
    ensures var s, y := states[k], Pick(states[k], cfg, times[k]);
      s.Of(d).next == Some(y) && Queued(s.rq, d, y) && states[k + 1].rq == s.rq - {y}
  {
    var s, now := states[k], times[k];
    assert Inv(s) by { RunInv(states, steps, times, cfg, k); }
    assert Taken(states, steps, times, cfg, k);
    DispatchTakes(s, cfg, now, d);
    if GoesOn(s, cfg, d) { BatchGoesOn(s, cfg, now, d); } else { BatchStartsWith(states, steps, times, cfg, k, d); }
  }

  /** Something that arrived or moved since step i lies between sector p and request y. */
  ghost predicate NewcomerBetween(s: DD, steps: seq<Step>, i: nat, k: nat, d: Dir, p: int, y: int)
    requires k <= |steps|
  {
    exists x :: Queued(s.rq, d, x) && !Unmoved(steps, i, k, x) && y in s.rq && p < s.rq[x].pos < s.rq[y].pos
  }

  lemma NotPassed(s: DD, d: Dir, p: int, x: int, y: int)
    requires Inv(s) && Covered(s, d, p, x) && Queued(s.rq, d, x) && s.Of(d).next == Some(y) && Queued(s.rq, d, y)
    ensures s.rq[x].pos <= p || s.rq[y].pos <= s.rq[x].pos
  {
    if p < s.rq[x].pos { BeforeKeys(Positions(s.rq), s.Of(d).sorted, y, x); }
  }

  /**
   * Sector order, over every run: a dispatch that takes the cursor takes the next request in sector order
   * after the last one served exactly if the cursor has not moved back past that and nothing that arrived
   * or moved since lies in between.
   */
  lemma SectorOrderIff(states: seq<DD>, steps: seq<Step>, times: seq<int>, cfg: Config, i: nat, k: nat, d: Dir)
    requires IsRun(states, steps, times, cfg) && states[0] == Empty && i < k < |steps|
    requires LastDispatch(states, steps, times, cfg, i, k, d) && TakesCursor(states, steps, times, cfg, k, d)
    requires LowersAll(states, steps, i, k)
    ensures var s, p, y := states[k], SectorServed(states, steps, times, cfg, i, d), Pick(states[k], cfg, times[k]);
      && y in s.rq && states[k + 1].rq == s.rq - {y}
      && (NextAfter(s, d, p, y) <==> p <= s.rq[y].pos && !NewcomerBetween(s, steps, i, k, d, p, y))
  {
    var s, p, y := states[k], SectorServed(states, steps, times, cfg, i, d), Pick(states[k], cfg, times[k]);
    CursorIsTaken(states, steps, times, cfg, k, d);
    assert Inv(s) by { RunInv(states, steps, times, cfg, k); }
    if !NewcomerBetween(s, steps, i, k, d, p, y) {
      forall x | Queued(s.rq, d, x) ensures s.rq[x].pos <= p || s.rq[y].pos <= s.rq[x].pos {
        if Unmoved(steps, i, k, x) {
          WindowCovers(states, steps, times, cfg, i, k, d, x);
          NotPassed(s, d, p, x, y);
        }
      }
    }
  }

  /** Nothing of d arrived and no bio was merged in front of a request of d since step i. */
  ghost predicate Undisturbed(states: seq<DD>, steps: seq<Step>, i: nat, k: nat, d: Dir)
    requires k <= |steps| <= |states|
  {
    NoFront(states, steps, i, k, d) && forall j :: i < j < k && steps[j].Add? ==> steps[j].rq.dir != d
  }

  /** What is queued in d then has the sector it had, so the cursor missed nothing. */
  lemma {:induction false} UndisturbedCovers(states: seq<DD>, steps: seq<Step>, times: seq<int>, cfg: Config,
                                             i: nat, k: nat, d: Dir, x: int)
    requires IsRun(states, steps, times, cfg) && i < k <= |steps| && LastDispatch(states, steps, times, cfg, i, k, d)
    requires Undisturbed(states, steps, i, k, d)
    ensures Covered(states[k], d, SectorServed(states, steps, times, cfg, i, d), x)
    decreases k
  {
    var s, step, now := states[k - 1], steps[k - 1], times[k - 1];
    assert Inv(s) by { RunInv(states, steps, times, cfg, k - 1); }
    assert Taken(states, steps, times, cfg, k - 1);
    if i == k - 1 {
      DispatchCovers(s, cfg, now, d, x);
    } else {
      UndisturbedCovers(states, steps, times, cfg, i, k - 1, d, x);
      ElsewhereCovers(s, step, cfg, now, d, SectorServed(states, steps, times, cfg, i, d), x);
    }
  }

  lemma ElsewhereCovers(s: DD, step: Step, cfg: Config, now: int, d: Dir, p: int, x: int)
    requires Inv(s) && Enabled(s, step) && Covered(s, d, p, x)
    requires step.Serve? ==> Served(s, cfg, now).None?
    requires step.Front? ==> !Queued(s.rq, d, step.id)
    requires step.Add? ==> step.rq.dir != d
    ensures Covered(Next(s, step, cfg, now), d, p, x)
  {
    if !step.Add? && !step.Front? { StepCovers(s, step, cfg, now, d, p, x); }
  }

  /**
   * With nothing new in the direction since the last dispatch, a dispatch that goes on with a batch, or
   * starts one with nothing overdue, takes the next request in sector order; and the direction has no
   * cursor only if nothing queued lies beyond the last one served.
   */
  lemma NextInSectorOrder(states: seq<DD>, steps: seq<Step>, times: seq<int>, cfg: Config, i: nat, k: nat, d: Dir)
    requires IsRun(states, steps, times, cfg) && states[0] == Empty && i < k < |steps|
    requires LastDispatch(states, steps, times, cfg, i, k, d) && Undisturbed(states, steps, i, k, d)
    ensures var s, p := states[k], SectorServed(states, steps, times, cfg, i, d);
      && (TakesCursor(states, steps, times, cfg, k, d) ==> NextAfter(s, d, p, Pick(s, cfg, times[k])))
      && (s.Of(d).next.None? ==> forall x :: Queued(s.rq, d, x) ==> s.rq[x].pos <= p)
  {
    var s, p := states[k], SectorServed(states, steps, times, cfg, i, d);
    assert Inv(s) by { RunInv(states, steps, times, cfg, k); }
    assert CursorFrom(s, d, p) by { WindowCursor(states, steps, times, cfg, i, k, d); }
    forall x ensures Covered(s, d, p, x) { UndisturbedCovers(states, steps, times, cfg, i, k, d, x); }
    if s.Of(d).next.None? {
      forall x | Queued(s.rq, d, x) ensures s.rq[x].pos <= p { assert Covered(s, d, p, x); }
    }
    if TakesCursor(states, steps, times, cfg, k, d) {
      CursorIsTaken(states, steps, times, cfg, k, d);
      var y := Pick(s, cfg, times[k]);
      forall x | Queued(s.rq, d, x) ensures s.rq[x].pos <= p || s.rq[y].pos <= s.rq[x].pos {
        NotPassed(s, d, p, x, y);
      }
    }
  }

  lemma CursorStep(s: DD, step: Step, t: DD, cfg: Config, now: int, d: Dir)
    requires Inv(s) && Counters(s, cfg) && Enabled(s, step) && t == Next(s, step, cfg, now) && t.Of(d).next.Some?
    ensures Serves(s, step, cfg, now, d) || (s.Of(d).next.Some? && (step.Serve? ==> Served(s, cfg, now).None?))
  {
    if step.Serve? { DispatchCounters(s, cfg, now); } else { OtherStepsKeepRanks(s, step, cfg, now); }
  }

  /** A direction has a cursor only if the last dispatch was in that direction. */
  lemma {:induction false} CursorFollowsDispatch(states: seq<DD>, steps: seq<Step>, times: seq<int>, cfg: Config,
                                                 k: nat, d: Dir) returns (i: nat)
    requires IsRun(states, steps, times, cfg) && states[0] == Empty && k <= |steps| && states[k].Of(d).next.Some?
    ensures i < k && LastDispatch(states, steps, times, cfg, i, k, d)
    decreases k
  {
    assert Inv(states[k - 1]) && Counters(states[k - 1], cfg) by { RunInv(states, steps, times, cfg, k - 1); }
    assert Taken(states, steps, times, cfg, k - 1);
    CursorStep(states[k - 1], steps[k - 1], states[k], cfg, times[k - 1], d);
    if Serves(states[k - 1], steps[k - 1], cfg, times[k - 1], d) {
      i := k - 1;
    } else {
      i := CursorFollowsDispatch(states, steps, times, cfg, k - 1, d);
    }
  }

  // ----- A newcomer is passed over ----------------------------------------

  /** Whatever arrives in front of the cursor, a batch that can go on goes on with the cursor. */
  lemma CursorSkipsNewcomer(s: DD, id: int, rq: Rq, cfg: Config, now: int, later: int, d: Dir)
    requires Inv(s) && id !in s.rq && rq.dir == d && GoesOn(s, cfg, d)
    ensures var t := AddRequest(s, id, rq, cfg, now);
      Inv(t) && Some(Pick(t, cfg, later)) == s.Of(d).next && id in Dispatch(t, cfg, later).rq
  {
    AddKeepsInv(s, id, rq, cfg, now);
    BatchGoesOn(AddRequest(s, id, rq, cfg, now), cfg, later, d);
    NextIsQueued(s.rq, d, s.Of(d));
  }

  function ReadAt(sector: int, cfg: Config): Rq { Rq(Read, sector, 0, cfg.readExpire) }
  function Arrival(id: int, sector: int): Step { Add(id, Rq(Read, sector, 0, 0)) }

  /** Reads arrive at sectors a and c; the first is served; then one arrives at b in between. */
  function OneRead(a: int, cfg: Config): DD {
    DD(map[0 := ReadAt(a, cfg)], Lane([0], [0], None), EmptyLane, 0, 0, 0)
  }

  function TwoReads(a: int, c: int, cfg: Config): DD {
    DD(map[0 := ReadAt(a, cfg), 1 := ReadAt(c, cfg)], Lane([0, 1], [0, 1], None), EmptyLane, 0, 0, 0)
  }

  function OneServed(a: int, c: int, cfg: Config): DD {
    DD(map[1 := ReadAt(c, cfg)], Lane([1], [1], Some(1)), EmptyLane, 1, 0, a)
  }

  function Between(a: int, b: int, c: int, cfg: Config): DD {
    DD(map[1 := ReadAt(c, cfg), 2 := ReadAt(b, cfg)], Lane([1, 2], [2, 1], Some(1)), EmptyLane, 1, 0, a)
  }

  lemma FirstArrives(a: int, cfg: Config)
    ensures Next(Empty, Arrival(0, a), cfg, 0) == OneRead(a, cfg) && Inv(OneRead(a, cfg))
  {
    AddKeepsInv(Empty, 0, Rq(Read, a, 0, 0), cfg, 0);
  }

  lemma InsertBehind(keys: map<int, int>, x: int, y: int)
    requires Key(keys, x) <= Key(keys, y)
    ensures InsertByKey(keys, [x], y) == [x, y]
  {
    assert [x][1..] == [];
  }

  lemma SecondIsInserted(a: int, c: int, cfg: Config)
    requires a < c
    ensures Next(OneRead(a, cfg), Arrival(1, c), cfg, 0) == TwoReads(a, c, cfg)
  {
    var all := OneRead(a, cfg).rq[1 := ReadAt(c, cfg)];
    assert InsertByKey(Positions(all), [0], 1) == [0, 1] by { InsertBehind(Positions(all), 0, 1); }
    assert all == TwoReads(a, c, cfg).rq;
  }

  lemma SecondArrives(a: int, c: int, cfg: Config)
    requires a < c
    ensures Next(OneRead(a, cfg), Arrival(1, c), cfg, 0) == TwoReads(a, c, cfg) && Inv(TwoReads(a, c, cfg))
  {
    SecondIsInserted(a, c, cfg);
    FirstArrives(a, cfg);
    NextKeepsInv(OneRead(a, cfg), Arrival(1, c), cfg, 0);
  }

  lemma FirstIsServed(a: int, c: int, cfg: Config)
    requires a < c
    ensures var s := TwoReads(a, c, cfg);
      && Inv(s) && Served(s, cfg, 0) == Some(Read) && Pick(s, cfg, 0) == 0
      && Next(s, Serve, cfg, 0) == OneServed(a, c, cfg) && Inv(OneServed(a, c, cfg))
  {
    SecondArrives(a, c, cfg);
    var s := TwoReads(a, c, cfg);
    DispatchTakesOne(s, cfg, 0);
    assert Choose(s, cfg, 0) == Start(Read, 0, 0);
    assert s.rq - {0} == map[1 := ReadAt(c, cfg)];
    assert Latter([0, 1], 0) == Some(1) && Without([0, 1], 0) == [1];
  }

  lemma NewcomerArrives(a: int, b: int, c: int, cfg: Config)
    requires a < b < c
    ensures Next(OneServed(a, c, cfg), Arrival(2, b), cfg, 0) == Between(a, b, c, cfg) && Inv(Between(a, b, c, cfg))
  {
    FirstIsServed(a, c, cfg);
    AddKeepsInv(OneServed(a, c, cfg), 2, Rq(Read, b, 0, 0), cfg, 0);
  }

  lemma NewcomerIsSkipped(a: int, b: int, c: int, cfg: Config)
    requires a < b < c
    ensures var s := Between(a, b, c, cfg);
      && Inv(s) && Served(s, cfg, 0) == Some(Read) && Pick(s, cfg, 0) == 1 && !Overdue(s, Read, 0)
      && NextAfter(s, Read, a, 2) && !NextAfter(s, Read, a, 1)
  {
    NewcomerArrives(a, b, c, cfg);
    var s := Between(a, b, c, cfg);
    assert Queued(s.rq, Read, 2) && s.rq[2].pos == b && s.rq[1].pos == c;
    assert Choose(s, cfg, 0).id == 1;
  }

  /** The run in which they do. */
  ghost predicate Newcomers(a: int, b: int, c: int, cfg: Config, states: seq<DD>, steps: seq<Step>, times: seq<int>) {
    && |states| == 6 && states[0] == Empty && states[1] == OneRead(a, cfg) && states[2] == TwoReads(a, c, cfg)
    && states[3] == OneServed(a, c, cfg) && states[4] == Between(a, b, c, cfg)
    && Inv(states[4]) && states[5] == Dispatch(states[4], cfg, 0)
    && steps == [Arrival(0, a), Arrival(1, c), Serve, Arrival(2, b), Serve] && times == [0, 0, 0, 0, 0]
  }

  lemma NewcomersRun(a: int, b: int, c: int, cfg: Config, states: seq<DD>, steps: seq<Step>, times: seq<int>)
    requires a < b < c && 0 <= cfg.StarveLimit() && Newcomers(a, b, c, cfg, states, steps, times)
    ensures IsRun(states, steps, times, cfg)
  {
    forall i | 0 <= i < |steps| ensures Taken(states, steps, times, cfg, i) {
      if i == 0 { FirstArrives(a, cfg); }
      else if i == 1 { SecondArrives(a, c, cfg); }
      else if i == 2 { FirstIsServed(a, c, cfg); }
      else if i == 3 { NewcomerArrives(a, b, c, cfg); }
    }
  }

  /**
   * What arrives between the last one served and the cursor is passed over, under every setting: after
   * the dispatch at sector a the cursor is the request at c, and the request at b in between is skipped.
   */
  lemma NewcomerIsPassedOver(a: int, b: int, c: int, cfg: Config, states: seq<DD>, steps: seq<Step>, times: seq<int>)
    requires a < b < c && 0 <= cfg.StarveLimit() && Newcomers(a, b, c, cfg, states, steps, times)
    ensures IsRun(states, steps, times, cfg) && LastDispatch(states, steps, times, cfg, 2, 4, Read)
    ensures TakesCursor(states, steps, times, cfg, 4, Read)
    ensures Pick(states[4], cfg, 0) == 1 && NextAfter(states[4], Read, a, 2) && !NextAfter(states[4], Read, a, 1)
  {
    NewcomersRun(a, b, c, cfg, states, steps, times);
    assert Serves(states[2], steps[2], cfg, 0, Read) by { FirstIsServed(a, c, cfg); }
    NewcomerIsSkipped(a, b, c, cfg);
  }

  // ----- Extents ----------------------------------------------------------

  /** The step says where the request is or how long it is. */
  predicate Extends(step: Step, x: int) { (step.Add? || step.Front? || step.Back?) && step.id == x }

  /** What the step leaves of the request's extent. */
  ghost predicate ExtentAfter(s: DD, step: Step, t: DD, x: int) {
    x in t.rq && match step
      case Add(_, rq) => t.rq[x].pos == rq.pos && t.rq[x].sectors == rq.sectors
      case Front(_, pos, sectors) => t.rq[x].pos == pos && t.rq[x].sectors == sectors
      case Back(_, sectors) => x in s.rq && t.rq[x].pos == s.rq[x].pos && t.rq[x].sectors == sectors
      case _ => false
  }

  lemma ExtentStep(s: DD, step: Step, cfg: Config, now: int, x: int)
    requires Inv(s) && Enabled(s, step) && x in Next(s, step, cfg, now).rq
    ensures var t := Next(s, step, cfg, now);
      if Extends(step, x) then ExtentAfter(s, step, t, x)
      else x in s.rq && t.rq[x].pos == s.rq[x].pos && t.rq[x].sectors == s.rq[x].sectors
  {
    match step
    case Add(_, _) =>
    case Front(_, _, _) =>
    case Back(_, _) =>
    case Merge(kept, gone) => MergedIsDueEarlier(s, kept, gone);
    case Serve => DispatchTakesOne(s, cfg, now);
  }

  /** A queued request has the extent that the last arrival or merge of a bio gave it. */
  lemma {:induction false} ExtentIsLatest(states: seq<DD>, steps: seq<Step>, times: seq<int>, cfg: Config,
                                          j: nat, k: nat, x: int)
    requires IsRun(states, steps, times, cfg) && j < k <= |steps| && x in states[k].rq && Extends(steps[j], x)
    requires forall i :: j < i < k ==> !Extends(steps[i], x)
    ensures x in states[j + 1].rq && ExtentAfter(states[j], steps[j], states[j + 1], x)
    ensures states[k].rq[x].pos == states[j + 1].rq[x].pos && states[k].rq[x].sectors == states[j + 1].rq[x].sectors
    decreases k
  {
    assert Inv(states[k - 1]) by { RunInv(states, steps, times, cfg, k - 1); }
    assert Taken(states, steps, times, cfg, k - 1);
    ExtentStep(states[k - 1], steps[k - 1], cfg, times[k - 1], x);
    if j < k - 1 { ExtentIsLatest(states, steps, times, cfg, j, k - 1, x); }
  }

  /** last_sector is where the last request dispatched ended. */
  lemma {:induction false} LastSectorIsEnd(states: seq<DD>, steps: seq<Step>, times: seq<int>, cfg: Config,
                                           i: nat, k: nat, d: Dir)
    requires IsRun(states, steps, times, cfg) && i < k <= |steps| && LastDispatch(states, steps, times, cfg, i, k, d)
    ensures var id := Pick(states[i], cfg, times[i]);
      id in states[i].rq && states[k].lastSector == states[i].rq[id].pos + states[i].rq[id].sectors
    decreases k
  {
    assert Inv(states[k - 1]) by { RunInv(states, steps, times, cfg, k - 1); }
    assert Taken(states, steps, times, cfg, k - 1);
    if i == k - 1 {
      DispatchCovers(states[i], cfg, times[i], d, 0);
    } else {
      LastSectorIsEnd(states, steps, times, cfg, i, k - 1, d);
      SectorStep(states[k - 1], steps[k - 1], cfg, times[k - 1]);
    }
  }

  lemma SectorStep(s: DD, step: Step, cfg: Config, now: int)
    requires Inv(s) && Enabled(s, step) && (step.Serve? ==> Served(s, cfg, now).None?)
    ensures Next(s, step, cfg, now).lastSector == s.lastSector
  {
  }

  // ----- Deadlines --------------------------------------------------------

  /** The survivor of a merge is due when the earlier of the two was; no other request changes. */
  lemma MergedIsDueEarlier(s: DD, kept: int, gone: int)
    requires kept in s.rq && gone in s.rq && kept != gone
    ensures var t := MergeRequests(s, kept, gone);
      && t.rq.Keys == s.rq.Keys - {gone}
      && t.rq[kept] == s.rq[kept].(expire := t.rq[kept].expire)
      && t.rq[kept].expire <= s.rq[kept].expire && t.rq[kept].expire <= s.rq[gone].expire
      && (t.rq[kept].expire == s.rq[kept].expire || t.rq[kept].expire == s.rq[gone].expire)
      && forall x :: x in t.rq && x != kept ==> t.rq[x] == s.rq[x]
  {
  }

  /** Every deadline in a run is one direction's interval after an arrival in that direction. */
  lemma {:induction false} DeadlineOfArrival(states: seq<DD>, steps: seq<Step>, times: seq<int>, cfg: Config,
                                             k: nat, x: int) returns (j: nat)
    requires IsRun(states, steps, times, cfg) && states[0] == Empty && k <= |steps| && x in states[k].rq
    ensures j < k && steps[j].Add? && steps[j].rq.dir == states[k].rq[x].dir
    ensures states[k].rq[x].expire == times[j] + cfg.Expire(steps[j].rq.dir)
    decreases k
  {
    var y := DeadlineFrom(states[k - 1], steps[k - 1], states[k], cfg, times[k - 1], x) by {
      RunInv(states, steps, times, cfg, k - 1);
      assert Taken(states, steps, times, cfg, k - 1);
    }
    j := k - 1;
    if !(steps[k - 1].Add? && steps[k - 1].id == x) { j := DeadlineOfArrival(states, steps, times, cfg, k - 1, y); }
  }

  /** After a step a request is due when it was, or when the one merged into it was, or it has just arrived. */
  lemma DeadlineFrom(s: DD, step: Step, t: DD, cfg: Config, now: int, x: int) returns (y: int)
    requires Inv(s) && Enabled(s, step) && t == Next(s, step, cfg, now) && x in t.rq
    ensures if step.Add? && step.id == x then t.rq[x].dir == step.rq.dir && t.rq[x].expire == now + cfg.Expire(step.rq.dir)
            else y in s.rq && s.rq[y].dir == t.rq[x].dir && s.rq[y].expire == t.rq[x].expire
  {
    y := x;
    match step
    case Add(_, _) =>
    case Front(_, _, _) =>
    case Back(_, _) =>
    case Merge(kept, gone) =>
      MergedIsDueEarlier(s, kept, gone);
      if x == kept && s.rq[gone].expire < s.rq[kept].expire { y := gone; }
    case Serve => DispatchTakesOne(s, cfg, now);
  }
}
