/**
 * The deadline scheduler's count of dirty pages, packed into a field of the inode it shares
 * with whoever used the field before: the low byte is a random tag, the rest the count.
 */
module DirtyPages {
  import opened Lists

  const FSYNC_WB_PAGES := 100
  const DIRTY_PAGE_THRES := 100

  /** The tag is a plain char: it is drawn from all 256 values, half of them negative. */
  type Tag = t: int | -128 <= t < 128 witness 0

  function Count(v: int): int { v / 256 }

  /** A field without our low byte is somebody else's: start over. */
  function Checked(tag: Tag, v: int): int {
    if v % 256 == tag % 256 then v else tag
  }

  /** Add to the count, unless that would take it below zero. */
  function Inc(tag: Tag, v: int, num: int): int {
    var w := Checked(tag, v);
    if num < 0 && Count(w) + num < 0 then w else w + num * 256
  }

  lemma IncCount(tag: Tag, v: int, num: int)
    ensures var w := Checked(tag, v);
      Count(Inc(tag, v, num)) == (if num < 0 && Count(w) + num < 0 then Count(w) else Count(w) + num)
    ensures Inc(tag, v, num) % 256 == tag % 256
  {
  }

  // ----- Runs -------------------------------------------------------------

  /** Each cause list that is dirty remembers its inode; each inode has its packed field. */
  datatype State = State(lists: seq<Option<int>>, field: map<int, int>)

  datatype Step =
    | NewList
    | Dirty(l: nat, inode: int)     // deadline_causes_dirty
    | Clean(l: nat)                 // dispatched, or freed without having been
    | Force(inode: int)             // the fsync loop gives up on pages that will not go away

  const Init := State([], map[])

  function Field(s: State, inode: int): int { if inode in s.field then s.field[inode] else 0 }

  predicate Enabled(s: State, step: Step) {
    match step
    case NewList => true
    case Dirty(l, _) => l < |s.lists|
    case Clean(l) => l < |s.lists|
    case Force(inode) => Count(Field(s, inode)) >= DIRTY_PAGE_THRES
  }

  /** A step that cannot be taken is not taken. */
  function Next(tag: Tag, s: State, step: Step): State {
    if !Enabled(s, step) then s
    else
      match step
      case NewList => s.(lists := s.lists + [None])
      case Dirty(l, inode) =>
        if s.lists[l].Some? then s
        else State(s.lists[l := Some(inode)], s.field[inode := Inc(tag, Field(s, inode), 1)])
      case Clean(l) =>
        if s.lists[l].None? then s
        else
          var inode := s.lists[l].value;
          State(s.lists[l := None], s.field[inode := Inc(tag, Field(s, inode), -1)])
      case Force(inode) => s.(field := s.field[inode := Inc(tag, Field(s, inode), -FSYNC_WB_PAGES)])
  }

  function Run(tag: Tag, steps: seq<Step>): State {
    if steps == [] then Init else Next(tag, Run(tag, steps[..|steps| - 1]), steps[|steps| - 1])
  }

  /** How many lists hold dirty pages of the inode. */
  function Live(lists: seq<Option<int>>, inode: int): nat {
    if lists == [] then 0
    else Live(lists[..|lists| - 1], inode) + (if lists[|lists| - 1] == Some(inode) then 1 else 0)
  }

  lemma {:induction false} LiveUpdate(lists: seq<Option<int>>, l: nat, x: Option<int>, inode: int)
    requires l < |lists|
    ensures Live(lists[l := x], inode)
         == Live(lists, inode) - (if lists[l] == Some(inode) then 1 else 0) + (if x == Some(inode) then 1 else 0)
  {
    var n := |lists| - 1;
    if l == n {
      assert lists[l := x][..n] == lists[..n];
    } else {
      LiveUpdate(lists[..n], l, x, inode);
      assert lists[l := x][..n] == lists[..n][l := x];
    }
  }

  lemma LiveSnoc(lists: seq<Option<int>>, inode: int)
    ensures Live(lists + [None], inode) == Live(lists, inode)
  {
    assert (lists + [None])[..|lists|] == lists;
  }

  /** An inode nobody has touched, or one whose field carries our tag. */
  ghost predicate Ours(tag: Tag, v: int, live: nat) {
    (v == 0 && live == 0) || v % 256 == tag % 256
  }

  /**
   * The count is never more than the number of lists, never less than -1, and never short by more
   * than one, the one a negative tag borrows, except for what fsync has written off.
   */
  ghost predicate Sound(tag: Tag, v: int, live: nat, forced: bool) {
    && Ours(tag, v, live)
    && (if tag >= 0 then 0 <= Count(v) <= live else -1 <= Count(v) <= live)
    && (!forced ==> if tag >= 0 then Count(v) == live else live - 1 <= Count(v))
  }

  lemma IncSound(tag: Tag, v: int, live: nat, forced: bool)
    requires Sound(tag, v, live, forced)
    ensures Sound(tag, Inc(tag, v, 1), live + 1, forced)
  {
    IncCount(tag, v, 1);
  }

  lemma DecSound(tag: Tag, v: int, live: nat, forced: bool)
    requires Sound(tag, v, live, forced) && live > 0
    ensures Sound(tag, Inc(tag, v, -1), live - 1, forced)
  {
    IncCount(tag, v, -1);
  }

  lemma ForceSound(tag: Tag, v: int, live: nat, forced: bool)
    requires Sound(tag, v, live, forced) && Count(v) >= DIRTY_PAGE_THRES
    ensures Sound(tag, Inc(tag, v, -FSYNC_WB_PAGES), live, true)
  {
    IncCount(tag, v, -FSYNC_WB_PAGES);
  }

  ghost predicate AllSound(tag: Tag, s: State, forced: bool) {
    forall inode :: Sound(tag, Field(s, inode), Live(s.lists, inode), forced)
  }

  lemma {:induction false} LivePositive(lists: seq<Option<int>>, l: nat, inode: int)
    requires l < |lists| && lists[l] == Some(inode)
    ensures Live(lists, inode) > 0
  {
    if l < |lists| - 1 { LivePositive(lists[..|lists| - 1], l, inode); }
  }

  lemma DirtySound(tag: Tag, s: State, l: nat, i: int, forced: bool, inode: int)
    requires AllSound(tag, s, forced) && l < |s.lists|
    ensures var t := Next(tag, s, Dirty(l, i)); Sound(tag, Field(t, inode), Live(t.lists, inode), forced)
  {
    assert Sound(tag, Field(s, inode), Live(s.lists, inode), forced);
    if s.lists[l].None? {
      LiveUpdate(s.lists, l, Some(i), inode);
      if i == inode { IncSound(tag, Field(s, inode), Live(s.lists, inode), forced); }
    }
  }

  lemma CleanSound(tag: Tag, s: State, l: nat, forced: bool, inode: int)
    requires AllSound(tag, s, forced) && l < |s.lists|
    ensures var t := Next(tag, s, Clean(l)); Sound(tag, Field(t, inode), Live(t.lists, inode), forced)
  {
    assert Sound(tag, Field(s, inode), Live(s.lists, inode), forced);
    if s.lists[l].Some? {
      LiveUpdate(s.lists, l, None, inode);
      if s.lists[l].value == inode {
        LivePositive(s.lists, l, inode);
        DecSound(tag, Field(s, inode), Live(s.lists, inode), forced);
      }
    }
  }

  lemma NextSound(tag: Tag, s: State, step: Step, forced: bool)
    requires AllSound(tag, s, forced)
    ensures AllSound(tag, Next(tag, s, step), forced || step.Force?)
  {
    var t := Next(tag, s, step);
    forall inode ensures Sound(tag, Field(t, inode), Live(t.lists, inode), forced || step.Force?) {
      assert Sound(tag, Field(s, inode), Live(s.lists, inode), forced);
      if Enabled(s, step) {
        match step
        case NewList => LiveSnoc(s.lists, inode);
        case Dirty(l, i) => DirtySound(tag, s, l, i, forced, inode);
        case Clean(l) => CleanSound(tag, s, l, forced, inode);
        case Force(i) =>
          if i == inode { ForceSound(tag, Field(s, inode), Live(s.lists, inode), forced); }
      }
    }
  }

  ghost predicate Forced(steps: seq<Step>) {
    exists i :: 0 <= i < |steps| && steps[i].Force?
  }

  /** In every run, for every tag, the packed count is sound for every inode. */
  lemma {:induction false} RunSound(tag: Tag, steps: seq<Step>)
    ensures AllSound(tag, Run(tag, steps), Forced(steps))
  {
    if steps != [] {
      var front, last := steps[..|steps| - 1], steps[|steps| - 1];
      RunSound(tag, front);
      NextSound(tag, Run(tag, front), last, Forced(front));
      assert steps == front + [last];
      assert Forced(steps) <==> Forced(front) || last.Force? by {
        if Forced(front) {
          var i :| 0 <= i < |front| && front[i].Force?;
          assert steps[i].Force?;
        }
        if Forced(steps) && !last.Force? {
          var i :| 0 <= i < |steps| && steps[i].Force?;
          assert front[i].Force?;
        }
      }
    } else {
      forall inode ensures Sound(tag, Field(Init, inode), Live(Init.lists, inode), false) { }
    }
  }

  /** In every run, giving up writes off a hundred pages of the inode exactly, and nothing of another. */
  lemma ForceWritesOff(tag: Tag, steps: seq<Step>, inode: int, other: int)
    requires Count(Field(Run(tag, steps), inode)) >= 100 && other != inode
    ensures var s, t := Run(tag, steps), Next(tag, Run(tag, steps), Force(inode));
      Count(Field(t, inode)) == Count(Field(s, inode)) - 100 && Field(t, other) == Field(s, other) && t.lists == s.lists
  {
    RunSound(tag, steps);
    var s := Run(tag, steps);
    assert Sound(tag, Field(s, inode), Live(s.lists, inode), Forced(steps));
    IncCount(tag, Field(s, inode), -FSYNC_WB_PAGES);
  }

  /** The packed count is the number of dirty lists in every run without forced write-offs. */
  ghost predicate AlwaysExact(tag: Tag) {
    forall steps: seq<Step>, inode: int :: !Forced(steps) ==>
      Count(Field(Run(tag, steps), inode)) == Live(Run(tag, steps).lists, inode)
  }

  /** Exactness depends on the draw: it holds in every run exactly for tags that are not negative. */
  lemma ExactIffTagNonNegative(tag: Tag)
    ensures AlwaysExact(tag) <==> 0 <= tag
  {
    if 0 <= tag {
      forall steps: seq<Step>, inode: int | !Forced(steps)
        ensures Count(Field(Run(tag, steps), inode)) == Live(Run(tag, steps).lists, inode)
      {
        RunSound(tag, steps);
        assert Sound(tag, Field(Run(tag, steps), inode), Live(Run(tag, steps).lists, inode), Forced(steps));
      }
    } else {
      FirstPageIsMissed(tag);
    }
  }

  /** With a negative tag the first page an inode dirties is not counted. */
  lemma FirstPageIsMissed(tag: Tag)
    requires tag < 0
    ensures var s := Run(tag, [NewList, Dirty(0, 7)]);
      !Forced([NewList, Dirty(0, 7)]) && Count(Field(s, 7)) == 0 && Live(s.lists, 7) == 1
  {
    var steps := [NewList, Dirty(0, 7)];
    assert steps[..1] == [NewList] && [NewList][..0] == [];
    assert Run(tag, [NewList]) == State([None], map[]);
    var s := Run(tag, steps);
    assert s == Next(tag, State([None], map[]), Dirty(0, 7));
    assert s.lists == [Some(7)];
    assert [Some(7)][..0] == [];
    IncCount(tag, 0, 1);
  }

  // ----- The fsync loop ---------------------------------------------------

  lemma DecLowers(tag: Tag, v: int, n: int)
    requires Count(v) >= 0 && n > 0
    ensures Count(Inc(tag, v, -n)) <= Count(v)
    ensures Count(v) >= n ==> Count(Inc(tag, v, -n)) < Count(v)
  {
    IncCount(tag, v, -n);
  }

  class Inode {
    var field: int

    constructor (v: int)
      ensures field == v
    {
      field := v;
    }

    method CheckDirtyNumber(tag: Tag)
      modifies this
      ensures field == Checked(tag, old(field))
    {
      if field % 256 == tag % 256 { return; }
      field := tag;
    }

    method IncDirtyPages(tag: Tag, num: int)
      modifies this
      ensures field == Inc(tag, old(field), num)
    {
      CheckDirtyNumber(tag);
      if num < 0 && Count(field) + num < 0 { return; }
      field := field + num * 256;
    }

    /** Writeback completes some pages while the caller sleeps. */
    method Writeback(tag: Tag, pages: nat)
      modifies this
      ensures Count(old(field)) >= 0 ==> Count(field) <= Count(old(field))
    {
      var i := 0;
      while i < pages
        invariant Count(old(field)) >= 0 ==> Count(field) <= Count(old(field))
      {
        if Count(field) >= 0 { DecLowers(tag, field, 1); } else { IncCount(tag, field, -1); }
        IncDirtyPages(tag, -1);
        i := i + 1;
      }
    }

    /**
     * Wait until few pages are dirty, whatever was in the field before and however little
     * writeback gets done: a count that does not move is lowered by force, so it always falls.
     */
    method DrainForFsync(tag: Tag, writtenBack: seq<nat>)
      modifies this
      ensures Count(field) < DIRTY_PAGE_THRES
      ensures Count(old(field)) < DIRTY_PAGE_THRES ==> field == old(field)
      ensures Count(field) <= Count(old(field))
    {
      var dirty, k := Count(field), 0;
      while dirty >= DIRTY_PAGE_THRES
        invariant dirty == Count(field) && 0 <= k
        invariant dirty <= Count(old(field))
        invariant Count(old(field)) < DIRTY_PAGE_THRES ==> field == old(field)
        decreases dirty
      {
        Writeback(tag, if k < |writtenBack| then writtenBack[k] else 0);
        if dirty == Count(field) {
          DecLowers(tag, field, FSYNC_WB_PAGES);
          IncDirtyPages(tag, -FSYNC_WB_PAGES);
        }
        dirty := Count(field);
        k := k + 1;
      }
    }
  }
}
