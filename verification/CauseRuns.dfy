/**
 * Runs of the cause-list machinery: any interleaving of writes, hand-overs to bios, dispatches,
 * frees and scheduler switches. Counts equal holders, every list is freed once, the free hook
 * runs at most once per list and never for a dispatched one, and a bio knows exactly the accounts
 * and the bytes of its lists.
 */
module CauseRuns {
  import opened Seqs
  import opened Lists
  import opened CauseTags

  // ----- A list belongs to one buffer or to bios --------------------------

  ghost predicate InBh(bhs: seq<Option<int>>, l: int) {
    exists i :: 0 <= i < |bhs| && bhs[i] == Some(l)
  }

  ghost predicate InBio(bios: seq<Option<CLL>>, l: int) {
    exists i :: 0 <= i < |bios| && bios[i].Some? && l in bios[i].value.items
  }

  ghost predicate Apart(s: State) {
    && (forall i, j :: 0 <= i < j < |s.bhs| && s.bhs[i].Some? ==> s.bhs[i] != s.bhs[j])
    && (forall i :: 0 <= i < |s.bhs| && s.bhs[i].Some? ==> !InBio(s.bios, s.bhs[i].value))
  }

  /** What a buffer or a bio holds is there. */
  lemma BhIsLive(s: State, bh: nat)
    requires Owned(s) && bh < |s.bhs| && s.bhs[bh].Some?
    ensures s.bhs[bh].value in s.h.lists && 0 <= s.bhs[bh].value < s.h.nextId
  {
    var l := s.bhs[bh].value;
    HeldByBh(s, bh, None);
    assert l in HeldElsewhere(s, bh) + multiset{l};
  }

  lemma BioIsLive(s: State, bio: nat, l: int)
    requires Owned(s) && bio < |s.bios| && s.bios[bio].Some? && l in s.bios[bio].value.items
    ensures l in s.h.lists && 0 <= l < s.h.nextId
  {
    var items := s.bios[bio].value.items;
    BioRefsSplit(s.bios, bio, s.bios[bio]);
    assert s.bios[bio := s.bios[bio]] == s.bios;
    assert l in multiset(items);
    AddInner(BhRefs(s.bhs), BioRefs(s.bios[bio := None]), s.ext, multiset(items));
    assert l in Held(s);
  }

  lemma FreshIsUnheld(s: State)
    requires Owned(s)
    ensures !InBh(s.bhs, s.h.nextId) && !InBio(s.bios, s.h.nextId)
  {
    if InBh(s.bhs, s.h.nextId) {
      var i :| 0 <= i < |s.bhs| && s.bhs[i] == Some(s.h.nextId);
      BhIsLive(s, i);
    }
    if InBio(s.bios, s.h.nextId) {
      var i :| 0 <= i < |s.bios| && s.bios[i].Some? && s.h.nextId in s.bios[i].value.items;
      BioIsLive(s, i, s.h.nextId);
    }
  }

  /** Adding list m to a bio puts m, and nothing else, among the bios. */
  lemma CllWithHolds(bios: seq<Option<CLL>>, bio: nat, capacity: nat, m: int, cl: CL, l: int)
    requires bio < |bios| && InBio(bios[bio := Some(CllWith(CllOr(bios[bio], capacity), m, cl))], l)
    ensures l == m || InBio(bios, l)
  {
    var bios' := bios[bio := Some(CllWith(CllOr(bios[bio], capacity), m, cl))];
    var i :| 0 <= i < |bios'| && bios'[i].Some? && l in bios'[i].value.items;
    if i == bio && l != m {
      assert l in CllOr(bios[bio], capacity).items;
    }
  }

  lemma DirtyApart(s: State, bh: nat, accounts: seq<int>, bsize: int, queue: bool)
    requires Owned(s) && Apart(s) && Enabled(s, Dirty(bh, accounts, bsize, queue))
    ensures Apart(DirtyBh(s, bh, accounts, bsize, queue))
  {
    FreshIsUnheld(s);
  }

  lemma MoveApart(s: State, bh: nat, bio: nat, bsize: int, capacity: nat)
    requires Apart(s) && Enabled(s, Move(bh, bio, bsize, capacity))
    ensures Apart(MoveToBio(s, bh, bio, bsize, capacity))
  {
    if s.bhs[bh].Some? {
      var m, t := s.bhs[bh].value, MoveToBio(s, bh, bio, bsize, capacity);
      var cl := s.h.lists[m].(size := bsize);
      forall i | 0 <= i < |t.bhs| && t.bhs[i].Some? ensures !InBio(t.bios, t.bhs[i].value) {
        assert t.bhs[i] == s.bhs[i];
        var l := t.bhs[i].value;
        if InBio(t.bios, l) { CllWithHolds(s.bios, bio, capacity, m, cl, l); }
      }
    }
  }

  lemma ZeroApart(s: State, bio: nat, size: int, capacity: nat)
    requires Owned(s) && Apart(s) && bio < |s.bios|
    ensures Apart(AddZero(s, bio, size, capacity))
  {
    FreshIsUnheld(s);
    var m, t := s.h.nextId, AddZero(s, bio, size, capacity);
    var cl := NewList(s.h, size).lists[m];
    forall i | 0 <= i < |t.bhs| && t.bhs[i].Some? ensures !InBio(t.bios, t.bhs[i].value) {
      var l := t.bhs[i].value;
      if InBio(t.bios, l) { CllWithHolds(s.bios, bio, capacity, m, cl, l); }
    }
  }

  /** Every buffer and bio of t holds what it held in s, or nothing. */
  ghost predicate HoldsLess(s: State, t: State) {
    && (forall i :: 0 <= i < |t.bhs| ==> t.bhs[i] == None || (i < |s.bhs| && t.bhs[i] == s.bhs[i]))
    && (forall i :: 0 <= i < |t.bios| ==> t.bios[i] == None || (i < |s.bios| && t.bios[i] == s.bios[i]))
  }

  lemma OthersHoldLess(s: State, step: Step)
    requires Enabled(s, step) && !Attaches(step)
    ensures HoldsLess(s, Next(s, step))
  {
  }

  lemma HoldsLessApart(s: State, t: State)
    requires Apart(s) && HoldsLess(s, t)
    ensures Apart(t)
  {
  }

  lemma NextApart(s: State, step: Step)
    requires Owned(s) && Apart(s) && Enabled(s, step)
    ensures Apart(Next(s, step))
  {
    if Attaches(step) {
      match step
      case Dirty(bh, accounts, bsize, queue) => DirtyApart(s, bh, accounts, bsize, queue);
      case Move(bh, bio, bsize, capacity) => MoveApart(s, bh, bio, bsize, capacity);
      case Zero(bio, size, capacity) => ZeroApart(s, bio, size, capacity);
    } else {
      var t := Next(s, step);
      OthersHoldLess(s, step);
      HoldsLessApart(s, t);
    }
  }

  // ----- Dispatched lists stay settled ------------------------------------

  /** A list that is with no buffer, will not be refunded and has not been. */
  ghost predicate SettledOne(h: Heap, bhs: seq<Option<int>>, l: int) {
    && 0 <= l < h.nextId && !InBh(bhs, l)
    && (l in h.lists ==> !h.lists[l].callback)
    && (forall i :: 0 <= i < |h.hooks| ==> h.hooks[i].l != l)
  }

  ghost predicate Settled(s: State) {
    forall l :: l in s.dispatched ==> SettledOne(s.h, s.bhs, l)
  }

  lemma PutSettled(h: Heap, bhs: seq<Option<int>>, x: int, l: int)
    requires SettledOne(h, bhs, l)
    ensures SettledOne(PutRef(h, x), bhs, l)
  {
  }

  lemma {:induction false} PutAllSettled(h: Heap, bhs: seq<Option<int>>, ls: seq<int>, l: int)
    requires SettledOne(h, bhs, l)
    ensures SettledOne(PutAll(h, ls), bhs, l)
  {
    if ls != [] {
      PutAllSettled(h, bhs, ls[..|ls| - 1], l);
      PutSettled(PutAll(h, ls[..|ls| - 1]), bhs, ls[|ls| - 1], l);
    }
  }

  lemma DirtySettled(s: State, bh: nat, accounts: seq<int>, bsize: int, queue: bool, l: int)
    requires SettledOne(s.h, s.bhs, l) && Enabled(s, Dirty(bh, accounts, bsize, queue))
    ensures var t := DirtyBh(s, bh, accounts, bsize, queue); SettledOne(t.h, t.bhs, l)
  {
    assert s.bhs[bh] != Some(l);
  }

  lemma LessSettled(h: Heap, bhs: seq<Option<int>>, bh: nat, l: int)
    requires SettledOne(h, bhs, l) && bh < |bhs|
    ensures SettledOne(h, bhs[bh := None], l)
  {
  }

  lemma MoveSettled(s: State, bh: nat, bio: nat, bsize: int, capacity: nat, l: int)
    requires SettledOne(s.h, s.bhs, l) && Enabled(s, Move(bh, bio, bsize, capacity))
    ensures var t := MoveToBio(s, bh, bio, bsize, capacity); SettledOne(t.h, t.bhs, l)
  {
    if s.bhs[bh].Some? {
      var m := s.bhs[bh].value;
      var h1 := s.h.(lists := s.h.lists[m := s.h.lists[m].(size := bsize)]);
      var h2 := CllAdd(h1, CllOr(s.bios[bio], capacity), m);
      LessSettled(s.h, s.bhs, bh, l);
      PutSettled(h2, s.bhs[bh := None], m, l);
    }
  }

  lemma ZeroSettled(s: State, bio: nat, size: int, capacity: nat, l: int)
    requires SettledOne(s.h, s.bhs, l) && bio < |s.bios|
    ensures var t := AddZero(s, bio, size, capacity); SettledOne(t.h, t.bhs, l)
  {
    var h2 := CllAdd(NewList(s.h, size), CllOr(s.bios[bio], capacity), s.h.nextId);
    PutSettled(h2, s.bhs, s.h.nextId, l);
  }

  lemma DropSettled(s: State, step: Step, l: int)
    requires SettledOne(s.h, s.bhs, l) && Enabled(s, step) && (step.Delete? || step.Free? || step.Put?)
    ensures var t := Next(s, step); SettledOne(t.h, t.bhs, l)
  {
    match step
    case Delete(bio) => if s.bios[bio].Some? { PutAllSettled(s.h, s.bhs, s.bios[bio].value.items, l); }
    case Free(bh) =>
      if s.bhs[bh].Some? {
        LessSettled(s.h, s.bhs, bh, l);
        PutSettled(s.h, s.bhs[bh := None], s.bhs[bh].value, l);
      }
    case Put(x) => PutSettled(s.h, s.bhs, x, l);
  }

  lemma OtherSettled(s: State, step: Step, l: int)
    requires SettledOne(s.h, s.bhs, l) && Enabled(s, step)
    requires !Attaches(step) && !step.Delete? && !step.Free? && !step.Put?
    ensures var t := Next(s, step); SettledOne(t.h, t.bhs, l)
  {
  }

  lemma StaysSettled(s: State, step: Step, l: int)
    requires SettledOne(s.h, s.bhs, l) && Enabled(s, step)
    ensures var t := Next(s, step); SettledOne(t.h, t.bhs, l)
  {
    if Attaches(step) {
      match step
      case Dirty(bh, accounts, bsize, queue) => DirtySettled(s, bh, accounts, bsize, queue, l);
      case Move(bh, bio, bsize, capacity) => MoveSettled(s, bh, bio, bsize, capacity, l);
      case Zero(bio, size, capacity) => ZeroSettled(s, bio, size, capacity, l);
    } else if step.Delete? || step.Free? || step.Put? {
      DropSettled(s, step, l);
    } else {
      OtherSettled(s, step, l);
    }
  }

  lemma DispatchSettles(s: State, bio: nat, i: nat)
    requires Owned(s) && Apart(s) && Enabled(s, Dispatch(bio, i))
    ensures var t := DispatchList(s, bio, i); SettledOne(t.h, t.bhs, s.bios[bio].value.items[i])
  {
    var l := s.bios[bio].value.items[i];
    BioIsLive(s, bio, l);
    assert InBio(s.bios, l);
    assert l !in s.h.freed;
  }

  lemma DispatchedBy(s: State, step: Step, l: int)
    requires Enabled(s, step) && l in Next(s, step).dispatched && l !in s.dispatched
    ensures step.Dispatch? && l == s.bios[step.bio].value.items[step.i]
  {
  }

  lemma NextSettled(s: State, step: Step)
    requires Owned(s) && Apart(s) && Settled(s) && Enabled(s, step)
    ensures Settled(Next(s, step))
  {
    var t := Next(s, step);
    forall l | l in t.dispatched ensures SettledOne(t.h, t.bhs, l) {
      if l in s.dispatched {
        StaysSettled(s, step, l);
      } else {
        DispatchedBy(s, step, l);
        DispatchSettles(s, step.bio, step.i);
      }
    }
  }

  // ----- A bio knows its lists --------------------------------------------

  ghost function Members(items: seq<int>): set<int> { set a | a in items }

  ghost function AccountsOf(h: Heap, ls: seq<int>): set<int> {
    if ls == [] then {}
    else
      var l := ls[|ls| - 1];
      AccountsOf(h, ls[..|ls| - 1]) + if l in h.lists then Members(h.lists[l].items) else {}
  }

  ghost function SizeOf(h: Heap, ls: seq<int>): int {
    if ls == [] then 0
    else
      var l := ls[|ls| - 1];
      SizeOf(h, ls[..|ls| - 1]) + if l in h.lists then h.lists[l].size else 0
  }

  /** uniq_causes is the union of the lists' accounts, without repetition; size is the sum of their sizes. */
  ghost predicate Knows(h: Heap, c: CLL) {
    && |c.items| <= c.capacity && NoDup(c.uniq)
    && Members(c.uniq) == AccountsOf(h, c.items) && c.size == SizeOf(h, c.items)
  }

  ghost predicate BiosKnow(s: State) {
    forall i :: 0 <= i < |s.bios| && s.bios[i].Some? ==> Knows(s.h, s.bios[i].value)
  }

  /** List l has the accounts and the size in k that it had in h. */
  ghost predicate Kept(h: Heap, k: Heap, l: int) {
    l in h.lists && l in k.lists && k.lists[l].items == h.lists[l].items && k.lists[l].size == h.lists[l].size
  }

  lemma {:induction false} SumsKept(h: Heap, k: Heap, ls: seq<int>)
    requires forall i :: 0 <= i < |ls| ==> Kept(h, k, ls[i])
    ensures AccountsOf(k, ls) == AccountsOf(h, ls) && SizeOf(k, ls) == SizeOf(h, ls)
  {
    if ls != [] {
      SumsKept(h, k, ls[..|ls| - 1]);
      assert Kept(h, k, ls[|ls| - 1]);
    }
  }

  /** cause_list_list_add keeps the books, also where it skips copying a repeated list. */
  lemma CllWithKnows(h: Heap, c: CLL, l: int, cl: CL)
    requires Knows(h, c)
    requires |c.items| == c.capacity || (l in h.lists && h.lists[l].items == cl.items && h.lists[l].size == cl.size)
    ensures Knows(h, CllWith(c, l, cl))
  {
    if |c.items| < c.capacity {
      var d := CllWith(c, l, cl);
      assert d.items[..|d.items| - 1] == c.items && d.items[|d.items| - 1] == l;
      assert AccountsOf(h, d.items) == AccountsOf(h, c.items) + Members(cl.items);
      CopyIsUnion(cl.items, c.uniq);
      assert Members(CopyAccounts(cl.items, c.uniq)) == Members(c.uniq) + Members(cl.items);
      if c.items != [] && c.items[|c.items| - 1] == l {
        assert Members(cl.items) <= AccountsOf(h, c.items);
      }
    }
  }

  /** From h to k, list l kept its contents unless it went away. */
  ghost predicate Same(h: Heap, k: Heap, l: int) { l in h.lists && l in k.lists ==> Kept(h, k, l) }

  lemma PutSame(h: Heap, x: int, l: int)
    ensures Same(h, PutRef(h, x), l) && (l in PutRef(h, x).lists ==> l in h.lists)
  {
  }

  lemma {:induction false} PutAllSame(h: Heap, ls: seq<int>, l: int)
    ensures Same(h, PutAll(h, ls), l) && (l in PutAll(h, ls).lists ==> l in h.lists)
  {
    if ls != [] {
      PutAllSame(h, ls[..|ls| - 1], l);
      PutSame(PutAll(h, ls[..|ls| - 1]), ls[|ls| - 1], l);
    }
  }

  lemma MoveSame(s: State, bh: nat, bio: nat, bsize: int, capacity: nat, l: int)
    requires Enabled(s, Move(bh, bio, bsize, capacity)) && !InBh(s.bhs, l)
    ensures Same(s.h, MoveToBio(s, bh, bio, bsize, capacity).h, l)
  {
    if s.bhs[bh].Some? {
      var m := s.bhs[bh].value;
      var h1 := s.h.(lists := s.h.lists[m := s.h.lists[m].(size := bsize)]);
      PutSame(CllAdd(h1, CllOr(s.bios[bio], capacity), m), m, l);
    }
  }

  lemma ZeroSame(s: State, bio: nat, size: int, capacity: nat, l: int)
    requires bio < |s.bios| && l < s.h.nextId
    ensures Same(s.h, AddZero(s, bio, size, capacity).h, l)
  {
    PutSame(CllAdd(NewList(s.h, size), CllOr(s.bios[bio], capacity), s.h.nextId), s.h.nextId, l);
  }

  lemma DirtySame(s: State, bh: nat, accounts: seq<int>, bsize: int, queue: bool, l: int)
    requires Enabled(s, Dirty(bh, accounts, bsize, queue)) && !InBh(s.bhs, l) && l < s.h.nextId
    ensures Same(s.h, DirtyBh(s, bh, accounts, bsize, queue).h, l)
  {
    assert s.bhs[bh] != Some(l);
  }

  lemma DropSame(s: State, step: Step, l: int)
    requires Enabled(s, step) && !Attaches(step)
    ensures Same(s.h, Next(s, step).h, l)
  {
    match step
    case Delete(bio) => if s.bios[bio].Some? { PutAllSame(s.h, s.bios[bio].value.items, l); }
    case Free(bh) => if s.bhs[bh].Some? { PutSame(s.h, s.bhs[bh].value, l); }
    case Put(x) => PutSame(s.h, x, l);
    case _ =>
  }

  /** Only the list of a buffer is ever edited. */
  lemma NextSame(s: State, step: Step, l: int)
    requires Enabled(s, step) && !InBh(s.bhs, l) && l < s.h.nextId
    ensures Same(s.h, Next(s, step).h, l)
  {
    if Attaches(step) {
      match step
      case Dirty(bh, accounts, bsize, queue) => DirtySame(s, bh, accounts, bsize, queue, l);
      case Move(bh, bio, bsize, capacity) => MoveSame(s, bh, bio, bsize, capacity, l);
      case Zero(bio, size, capacity) => ZeroSame(s, bio, size, capacity, l);
    } else {
      DropSame(s, step, l);
    }
  }

  /** A bio of s whose lists are all still there in the next state still knows them. */
  lemma StillKnows(s: State, step: Step, bio: nat)
    requires Owned(s) && Apart(s) && Enabled(s, step) && bio < |s.bios| && s.bios[bio].Some?
    requires Knows(s.h, s.bios[bio].value)
    requires forall l :: l in s.bios[bio].value.items ==> l in Next(s, step).h.lists
    ensures Knows(Next(s, step).h, s.bios[bio].value)
  {
    var ls := s.bios[bio].value.items;
    forall i | 0 <= i < |ls| ensures Kept(s.h, Next(s, step).h, ls[i]) {
      BioIsLive(s, bio, ls[i]);
      assert InBio(s.bios, ls[i]);
      NextSame(s, step, ls[i]);
    }
    SumsKept(s.h, Next(s, step).h, ls);
  }

  /** The bio that a Move or Zero adds to, with what it adds. */
  lemma AddedTo(s: State, step: Step, bio: nat)
    requires Enabled(s, step) && bio < |Next(s, step).bios| && Next(s, step).bios[bio].Some?
    requires bio < |s.bios| ==> Next(s, step).bios[bio] != s.bios[bio]
    ensures bio < |s.bios| && (step.Move? || step.Zero?) && step.bio == bio
    ensures step.Move? ==> s.bhs[step.bh].Some?
  {
  }

  /** The state just after list m was sized, added to bio c and let go of by its buffer. */
  lemma MovedList(h: Heap, c: CLL, m: int, bsize: int)
    requires m in h.lists
    ensures var cl := h.lists[m].(size := bsize);
      var k := PutRef(CllAdd(h.(lists := h.lists[m := cl]), c, m), m);
      m in k.lists ==> k.lists[m].items == cl.items && k.lists[m].size == bsize
  {
  }

  /** The lists of a bio in a sound state are there. */
  lemma ItemsAreLive(s: State, bio: nat, c: CLL)
    requires Owned(s) && bio < |s.bios| && s.bios[bio] == Some(c)
    ensures forall l :: l in c.items ==> l in s.h.lists
  {
    forall l | l in c.items ensures l in s.h.lists { BioIsLive(s, bio, l); }
  }

  /** What a bio had before the step, or a new one, is still known after it. */
  lemma OldBioKnows(s: State, step: Step, bio: nat, capacity: nat)
    requires Owned(s) && Apart(s) && BiosKnow(s) && Enabled(s, step) && bio < |s.bios|
    requires forall l :: l in CllOr(s.bios[bio], capacity).items ==> l in Next(s, step).h.lists
    ensures Knows(Next(s, step).h, CllOr(s.bios[bio], capacity))
  {
    if s.bios[bio].Some? { StillKnows(s, step, bio); }
  }

  lemma MoveKnows(s: State, bh: nat, bio: nat, bsize: int, capacity: nat)
    requires Owned(s) && Apart(s) && BiosKnow(s) && Enabled(s, Move(bh, bio, bsize, capacity)) && s.bhs[bh].Some?
    requires Owned(MoveToBio(s, bh, bio, bsize, capacity))
    ensures var t := MoveToBio(s, bh, bio, bsize, capacity); Knows(t.h, t.bios[bio].value)
  {
    var t := MoveToBio(s, bh, bio, bsize, capacity);
    var m, c := s.bhs[bh].value, CllOr(s.bios[bio], capacity);
    var d := CllWith(c, m, s.h.lists[m].(size := bsize));
    assert t.bios[bio] == Some(d);
    ItemsAreLive(t, bio, d);
    assert forall l :: l in c.items ==> l in d.items;
    OldBioKnows(s, Move(bh, bio, bsize, capacity), bio, capacity);
    MovedList(s.h, c, m, bsize);
    assert |c.items| != c.capacity ==> d.items[|c.items|] == m;
    CllWithKnows(t.h, c, m, s.h.lists[m].(size := bsize));
  }

  lemma ZeroKnows(s: State, bio: nat, size: int, capacity: nat)
    requires Owned(s) && Apart(s) && BiosKnow(s) && bio < |s.bios| && Owned(AddZero(s, bio, size, capacity))
    ensures var t := AddZero(s, bio, size, capacity); Knows(t.h, t.bios[bio].value)
  {
    var t := AddZero(s, bio, size, capacity);
    var m, c, h1 := s.h.nextId, CllOr(s.bios[bio], capacity), NewList(s.h, size);
    var d := CllWith(c, m, h1.lists[m]);
    assert t.bios[bio] == Some(d);
    ItemsAreLive(t, bio, d);
    assert forall l :: l in c.items ==> l in d.items;
    OldBioKnows(s, Zero(bio, size, capacity), bio, capacity);
    PutSame(CllAdd(h1, c, m), m, m);
    assert |c.items| != c.capacity ==> d.items[|c.items|] == m;
    CllWithKnows(t.h, c, m, h1.lists[m]);
  }

  lemma NextBiosKnow(s: State, step: Step)
    requires Owned(s) && Apart(s) && BiosKnow(s) && Enabled(s, step)
    ensures BiosKnow(Next(s, step))
  {
    var t := Next(s, step);
    NextOwned(s, step);
    forall i | 0 <= i < |t.bios| && t.bios[i].Some? ensures Knows(t.h, t.bios[i].value) {
      if i < |s.bios| && t.bios[i] == s.bios[i] {
        forall l | l in s.bios[i].value.items ensures l in t.h.lists { BioIsLive(t, i, l); }
        StillKnows(s, step, i);
      } else {
        AddedTo(s, step, i);
        if step.Move? {
          MoveKnows(s, step.bh, i, step.bsize, step.capacity);
        } else {
          ZeroKnows(s, i, step.size, step.capacity);
        }
      }
    }
  }

  // ----- Nothing is undone ------------------------------------------------

  ghost predicate Grows(h: Heap, k: Heap) {
    h.freed <= k.freed && h.hooks <= k.hooks && h.nextId <= k.nextId && h.epoch <= k.epoch
  }

  lemma {:induction false} PutAllGrows(h: Heap, ls: seq<int>)
    ensures Grows(h, PutAll(h, ls))
  {
    if ls != [] {
      PutAllGrows(h, ls[..|ls| - 1]);
    }
  }

  lemma AttachGrows(s: State, step: Step)
    requires Enabled(s, step) && Attaches(step)
    ensures Grows(s.h, Next(s, step).h) && s.dispatched <= Next(s, step).dispatched
  {
  }

  lemma NextGrows(s: State, step: Step)
    requires Enabled(s, step)
    ensures Grows(s.h, Next(s, step).h) && s.dispatched <= Next(s, step).dispatched
  {
    if Attaches(step) {
      AttachGrows(s, step);
    } else if step.Delete? && s.bios[step.bio].Some? {
      PutAllGrows(s.h, s.bios[step.bio].value.items);
    }
  }

  // ----- Whole runs -------------------------------------------------------

  ghost predicate StepTaken(states: seq<State>, steps: seq<Step>, i: nat)
    requires |states| == |steps| + 1 && i < |steps|
  {
    Enabled(states[i], steps[i]) && states[i + 1] == Next(states[i], steps[i])
  }

  ghost predicate IsRun(states: seq<State>, steps: seq<Step>) {
    && |states| == |steps| + 1 && states[0] == Start
    && forall i :: 0 <= i < |steps| ==> StepTaken(states, steps, i)
  }

  ghost predicate Sound(s: State) { Owned(s) && Apart(s) && Settled(s) && BiosKnow(s) }

  lemma StartIsSound()
    ensures Sound(Start)
  {
    assert Held(Start) == multiset{};
  }

  lemma NextIsSound(s: State, step: Step, t: State)
    requires Sound(s) && Enabled(s, step) && t == Next(s, step)
    ensures Sound(t)
  {
    NextOwned(s, step);
    NextApart(s, step);
    NextSettled(s, step);
    NextBiosKnow(s, step);
  }

  /** In every state of every run, counts are holders, lists are apart, and bios know their lists. */
  lemma {:induction false} RunIsSound(states: seq<State>, steps: seq<Step>, k: nat)
    requires IsRun(states, steps) && k <= |steps|
    ensures Sound(states[k])
  {
    if k == 0 {
      StartIsSound();
    } else {
      RunIsSound(states, steps, k - 1);
      assert StepTaken(states, steps, k - 1);
      NextIsSound(states[k - 1], steps[k - 1], states[k]);
    }
  }

  lemma {:induction false} RunGrows(states: seq<State>, steps: seq<Step>, i: nat, j: nat)
    requires IsRun(states, steps) && i <= j <= |steps|
    ensures Grows(states[i].h, states[j].h) && states[i].dispatched <= states[j].dispatched
  {
    if i < j {
      RunGrows(states, steps, i, j - 1);
      assert StepTaken(states, steps, j - 1);
      NextGrows(states[j - 1], steps[j - 1]);
    }
  }

  /** A list once dispatched, at step i, is never refunded before or after. */
  lemma NoRefundOfDispatched(states: seq<State>, steps: seq<Step>, i: nat, j: nat, n: nat)
    requires IsRun(states, steps) && i <= |steps| && j <= |steps| && n < |states[j].h.hooks|
    ensures states[j].h.hooks[n].l !in states[i].dispatched
  {
    var k := if i <= j then j else i;
    RunIsSound(states, steps, k);
    RunGrows(states, steps, i, k);
    RunGrows(states, steps, j, k);
    var l := states[j].h.hooks[n].l;
    assert states[k].h.hooks[n].l == l;
    assert l in states[k].dispatched ==> SettledOne(states[k].h, states[k].bhs, l);
  }

  /** Refunds are made once, for lists that are gone, by the generation that was charged. */
  lemma RefundsAreProper(states: seq<State>, steps: seq<Step>, k: nat)
    requires IsRun(states, steps) && k <= |steps|
    ensures var h := states[k].h;
      && (forall n :: 0 <= n < |h.hooks| ==> h.hooks[n].l in h.freed && h.hooks[n].l !in states[k].dispatched)
      && (forall n, m :: 0 <= n < m < |h.hooks| ==> h.hooks[n].l != h.hooks[m].l)
      && (forall n :: 0 <= n < |h.hooks| ==>
           (h.hooks[n].epoch - h.hooks[n].stamp) % INT_MAX == 0
           && (h.epoch < INT_MAX ==> h.hooks[n].epoch == h.hooks[n].stamp))
  {
    RunIsSound(states, steps, k);
    var h := states[k].h;
    forall n | 0 <= n < |h.hooks|
      ensures h.hooks[n].l !in states[k].dispatched
      ensures (h.hooks[n].epoch - h.hooks[n].stamp) % INT_MAX == 0
      ensures h.epoch < INT_MAX ==> h.hooks[n].epoch == h.hooks[n].stamp
    {
      NoRefundOfDispatched(states, steps, k, k, n);
      assert HookOk(h.hooks[n], h.epoch);
      UniqIdentifiesGeneration(h.hooks[n].stamp, h.hooks[n].epoch);
    }
  }

  /** A list goes exactly when its last holder lets go, and stays gone. */
  lemma ListsLiveWhileHeld(states: seq<State>, steps: seq<Step>, i: nat, j: nat, l: nat)
    requires IsRun(states, steps) && i <= j <= |steps| && l < states[i].h.nextId
    ensures l in states[i].h.lists <==> l in Held(states[i])
    ensures l in states[i].h.freed <==> l !in Held(states[i])
    ensures l in states[i].h.freed ==> l in states[j].h.freed && l !in states[j].h.lists
  {
    RunIsSound(states, steps, i);
    RunIsSound(states, steps, j);
    RunGrows(states, steps, i, j);
  }

  /** The refund that a step makes: of the list that loses its last holder, if it was charged and is due. */
  lemma FreeHookIff(h: Heap, l: int)
    requires l in h.lists
    ensures var k := PutRef(h, l);
      k.hooks != h.hooks <==>
        h.lists[l].refs == 1 && h.lists[l].callback && (h.epoch - h.lists[l].stamp) % INT_MAX == 0
  {
    UniqIdentifiesGeneration(h.lists[l].stamp, h.epoch);
  }

  // ----- After enough switches --------------------------------------------

  /** One buffer with one list of one account, charged in generation 0. */
  function Charged(account: int, bsize: int): State {
    State(Heap(map[0 := CL(1, [account], bsize, true, 0)], 1, [], [], 0), [Some(0)], [], multiset{}, {})
  }

  /** ... and so many switches later. */
  function Later(s: State, n: nat): State { s.(h := s.h.(epoch := n)) }

  function FreedLater(account: int, bsize: int, n: nat): State { FreeBh(Later(Charged(account, bsize), n), 0) }

  /** A write, n switches of the scheduler, and the buffer is freed. */
  function SwitchState(account: int, bsize: int, n: nat, i: nat): State {
    if i == 0 then Start
    else if i == 1 then Start.(bhs := [None])
    else if i <= n + 2 then Later(Charged(account, bsize), i - 2)
    else FreedLater(account, bsize, n)
  }

  function SwitchStep(account: int, bsize: int, n: nat, i: nat): Step {
    if i == 0 then NewBh
    else if i == 1 then Dirty(0, [account], bsize, true)
    else if i < n + 2 then SwitchScheduler
    else Free(0)
  }

  lemma WriteCharges(account: int, bsize: int)
    ensures DirtyBh(Start.(bhs := [None]), 0, [account], bsize, true) == Charged(account, bsize)
  {
    var s := Start.(bhs := [None]);
    assert [account][..0] == [];
    assert CopyAccounts([account], []) == [account];
    assert NewList(s.h, 0).lists == map[0 := CL(1, [], 0, false, 0)];
    assert DirtyBh(s, 0, [account], bsize, true).h.lists == map[0 := CL(1, [account], bsize, true, 0)];
    assert s.bhs[0 := Some(0)] == [Some(0)];
  }

  lemma SwitchStepTaken(account: int, bsize: int, n: nat, i: nat)
    requires i <= n + 2
    ensures var s, step := SwitchState(account, bsize, n, i), SwitchStep(account, bsize, n, i);
      Enabled(s, step) && SwitchState(account, bsize, n, i + 1) == Next(s, step)
  {
    if i == 1 { WriteCharges(account, bsize); }
  }

  /**
   * A list charged by one scheduler and freed n switches later is refunded, once, exactly if n is a
   * multiple of 2^31 - 1: by the scheduler that made the charge if n is zero, by a stranger otherwise.
   */
  lemma RefundAfterSwitches(account: int, bsize: int, n: nat) returns (states: seq<State>, steps: seq<Step>)
    ensures IsRun(states, steps) && |steps| == n + 3
    ensures states[n + 3].h.freed == [0] && states[n + 3].h.epoch == n
    ensures states[n + 3].h.hooks == if n % INT_MAX == 0 then [Hook(0, 0, n)] else []
  {
    states := seq(n + 4, i requires 0 <= i => SwitchState(account, bsize, n, i));
    steps := seq(n + 3, i requires 0 <= i => SwitchStep(account, bsize, n, i));
    forall i | 0 <= i < |steps| ensures StepTaken(states, steps, i) { SwitchStepTaken(account, bsize, n, i); }
    UniqIdentifiesGeneration(0, n);
  }

  /** With enough switches a refund reaches a scheduler that never made the charge. */
  lemma WrapRefundsAStranger(account: int, bsize: int) returns (states: seq<State>, steps: seq<Step>)
    ensures IsRun(states, steps)
    ensures states[|steps|].h.hooks == [Hook(0, 0, INT_MAX)]
  {
    states, steps := RefundAfterSwitches(account, bsize, INT_MAX);
  }
}
