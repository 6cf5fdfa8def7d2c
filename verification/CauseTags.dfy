/**
 * Cause lists (patches/3.10/cause_tags.c.patch): reference-counted, duplicate-free lists of
 * the accounts behind a buffer's dirty data. A buffer head holds its list until it is handed
 * over to a bio; freeing a list may notify the scheduler that charged for it.
 */
module CauseTags {
  import opened Seqs
  import opened Lists

  // ----- Scheduler generations (patches/3.10/elevator.c.patch) ------------

  const FIRST_UNIQ := 1000
  const INT_MAX := 0x7FFF_FFFF

  /** What a scheduler switch does to q->sched_uniq: increment, and skip the negatives on wrap-around. */
  function NextUniq(u: int): int { if u + 1 > INT_MAX then 1 else u + 1 }

  /** sched_uniq after so many switches. */
  function SchedUniq(epoch: nat): int { 1 + (epoch + FIRST_UNIQ - 1) % INT_MAX }

  lemma SchedUniqSteps(epoch: nat)
    ensures SchedUniq(0) == FIRST_UNIQ && SchedUniq(epoch + 1) == NextUniq(SchedUniq(epoch))
  {
    ModStep(epoch + FIRST_UNIQ - 1, INT_MAX);
  }

  lemma ModStep(x: nat, m: int)
    requires m > 1
    ensures (x + 1) % m == if x % m == m - 1 then 0 else x % m + 1
  {
    var q, r := x / m, x % m;
    assert x == q * m + r;
    if r == m - 1 {
      assert x + 1 == (q + 1) * m;
      ModUnique(x + 1, m, q + 1, 0);
    } else {
      ModUnique(x + 1, m, q, r + 1);
    }
  }

  lemma ModUnique(x: int, m: int, q: int, r: int)
    requires m > 1 && x == q * m + r && 0 <= r < m
    ensures x % m == r
  {
    var d := q - x / m;
    assert d * m == x % m - r;
    assert d >= 1 ==> d * m >= m;
    assert d <= -1 ==> d * m <= -m;
  }

  lemma SameRemainder(x: int, y: int, m: int)
    requires m > 1
    ensures x % m == y % m <==> (y - x) % m == 0
  {
    if x % m == y % m {
      assert y - x == (y / m - x / m) * m + 0;
      ModUnique(y - x, m, y / m - x / m, 0);
    }
    if (y - x) % m == 0 {
      var k := (y - x) / m;
      assert y == (x / m + k) * m + x % m;
      ModUnique(y, m, x / m + k, x % m);
    }
  }

  /** Two generations share a number exactly when a multiple of 2^31 - 1 switches lies between them. */
  lemma UniqIdentifiesGeneration(a: nat, b: nat)
    ensures SchedUniq(a) == SchedUniq(b) <==> (b - a) % INT_MAX == 0
  {
    SameRemainder(a + FIRST_UNIQ - 1, b + FIRST_UNIQ - 1, INT_MAX);
  }

  // ----- Accounts on a list -----------------------------------------------

  /** __cause_list_add: append unless listed. */
  function AddAccount(items: seq<int>, account: int): seq<int> {
    if account in items then items else items + [account]
  }

  /** cause_list_copy. */
  function CopyAccounts(from: seq<int>, to: seq<int>): seq<int> {
    if from == [] then to else AddAccount(CopyAccounts(from[..|from| - 1], to), from[|from| - 1])
  }

  lemma {:induction false} CopyIsUnion(from: seq<int>, to: seq<int>)
    requires NoDup(to)
    ensures NoDup(CopyAccounts(from, to)) && to <= CopyAccounts(from, to)
    ensures forall a :: a in CopyAccounts(from, to) <==> a in from || a in to
  {
    if from != [] {
      CopyIsUnion(from[..|from| - 1], to);
      assert from == from[..|from| - 1] + [from[|from| - 1]];
    }
  }

  // ----- The heap of lists ------------------------------------------------

  /** `stamp` is the generation that last took over the list; `callback` is callback_q != NULL. */
  datatype CL = CL(refs: int, items: seq<int>, size: int, callback: bool, stamp: nat)

  /** A call of the scheduler's free hook: for which list, stamped when, called when. */
  datatype Hook = Hook(l: int, stamp: nat, epoch: nat)

  datatype Heap = Heap(lists: map<int, CL>, nextId: nat, freed: seq<int>, hooks: seq<Hook>, epoch: nat)

  function NewList(h: Heap, size: int): Heap {
    h.(lists := h.lists[h.nextId := CL(1, [], size, false, 0)], nextId := h.nextId + 1)
  }

  function GetRef(h: Heap, l: int): Heap
    requires l in h.lists
  {
    h.(lists := h.lists[l := h.lists[l].(refs := h.lists[l].refs + 1)])
  }

  /** free_cause_list: notify the scheduler if it is still the one that was told of the list. */
  function FreeList(h: Heap, l: int): Heap
    requires l in h.lists
  {
    var cl := h.lists[l];
    h.(lists := h.lists - {l}, freed := h.freed + [l],
       hooks := if cl.callback && SchedUniq(h.epoch) == SchedUniq(cl.stamp)
                then h.hooks + [Hook(l, cl.stamp, h.epoch)] else h.hooks)
  }

  function PutRef(h: Heap, l: int): Heap {
    if l !in h.lists then h
    else if h.lists[l].refs == 1 then FreeList(h, l)
    else h.(lists := h.lists[l := h.lists[l].(refs := h.lists[l].refs - 1)])
  }

  function PutAll(h: Heap, ls: seq<int>): Heap {
    if ls == [] then h else PutRef(PutAll(h, ls[..|ls| - 1]), ls[|ls| - 1])
  }

  /** Reference counts are exactly the references held. */
  ghost predicate RefsOk(h: Heap, held: multiset<int>) {
    && (forall l :: l in h.lists ==> 0 < h.lists[l].refs == held[l])
    && (forall l :: l in held ==> l in h.lists)
  }

  /** The hook ran for a generation with the number the list was stamped with. */
  ghost predicate HookOk(hook: Hook, epoch: nat) {
    hook.stamp <= hook.epoch <= epoch && SchedUniq(hook.stamp) == SchedUniq(hook.epoch)
  }

  /** Ids are not reused; what is gone was freed, once; hooks ran at most once, for freed lists. */
  ghost predicate HeapOk(h: Heap) {
    && (forall l :: l in h.lists ==> 0 <= l < h.nextId && NoDup(h.lists[l].items) && h.lists[l].stamp <= h.epoch)
    && NoDup(h.freed)
    && (forall l :: l in h.freed <==> 0 <= l < h.nextId && l !in h.lists)
    && (forall i :: 0 <= i < |h.hooks| ==> h.hooks[i].l in h.freed)
    && (forall i, j :: 0 <= i < j < |h.hooks| ==> h.hooks[i].l != h.hooks[j].l)
    && (forall i :: 0 <= i < |h.hooks| ==> HookOk(h.hooks[i], h.epoch))
  }

  lemma NewListOk(h: Heap, size: int, held: multiset<int>)
    requires HeapOk(h) && RefsOk(h, held)
    ensures HeapOk(NewList(h, size)) && RefsOk(NewList(h, size), held + multiset{h.nextId})
  {
    var t := NewList(h, size);
    assert h.nextId !in h.lists && h.nextId !in held;
    forall l ensures l in t.freed <==> 0 <= l < t.nextId && l !in t.lists {
      assert l in h.freed <==> 0 <= l < h.nextId && l !in h.lists;
    }
  }

  lemma GetRefOk(h: Heap, l: int, held: multiset<int>)
    requires HeapOk(h) && RefsOk(h, held) && l in h.lists
    ensures HeapOk(GetRef(h, l)) && RefsOk(GetRef(h, l), held + multiset{l})
  {
  }

  lemma PutRefOk(h: Heap, l: int, rest: multiset<int>)
    requires HeapOk(h) && RefsOk(h, rest + multiset{l})
    ensures HeapOk(PutRef(h, l)) && RefsOk(PutRef(h, l), rest)
    ensures PutRef(h, l).nextId == h.nextId && PutRef(h, l).epoch == h.epoch
  {
    var t := PutRef(h, l);
    assert l in rest + multiset{l};
    if h.lists[l].refs == 1 {
      assert l !in h.freed;
      forall k ensures k in t.freed <==> 0 <= k < t.nextId && k !in t.lists {
        assert k in h.freed <==> 0 <= k < h.nextId && k !in h.lists;
      }
    }
  }

  /** Changing a live list's contents, not its count, keeps the heap in order. */
  lemma EditOk(h: Heap, l: int, cl: CL, held: multiset<int>)
    requires HeapOk(h) && RefsOk(h, held) && l in h.lists && cl.refs == h.lists[l].refs && NoDup(cl.items)
    requires cl.stamp <= h.epoch
    ensures HeapOk(h.(lists := h.lists[l := cl])) && RefsOk(h.(lists := h.lists[l := cl]), held)
  {
  }

  lemma {:induction false} PutAllOk(h: Heap, ls: seq<int>, rest: multiset<int>)
    requires HeapOk(h) && RefsOk(h, rest + multiset(ls))
    ensures HeapOk(PutAll(h, ls)) && RefsOk(PutAll(h, ls), rest)
    ensures PutAll(h, ls).nextId == h.nextId && PutAll(h, ls).epoch == h.epoch
  {
    if ls == [] {
      assert rest + multiset(ls) == rest;
    } else {
      var front, last := ls[..|ls| - 1], ls[|ls| - 1];
      assert ls == front + [last];
      assert rest + multiset(ls) == (rest + multiset{last}) + multiset(front);
      PutAllOk(h, front, rest + multiset{last});
      PutRefOk(PutAll(h, front), last, rest);
    }
  }

  // ----- Who holds what ---------------------------------------------------

  /**
   * A bio's lists, with the union of their accounts and the sum of their sizes. The union is
   * a cause list of its own in the source, which nobody but the bio ever holds.
   */
  datatype CLL = CLL(uniq: seq<int>, items: seq<int>, size: int, capacity: nat)

  /**
   * Buffer heads and bios by number, references held elsewhere, and which lists have been
   * dispatched.
   */
  datatype State = State(h: Heap, bhs: seq<Option<int>>, bios: seq<Option<CLL>>, ext: multiset<int>,
                         dispatched: set<int>)

  const Start := State(Heap(map[], 0, [], [], 0), [], [], multiset{}, {})

  ghost function BhRef(b: Option<int>): multiset<int> { if b.Some? then multiset{b.value} else multiset{} }

  ghost function BhRefs(bhs: seq<Option<int>>): multiset<int> {
    if bhs == [] then multiset{} else BhRefs(bhs[..|bhs| - 1]) + BhRef(bhs[|bhs| - 1])
  }

  ghost function CllRefs(b: Option<CLL>): multiset<int> {
    if b.Some? then multiset(b.value.items) else multiset{}
  }

  ghost function BioRefs(bios: seq<Option<CLL>>): multiset<int> {
    if bios == [] then multiset{} else BioRefs(bios[..|bios| - 1]) + CllRefs(bios[|bios| - 1])
  }

  /** Every reference there is. */
  ghost function Held(s: State): multiset<int> {
    BhRefs(s.bhs) + BioRefs(s.bios) + s.ext
  }

  lemma SwapLast(a: multiset<int>, x: multiset<int>, y: multiset<int>)
    ensures (a + x) + y == (a + y) + x
  {
  }

  lemma AddInner(a: multiset<int>, b: multiset<int>, e: multiset<int>, x: multiset<int>)
    ensures (a + x) + b + e == (a + b + e) + x
    ensures a + (b + x) + e == (a + b + e) + x
  {
  }

  lemma BhRefsSnoc(bhs: seq<Option<int>>, b: Option<int>)
    ensures BhRefs(bhs + [b]) == BhRefs(bhs) + BhRef(b)
  {
    assert (bhs + [b])[..|bhs|] == bhs;
  }

  lemma BioRefsSnoc(bios: seq<Option<CLL>>, b: Option<CLL>)
    ensures BioRefs(bios + [b]) == BioRefs(bios) + CllRefs(b)
  {
    assert (bios + [b])[..|bios|] == bios;
  }

  /** One buffer's reference, set apart from the others'. */
  lemma {:induction false} BhRefsSplit(bhs: seq<Option<int>>, i: nat, x: Option<int>)
    requires i < |bhs|
    ensures BhRefs(bhs[i := x]) == BhRefs(bhs[i := None]) + BhRef(x)
  {
    var n := |bhs| - 1;
    var front, last := bhs[..n], bhs[n];
    if i == n {
      assert bhs[i := x] == front + [x] && bhs[i := None] == front + [None];
      BhRefsSnoc(front, x);
      BhRefsSnoc(front, None);
    } else {
      assert bhs[i := x] == front[i := x] + [last] && bhs[i := None] == front[i := None] + [last];
      BhRefsSnoc(front[i := x], last);
      BhRefsSnoc(front[i := None], last);
      BhRefsSplit(front, i, x);
      SwapLast(BhRefs(front[i := None]), BhRef(x), BhRef(last));
    }
  }

  lemma {:induction false} BioRefsSplit(bios: seq<Option<CLL>>, i: nat, x: Option<CLL>)
    requires i < |bios|
    ensures BioRefs(bios[i := x]) == BioRefs(bios[i := None]) + CllRefs(x)
  {
    var n := |bios| - 1;
    var front, last := bios[..n], bios[n];
    if i == n {
      assert bios[i := x] == front + [x] && bios[i := None] == front + [None];
      BioRefsSnoc(front, x);
      BioRefsSnoc(front, None);
    } else {
      assert bios[i := x] == front[i := x] + [last] && bios[i := None] == front[i := None] + [last];
      BioRefsSnoc(front[i := x], last);
      BioRefsSnoc(front[i := None], last);
      BioRefsSplit(front, i, x);
      SwapLast(BioRefs(front[i := None]), CllRefs(x), CllRefs(last));
    }
  }

  /** All references but the one of buffer bh. */
  ghost function HeldElsewhere(s: State, bh: nat): multiset<int>
    requires bh < |s.bhs|
  {
    BhRefs(s.bhs[bh := None]) + BioRefs(s.bios) + s.ext
  }

  lemma HeldByBh(s: State, bh: nat, x: Option<int>)
    requires bh < |s.bhs|
    ensures Held(s.(bhs := s.bhs[bh := x])) == HeldElsewhere(s, bh) + BhRef(x)
    ensures Held(s) == HeldElsewhere(s, bh) + BhRef(s.bhs[bh])
  {
    BhRefsSplit(s.bhs, bh, x);
    BhRefsSplit(s.bhs, bh, s.bhs[bh]);
    assert s.bhs[bh := s.bhs[bh]] == s.bhs;
    AddInner(BhRefs(s.bhs[bh := None]), BioRefs(s.bios), s.ext, BhRef(x));
    AddInner(BhRefs(s.bhs[bh := None]), BioRefs(s.bios), s.ext, BhRef(s.bhs[bh]));
  }

  // ----- Steps ------------------------------------------------------------

  /** cause_list_list_add, given the list's accounts and size: what the bio records. */
  function CllWith(c: CLL, l: int, cl: CL): CLL {
    if |c.items| == c.capacity then c
    else
      c.(uniq := if c.items == [] || c.items[|c.items| - 1] != l then CopyAccounts(cl.items, c.uniq) else c.uniq,
         items := c.items + [l], size := c.size + cl.size)
  }

  /** ... and the reference it takes. */
  function CllAdd(h: Heap, c: CLL, l: int): Heap
    requires l in h.lists
  {
    if |c.items| == c.capacity then h else GetRef(h, l)
  }

  function NewCll(capacity: nat): CLL { CLL([], [], 0, capacity) }

  function CllOr(b: Option<CLL>, capacity: nat): CLL { if b.Some? then b.value else NewCll(capacity) }

  /**
   * __block_commit_write: add the writer's accounts (several for a proxy) to the buffer's list.
   * If that adds any and the inode has a request queue, an unstamped list is stamped.
   */
  function Dirtied(h: Heap, l: int, accounts: seq<int>, bsize: int, queue: bool): Heap
    requires l in h.lists
  {
    var cl := h.lists[l];
    var added := cl.(items := CopyAccounts(accounts, cl.items));
    var stamped := if queue && |added.items| > |cl.items| && !cl.callback
                   then added.(callback := true, stamp := h.epoch, size := bsize) else added;
    h.(lists := h.lists[l := stamped])
  }

  function DirtyBh(s: State, bh: nat, accounts: seq<int>, bsize: int, queue: bool): State
    requires bh < |s.bhs| && (s.bhs[bh].Some? ==> s.bhs[bh].value in s.h.lists)
  {
    var s' := if s.bhs[bh].Some? then s
              else s.(h := NewList(s.h, 0), bhs := s.bhs[bh := Some(s.h.nextId)]);
    s'.(h := Dirtied(s'.h, s'.bhs[bh].value, accounts, bsize, queue))
  }

  /** move_causes_bh_to_bio: size the list, add it to the bio, drop the buffer's reference. */
  function MoveToBio(s: State, bh: nat, bio: nat, bsize: int, capacity: nat): State
    requires bh < |s.bhs| && bio < |s.bios| && (s.bhs[bh].Some? ==> s.bhs[bh].value in s.h.lists)
  {
    if s.bhs[bh].None? then s
    else
      var l, c := s.bhs[bh].value, CllOr(s.bios[bio], capacity);
      var h1 := s.h.(lists := s.h.lists[l := s.h.lists[l].(size := bsize)]);
      var h2 := CllAdd(h1, c, l);
      s.(h := PutRef(h2, l), bhs := s.bhs[bh := None], bios := s.bios[bio := Some(CllWith(c, l, h1.lists[l]))])
  }

  /** add_causes_zero_to_bio: a list without accounts, for data nobody wrote. */
  function AddZero(s: State, bio: nat, size: int, capacity: nat): State
    requires bio < |s.bios|
  {
    var l, c := s.h.nextId, CllOr(s.bios[bio], capacity);
    var h1 := NewList(s.h, size);
    s.(h := PutRef(CllAdd(h1, c, l), l), bios := s.bios[bio := Some(CllWith(c, l, h1.lists[l]))])
  }

  /** del_cause_list_list, when the bio is freed. */
  function DelBio(s: State, bio: nat): State
    requires bio < |s.bios|
  {
    if s.bios[bio].None? then s
    else s.(h := PutAll(s.h, s.bios[bio].value.items), bios := s.bios[bio := None])
  }

  function FreeBh(s: State, bh: nat): State
    requires bh < |s.bhs|
  {
    if s.bhs[bh].None? then s else s.(h := PutRef(s.h, s.bhs[bh].value), bhs := s.bhs[bh := None])
  }

  /** The scheduler dispatches the i-th list of a bio: no refund from now on. */
  function DispatchList(s: State, bio: nat, i: nat): State
    requires bio < |s.bios| && s.bios[bio].Some? && i < |s.bios[bio].value.items|
    requires s.bios[bio].value.items[i] in s.h.lists
  {
    var l := s.bios[bio].value.items[i];
    s.(h := s.h.(lists := s.h.lists[l := s.h.lists[l].(callback := false)]), dispatched := s.dispatched + {l})
  }

  /** get_cause_list and put_cause_list by anybody else. */
  function GetElsewhere(s: State, l: int): State
    requires l in s.h.lists
  {
    s.(h := GetRef(s.h, l), ext := s.ext + multiset{l})
  }

  function PutElsewhere(s: State, l: int): State {
    s.(h := PutRef(s.h, l), ext := s.ext - multiset{l})
  }

  /** elevator_switch. */
  function Switched(s: State): State { s.(h := s.h.(epoch := s.h.epoch + 1)) }

  datatype Step =
    | NewBh
    | NewBio
    | Dirty(bh: nat, accounts: seq<int>, bsize: int, queue: bool)
    | Move(bh: nat, bio: nat, bsize: int, capacity: nat)
    | Zero(bio: nat, size: int, capacity: nat)
    | Delete(bio: nat)
    | Free(bh: nat)
    | Get(l: int)
    | Put(l: int)
    | Dispatch(bio: nat, i: nat)
    | SwitchScheduler

  ghost predicate Enabled(s: State, step: Step) {
    match step
    case NewBh => true
    case NewBio => true
    case Dirty(bh, _, _, _) => bh < |s.bhs| && (s.bhs[bh].Some? ==> s.bhs[bh].value in s.h.lists)
    case Move(bh, bio, _, _) =>
      bh < |s.bhs| && bio < |s.bios| && (s.bhs[bh].Some? ==> s.bhs[bh].value in s.h.lists)
    case Zero(bio, _, _) => bio < |s.bios|
    case Delete(bio) => bio < |s.bios|
    case Free(bh) => bh < |s.bhs|
    case Get(l) => l in s.h.lists
    case Put(l) => l in s.ext
    case Dispatch(bio, i) =>
      bio < |s.bios| && s.bios[bio].Some? && i < |s.bios[bio].value.items| && s.bios[bio].value.items[i] in s.h.lists
    case SwitchScheduler => true
  }

  function Next(s: State, step: Step): State
    requires Enabled(s, step)
  {
    match step
    case NewBh => s.(bhs := s.bhs + [None])
    case NewBio => s.(bios := s.bios + [None])
    case Dirty(bh, accounts, bsize, queue) => DirtyBh(s, bh, accounts, bsize, queue)
    case Move(bh, bio, bsize, capacity) => MoveToBio(s, bh, bio, bsize, capacity)
    case Zero(bio, size, capacity) => AddZero(s, bio, size, capacity)
    case Delete(bio) => DelBio(s, bio)
    case Free(bh) => FreeBh(s, bh)
    case Get(l) => GetElsewhere(s, l)
    case Put(l) => PutElsewhere(s, l)
    case Dispatch(bio, i) => DispatchList(s, bio, i)
    case SwitchScheduler => Switched(s)
  }

  // ----- Ownership --------------------------------------------------------

  ghost predicate Owned(s: State) { HeapOk(s.h) && RefsOk(s.h, Held(s)) }

  lemma DirtiedOk(h: Heap, l: int, accounts: seq<int>, bsize: int, queue: bool, held: multiset<int>)
    requires HeapOk(h) && RefsOk(h, held) && l in h.lists
    ensures HeapOk(Dirtied(h, l, accounts, bsize, queue)) && RefsOk(Dirtied(h, l, accounts, bsize, queue), held)
  {
    CopyIsUnion(accounts, h.lists[l].items);
    EditOk(h, l, Dirtied(h, l, accounts, bsize, queue).lists[l], held);
  }

  lemma DirtyOwned(s: State, bh: nat, accounts: seq<int>, bsize: int, queue: bool)
    requires Owned(s) && Enabled(s, Dirty(bh, accounts, bsize, queue))
    ensures Owned(DirtyBh(s, bh, accounts, bsize, queue))
  {
    if s.bhs[bh].Some? {
      DirtiedOk(s.h, s.bhs[bh].value, accounts, bsize, queue, Held(s));
    } else {
      var l := s.h.nextId;
      NewListOk(s.h, 0, Held(s));
      HeldByBh(s, bh, Some(l));
      assert HeldElsewhere(s, bh) == Held(s);
      var s' := s.(h := NewList(s.h, 0), bhs := s.bhs[bh := Some(l)]);
      assert Held(s') == Held(s) + multiset{l};
      DirtiedOk(s'.h, l, accounts, bsize, queue, Held(s'));
    }
  }

  /** The reference a bio takes: one, if there is room. */
  ghost function Taken(c: CLL, l: int): multiset<int> {
    if |c.items| == c.capacity then multiset{} else multiset{l}
  }

  lemma CllAddOk(h: Heap, c: CLL, l: int, held: multiset<int>)
    requires HeapOk(h) && RefsOk(h, held) && l in h.lists
    ensures HeapOk(CllAdd(h, c, l)) && RefsOk(CllAdd(h, c, l), held + Taken(c, l))
  {
    if |c.items| == c.capacity {
      assert held + multiset{} == held;
    } else {
      GetRefOk(h, l, held);
    }
  }

  /** The references of the bios after a list was added to one of them. */
  lemma CllWithRefs(bios: seq<Option<CLL>>, bio: nat, capacity: nat, l: int, cl: CL)
    requires bio < |bios|
    ensures var c := CllOr(bios[bio], capacity);
      BioRefs(bios[bio := Some(CllWith(c, l, cl))]) == BioRefs(bios) + Taken(c, l)
  {
    var c := CllOr(bios[bio], capacity);
    var d := CllWith(c, l, cl);
    BioRefsSplit(bios, bio, Some(d));
    BioRefsSplit(bios, bio, bios[bio]);
    assert bios[bio := bios[bio]] == bios;
    assert CllRefs(bios[bio]) == multiset(c.items);
    assert CllRefs(Some(d)) == multiset(c.items) + Taken(c, l);
    assert BioRefs(bios[bio := None]) + (multiset(c.items) + Taken(c, l))
        == (BioRefs(bios[bio := None]) + multiset(c.items)) + Taken(c, l);
  }

  lemma MoveOwned(s: State, bh: nat, bio: nat, bsize: int, capacity: nat)
    requires Owned(s) && Enabled(s, Move(bh, bio, bsize, capacity))
    ensures Owned(MoveToBio(s, bh, bio, bsize, capacity))
  {
    if s.bhs[bh].Some? {
      var l, c := s.bhs[bh].value, CllOr(s.bios[bio], capacity);
      var h1 := s.h.(lists := s.h.lists[l := s.h.lists[l].(size := bsize)]);
      var rest := HeldElsewhere(s, bh);
      HeldByBh(s, bh, None);
      EditOk(s.h, l, h1.lists[l], Held(s));
      CllAddOk(h1, c, l, rest + multiset{l});
      SwapLast(rest, multiset{l}, Taken(c, l));
      PutRefOk(CllAdd(h1, c, l), l, rest + Taken(c, l));
      CllWithRefs(s.bios, bio, capacity, l, h1.lists[l]);
      AddInner(BhRefs(s.bhs[bh := None]), BioRefs(s.bios), s.ext, Taken(c, l));
    }
  }

  lemma ZeroOwned(s: State, bio: nat, size: int, capacity: nat)
    requires Owned(s) && bio < |s.bios|
    ensures Owned(AddZero(s, bio, size, capacity))
  {
    var l, c := s.h.nextId, CllOr(s.bios[bio], capacity);
    var h1 := NewList(s.h, size);
    NewListOk(s.h, size, Held(s));
    CllAddOk(h1, c, l, Held(s) + multiset{l});
    SwapLast(Held(s), multiset{l}, Taken(c, l));
    PutRefOk(CllAdd(h1, c, l), l, Held(s) + Taken(c, l));
    CllWithRefs(s.bios, bio, capacity, l, h1.lists[l]);
    AddInner(BhRefs(s.bhs), BioRefs(s.bios), s.ext, Taken(c, l));
  }

  lemma DeleteOwned(s: State, bio: nat)
    requires Owned(s) && bio < |s.bios|
    ensures Owned(DelBio(s, bio))
  {
    if s.bios[bio].Some? {
      var items, others := s.bios[bio].value.items, BioRefs(s.bios[bio := None]);
      BioRefsSplit(s.bios, bio, s.bios[bio]);
      assert s.bios[bio := s.bios[bio]] == s.bios;
      AddInner(BhRefs(s.bhs), others, s.ext, multiset(items));
      PutAllOk(s.h, items, BhRefs(s.bhs) + others + s.ext);
    }
  }

  lemma FreeOwned(s: State, bh: nat)
    requires Owned(s) && bh < |s.bhs|
    ensures Owned(FreeBh(s, bh))
  {
    if s.bhs[bh].Some? {
      HeldByBh(s, bh, None);
      PutRefOk(s.h, s.bhs[bh].value, HeldElsewhere(s, bh));
      assert Held(FreeBh(s, bh)) == HeldElsewhere(s, bh);
    }
  }

  lemma DispatchOwned(s: State, bio: nat, i: nat)
    requires Owned(s) && Enabled(s, Dispatch(bio, i))
    ensures Owned(DispatchList(s, bio, i))
  {
    var l := s.bios[bio].value.items[i];
    EditOk(s.h, l, s.h.lists[l].(callback := false), Held(s));
  }

  lemma SlotsOwned(s: State)
    requires Owned(s)
    ensures Owned(s.(bhs := s.bhs + [None])) && Owned(s.(bios := s.bios + [None]))
  {
    BhRefsSnoc(s.bhs, None);
    BioRefsSnoc(s.bios, None);
    assert BhRefs(s.bhs + [None]) == BhRefs(s.bhs);
    assert BioRefs(s.bios + [None]) == BioRefs(s.bios);
  }

  lemma GetOwned(s: State, l: int)
    requires Owned(s) && l in s.h.lists
    ensures Owned(GetElsewhere(s, l))
  {
    GetRefOk(s.h, l, Held(s));
    assert Held(s.(ext := s.ext + multiset{l})) == Held(s) + multiset{l};
  }

  lemma PutOwned(s: State, l: int)
    requires Owned(s) && l in s.ext
    ensures Owned(PutElsewhere(s, l))
  {
    var rest := Held(s.(ext := s.ext - multiset{l}));
    assert Held(s) == rest + multiset{l};
    PutRefOk(s.h, l, rest);
  }

  lemma SwitchOwned(s: State)
    requires Owned(s)
    ensures Owned(Switched(s))
  {
    assert Held(Switched(s)) == Held(s);
  }

  /** The steps that give a list to a buffer or a bio. */
  predicate Attaches(step: Step) { step.Dirty? || step.Move? || step.Zero? }

  lemma AttachOwned(s: State, step: Step)
    requires Owned(s) && Enabled(s, step) && Attaches(step)
    ensures Owned(Next(s, step))
  {
    match step
    case Dirty(bh, accounts, bsize, queue) => DirtyOwned(s, bh, accounts, bsize, queue);
    case Move(bh, bio, bsize, capacity) => MoveOwned(s, bh, bio, bsize, capacity);
    case Zero(bio, size, capacity) => ZeroOwned(s, bio, size, capacity);
  }

  lemma ReleaseOwned(s: State, step: Step)
    requires Owned(s) && Enabled(s, step) && (step.Delete? || step.Free? || step.Dispatch?)
    ensures Owned(Next(s, step))
  {
    match step
    case Delete(bio) => DeleteOwned(s, bio);
    case Free(bh) => FreeOwned(s, bh);
    case Dispatch(bio, i) => DispatchOwned(s, bio, i);
  }

  lemma CountOwned(s: State, step: Step)
    requires Owned(s) && Enabled(s, step) && (step.Get? || step.Put? || step.SwitchScheduler?)
    ensures Owned(Next(s, step))
  {
    match step
    case Get(l) => GetOwned(s, l);
    case Put(l) => PutOwned(s, l);
    case SwitchScheduler => SwitchOwned(s);
  }

  /** Every step keeps counts equal to holders. */
  lemma NextOwned(s: State, step: Step)
    requires Owned(s) && Enabled(s, step)
    ensures Owned(Next(s, step))
  {
    if Attaches(step) {
      AttachOwned(s, step);
    } else if step.Delete? || step.Free? || step.Dispatch? {
      ReleaseOwned(s, step);
    } else if step.NewBh? || step.NewBio? {
      SlotsOwned(s);
    } else {
      CountOwned(s, step);
    }
  }
}
