/**
 * From writers to bios: over every run the list of a buffer names exactly the accounts that wrote to it
 * since it last had none, and handing it over adds exactly those to the bio.
 */
module CauseWrites {
  import opened Seqs
  import opened Lists
  import opened CauseTags
  import opened CauseRuns

  // ----- One write --------------------------------------------------------

  /** The accounts on the list of a buffer, if it has one. */
  ghost function OnBuffer(s: State, bh: nat): set<int> {
    if bh < |s.bhs| && s.bhs[bh].Some? && s.bhs[bh].value in s.h.lists
    then Members(s.h.lists[s.bhs[bh].value].items) else {}
  }

  /** Copying adds something exactly if there is an account that was not listed. */
  lemma CopyGrowsIff(from: seq<int>, to: seq<int>)
    requires NoDup(to)
    ensures |CopyAccounts(from, to)| > |to| <==> exists a :: a in from && a !in to
  {
    CopyIsUnion(from, to);
    var all := CopyAccounts(from, to);
    if |all| > |to| {
      var a := all[|to|];
      assert a in all;
      assert a !in to by {
        forall i | 0 <= i < |to| ensures to[i] != a { assert all[i] == to[i]; }
      }
    } else {
      assert all == to;
    }
  }

  lemma CopyMembers(from: seq<int>, to: seq<int>)
    requires NoDup(to)
    ensures Members(CopyAccounts(from, to)) == Members(to) + Members(from)
  {
    CopyIsUnion(from, to);
    var all := CopyAccounts(from, to);
    forall a ensures a in Members(all) <==> a in Members(to) + Members(from) {
      assert a in all <==> a in from || a in to;
    }
  }

  /** Whether the write is the first to put a new account on a list that no scheduler knows of. */
  ghost predicate Stamps(cl: CL, accounts: seq<int>, queue: bool) {
    queue && !cl.callback && exists a :: a in accounts && a !in cl.items
  }

  /**
   * A write puts the writer's accounts on the list next to those there, and nothing else; the list is
   * stamped with the scheduler's generation and given the buffer's size exactly on the first such write.
   */
  lemma DirtiedAddsWriters(h: Heap, l: int, accounts: seq<int>, bsize: int, queue: bool)
    requires l in h.lists && NoDup(h.lists[l].items)
    ensures var k, cl := Dirtied(h, l, accounts, bsize, queue), h.lists[l];
      && k == h.(lists := k.lists) && k.lists.Keys == h.lists.Keys
      && (forall x :: x in h.lists && x != l ==> k.lists[x] == h.lists[x])
      && Members(k.lists[l].items) == Members(cl.items) + Members(accounts)
      && cl.items <= k.lists[l].items && k.lists[l].refs == cl.refs
      && if Stamps(cl, accounts, queue)
         then k.lists[l].callback && k.lists[l].stamp == h.epoch && k.lists[l].size == bsize
         else k.lists[l].callback == cl.callback && k.lists[l].stamp == cl.stamp && k.lists[l].size == cl.size
  {
    CopyIsUnion(accounts, h.lists[l].items);
    CopyMembers(accounts, h.lists[l].items);
    CopyGrowsIff(accounts, h.lists[l].items);
  }

  lemma WriteAdds(s: State, bh: nat, accounts: seq<int>, bsize: int, queue: bool)
    requires Owned(s) && Enabled(s, Dirty(bh, accounts, bsize, queue))
    ensures var t := DirtyBh(s, bh, accounts, bsize, queue);
      t.bhs[bh].Some? && OnBuffer(t, bh) == OnBuffer(s, bh) + Members(accounts)
  {
    if s.bhs[bh].Some? {
      DirtiedAddsWriters(s.h, s.bhs[bh].value, accounts, bsize, queue);
    } else {
      DirtiedAddsWriters(NewList(s.h, 0), s.h.nextId, accounts, bsize, queue);
    }
  }

  // ----- What leaves a buffer alone ---------------------------------------

  /** The step writes to the buffer, hands its list over or frees it. */
  predicate Concerns(step: Step, bh: nat) { (step.Dirty? || step.Move? || step.Free?) && step.bh == bh }

  lemma ListKept(s: State, step: Step, bh: nat)
    requires Owned(s) && Apart(s) && Enabled(s, step) && bh < |s.bhs| && s.bhs[bh].Some? && !Concerns(step, bh)
    ensures Same(s.h, Next(s, step).h, s.bhs[bh].value)
  {
    var l := s.bhs[bh].value;
    BhIsLive(s, bh);
    match step
    case Dirty(b, accounts, bsize, queue) => assert s.bhs[b] != Some(l);
    case Move(b, bio, bsize, capacity) =>
      if s.bhs[b].Some? {
        var m := s.bhs[b].value;
        assert m != l;
        var h1 := s.h.(lists := s.h.lists[m := s.h.lists[m].(size := bsize)]);
        PutSame(CllAdd(h1, CllOr(s.bios[bio], capacity), m), m, l);
      }
    case Zero(bio, size, capacity) => ZeroSame(s, bio, size, capacity, l);
    case _ => DropSame(s, step, l);
  }

  lemma ReferenceKept(s: State, step: Step, bh: nat)
    requires Enabled(s, step) && bh < |s.bhs| && !Concerns(step, bh)
    ensures bh < |Next(s, step).bhs| && Next(s, step).bhs[bh] == s.bhs[bh]
  {
  }

  lemma OthersLeaveBuffer(s: State, step: Step, t: State, bh: nat)
    requires Owned(s) && Apart(s) && Owned(t) && bh < |s.bhs|
    requires Enabled(s, step) && t == Next(s, step) && !Concerns(step, bh)
    ensures bh < |t.bhs| && t.bhs[bh] == s.bhs[bh] && OnBuffer(t, bh) == OnBuffer(s, bh)
  {
    assert bh < |t.bhs| && t.bhs[bh] == s.bhs[bh] by { ReferenceKept(s, step, bh); }
    if s.bhs[bh].Some? {
      var l := s.bhs[bh].value;
      assert l in s.h.lists by { BhIsLive(s, bh); }
      assert l in t.h.lists by { BhIsLive(t, bh); }
      assert Same(s.h, t.h, l) by { ListKept(s, step, bh); }
    }
  }

  // ----- Runs -------------------------------------------------------------

  /** The accounts that the step writes to the buffer for. */
  ghost function WritesBy(step: Step, bh: nat): set<int> {
    if step.Dirty? && step.bh == bh then Members(step.accounts) else {}
  }

  lemma BufferStep(s: State, step: Step, t: State, bh: nat)
    requires Owned(s) && Apart(s) && Owned(t) && bh < |s.bhs| && Enabled(s, step) && t == Next(s, step)
    requires !((step.Move? || step.Free?) && step.bh == bh)
    ensures bh < |t.bhs| && (t.bhs[bh].Some? <==> s.bhs[bh].Some? || (step.Dirty? && step.bh == bh))
    ensures OnBuffer(t, bh) == OnBuffer(s, bh) + WritesBy(step, bh)
  {
    if Concerns(step, bh) {
      WriteAdds(s, bh, step.accounts, step.bsize, step.queue);
    } else {
      OthersLeaveBuffer(s, step, t, bh);
    }
  }

  /** The accounts that wrote to the buffer in steps i to k - 1. */
  ghost function Writers(steps: seq<Step>, i: nat, k: nat, bh: nat): set<int>
    requires i <= k <= |steps|
  {
    if i == k then {}
    else Writers(steps, i, k - 1, bh) + WritesBy(steps[k - 1], bh)
  }

  ghost predicate Written(steps: seq<Step>, i: nat, k: nat, bh: nat)
    requires k <= |steps|
  {
    exists j :: i <= j < k && steps[j].Dirty? && steps[j].bh == bh
  }

  /** Since state i the buffer had no list, and none was taken from it. */
  ghost predicate Clean(states: seq<State>, steps: seq<Step>, i: nat, k: nat, bh: nat)
    requires |states| == |steps| + 1 && i <= k <= |steps|
  {
    && bh < |states[i].bhs| && states[i].bhs[bh].None?
    && forall j :: i <= j < k ==> !((steps[j].Move? || steps[j].Free?) && steps[j].bh == bh)
  }

  /** A buffer's list names exactly the accounts that wrote to the buffer since it had none. */
  lemma {:induction false} BufferNamesItsWriters(states: seq<State>, steps: seq<Step>, i: nat, k: nat, bh: nat)
    requires IsRun(states, steps) && i <= k <= |steps| && Clean(states, steps, i, k, bh)
    ensures bh < |states[k].bhs| && (states[k].bhs[bh].Some? <==> Written(steps, i, k, bh))
    ensures OnBuffer(states[k], bh) == Writers(steps, i, k, bh)
    decreases k
  {
    if i < k {
      BufferNamesItsWriters(states, steps, i, k - 1, bh);
      assert Owned(states[k - 1]) && Apart(states[k - 1]) by { RunIsSound(states, steps, k - 1); }
      assert Owned(states[k]) by { RunIsSound(states, steps, k); }
      assert StepTaken(states, steps, k - 1);
      BufferStep(states[k - 1], steps[k - 1], states[k], bh);
      WrittenSoFar(steps, i, k, bh);
    }
  }

  lemma WrittenSoFar(steps: seq<Step>, i: nat, k: nat, bh: nat)
    requires i < k <= |steps|
    ensures Written(steps, i, k, bh) <==> Written(steps, i, k - 1, bh) || (steps[k - 1].Dirty? && steps[k - 1].bh == bh)
  {
    if steps[k - 1].Dirty? && steps[k - 1].bh == bh { assert i <= k - 1 < k; }
  }

  // ----- Handing over -----------------------------------------------------

  /** Bio d is bio c with one list more, of these accounts and this size. */
  ghost predicate GivenTo(c: CLL, d: CLL, l: int, accounts: set<int>, bsize: int) {
    && d.items == c.items + [l] && d.size == c.size + bsize && d.capacity == c.capacity
    && Members(d.uniq) == Members(c.uniq) + accounts
  }

  /**
   * Handing a buffer's list over empties the buffer, and adds the list, its accounts and the buffer's
   * size to the bio exactly if the bio has room; otherwise the bio is as it was and the causes are lost.
   */
  lemma MoveHandsOver(s: State, bh: nat, bio: nat, bsize: int, capacity: nat)
    requires Sound(s) && Enabled(s, Move(bh, bio, bsize, capacity)) && s.bhs[bh].Some?
    ensures var t, c, l := MoveToBio(s, bh, bio, bsize, capacity), CllOr(s.bios[bio], capacity), s.bhs[bh].value;
      && t.bhs == s.bhs[bh := None] && t.bios[bio].Some?
      && (|c.items| < c.capacity ==> GivenTo(c, t.bios[bio].value, l, OnBuffer(s, bh), bsize))
      && (|c.items| >= c.capacity ==> t.bios[bio].value == c)
      && (forall b :: 0 <= b < |s.bios| && b != bio ==> t.bios[b] == s.bios[b])
  {
    var c, l := CllOr(s.bios[bio], capacity), s.bhs[bh].value;
    assert |c.items| <= c.capacity && NoDup(c.uniq) by {
      if s.bios[bio].Some? { assert Knows(s.h, s.bios[bio].value); }
    }
    if |c.items| < c.capacity {
      assert !InBio(s.bios, l);
      assert s.bios[bio].Some? ==> l !in s.bios[bio].value.items;
      CopyMembers(s.h.lists[l].items, c.uniq);
    }
  }

  /** Data nobody wrote adds its size to a bio with room, and no account; no buffer changes. */
  lemma ZeroBlamesNobody(s: State, bio: nat, size: int, capacity: nat)
    requires Sound(s) && Enabled(s, Zero(bio, size, capacity))
    ensures var t, c := AddZero(s, bio, size, capacity), CllOr(s.bios[bio], capacity);
      && t.bhs == s.bhs && t.bios[bio].Some?
      && (|c.items| < c.capacity ==> GivenTo(c, t.bios[bio].value, s.h.nextId, {}, size))
      && (|c.items| >= c.capacity ==> t.bios[bio].value == c)
  {
    var c := CllOr(s.bios[bio], capacity);
    assert |c.items| <= c.capacity && NoDup(c.uniq) by {
      if s.bios[bio].Some? { assert Knows(s.h, s.bios[bio].value); }
    }
    CopyMembers([], c.uniq);
  }

  /** The bio that a step hands a list to, as it stands. */
  function Receiver(s: State, step: Step): CLL
    requires step.Move?
  {
    if step.bio < |s.bios| then CllOr(s.bios[step.bio], step.capacity) else NewCll(step.capacity)
  }

  /**
   * Nobody who wrote is forgotten and nobody else is blamed: when the list of a buffer that was clean at
   * state i is handed over at step k to a bio with room, the bio gains exactly the accounts that wrote.
   */
  lemma WritersReachTheBio(states: seq<State>, steps: seq<Step>, i: nat, k: nat, bh: nat)
    requires IsRun(states, steps) && i <= k < |steps| && Clean(states, steps, i, k, bh) && Written(steps, i, k, bh)
    requires steps[k].Move? && steps[k].bh == bh
    requires |Receiver(states[k], steps[k]).items| < Receiver(states[k], steps[k]).capacity
    ensures var c, d := Receiver(states[k], steps[k]), Receiver(states[k + 1], steps[k]);
      && bh < |states[k + 1].bhs| && states[k + 1].bhs[bh].None?
      && d.size == c.size + steps[k].bsize && Members(d.uniq) == Members(c.uniq) + Writers(steps, i, k, bh)
  {
    BufferNamesItsWriters(states, steps, i, k, bh);
    assert Sound(states[k]) by { RunIsSound(states, steps, k); }
    assert StepTaken(states, steps, k);
    MoveHandsOver(states[k], bh, steps[k].bio, steps[k].bsize, steps[k].capacity);
  }
}
