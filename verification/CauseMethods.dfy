/** The routines of cause_tags.c, buffer.c and elevator.c that change lists in place. */
module CauseMethods {
  import opened Lists
  import opened CauseTags
  import opened CauseRuns

  /** __cause_list_add: look for the account, append it if it is not there; says how many were added. */
  method ListAdd(items: seq<int>, account: int) returns (r: seq<int>, added: nat)
    ensures r == AddAccount(items, account) && added == |r| - |items|
    ensures account in r && (added == 0 <==> account in items)
  {
    var i := 0;
    while i < |items|
      invariant 0 <= i <= |items| && account !in items[..i]
    {
      if items[i] == account {
        return items, 0;
      }
      i := i + 1;
    }
    r, added := items + [account], 1;
  }

  /** cause_list_copy: add every account of one list to another; says how many were new. */
  method ListCopy(from: seq<int>, to: seq<int>) returns (r: seq<int>, added: nat)
    ensures r == CopyAccounts(from, to) && added == |r| - |to|
  {
    var i := 0;
    r, added := to, 0;
    while i < |from|
      invariant 0 <= i <= |from| && r == CopyAccounts(from[..i], to) && added == |r| - |to|
    {
      assert from[..i + 1][..i] == from[..i];
      var more;
      r, more := ListAdd(r, from[i]);
      added, i := added + more, i + 1;
    }
    assert from[..i] == from;
  }

  class Tagger {
    var st: State

    constructor ()
      ensures st == Start && Sound(st)
    {
      StartIsSound();
      st := Start;
    }

    method GetCauseList(l: int)
      requires l in st.h.lists
      modifies this
      ensures st == old(st).(h := GetRef(old(st).h, l))
    {
      var cl := st.h.lists[l];
      st := st.(h := st.h.(lists := st.h.lists[l := cl.(refs := cl.refs + 1)]));
    }

    method FreeCauseList(l: int)
      requires l in st.h.lists
      modifies this
      ensures st == old(st).(h := FreeList(old(st).h, l))
    {
      var cl := st.h.lists[l];
      if cl.callback {
        if SchedUniq(st.h.epoch) == SchedUniq(cl.stamp) {
          st := st.(h := st.h.(hooks := st.h.hooks + [Hook(l, cl.stamp, st.h.epoch)]));
        }
      }
      st := st.(h := st.h.(lists := st.h.lists - {l}, freed := st.h.freed + [l]));
    }

    /** Drop a reference; the last one frees the list. */
    method PutCauseList(l: int)
      modifies this
      ensures st == old(st).(h := PutRef(old(st).h, l))
    {
      if l !in st.h.lists { return; }
      var cl := st.h.lists[l];
      if cl.refs == 1 {
        FreeCauseList(l);
      } else {
        st := st.(h := st.h.(lists := st.h.lists[l := cl.(refs := cl.refs - 1)]));
      }
    }

    method NewCauseList() returns (l: int)
      modifies this
      ensures st == old(st).(h := NewList(old(st).h, 0)) && l == old(st).h.nextId
    {
      l := st.h.nextId;
      st := st.(h := st.h.(lists := st.h.lists[l := CL(1, [], 0, false, 0)], nextId := l + 1));
    }

    /** The hook in __block_commit_write. */
    method CommitWrite(bh: nat, accounts: seq<int>, bsize: int, queue: bool)
      requires Sound(st) && bh < |st.bhs|
      modifies this
      ensures Sound(st) && Enabled(old(st), Dirty(bh, accounts, bsize, queue))
      ensures st == DirtyBh(old(st), bh, accounts, bsize, queue)
    {
      if st.bhs[bh].Some? { BhIsLive(st, bh); }
      NextIsSound(st, Dirty(bh, accounts, bsize, queue), DirtyBh(st, bh, accounts, bsize, queue));
      if st.bhs[bh].None? {
        var n := NewCauseList();
        st := st.(bhs := st.bhs[bh := Some(n)]);
      }
      var l := st.bhs[bh].value;
      var cl := st.h.lists[l];
      var items, added := ListCopy(accounts, cl.items);
      cl := cl.(items := items);
      if queue && added != 0 {
        if !cl.callback {
          cl := cl.(callback := true, stamp := st.h.epoch, size := bsize);
        }
      }
      st := st.(h := st.h.(lists := st.h.lists[l := cl]));
    }

    /** cause_list_list_add, on the bio's own record c. */
    method ListListAdd(c: CLL, l: int) returns (d: CLL)
      requires l in st.h.lists
      modifies this
      ensures st == old(st).(h := CllAdd(old(st).h, c, l)) && d == CllWith(c, l, old(st).h.lists[l])
    {
      if |c.items| == c.capacity { return c; }
      d := c;
      if |c.items| == 0 || l != c.items[|c.items| - 1] {
        var uniq, _ := ListCopy(st.h.lists[l].items, d.uniq);
        d := d.(uniq := uniq);
      }
      var size := st.h.lists[l].size;
      GetCauseList(l);
      d := d.(items := d.items + [l], size := d.size + size);
    }

    method MoveCausesBhToBio(bh: nat, bio: nat, bsize: int, capacity: nat)
      requires Sound(st) && bh < |st.bhs| && bio < |st.bios|
      modifies this
      ensures Sound(st) && Enabled(old(st), Move(bh, bio, bsize, capacity))
      ensures st == MoveToBio(old(st), bh, bio, bsize, capacity)
    {
      if st.bhs[bh].Some? { BhIsLive(st, bh); }
      NextIsSound(st, Move(bh, bio, bsize, capacity), MoveToBio(st, bh, bio, bsize, capacity));
      if st.bhs[bh].None? { return; }
      var l := st.bhs[bh].value;
      var c := if st.bios[bio].Some? then st.bios[bio].value else NewCll(capacity);
      st := st.(h := st.h.(lists := st.h.lists[l := st.h.lists[l].(size := bsize)]));
      var d := ListListAdd(c, l);
      st := st.(bios := st.bios[bio := Some(d)]);
      PutCauseList(l);
      st := st.(bhs := st.bhs[bh := None]);
    }

    /** A new list of the given size goes to the bio, which alone keeps it. */
    method AddEmptyList(bio: nat, size: int, capacity: nat)
      requires bio < |st.bios|
      modifies this
      ensures st == AddZero(old(st), bio, size, capacity)
    {
      var c := if st.bios[bio].Some? then st.bios[bio].value else NewCll(capacity);
      var l := NewCauseList();
      st := st.(h := st.h.(lists := st.h.lists[l := st.h.lists[l].(size := size)]));
      assert st.h.lists == NewList(old(st).h, size).lists;
      var d := ListListAdd(c, l);
      st := st.(bios := st.bios[bio := Some(d)]);
      PutCauseList(l);
    }

    method AddCausesZeroToBio(bio: nat, size: int, capacity: nat)
      requires Sound(st) && bio < |st.bios|
      modifies this
      ensures Sound(st) && st == AddZero(old(st), bio, size, capacity)
    {
      ghost var t := AddZero(st, bio, size, capacity);
      assert Sound(t) by { NextIsSound(st, Zero(bio, size, capacity), t); }
      AddEmptyList(bio, size, capacity);
    }

    /** Put each of the lists in turn. */
    method PutEach(items: seq<int>)
      modifies this
      ensures st == old(st).(h := PutAll(old(st).h, items))
    {
      var i := 0;
      while i < |items|
        invariant 0 <= i <= |items|
        invariant st == old(st).(h := PutAll(old(st).h, items[..i]))
      {
        assert items[..i + 1][..i] == items[..i];
        PutCauseList(items[i]);
        i := i + 1;
      }
      assert items[..i] == items;
    }

    /** del_cause_list_list: put every list of the bio. */
    method DelCauseListList(bio: nat)
      requires Sound(st) && bio < |st.bios|
      modifies this
      ensures Sound(st) && st == DelBio(old(st), bio)
    {
      ghost var t := DelBio(st, bio);
      assert Sound(t) by { NextIsSound(st, Delete(bio), t); }
      if st.bios[bio].None? { return; }
      PutEach(st.bios[bio].value.items);
      st := st.(bios := st.bios[bio := None]);
      assert st == t;
    }

    /** free_buffer_head drops the buffer's reference. */
    method FreeBuffer(bh: nat)
      requires Sound(st) && bh < |st.bhs|
      modifies this
      ensures Sound(st) && st == FreeBh(old(st), bh)
    {
      NextIsSound(st, Free(bh), FreeBh(st, bh));
      if st.bhs[bh].None? { return; }
      PutCauseList(st.bhs[bh].value);
      st := st.(bhs := st.bhs[bh := None]);
    }

    /** A holder outside buffers and bios takes a reference, or drops one. */
    method Hold(l: int)
      requires Sound(st) && l in st.h.lists
      modifies this
      ensures Sound(st) && st == GetElsewhere(old(st), l)
    {
      NextIsSound(st, Get(l), GetElsewhere(st, l));
      GetCauseList(l);
      st := st.(ext := st.ext + multiset{l});
    }

    method Release(l: int)
      requires Sound(st) && l in st.ext
      modifies this
      ensures Sound(st) && st == PutElsewhere(old(st), l)
    {
      NextIsSound(st, Put(l), PutElsewhere(st, l));
      PutCauseList(l);
      st := st.(ext := st.ext - multiset{l});
    }

    /** The scheduler took a bio's i-th list to the disk: no refund from now on. */
    method ClearCallback(bio: nat, i: nat)
      requires Sound(st) && bio < |st.bios| && st.bios[bio].Some? && i < |st.bios[bio].value.items|
      modifies this
      ensures Sound(st) && Enabled(old(st), Dispatch(bio, i)) && st == DispatchList(old(st), bio, i)
    {
      var l := st.bios[bio].value.items[i];
      BioIsLive(st, bio, l);
      NextIsSound(st, Dispatch(bio, i), DispatchList(st, bio, i));
      st := st.(h := st.h.(lists := st.h.lists[l := st.h.lists[l].(callback := false)]), dispatched := st.dispatched + {l});
    }

    /** elevator_switch: a new generation. */
    method SwitchElevator()
      requires Sound(st)
      modifies this
      ensures Sound(st) && st == Switched(old(st))
    {
      ghost var t := Switched(st);
      assert Sound(t) by { NextIsSound(st, SwitchScheduler, t); }
      st := st.(h := st.h.(epoch := st.h.epoch + 1));
      assert st == t;
    }
  }
}
