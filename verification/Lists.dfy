/** Duplicate-free lists of ids, kept in order of a key: what the schedulers' lists and trees are. */
module Lists {
  import opened Seqs

  datatype Option<+T> = None | Some(value: T)

  /** Delete an element, if it is there. */
  function Without(s: seq<int>, x: int): seq<int> {
    if s == [] then [] else if s[0] == x then s[1..] else [s[0]] + Without(s[1..], x)
  }

  /** The element after x, as rb_next finds it. */
  function Latter(s: seq<int>, x: int): Option<int> {
    if s == [] then None
    else if s[0] == x then if |s| > 1 then Some(s[1]) else None
    else Latter(s[1..], x)
  }

  /** Put x right after `at`, as list_move does. */
  function InsertAfter(s: seq<int>, at: int, x: int): seq<int> {
    if s == [] then [x] else if s[0] == at then [at, x] + s[1..] else [s[0]] + InsertAfter(s[1..], at, x)
  }

  function Key(keys: map<int, int>, x: int): int {
    if x in keys then keys[x] else 0
  }

  /** Put x before the first element with a larger key, as elv_rb_add does. */
  function InsertByKey(keys: map<int, int>, s: seq<int>, x: int): seq<int> {
    if s == [] || Key(keys, x) < Key(keys, s[0]) then [x] + s
    else [s[0]] + InsertByKey(keys, s[1..], x)
  }

  ghost predicate SortedBy(keys: map<int, int>, s: seq<int>) {
    forall i, j :: 0 <= i < j < |s| ==> Key(keys, s[i]) <= Key(keys, s[j])
  }

  lemma {:induction false} WithoutMembers(s: seq<int>, x: int)
    requires NoDup(s)
    ensures NoDup(Without(s, x))
    ensures forall y :: y in Without(s, x) <==> y in s && y != x
    ensures |Without(s, x)| == if x in s then |s| - 1 else |s|
  {
    if s != [] {
      assert s == [s[0]] + s[1..];
      WithoutMembers(s[1..], x);
      assert s[0] !in s[1..];
    }
  }

  lemma {:induction false} WithoutSorted(keys: map<int, int>, s: seq<int>, x: int)
    requires SortedBy(keys, s)
    ensures SortedBy(keys, Without(s, x))
    ensures s != [] ==> forall i :: 0 <= i < |Without(s, x)| ==> Key(keys, s[0]) <= Key(keys, Without(s, x)[i])
  {
    if s != [] && s[0] != x {
      WithoutSorted(keys, s[1..], x);
    }
  }

  lemma {:induction false} LatterIsMember(s: seq<int>, x: int)
    requires NoDup(s)
    ensures Latter(s, x).Some? ==> Latter(s, x).value in s && Latter(s, x).value != x
  {
    if s != [] && s[0] != x { LatterIsMember(s[1..], x); }
  }

  lemma {:induction false} InsertAfterMembers(s: seq<int>, at: int, x: int)
    requires NoDup(s) && x !in s
    ensures NoDup(InsertAfter(s, at, x))
    ensures forall y :: y in InsertAfter(s, at, x) <==> y in s || y == x
  {
    if s != [] {
      assert s == [s[0]] + s[1..];
      if s[0] != at { InsertAfterMembers(s[1..], at, x); }
      assert s[0] !in s[1..];
    }
  }

  lemma {:induction false} InsertAfterSorted(keys: map<int, int>, s: seq<int>, at: int, x: int)
    requires SortedBy(keys, s) && at in s && Key(keys, x) == Key(keys, at)
    ensures SortedBy(keys, InsertAfter(s, at, x))
    ensures forall i :: 0 <= i < |InsertAfter(s, at, x)| ==> Key(keys, s[0]) <= Key(keys, InsertAfter(s, at, x)[i])
  {
    if s[0] == at {
      assert InsertAfter(s, at, x) == [at, x] + s[1..];
    } else {
      assert at in s[1..];
      InsertAfterSorted(keys, s[1..], at, x);
    }
  }

  lemma {:induction false} InsertByKeyMembers(keys: map<int, int>, s: seq<int>, x: int)
    requires NoDup(s) && x !in s
    ensures NoDup(InsertByKey(keys, s, x))
    ensures forall y :: y in InsertByKey(keys, s, x) <==> y in s || y == x
  {
    if s != [] {
      assert s == [s[0]] + s[1..];
      if Key(keys, x) >= Key(keys, s[0]) { InsertByKeyMembers(keys, s[1..], x); }
      assert s[0] !in s[1..];
    }
  }

  lemma {:induction false} InsertByKeySorted(keys: map<int, int>, s: seq<int>, x: int)
    requires SortedBy(keys, s)
    ensures SortedBy(keys, InsertByKey(keys, s, x))
    ensures forall i :: 0 <= i < |InsertByKey(keys, s, x)| ==>
      (s != [] && Key(keys, s[0]) <= Key(keys, InsertByKey(keys, s, x)[i]))
      || Key(keys, x) <= Key(keys, InsertByKey(keys, s, x)[i])
  {
    if s != [] && Key(keys, x) >= Key(keys, s[0]) {
      InsertByKeySorted(keys, s[1..], x);
    }
  }

  /** Keys that agree on the listed ids sort them alike. */
  lemma SortedBySame(keys: map<int, int>, keys': map<int, int>, s: seq<int>)
    requires SortedBy(keys, s)
    requires forall x :: x in s ==> Key(keys', x) == Key(keys, x)
    ensures SortedBy(keys', s)
  {
  }

  lemma {:induction false} SameMembersSameLength(s: seq<int>, t: seq<int>)
    requires NoDup(s) && NoDup(t) && forall y :: y in s <==> y in t
    ensures |s| == |t|
  {
    if s == [] {
      var y := if t == [] then 0 else t[0];
      assert t == [] || y in t;
    } else {
      var x := s[0];
      assert s == [x] + s[1..];
      WithoutMembers(t, x);
      assert x !in s[1..];
      SameMembersSameLength(s[1..], Without(t, x));
    }
  }
}
