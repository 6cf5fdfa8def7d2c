/**
 * How the AFQ scheduler (modules/acct_afq_sched.c) picks work: accounts with pending work
 * compete by a virtual counter that grows with what they are served.
 */
module AfqSelect {
  import opened Seqs
  import opened Lists
  import opened TbAccount

  const HZ := 250
  const MAX_VIO := 0x7FFF_FFFF_FFFF_FFFF / 4
  const TOTAL_SHARE := 840
  const SLICE_IDLE := HZ / 50
  const MAX_SLICE := HZ / 4
  const MAX_SLEEP := 300 * HZ
  const SEQ_THRESHOLD := 12
  const MAX_BATCH_SIZE := 100
  const MIN_BATCH_SIZE := 5

  datatype Kind = SysWrite | SysFsync | SysMkdir | ReadReq | WriteReq

  datatype Work = Work(id: int, acct: int, kind: Kind)

  datatype Acct = Acct(works: seq<Work>, vio: int, prio: int, seqCounter: int, lastEnd: int, sliceEnd: int)

  /** The accounts, which of them are on the active list, and the least counters found so far. */
  datatype Sel = Sel(accts: map<int, Acct>, active: seq<int>, lastServed: Option<int>,
                     globalMin: int, globalMin2: int, minAcct: Option<int>)

  predicate Pending(s: Sel, id: int) {
    id in s.accts && s.accts[id].works != []
  }

  /** The active list holds exactly the accounts with pending work, once each. */
  ghost predicate ActiveOk(s: Sel) {
    && NoDup(s.active)
    && (forall id :: id in s.active <==> Pending(s, id))
    && (s.lastServed.Some? ==> s.lastServed.value in s.accts)
  }

  ghost predicate OwnWorks(id: int, ws: seq<Work>) {
    forall k :: 0 <= k < |ws| ==> ws[k].acct == id
  }

  /** Every work waits with its own account. */
  ghost predicate WorksOk(s: Sel) {
    forall id :: id in s.accts ==> OwnWorks(id, s.accts[id].works)
  }

  /** No counter is past the point where all are reset. */
  ghost predicate VioOk(s: Sel) {
    s.globalMin2 <= MAX_VIO && forall id :: id in s.accts ==> s.accts[id].vio <= MAX_VIO
  }

  ghost predicate Ok(s: Sel) { ActiveOk(s) && WorksOk(s) && VioOk(s) }

  // ----- Adding work, charging --------------------------------------------

  /** An account that slept long starts again level with the others. */
  function AddWork(s: Sel, id: int, w: Work, now: int): Sel
    requires id in s.accts
  {
    var a := s.accts[id];
    var woken := a.works == [] && a.lastEnd + MAX_SLEEP < now;
    var b := a.(works := a.works + [w], vio := if woken then s.globalMin2 else a.vio);
    s.(accts := s.accts[id := b], active := if a.works == [] then s.active + [id] else s.active)
  }

  /** The account did something lately, and is not the default one. */
  predicate Awake(s: Sel, id: int, now: int) {
    id != 0 && id in s.accts && now < s.accts[id].lastEnd + MAX_SLEEP / 15
  }

  /** The first account in the hash with the smallest counter among those awake, below the threshold. */
  function AwakeMin(s: Sel, ids: seq<int>, now: int): Option<int> {
    if ids == [] then None
    else
      var front, last := AwakeMin(s, ids[..|ids| - 1], now), ids[|ids| - 1];
      if Awake(s, last, now) && Vio(s, last) < (if front.Some? then Vio(s, front.value) else MAX_VIO)
      then Some(last) else front
  }

  /** update_active_min, going through the hash in the order `ids`. */
  function UpdateMin(s: Sel, ids: seq<int>, now: int): Sel {
    match AwakeMin(s, ids, now)
    case None => s
    case Some(m) => s.(globalMin2 := Vio(s, m), minAcct := Some(m))
  }

  function ResetAll(s: Sel): Sel {
    s.(accts := map k | k in s.accts :: s.accts[k].(vio := 0), globalMin := 0, globalMin2 := 0)
  }

  function Stride(prio: int): int { if prio == 0 then 1 else prio }

  function Bumped(s: Sel, id: int): Sel
    requires id in s.accts
  {
    var a := s.accts[id];
    s.(accts := s.accts[id := a.(vio := a.vio + SafeDiv(TOTAL_SHARE, Stride(a.prio)))])
  }

  /** add_vio_counter, which ignores the quantity it is given. */
  function Charge(s: Sel, id: int, ids: seq<int>, now: int): Sel
    requires id in s.accts
  {
    var t := Bumped(s, id);
    var u := if t.minAcct == Some(id) || t.minAcct == None then UpdateMin(t, ids, now) else t;
    if Vio(u, id) > MAX_VIO then ResetAll(u) else u
  }

  lemma AddWorkKeeps(s: Sel, id: int, w: Work, now: int)
    requires id in s.accts && w.acct == id && Ok(s)
    ensures var t := AddWork(s, id, w, now); Ok(t)
  {
    var t := AddWork(s, id, w, now);
    forall k ensures k in t.active <==> Pending(t, k) {
      assert k in s.active <==> Pending(s, k);
    }
    assert s.accts[id].works == [] ==> id !in s.active;
  }

  /** update_active_min finds a least counter among those awake, and leaves things alone if there is none. */
  lemma {:induction false} AwakeMinIsMin(s: Sel, ids: seq<int>, now: int)
    ensures var m := AwakeMin(s, ids, now);
      && (m.None? <==> forall i :: 0 <= i < |ids| && Awake(s, ids[i], now) ==> Vio(s, ids[i]) >= MAX_VIO)
      && (m.Some? ==> m.value in ids && Awake(s, m.value, now) && Vio(s, m.value) < MAX_VIO
                      && forall i :: 0 <= i < |ids| && Awake(s, ids[i], now) ==> Vio(s, m.value) <= Vio(s, ids[i]))
  {
    if ids != [] {
      AwakeMinIsMin(s, ids[..|ids| - 1], now);
      var m := AwakeMin(s, ids[..|ids| - 1], now);
      if m.Some? { assert m.value in ids[..|ids| - 1]; assert m.value in ids; }
      assert ids[|ids| - 1] in ids;
    }
  }

  lemma UpdateMinKeeps(s: Sel, ids: seq<int>, now: int)
    requires ActiveOk(s) && WorksOk(s) && s.globalMin2 <= MAX_VIO
    ensures var t := UpdateMin(s, ids, now);
      ActiveOk(t) && WorksOk(t) && t.globalMin2 <= MAX_VIO && t.accts == s.accts && t.active == s.active
  {
    AwakeMinIsMin(s, ids, now);
    forall k ensures Pending(UpdateMin(s, ids, now), k) <==> Pending(s, k) { }
  }

  lemma ResetKeeps(s: Sel)
    requires ActiveOk(s) && WorksOk(s)
    ensures Ok(ResetAll(s))
  {
    forall k ensures Pending(ResetAll(s), k) <==> Pending(s, k) { }
  }

  lemma BumpKeeps(s: Sel, id: int)
    requires id in s.accts && Ok(s)
    ensures ActiveOk(Bumped(s, id)) && WorksOk(Bumped(s, id)) && Bumped(s, id).globalMin2 <= MAX_VIO
    ensures forall k :: k in s.accts && k != id ==> Bumped(s, id).accts[k].vio <= MAX_VIO
  {
    forall k ensures Pending(Bumped(s, id), k) <==> Pending(s, k) { }
  }

  /** Charging keeps every counter at or below the threshold: the one that passes it resets them all. */
  lemma ChargeKeeps(s: Sel, id: int, ids: seq<int>, now: int)
    requires id in s.accts && Ok(s)
    ensures Ok(Charge(s, id, ids, now))
  {
    var t := Bumped(s, id);
    BumpKeeps(s, id);
    var u := if t.minAcct == Some(id) || t.minAcct == None then UpdateMin(t, ids, now) else t;
    assert ActiveOk(u) && WorksOk(u) && u.globalMin2 <= MAX_VIO && u.accts == t.accts by { UpdateMinKeeps(t, ids, now); }
    if Vio(u, id) > MAX_VIO { ResetKeeps(u); }
  }

  /** Charging and looking for the least counter move no work. */
  lemma ChargeKeepsWorks(s: Sel, id: int, ids: seq<int>, now: int, k: int)
    requires id in s.accts
    ensures WorksOf(Charge(s, id, ids, now), k) == WorksOf(s, k)
    ensures WorksOf(UpdateMin(s, ids, now), k) == WorksOf(s, k)
  {
  }

  // ----- Choosing an account ----------------------------------------------

  function Vio(s: Sel, id: int): int { if id in s.accts then s.accts[id].vio else 0 }

  /** The first account with the smallest counter below `bound`, scanning the list from the front. */
  function MinAcct(s: Sel, active: seq<int>, bound: int): Option<int> {
    if active == [] then None
    else
      var front, last := MinAcct(s, active[..|active| - 1], bound), active[|active| - 1];
      if Vio(s, last) < (if front.Some? then Vio(s, front.value) else bound) then Some(last) else front
  }

  lemma {:induction false} MinAcctIsMin(s: Sel, active: seq<int>, bound: int)
    ensures var m := MinAcct(s, active, bound);
      && (m.None? <==> forall i :: 0 <= i < |active| ==> Vio(s, active[i]) >= bound)
      && (m.Some? ==> m.value in active && Vio(s, m.value) < bound
                      && forall i :: 0 <= i < |active| ==> Vio(s, m.value) <= Vio(s, active[i]))
  {
    if active != [] {
      MinAcctIsMin(s, active[..|active| - 1], bound);
      var m := MinAcct(s, active[..|active| - 1], bound);
      if m.Some? { assert m.value in active[..|active| - 1]; assert m.value in active; }
      assert active[|active| - 1] in active;
    }
  }

  // ----- Rounds -----------------------------------------------------------

  /** How many works a round takes from an account, given how many the batch already has. */
  function Taken(s: Sel, m: int, size: nat): nat
    requires m in s.accts && size < MAX_BATCH_SIZE
  {
    Min(|s.accts[m].works|, MAX_BATCH_SIZE - size)
  }

  /** Move works from the account to the batch; an account left with none leaves the active list. */
  function TakeFrom(s: Sel, m: int, size: nat): Sel
    requires m in s.accts && size < MAX_BATCH_SIZE
  {
    var a := s.accts[m];
    var rest := a.works[Taken(s, m, size)..];
    s.(accts := s.accts[m := a.(works := rest)], active := if rest == [] then Without(s.active, m) else s.active)
  }

  function Serve(s: Sel, m: int, now: int): Sel
    requires m in s.accts
  {
    s.(lastServed := Some(m), globalMin := s.accts[m].vio,
       accts := s.accts[m := s.accts[m].(sliceEnd := now + MAX_SLICE)])
  }

  datatype Outcome = Error(s: Sel) | NoWork(s: Sel) | Batch(s: Sel, works: seq<Work>, picks: seq<int>)

  /** Rounds of least-served accounts, until the batch is worth submitting. */
  function Rounds(s: Sel, works: seq<Work>, picks: seq<int>, now: int): Outcome
    requires ActiveOk(s) && |works| < MIN_BATCH_SIZE
    decreases |s.active|
  {
    MinAcctIsMin(s, s.active, MAX_VIO * 2);
    match MinAcct(s, s.active, MAX_VIO * 2)
    case None => if picks == [] then Error(s) else Batch(s, works, picks)
    case Some(m) =>
      assert Pending(s, m);
      var t := Serve(s, m, now);
      var more := works + t.accts[m].works[..Taken(t, m, |works|)];
      var u := TakeFrom(t, m, |works|);
      RoundShrinks(s, m, now, |works|);
      if |more| < MIN_BATCH_SIZE && u.accts[m].seqCounter < SEQ_THRESHOLD
      then Rounds(u, more, picks + [m], now)
      else Batch(u, more, picks + [m])
  }

  /** A round keeps the active list exact, and one that leaves the batch small empties its account. */
  lemma RoundShrinks(s: Sel, m: int, now: int, size: nat)
    requires ActiveOk(s) && Pending(s, m) && size < MAX_BATCH_SIZE
    ensures var t := Serve(s, m, now);
      var u := TakeFrom(t, m, size);
      && ActiveOk(u)
      && 0 < Taken(t, m, size)
      && (size + Taken(t, m, size) < MAX_BATCH_SIZE ==> u.accts[m].works == [] && |u.active| < |s.active|)
  {
    var t := Serve(s, m, now);
    var u := TakeFrom(t, m, size);
    WithoutMembers(s.active, m);
    assert m in s.active;
    forall id ensures id in u.active <==> Pending(u, id) {
      assert id in s.active <==> Pending(s, id);
    }
  }

  /** A sequential account that is in its slice is waited for, and served alone. */
  predicate IdleForLast(s: Sel, now: int) {
    && s.lastServed.Some? && s.lastServed.value in s.accts
    && var a := s.accts[s.lastServed.value];
       now < a.lastEnd + SLICE_IDLE && now < a.sliceEnd && a.seqCounter >= SEQ_THRESHOLD
  }

  function Select(s: Sel, now: int): Outcome
    requires ActiveOk(s)
  {
    if s.active == [] then NoWork(s)
    else if IdleForLast(s, now) then
      var m := s.lastServed.value;
      if s.accts[m].works == [] then NoWork(s)
      else Batch(TakeFrom(s, m, 0), s.accts[m].works[..Taken(s, m, 0)], [m])
    else Rounds(s, [], [], now)
  }

  // ----- What a selection promises ----------------------------------------

  /** The works of account `id` in a batch, in order. */
  function Mine(ws: seq<Work>, id: int): seq<Work> {
    if ws == [] then []
    else
      var last := ws[|ws| - 1];
      Mine(ws[..|ws| - 1], id) + (if last.acct == id then [last] else [])
  }

  function WorksOf(s: Sel, id: int): seq<Work> { if id in s.accts then s.accts[id].works else [] }

  lemma {:induction false} MineConcat(a: seq<Work>, b: seq<Work>, id: int)
    ensures Mine(a + b, id) == Mine(a, id) + Mine(b, id)
  {
    if b == [] {
      assert a + b == a;
    } else {
      assert (a + b)[..|a + b| - 1] == a + b[..|b| - 1];
      MineConcat(a, b[..|b| - 1], id);
    }
  }

  lemma {:induction false} MineOfOwn(ws: seq<Work>, m: int, id: int)
    requires OwnWorks(m, ws)
    ensures Mine(ws, id) == if id == m then ws else []
  {
    if ws != [] {
      MineOfOwn(ws[..|ws| - 1], m, id);
      assert ws == ws[..|ws| - 1] + [ws[|ws| - 1]];
    }
  }

  /** What taking works from one account does to every account's queue. */
  lemma TakeConserves(s: Sel, m: int, size: nat, id: int)
    requires m in s.accts && size < MAX_BATCH_SIZE && WorksOk(s)
    ensures var taken := s.accts[m].works[..Taken(s, m, size)];
      WorksOf(s, id) == Mine(taken, id) + WorksOf(TakeFrom(s, m, size), id)
  {
    var works := s.accts[m].works;
    var taken := works[..Taken(s, m, size)];
    MineOfOwn(taken, m, id);
    assert works == taken + works[Taken(s, m, size)..];
    assert [] + WorksOf(s, id) == WorksOf(s, id);
  }

  lemma TakeKeeps(s: Sel, m: int, size: nat)
    requires m in s.accts && size < MAX_BATCH_SIZE && WorksOk(s) && VioOk(s)
    ensures var u := TakeFrom(s, m, size);
      && WorksOk(u) && VioOk(u) && (forall id :: Vio(u, id) == Vio(s, id))
      && (forall id :: id in u.active ==> id in s.active || !NoDup(s.active))
  {
    if NoDup(s.active) { WithoutMembers(s.active, m); }
  }

  /** From `s` on, the batch took `taken` from the front of the queues and nothing else moved. */
  ghost predicate Conserves(s: Sel, t: Sel, taken: seq<Work>) {
    forall id :: WorksOf(s, id) == Mine(taken, id) + WorksOf(t, id)
  }

  lemma ConservesTrans(s: Sel, t: Sel, u: Sel, a: seq<Work>, b: seq<Work>)
    requires Conserves(s, t, a) && Conserves(t, u, b)
    ensures Conserves(s, u, a + b)
  {
    forall id ensures WorksOf(s, id) == Mine(a + b, id) + WorksOf(u, id) {
      MineConcat(a, b, id);
      assert WorksOf(s, id) == Mine(a, id) + WorksOf(t, id);
      assert WorksOf(t, id) == Mine(b, id) + WorksOf(u, id);
      Regroup(Mine(a, id), Mine(b, id), WorksOf(u, id));
    }
  }

  lemma Regroup(a: seq<Work>, b: seq<Work>, c: seq<Work>)
    ensures a + (b + c) == (a + b) + c
  {
  }

  /** Picked accounts are served in order of their counters, and nobody still waiting had a smaller one. */
  ghost predicate LeastServedFirst(t: Sel, picks: seq<int>) {
    && (forall i, j :: 0 <= i < j < |picks| ==> Vio(t, picks[i]) <= Vio(t, picks[j]))
    && (forall i, id :: 0 <= i < |picks| && id in t.active ==> Vio(t, picks[i]) <= Vio(t, id))
  }

  /** Every picked account but the last has nothing left to do. */
  ghost predicate EmptiedButLast(t: Sel, picks: seq<int>) {
    forall i :: 0 <= i < |picks| - 1 ==> !Pending(t, picks[i])
  }

  ghost predicate Kept(s: Sel, t: Sel) {
    && Ok(t)
    && (forall id :: Vio(t, id) == Vio(s, id))
    && (forall id :: id in t.active ==> id in s.active)
  }

  lemma RoundKeeps(s: Sel, m: int, now: int, size: nat)
    requires Ok(s) && Pending(s, m) && size < MAX_BATCH_SIZE
    ensures var t := Serve(s, m, now);
      var taken := t.accts[m].works[..Taken(t, m, size)];
      var u := TakeFrom(t, m, size);
      && Kept(s, u) && Conserves(s, u, taken) && 0 < |taken| <= MAX_BATCH_SIZE - size
  {
    var t := Serve(s, m, now);
    RoundShrinks(s, m, now, size);
    TakeKeeps(t, m, size);
    forall id ensures WorksOf(s, id) == Mine(t.accts[m].works[..Taken(t, m, size)], id) + WorksOf(TakeFrom(t, m, size), id) {
      TakeConserves(t, m, size, id);
      assert WorksOf(t, id) == WorksOf(s, id);
    }
  }

  /** With counters in range, some account can be picked whenever one is active. */
  lemma SomeoneIsLeast(s: Sel)
    requires ActiveOk(s) && VioOk(s) && s.active != []
    ensures MinAcct(s, s.active, MAX_VIO * 2).Some?
    ensures var m := MinAcct(s, s.active, MAX_VIO * 2).value;
      m in s.active && Pending(s, m) && forall id :: id in s.active ==> Vio(s, m) <= Vio(s, id)
  {
    MinAcctIsMin(s, s.active, MAX_VIO * 2);
    var first := s.active[0];
    assert first in s.active;
    assert Pending(s, first);
    var m := MinAcct(s, s.active, MAX_VIO * 2).value;
    forall id | id in s.active ensures Vio(s, m) <= Vio(s, id) {
      var i :| 0 <= i < |s.active| && s.active[i] == id;
    }
  }

  /** What the rounds from `s` on add to a batch. */
  ghost predicate GoodBatch(s: Sel, works: seq<Work>, picks: seq<int>, o: Outcome) {
    && o.Batch? && Kept(s, o.s)
    && works <= o.works && |o.works| <= MAX_BATCH_SIZE
    && Conserves(s, o.s, o.works[|works|..])
    && picks <= o.picks
  }

  ghost predicate GoodPicks(s: Sel, picks: seq<int>, o: Outcome) {
    && o.Batch? && picks <= o.picks
    && LeastServedFirst(o.s, o.picks[|picks|..])
    && EmptiedButLast(o.s, o.picks[|picks|..])
    && (forall i :: |picks| <= i < |o.picks| ==> o.picks[i] in s.active)
  }

  lemma NothingLeft(s: Sel, works: seq<Work>)
    requires Ok(s)
    ensures Kept(s, s) && Conserves(s, s, works[|works|..])
  {
    assert works[|works|..] == [];
    forall id ensures WorksOf(s, id) == Mine([], id) + WorksOf(s, id) { }
  }

  /** One round, whole: whom it picks, what it takes, and how selection goes on from there. */
  lemma OneRound(s: Sel, works: seq<Work>, picks: seq<int>, now: int)
    returns (m: int, u: Sel, taken: seq<Work>, again: bool)
    requires Ok(s) && |works| < MIN_BATCH_SIZE && s.active != []
    ensures m in s.active && forall id :: id in s.active ==> Vio(s, m) <= Vio(s, id)
    ensures Kept(s, u) && Conserves(s, u, taken) && 0 < |taken| && |works + taken| <= MAX_BATCH_SIZE
    ensures again ==> |works + taken| < MIN_BATCH_SIZE && !Pending(u, m) && |u.active| < |s.active|
    ensures Rounds(s, works, picks, now)
         == if again then Rounds(u, works + taken, picks + [m], now) else Batch(u, works + taken, picks + [m])
  {
    SomeoneIsLeast(s);
    m := MinAcct(s, s.active, MAX_VIO * 2).value;
    var t := Serve(s, m, now);
    taken := t.accts[m].works[..Taken(t, m, |works|)];
    u := TakeFrom(t, m, |works|);
    RoundShrinks(s, m, now, |works|);
    RoundKeeps(s, m, now, |works|);
    again := |works + taken| < MIN_BATCH_SIZE && u.accts[m].seqCounter < SEQ_THRESHOLD;
  }

  lemma GoodBatchStep(s: Sel, u: Sel, works: seq<Work>, taken: seq<Work>, picks: seq<int>, m: int, o: Outcome)
    requires Kept(s, u) && Conserves(s, u, taken) && 0 < |taken|
    requires GoodBatch(u, works + taken, picks + [m], o)
    ensures GoodBatch(s, works, picks, o) && |works| < |o.works|
  {
    var more := works + taken;
    ConservesTrans(s, u, o.s, taken, o.works[|more|..]);
    assert o.works[|works|..] == taken + o.works[|more|..];
  }

  lemma {:induction false} RoundsAreGood(s: Sel, works: seq<Work>, picks: seq<int>, now: int)
    requires Ok(s) && |works| < MIN_BATCH_SIZE && (s.active != [] || picks != [])
    ensures GoodBatch(s, works, picks, Rounds(s, works, picks, now))
    ensures s.active != [] ==> |works| < |Rounds(s, works, picks, now).works|
    decreases |s.active|
  {
    if s.active == [] {
      NothingLeft(s, works);
    } else {
      var m, u, taken, again := OneRound(s, works, picks, now);
      var o := Rounds(s, works, picks, now);
      if again { RoundsAreGood(u, works + taken, picks + [m], now); }
      else { NothingLeft(u, works + taken); }
      GoodBatchStep(s, u, works, taken, picks, m, o);
    }
  }

  lemma GoodPicksStep(s: Sel, u: Sel, picks: seq<int>, m: int, o: Outcome)
    requires Kept(s, u) && o.Batch? && Kept(u, o.s) && !Pending(u, m)
    requires m in s.active && forall id :: id in s.active ==> Vio(s, m) <= Vio(s, id)
    requires GoodPicks(u, picks + [m], o)
    ensures GoodPicks(s, picks, o)
  {
    assert o.picks[|picks|..] == [m] + o.picks[|picks + [m]|..];
    PicksCons(s, u, m, o.s, o.picks[|picks|..], o.picks[|picks + [m]|..]);
  }

  lemma LastPick(s: Sel, u: Sel, works: seq<Work>, picks: seq<int>, m: int)
    requires Kept(s, u) && m in s.active && forall id :: id in s.active ==> Vio(s, m) <= Vio(s, id)
    ensures GoodPicks(s, picks, Batch(u, works, picks + [m]))
  {
    assert (picks + [m])[|picks|..] == [m];
  }

  lemma {:induction false} RoundsPickLeast(s: Sel, works: seq<Work>, picks: seq<int>, now: int)
    requires Ok(s) && |works| < MIN_BATCH_SIZE && (s.active != [] || picks != [])
    ensures GoodPicks(s, picks, Rounds(s, works, picks, now))
    decreases |s.active|
  {
    if s.active != [] {
      var m, u, taken, again := OneRound(s, works, picks, now);
      if again {
        RoundsPickLeast(u, works + taken, picks + [m], now);
        RoundsAreGood(u, works + taken, picks + [m], now);
        GoodPicksStep(s, u, picks, m, Rounds(s, works, picks, now));
      } else {
        LastPick(s, u, works + taken, picks, m);
      }
    }
  }

  lemma PicksCons(s: Sel, u: Sel, m: int, t: Sel, all: seq<int>, rest: seq<int>)
    requires Kept(s, u) && Kept(u, t) && all == [m] + rest && m in s.active
    requires forall id :: id in s.active ==> Vio(s, m) <= Vio(s, id)
    requires LeastServedFirst(t, rest) && EmptiedButLast(t, rest)
    requires forall i :: 0 <= i < |rest| ==> rest[i] in u.active
    requires !Pending(u, m)
    ensures LeastServedFirst(t, all) && EmptiedButLast(t, all)
  {
    assert m !in u.active;
    assert m !in t.active;
    forall j | 0 < j < |all| ensures Vio(t, m) <= Vio(t, all[j]) {
      var p := all[j];
      assert p == rest[j - 1];
      assert p in u.active && p in s.active;
    }
  }

  /**
   * Work selection. It never fails; if it finds work it finds 1 to 100 works, takes them from the
   * fronts of the accounts' queues without losing, repeating or reordering any, keeps the active
   * list exact, and, unless it is waiting for a sequential account, serves the least-served first.
   */
  lemma SelectionIsSound(s: Sel, now: int)
    requires Ok(s)
    ensures var o := Select(s, now);
      match o
      case Error(_) => false
      case NoWork(t) => t == s && (s.active == [] || IdleForLast(s, now))
      case Batch(t, works, picks) =>
        && Kept(s, t) && 1 <= |works| <= MAX_BATCH_SIZE && Conserves(s, t, works)
        && (!IdleForLast(s, now) ==> LeastServedFirst(t, picks) && EmptiedButLast(t, picks))
        && (IdleForLast(s, now) ==> picks == [s.lastServed.value])
  {
    if s.active != [] && !IdleForLast(s, now) {
      RoundsAreGood(s, [], [], now);
      RoundsPickLeast(s, [], [], now);
      var o := Rounds(s, [], [], now);
      assert o.works[0..] == o.works && o.picks[0..] == o.picks;
    } else if s.active != [] && Pending(s, s.lastServed.value) {
      IdleTakes(s);
    }
  }

  lemma IdleTakes(s: Sel)
    requires Ok(s) && s.lastServed.Some? && Pending(s, s.lastServed.value)
    ensures var m := s.lastServed.value;
      var taken := s.accts[m].works[..Taken(s, m, 0)];
      Kept(s, TakeFrom(s, m, 0)) && Conserves(s, TakeFrom(s, m, 0), taken) && 0 < |taken| <= MAX_BATCH_SIZE
  {
    var m := s.lastServed.value;
    var u := TakeFrom(s, m, 0);
    TakeKeeps(s, m, 0);
    WithoutMembers(s.active, m);
    forall id ensures id in u.active <==> Pending(u, id) {
      assert id in s.active <==> Pending(s, id);
    }
    forall id ensures WorksOf(s, id) == Mine(s.accts[m].works[..Taken(s, m, 0)], id) + WorksOf(u, id) {
      TakeConserves(s, m, 0, id);
    }
  }

  /** The error return means every waiting account's counter has been set past twice the reset point. */
  lemma SelectionFailsIff(s: Sel, now: int)
    requires ActiveOk(s)
    ensures Select(s, now).Error? <==>
      s.active != [] && !IdleForLast(s, now) && forall i :: 0 <= i < |s.active| ==> Vio(s, s.active[i]) >= MAX_VIO * 2
  {
    MinAcctIsMin(s, s.active, MAX_VIO * 2);
    if s.active != [] && !IdleForLast(s, now) && MinAcct(s, s.active, MAX_VIO * 2).Some? {
      LaterRoundsDoNotFail(s, [], [], now);
    }
  }

  lemma {:induction false} LaterRoundsDoNotFail(s: Sel, works: seq<Work>, picks: seq<int>, now: int)
    requires ActiveOk(s) && |works| < MIN_BATCH_SIZE
    requires picks != [] || MinAcct(s, s.active, MAX_VIO * 2).Some?
    ensures !Rounds(s, works, picks, now).Error?
    decreases |s.active|
  {
    MinAcctIsMin(s, s.active, MAX_VIO * 2);
    if MinAcct(s, s.active, MAX_VIO * 2).Some? {
      var m := MinAcct(s, s.active, MAX_VIO * 2).value;
      assert Pending(s, m);
      var t := Serve(s, m, now);
      var more := works + t.accts[m].works[..Taken(t, m, |works|)];
      var u := TakeFrom(t, m, |works|);
      RoundShrinks(s, m, now, |works|);
      if |more| < MIN_BATCH_SIZE && u.accts[m].seqCounter < SEQ_THRESHOLD {
        LaterRoundsDoNotFail(u, more, picks + [m], now);
      }
    }
  }

  // ----- Runs -------------------------------------------------------------

  datatype Step =
    | NewAcct(id: int, now: int)
    | Arrive(w: Work, now: int)
    | Bill(id: int, hash: seq<int>, now: int)
    | MinThread(hash: seq<int>, now: int)
    | Note(id: int, seqCounter: int, lastEnd: int, prio: int)   // what dispatch and settings leave behind
    | Pick(now: int)

  ghost predicate Enabled(s: Sel, step: Step) {
    match step
    case NewAcct(id, _) => id !in s.accts
    case Arrive(w, _) => w.acct in s.accts
    case Bill(id, _, _) => id in s.accts
    case MinThread(_, _) => true
    case Note(id, _, _, _) => id in s.accts
    case Pick(_) => ActiveOk(s)
  }

  function Next(s: Sel, step: Step): Sel
    requires Enabled(s, step)
  {
    match step
    case NewAcct(id, now) => s.(accts := s.accts[id := Acct([], 0, 0, 0, now, 0)])
    case Arrive(w, now) => AddWork(s, w.acct, w, now)
    case Bill(id, hash, now) => Charge(s, id, hash, now)
    case MinThread(hash, now) => UpdateMin(s, hash, now)
    case Note(id, c, e, p) => s.(accts := s.accts[id := s.accts[id].(seqCounter := c, lastEnd := e, prio := p)])
    case Pick(now) => Select(s, now).s
  }

  function Arrived(step: Step): seq<Work> { if step.Arrive? then [step.w] else [] }

  function Picked(s: Sel, step: Step): seq<Work>
    requires Enabled(s, step)
  {
    if step.Pick? && Select(s, step.now).Batch? then Select(s, step.now).works else []
  }

  lemma NextKeepsOk(s: Sel, step: Step)
    requires Ok(s) && Enabled(s, step)
    ensures Ok(Next(s, step))
  {
    var t := Next(s, step);
    match step
    case NewAcct(id, _) => forall k ensures Pending(t, k) <==> Pending(s, k) { }
    case Arrive(w, now) => AddWorkKeeps(s, w.acct, w, now);
    case Bill(id, hash, now) => ChargeKeeps(s, id, hash, now);
    case MinThread(hash, now) => UpdateMinKeeps(s, hash, now);
    case Note(id, _, _, _) => forall k ensures Pending(t, k) <==> Pending(s, k) { }
    case Pick(now) => SelectionIsSound(s, now);
  }

  /** What has arrived is what has been picked, in the same order per account, then what waits. */
  ghost predicate Balanced(s: Sel, arrived: seq<Work>, picked: seq<Work>, id: int) {
    Mine(arrived, id) == Mine(picked, id) + WorksOf(s, id)
  }

  lemma NextKeepsBalance(s: Sel, step: Step, arrived: seq<Work>, picked: seq<Work>, id: int)
    requires Ok(s) && Enabled(s, step) && Balanced(s, arrived, picked, id)
    ensures Balanced(Next(s, step), arrived + Arrived(step), picked + Picked(s, step), id)
  {
    var t, a, p := Next(s, step), Arrived(step), Picked(s, step);
    MineConcat(arrived, a, id);
    MineConcat(picked, p, id);
    StepBalances(s, step, id);
    Rebalance(Mine(arrived, id), Mine(picked, id), WorksOf(s, id), Mine(a, id), Mine(p, id), WorksOf(t, id));
  }

  lemma Rebalance(all: seq<Work>, out: seq<Work>, left: seq<Work>, a: seq<Work>, p: seq<Work>, left': seq<Work>)
    requires all == out + left && left + a == p + left'
    ensures all + a == (out + p) + left'
  {
    assert all + a == out + (left + a);
    assert (out + p) + left' == out + (p + left');
  }

  /** One step's arrivals go to the back of the queues and its picks come from the front. */
  lemma StepBalances(s: Sel, step: Step, id: int)
    requires Ok(s) && Enabled(s, step)
    ensures WorksOf(s, id) + Mine(Arrived(step), id) == Mine(Picked(s, step), id) + WorksOf(Next(s, step), id)
  {
    if step.Arrive? {
      MineOfOwn([step.w], step.w.acct, id);
    } else if step.Pick? {
      SelectionIsSound(s, step.now);
    } else {
      OtherStepKeepsWorks(s, step, id);
    }
  }

  lemma OtherStepKeepsWorks(s: Sel, step: Step, id: int)
    requires Enabled(s, step) && !step.Arrive? && !step.Pick?
    ensures WorksOf(Next(s, step), id) == WorksOf(s, id)
  {
    if step.Bill? { ChargeKeepsWorks(s, step.id, step.hash, step.now, id); }
  }

  ghost predicate StepTaken(states: seq<Sel>, steps: seq<Step>, i: nat)
    requires |states| == |steps| + 1 && i < |steps|
  {
    Enabled(states[i], steps[i]) && states[i + 1] == Next(states[i], steps[i])
  }

  const Start := Sel(map[], [], None, MAX_VIO, MAX_VIO, None)

  ghost predicate IsRun(states: seq<Sel>, steps: seq<Step>) {
    && |states| == |steps| + 1 && states[0] == Start
    && forall i :: 0 <= i < |steps| ==> StepTaken(states, steps, i)
  }

  ghost function ArrivedBy(steps: seq<Step>, k: nat): seq<Work>
    requires k <= |steps|
  {
    if k == 0 then [] else ArrivedBy(steps, k - 1) + Arrived(steps[k - 1])
  }

  ghost function PickedBy(states: seq<Sel>, steps: seq<Step>, k: nat): seq<Work>
    requires IsRun(states, steps) && k <= |steps|
  {
    if k == 0 then []
    else
      assert StepTaken(states, steps, k - 1);
      PickedBy(states, steps, k - 1) + Picked(states[k - 1], steps[k - 1])
  }

  /**
   * Over every run, each account's work is picked in the order it arrived, all of it that is not
   * still waiting, and the active list always names exactly the accounts with work waiting.
   */
  lemma {:induction false} RunIsFifo(states: seq<Sel>, steps: seq<Step>, k: nat, id: int)
    requires IsRun(states, steps) && k <= |steps|
    ensures Ok(states[k]) && Balanced(states[k], ArrivedBy(steps, k), PickedBy(states, steps, k), id)
  {
    if k > 0 {
      RunIsFifo(states, steps, k - 1, id);
      assert StepTaken(states, steps, k - 1);
      NextKeepsOk(states[k - 1], steps[k - 1]);
      NextKeepsBalance(states[k - 1], steps[k - 1], ArrivedBy(steps, k - 1), PickedBy(states, steps, k - 1), id);
    }
  }

  /** Over every run without outside changes to the counters, a selection never fails. */
  lemma RunNeverFails(states: seq<Sel>, steps: seq<Step>, k: nat, now: int)
    requires IsRun(states, steps) && k <= |steps|
    ensures ActiveOk(states[k]) && !Select(states[k], now).Error?
  {
    RunIsFifo(states, steps, k, 0);
    SelectionIsSound(states[k], now);
  }

  // ----- The selector itself ----------------------------------------------

  class Selector {
    var st: Sel

    constructor ()
      ensures st == Start && Ok(st)
    {
      st := Start;
    }

    method AddIoWork(w: Work, now: int)
      requires w.acct in st.accts && Ok(st)
      modifies this
      ensures st == AddWork(old(st), w.acct, w, now) && Ok(st)
    {
      AddWorkKeeps(st, w.acct, w, now);
      var a := st.accts[w.acct];
      if a.works == [] {
        st := st.(active := st.active + [w.acct]);
        if a.lastEnd + MAX_SLEEP < now {
          a := a.(vio := st.globalMin2);
        }
      }
      a := a.(works := a.works + [w]);
      st := st.(accts := st.accts[w.acct := a]);
    }

    /** Scan the hash for the smallest counter of those awake. */
    method UpdateActiveMin(hash: seq<int>, now: int)
      modifies this
      ensures st == UpdateMin(old(st), hash, now) && (Ok(old(st)) ==> Ok(st))
    {
      if Ok(st) { UpdateMinKeeps(st, hash, now); }
      var least, m, i := MAX_VIO, None, 0;
      while i < |hash|
        invariant 0 <= i <= |hash| && m == AwakeMin(st, hash[..i], now)
        invariant least == if m.Some? then Vio(st, m.value) else MAX_VIO
      {
        assert hash[..i + 1][..i] == hash[..i];
        if Awake(st, hash[i], now) && Vio(st, hash[i]) < least {
          least, m := Vio(st, hash[i]), Some(hash[i]);
        }
        i := i + 1;
      }
      assert hash[..i] == hash;
      AwakeMinIsMin(st, hash, now);
      if least != MAX_VIO {
        st := st.(globalMin2 := least, minAcct := m);
      }
    }

    /** Set the counters of all accounts in the hash to zero. */
    method ResetCounters(hash: seq<int>)
      requires forall id :: id in st.accts <==> id in hash
      modifies this
      ensures st == ResetAll(old(st))
    {
      var i := 0;
      while i < |hash|
        invariant 0 <= i <= |hash| && st == old(st).(accts := st.accts) && st.accts.Keys == old(st).accts.Keys
        invariant forall id :: id in st.accts ==>
          st.accts[id] == if id in hash[..i] then old(st).accts[id].(vio := 0) else old(st).accts[id]
      {
        var id := hash[i];
        assert id in hash;
        assert hash[..i + 1] == hash[..i] + [id];
        st := st.(accts := st.accts[id := st.accts[id].(vio := 0)]);
        i := i + 1;
      }
      assert hash[..i] == hash;
      forall id | id in st.accts ensures st.accts[id] == old(st).accts[id].(vio := 0) {
        assert id in old(st).accts;
        assert id in hash;
      }
      assert st.accts == ResetAll(old(st)).accts;
      st := st.(globalMin := 0, globalMin2 := 0);
    }

    method AddVioCounter(id: int, hash: seq<int>, now: int)
      requires Ok(st) && id in st.accts && forall k :: k in st.accts <==> k in hash
      modifies this
      ensures Ok(st) && st == Charge(old(st), id, hash, now)
    {
      ChargeKeeps(st, id, hash, now);
      var a := st.accts[id];
      st := st.(accts := st.accts[id := a.(vio := a.vio + SafeDiv(TOTAL_SHARE, Stride(a.prio)))]);
      assert st == Bumped(old(st), id);
      if st.minAcct == Some(id) || st.minAcct == None {
        UpdateActiveMin(hash, now);
      }
      if st.accts[id].vio > MAX_VIO { ResetCounters(hash); }
    }

    /** Scan the active list for the smallest counter. */
    method FindMin() returns (m: Option<int>)
      ensures m == MinAcct(st, st.active, MAX_VIO * 2)
    {
      var least, i := MAX_VIO * 2, 0;
      m := None;
      while i < |st.active|
        invariant 0 <= i <= |st.active|
        invariant m == MinAcct(st, st.active[..i], MAX_VIO * 2)
        invariant least == if m.Some? then Vio(st, m.value) else MAX_VIO * 2
      {
        assert st.active[..i + 1][..i] == st.active[..i];
        var id := st.active[i];
        if Vio(st, id) < least {
          least := Vio(st, id);
          m := Some(id);
        }
        i := i + 1;
      }
      assert st.active[..i] == st.active;
    }

    /** Move works one by one to the batch, until it is full or the account has none left. */
    method TakeWorks(m: int, batch: seq<Work>) returns (more: seq<Work>)
      requires m in st.accts && |batch| < MAX_BATCH_SIZE
      modifies this
      ensures st == TakeFrom(old(st), m, |batch|)
      ensures more == batch + old(st).accts[m].works[..Taken(old(st), m, |batch|)]
    {
      var works := st.accts[m].works;
      more := batch;
      var i := 0;
      while i < |works| && |more| < MAX_BATCH_SIZE
        invariant 0 <= i <= |works| && more == batch + works[..i]
        invariant |batch| + i <= MAX_BATCH_SIZE
      {
        more := more + [works[i]];
        assert works[..i + 1] == works[..i] + [works[i]];
        i := i + 1;
      }
      st := st.(accts := st.accts[m := st.accts[m].(works := works[i..])]);
      if works[i..] == [] {
        st := st.(active := Without(st.active, m));
      }
    }

    method SelectIoWork(now: int) returns (out: Outcome)
      requires ActiveOk(st)
      modifies this
      ensures out == Select(old(st), now) && out.s == st
    {
      if st.active == [] { return NoWork(st); }
      if IdleForLast(st, now) {
        var m := st.lastServed.value;
        if st.accts[m].works == [] { return NoWork(st); }
        var works := TakeWorks(m, []);
        return Batch(st, works, [m]);
      }
      out := SelectRounds(now);
    }

    method SelectRounds(now: int) returns (out: Outcome)
      requires ActiveOk(st)
      modifies this
      ensures out == Rounds(old(st), [], [], now) && out.s == st
    {
      var works: seq<Work>, picks: seq<int> := [], [];
      while true
        invariant ActiveOk(st) && |works| < MIN_BATCH_SIZE
        invariant Rounds(st, works, picks, now) == Rounds(old(st), [], [], now)
        decreases |st.active|
      {
        MinAcctIsMin(st, st.active, MAX_VIO * 2);
        var min := FindMin();
        if min.None? {
          if picks != [] { return Batch(st, works, picks); }
          return Error(st);
        }
        var m := min.value;
        assert Pending(st, m);
        RoundShrinks(st, m, now, |works|);
        st := Serve(st, m, now);
        var more := TakeWorks(m, works);
        picks := picks + [m];
        if !(|more| < MIN_BATCH_SIZE && st.accts[m].seqCounter < SEQ_THRESHOLD) {
          return Batch(st, more, picks);
        }
        works := more;
      }
    }
  }
}
