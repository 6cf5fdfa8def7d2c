/**
 * What the AFQ scheduler's counters measure: between resets a counter grows by the account's share each
 * time the account is charged, so service is in proportion to priority; and how a selection ends.
 */
module AfqShares {
  import opened Seqs
  import opened Lists
  import opened TbAccount
  import opened AfqSelect

  // ----- One charge -------------------------------------------------------

  /** The weight a priority stands for, by which the code's stride is judged: priority 0 counts as 1. */
  function Weight(prio: int): int { if prio == 0 then 1 else prio }

  /** g is what a charge adds at weight w: a w-th part of the whole, rounded towards zero. */
  predicate IsShare(g: int, w: int) {
    if 0 < w then g * w <= TOTAL_SHARE < (g + 1) * w else g * w <= TOTAL_SHARE < (g - 1) * w
  }

  /** No counter but the charged account's changes, and of that account nothing but its counter. */
  ghost predicate OnlyCounter(s: Sel, t: Sel, id: int, vio: int) {
    id in s.accts && t.accts == s.accts[id := s.accts[id].(vio := vio)]
  }

  /** Everybody starts again at zero. */
  ghost predicate AllReset(t: Sel) {
    t.globalMin == 0 && t.globalMin2 == 0 && forall k :: k in t.accts ==> t.accts[k].vio == 0
  }

  /**
   * A charge raises the account's counter by its share and changes no other, unless that takes it past
   * the limit, in which case it sets all counters to zero.
   */
  lemma ChargeAddsShare(s: Sel, id: int, ids: seq<int>, now: int) returns (g: int)
    requires id in s.accts
    ensures IsShare(g, Weight(s.accts[id].prio)) && (0 <= g <==> 0 <= s.accts[id].prio || TOTAL_SHARE < -s.accts[id].prio)
    ensures Vio(Bumped(s, id), id) == Vio(s, id) + g
    ensures if Vio(s, id) + g > MAX_VIO then AllReset(Charge(s, id, ids, now))
            else OnlyCounter(s, Charge(s, id, ids, now), id, Vio(s, id) + g)
  {
    g := SafeDiv(TOTAL_SHARE, Weight(s.accts[id].prio));
    ShareBounds(Weight(s.accts[id].prio));
  }

  lemma ShareBounds(w: int)
    requires w != 0
    ensures IsShare(SafeDiv(TOTAL_SHARE, w), w) && (0 <= SafeDiv(TOTAL_SHARE, w) <==> 0 < w || TOTAL_SHARE < -w)
  {
    QuotientBounds(TOTAL_SHARE, w, TOTAL_SHARE / w);
  }

  lemma QuotientBounds(t: int, w: int, g: int)
    requires w != 0 && 0 < t && g == t / w
    ensures if 0 < w then g * w <= t < (g + 1) * w else g * w <= t < (g - 1) * w
    ensures 0 <= g <==> 0 < w || t < -w
  {
    assert t == g * w + t % w;
    assert (g + 1) * w == g * w + w && (g - 1) * w == g * w - w;
    if 0 < w { QuotientSign(t, w, g); } else { NegativeQuotient(t, w, g); }
  }

  lemma QuotientSign(t: int, w: int, g: int)
    requires 0 < w && 0 < t < g * w + w
    ensures 0 <= g
  {
    if g < 0 { MulMono(g, -1, w); }
  }

  lemma NegativeQuotient(t: int, w: int, g: int)
    requires w < 0 && 0 < t && g * w <= t < g * w - w
    ensures 0 <= g <==> t < -w
  {
    if g < 0 { MulMono(g, -1, -w); }
    if 0 < g { MulMono(1, g, -w); }
  }

  /** For the priorities there are, the share is exact and positive. */
  lemma ShareIsExact(g: int, w: int)
    requires 1 <= w <= 8 && IsShare(g, w)
    ensures g * w == TOTAL_SHARE && 0 < g
  {
  }

  lemma ShareOf(w: int) returns (g: int)
    requires 0 < w
    ensures IsShare(g, w) && 0 <= g
  {
    g := SafeDiv(TOTAL_SHARE, w);
    ShareBounds(w);
  }

  lemma MulMono(x: int, y: int, c: int)
    requires x <= y && 0 <= c
    ensures x * c <= y * c && c * x <= c * y
  {
  }

  lemma NotAbove(h: int, g: int, w: int)
    requires 0 < w && h * w < (g + 1) * w
    ensures h <= g
  {
    if g < h { MulMono(g + 1, h, w); }
  }

  /** A higher priority never has the larger share. */
  lemma HigherPriorityGrowsLess(g: int, v: int, h: int, w: int)
    requires 0 < v <= w && IsShare(g, v) && IsShare(h, w) && 0 <= g && 0 <= h
    ensures h <= g
  {
    MulMono(v, w, h);
    NotAbove(h, g, v);
  }

  /** The smallest counter among those awake, as a charge finds it. */
  ghost predicate IsAwakeMin(t: Sel, ids: seq<int>, now: int) {
    && t.minAcct.Some? && t.minAcct.value in ids && Awake(t, t.minAcct.value, now)
    && t.globalMin2 == Vio(t, t.minAcct.value)
    && forall i :: 0 <= i < |ids| && Awake(t, ids[i], now) ==> t.globalMin2 <= Vio(t, ids[i])
  }

  /**
   * A charge that resets nothing looks for the smallest counter again only when there was none yet or
   * it was the charged account's own, and otherwise leaves it as it was.
   */
  lemma ChargeTracksMin(s: Sel, id: int, ids: seq<int>, now: int)
    requires id in s.accts && Vio(Charge(s, id, ids, now), id) == Vio(Bumped(s, id), id) <= MAX_VIO
    ensures var t := Charge(s, id, ids, now);
      if (s.minAcct == Some(id) || s.minAcct.None?)
         && exists i :: 0 <= i < |ids| && Awake(t, ids[i], now) && Vio(t, ids[i]) < MAX_VIO
      then IsAwakeMin(t, ids, now)
      else t.globalMin2 == s.globalMin2 && t.minAcct == s.minAcct
  {
    var b := Bumped(s, id);
    AwakeMinIsMin(b, ids, now);
    var t := Charge(s, id, ids, now);
    assert t.accts == b.accts;
    assert forall k :: Vio(t, k) == Vio(b, k) && (Awake(t, k, now) <==> Awake(b, k, now));
  }

  // ----- A counter through a run ------------------------------------------

  predicate Charges(step: Step, id: int) { step.Bill? && step.id == id }

  /** The step charges an account past the limit. */
  predicate Resets(s: Sel, step: Step) {
    step.Bill? && step.id in s.accts && Vio(Bumped(s, step.id), step.id) > MAX_VIO
  }

  /** The step brings work to an account that has slept long. */
  predicate Wakes(s: Sel, step: Step, id: int) {
    && step.Arrive? && step.w.acct == id && id in s.accts
    && s.accts[id].works == [] && s.accts[id].lastEnd + MAX_SLEEP < step.now
  }

  lemma ChargedCounter(s: Sel, id: int, hash: seq<int>, now: int, g: int)
    requires id in s.accts && IsShare(g, Weight(s.accts[id].prio))
    ensures var t := Charge(s, id, hash, now);
      id in t.accts && Vio(t, id) == if Vio(Bumped(s, id), id) > MAX_VIO then 0 else Vio(s, id) + g
  {
    var h := ChargeAddsShare(s, id, hash, now);
    assert g == h by { SameShare(g, h, Weight(s.accts[id].prio)); }
  }

  lemma OtherCounter(s: Sel, k: int, hash: seq<int>, now: int, id: int)
    requires k in s.accts && id in s.accts && id != k
    ensures var t := Charge(s, k, hash, now);
      id in t.accts && Vio(t, id) == if Vio(Bumped(s, k), k) > MAX_VIO then 0 else Vio(s, id)
  {
  }

  /**
   * A counter changes only when its account is charged, when all are reset, and when its account wakes
   * up, which makes it level with the smallest.
   */
  lemma CounterStep(s: Sel, step: Step, id: int, g: int)
    requires Ok(s) && Enabled(s, step) && id in s.accts
    requires IsShare(g, Weight(s.accts[id].prio))
    ensures id in Next(s, step).accts
    ensures Vio(Next(s, step), id) ==
      if Resets(s, step) then 0
      else if Wakes(s, step, id) then s.globalMin2
      else if Charges(step, id) then Vio(s, id) + g
      else Vio(s, id)
  {
    match step
    case NewAcct(_, _) =>
    case Arrive(_, _) =>
    case Bill(k, hash, now) =>
      if k == id { ChargedCounter(s, id, hash, now, g); } else { OtherCounter(s, k, hash, now, id); }
    case MinThread(_, _) =>
    case Note(_, _, _, _) =>
    case Pick(now) => PickKeepsAccount(s, now, id);
  }

  lemma SameShare(g: int, h: int, w: int)
    requires w != 0 && IsShare(g, w) && IsShare(h, w)
    ensures g == h
  {
    if 0 < w {
      NotAbove(g, h, w);
      NotAbove(h, g, w);
    } else {
      assert (-g) * -w == g * w && (-h) * -w == h * w;
      assert (-g + 1) * -w == (g - 1) * w && (-h + 1) * -w == (h - 1) * w;
      NotAbove(-g, -h, -w);
      NotAbove(-h, -g, -w);
    }
  }

  /** Selection changes no counter and loses no account. */
  lemma {:induction false} RoundsKeepAccount(s: Sel, works: seq<Work>, picks: seq<int>, now: int, id: int)
    requires ActiveOk(s) && |works| < MIN_BATCH_SIZE && id in s.accts
    ensures var t := Rounds(s, works, picks, now).s;
      id in t.accts && Vio(t, id) == Vio(s, id) && t.accts[id].prio == s.accts[id].prio
    decreases |s.active|
  {
    MinAcctIsMin(s, s.active, MAX_VIO * 2);
    if MinAcct(s, s.active, MAX_VIO * 2).Some? {
      var m := MinAcct(s, s.active, MAX_VIO * 2).value;
      assert Pending(s, m);
      var t := Serve(s, m, now);
      var more := works + t.accts[m].works[..Taken(t, m, |works|)];
      var u := TakeFrom(t, m, |works|);
      RoundShrinks(s, m, now, |works|);
      if |more| < MIN_BATCH_SIZE && u.accts[m].seqCounter < SEQ_THRESHOLD {
        RoundsKeepAccount(u, more, picks + [m], now, id);
      }
    }
  }

  lemma PickKeepsAccount(s: Sel, now: int, id: int)
    requires ActiveOk(s) && id in s.accts
    ensures var t := Select(s, now).s;
      id in t.accts && Vio(t, id) == Vio(s, id) && t.accts[id].prio == s.accts[id].prio
  {
    if s.active != [] && !IdleForLast(s, now) { RoundsKeepAccount(s, [], [], now, id); }
  }

  /** From state i to state k, the account has this priority, is not woken up, and no counter is reset. */
  ghost predicate Steady(states: seq<Sel>, steps: seq<Step>, i: nat, k: nat, id: int, prio: int)
    requires |states| == |steps| + 1 && i <= k <= |steps|
  {
    forall j :: i <= j < k ==>
      && id in states[j].accts && states[j].accts[id].prio == prio
      && !Resets(states[j], steps[j]) && !Wakes(states[j], steps[j], id)
  }

  ghost function ChargesIn(steps: seq<Step>, i: nat, k: nat, id: int): nat
    requires i <= k <= |steps|
  {
    if i == k then 0 else ChargesIn(steps, i, k - 1, id) + (if Charges(steps[k - 1], id) then 1 else 0)
  }

  /** A counter measures how often its account has been charged. */
  lemma {:induction false} CounterMeasuresCharges(states: seq<Sel>, steps: seq<Step>, i: nat, k: nat,
                                                  id: int, prio: int, g: int)
    requires IsRun(states, steps) && i <= k <= |steps| && IsShare(g, Weight(prio))
    requires id in states[i].accts && Steady(states, steps, i, k, id, prio)
    ensures Vio(states[k], id) == Vio(states[i], id) + ChargesIn(steps, i, k, id) * g
    decreases k
  {
    if i < k {
      CounterMeasuresCharges(states, steps, i, k - 1, id, prio, g);
      assert Ok(states[k - 1]) by { RunIsFifo(states, steps, k - 1, 0); }
      assert StepTaken(states, steps, k - 1);
      CounterStep(states[k - 1], steps[k - 1], id, g);
      OneMore(ChargesIn(steps, i, k - 1, id), g);
    }
  }

  lemma OneMore(n: int, g: int)
    ensures (n + 1) * g == n * g + g
  {
  }

  lemma Times(n: int, g: int, w: int)
    ensures w * (n * g) == n * (g * w)
  {
  }

  /** For the priorities there are, priority times growth is the whole share for every charge. */
  lemma GrowthTimesPriority(states: seq<Sel>, steps: seq<Step>, i: nat, k: nat, id: int, prio: int) returns (x: int)
    requires IsRun(states, steps) && i <= k <= |steps| && 0 <= prio <= 8
    requires id in states[i].accts && Steady(states, steps, i, k, id, prio)
    ensures Vio(states[k], id) == Vio(states[i], id) + x
    ensures Weight(prio) * x == ChargesIn(steps, i, k, id) * TOTAL_SHARE
  {
    var w := Weight(prio);
    var n := ChargesIn(steps, i, k, id);
    var g := ShareOf(w);
    ShareIsExact(g, w);
    x := n * g;
    CounterMeasuresCharges(states, steps, i, k, id, prio, g);
    Times(n, g, w);
  }

  /** Charged equally often from equal counters, the account of higher priority does not end with the larger one. */
  lemma HigherPriorityStaysBelow(states: seq<Sel>, steps: seq<Step>, i: nat, k: nat, a: int, p: int, b: int, q: int)
    requires IsRun(states, steps) && i <= k <= |steps| && 0 <= p && 0 <= q && Weight(p) <= Weight(q)
    requires a in states[i].accts && Steady(states, steps, i, k, a, p)
    requires b in states[i].accts && Steady(states, steps, i, k, b, q)
    requires Vio(states[i], a) == Vio(states[i], b) && ChargesIn(steps, i, k, a) == ChargesIn(steps, i, k, b)
    ensures Vio(states[k], b) <= Vio(states[k], a)
  {
    var g := ShareOf(Weight(p));
    var h := ShareOf(Weight(q));
    assert h <= g by { HigherPriorityGrowsLess(g, Weight(p), h, Weight(q)); }
    CounterMeasuresCharges(states, steps, i, k, a, p, g);
    CounterMeasuresCharges(states, steps, i, k, b, q, h);
    MulMono(h, g, ChargesIn(steps, i, k, a));
  }

  /**
   * Proportional shares: two accounts whose counters are level again at the end of a window, having been
   * level at its start, have been charged in proportion to their priorities.
   */
  lemma LevelMeansProportional(states: seq<Sel>, steps: seq<Step>, i: nat, k: nat, a: int, p: int, b: int, q: int)
    requires IsRun(states, steps) && i <= k <= |steps| && 0 <= p <= 8 && 0 <= q <= 8
    requires a in states[i].accts && Steady(states, steps, i, k, a, p)
    requires b in states[i].accts && Steady(states, steps, i, k, b, q)
    requires Vio(states[i], a) == Vio(states[i], b)
    ensures Vio(states[k], a) == Vio(states[k], b)
       <==> ChargesIn(steps, i, k, a) * Weight(q) == ChargesIn(steps, i, k, b) * Weight(p)
  {
    var x := GrowthTimesPriority(states, steps, i, k, a, p);
    var y := GrowthTimesPriority(states, steps, i, k, b, q);
    Proportion(x, Weight(p), ChargesIn(steps, i, k, a), y, Weight(q), ChargesIn(steps, i, k, b));
  }

  lemma Proportion(x: int, v: int, n: int, y: int, w: int, m: int)
    requires 1 <= v <= 8 && 1 <= w <= 8 && v * x == n * TOTAL_SHARE && w * y == m * TOTAL_SHARE
    ensures x == y <==> n * w == m * v
  {
    assert (v * w) * x == (n * w) * TOTAL_SHARE by { assert (v * w) * x == w * (v * x); }
    assert (v * w) * y == (m * v) * TOTAL_SHARE by { assert (v * w) * y == v * (w * y); }
    CancelLeft(v * w, x, y);
  }

  lemma CancelLeft(c: int, x: int, y: int)
    requires 0 < c
    ensures c * x == c * y <==> x == y
  {
    if x < y { assert c * x < c * y; }
    if y < x { assert c * y < c * x; }
  }

  // ----- Who is the least -------------------------------------------------

  /** Of accounts with equal counters the one longest on the active list is taken. */
  lemma {:induction false} MinAcctIsFirst(s: Sel, active: seq<int>, bound: int) returns (i: nat)
    requires MinAcct(s, active, bound).Some?
    ensures i < |active| && MinAcct(s, active, bound) == Some(active[i])
    ensures forall j :: 0 <= j < i ==> Vio(s, active[i]) < Vio(s, active[j])
  {
    var n := |active| - 1;
    var front := active[..n];
    if MinAcct(s, active, bound) == MinAcct(s, front, bound) {
      i := MinAcctIsFirst(s, front, bound);
    } else {
      i := n;
      MinAcctIsMin(s, front, bound);
      forall j | 0 <= j < n ensures Vio(s, active[n]) < Vio(s, active[j]) { assert front[j] == active[j]; }
    }
  }

  /** m is not the default account and did something in the last twenty seconds. */
  ghost predicate Recent(s: Sel, m: int, now: int) {
    m != 0 && m in s.accts && now < s.accts[m].lastEnd + 20 * HZ
  }

  /** A step names another least account only if it looked, and that account is recently active. */
  lemma MinStep(s: Sel, step: Step, m: int)
    requires Ok(s) && Enabled(s, step) && Next(s, step).minAcct == Some(m)
    ensures s.minAcct == Some(m) || ((step.Bill? || step.MinThread?) && Recent(s, m, step.now))
  {
    match step
    case Bill(id, hash, now) => AwakeMinIsMin(Bumped(s, id), hash, now);
    case MinThread(hash, now) => AwakeMinIsMin(s, hash, now);
    case Pick(now) => PickKeepsMin(s, now);
    case _ =>
  }

  lemma {:induction false} RoundsKeepMin(s: Sel, works: seq<Work>, picks: seq<int>, now: int)
    requires ActiveOk(s) && |works| < MIN_BATCH_SIZE
    ensures Rounds(s, works, picks, now).s.minAcct == s.minAcct
    decreases |s.active|
  {
    MinAcctIsMin(s, s.active, MAX_VIO * 2);
    if MinAcct(s, s.active, MAX_VIO * 2).Some? {
      var m := MinAcct(s, s.active, MAX_VIO * 2).value;
      assert Pending(s, m);
      var t := Serve(s, m, now);
      var more := works + t.accts[m].works[..Taken(t, m, |works|)];
      var u := TakeFrom(t, m, |works|);
      RoundShrinks(s, m, now, |works|);
      if |more| < MIN_BATCH_SIZE && u.accts[m].seqCounter < SEQ_THRESHOLD { RoundsKeepMin(u, more, picks + [m], now); }
    }
  }

  lemma PickKeepsMin(s: Sel, now: int)
    requires ActiveOk(s)
    ensures Select(s, now).s.minAcct == s.minAcct
  {
    if s.active != [] && !IdleForLast(s, now) { RoundsKeepMin(s, [], [], now); }
  }

  /**
   * In every run the account that sleepers are made level with was recently active when it was last
   * looked for, and is never the default one.
   */
  lemma {:induction false} MinIsRecent(states: seq<Sel>, steps: seq<Step>, k: nat, m: int) returns (i: nat)
    requires IsRun(states, steps) && k <= |steps| && states[k].minAcct == Some(m)
    ensures i < k && (steps[i].Bill? || steps[i].MinThread?) && Recent(states[i], m, steps[i].now)
    decreases k
  {
    assert Ok(states[k - 1]) by { RunIsFifo(states, steps, k - 1, 0); }
    assert StepTaken(states, steps, k - 1);
    MinStep(states[k - 1], steps[k - 1], m);
    if states[k - 1].minAcct == Some(m) { i := MinIsRecent(states, steps, k - 1, m); } else { i := k - 1; }
  }

  // ----- How a selection ends ---------------------------------------------

  /** The last account picked was served at this time. */
  ghost predicate ServedLast(t: Sel, picks: seq<int>, now: int) {
    && picks != []
    && var m := picks[|picks| - 1];
       && t.lastServed == Some(m) && m in t.accts && t.globalMin == Vio(t, m)
       && t.accts[m].sliceEnd == now + MAX_SLICE
  }

  /** A batch that is too small is all there was, or ends with a sequential account. */
  ghost predicate WorthIt(o: Outcome) {
    o.Batch? && (|o.works| >= MIN_BATCH_SIZE || o.s.active == []
                 || (o.s.lastServed.Some? && o.s.lastServed.value in o.s.accts
                     && o.s.accts[o.s.lastServed.value].seqCounter >= SEQ_THRESHOLD))
  }

  /** One round: the account it serves becomes the last served. */
  lemma RoundServesLast(s: Sel, m: int, now: int, size: nat, picks: seq<int>)
    requires m in s.accts && size < MAX_BATCH_SIZE
    ensures var u := TakeFrom(Serve(s, m, now), m, size);
      ServedLast(u, picks + [m], now) && u.lastServed == Some(m)
  {
  }

  lemma {:induction false} RoundsEnd(s: Sel, works: seq<Work>, picks: seq<int>, now: int)
    requires Ok(s) && |works| < MIN_BATCH_SIZE && (s.active != [] || ServedLast(s, picks, now))
    ensures var o := Rounds(s, works, picks, now); WorthIt(o) && ServedLast(o.s, o.picks, now)
    decreases |s.active|
  {
    if s.active != [] {
      SomeoneIsLeast(s);
      var m := MinAcct(s, s.active, MAX_VIO * 2).value;
      var t := Serve(s, m, now);
      var more := works + t.accts[m].works[..Taken(t, m, |works|)];
      var u := TakeFrom(t, m, |works|);
      RoundShrinks(s, m, now, |works|);
      RoundKeeps(s, m, now, |works|);
      RoundServesLast(s, m, now, |works|, picks);
      if |more| < MIN_BATCH_SIZE && u.accts[m].seqCounter < SEQ_THRESHOLD {
        RoundsEnd(u, more, picks + [m], now);
      }
    } else {
      MinAcctIsMin(s, s.active, MAX_VIO * 2);
    }
  }

  /** A selection by rounds stops only when the batch is worth submitting, and says whom it served last. */
  lemma SelectionEnds(s: Sel, now: int)
    requires Ok(s) && s.active != [] && !IdleForLast(s, now)
    ensures var o := Select(s, now); WorthIt(o) && ServedLast(o.s, o.picks, now)
  {
    RoundsEnd(s, [], [], now);
  }

  /**
   * Work is left waiting exactly for an account that was served last, has none itself, has been sequential
   * twelve times, did something in the last five jiffies and is within its slice.
   */
  lemma WaitsExactlyForLast(s: Sel, now: int)
    requires Ok(s) && s.active != []
    ensures Select(s, now).NoWork? <==>
      s.lastServed.Some? && s.lastServed.value in s.accts && var a := s.accts[s.lastServed.value];
      a.works == [] && 12 <= a.seqCounter && now < a.lastEnd + 5 && now < a.sliceEnd
  {
    if !IdleForLast(s, now) { RoundsAreGood(s, [], [], now); }
  }

  /** A step other than a selection leaves the last served account and its slice alone. */
  lemma SliceStep(s: Sel, step: Step, m: int)
    requires Ok(s) && Enabled(s, step) && !step.Pick?
    ensures Next(s, step).lastServed == s.lastServed
    ensures s.lastServed == Some(m) ==>
      m in s.accts && m in Next(s, step).accts && Next(s, step).accts[m].sliceEnd == s.accts[m].sliceEnd
  {
  }

  lemma IdleSlice(s: Sel, now: int)
    requires Ok(s) && (s.active == [] || IdleForLast(s, now))
    ensures var t := Select(s, now).s;
      t.lastServed == s.lastServed && (s.lastServed.Some? ==>
        var m := s.lastServed.value; m in s.accts && m in t.accts && t.accts[m].sliceEnd == s.accts[m].sliceEnd)
  {
  }

  /** The slice of the last served account began at the selection by rounds that served it. */
  lemma {:induction false} SliceOfLast(states: seq<Sel>, steps: seq<Step>, k: nat) returns (i: nat)
    requires IsRun(states, steps) && k <= |steps| && states[k].lastServed.Some?
    ensures i < k && steps[i].Pick?
    ensures var m := states[k].lastServed.value;
      m in states[k].accts && states[k].accts[m].sliceEnd == steps[i].now + MAX_SLICE
    decreases k
  {
    var s, step := states[k - 1], steps[k - 1];
    assert Ok(s) by { RunIsFifo(states, steps, k - 1, 0); }
    assert StepTaken(states, steps, k - 1);
    if step.Pick? && s.active != [] && !IdleForLast(s, step.now) {
      SelectionEnds(s, step.now);
      i := k - 1;
    } else {
      if step.Pick? { IdleSlice(s, step.now); } else { SliceStep(s, step, states[k].lastServed.value); }
      i := SliceOfLast(states, steps, k - 1);
    }
  }

  /** The disk is kept for a sequential account no longer than one slice from when it was picked. */
  lemma IdlingIsBounded(states: seq<Sel>, steps: seq<Step>, k: nat, now: int) returns (i: nat)
    requires IsRun(states, steps) && k <= |steps| && IdleForLast(states[k], now)
    ensures i < k && steps[i].Pick? && now < steps[i].now + MAX_SLICE
  {
    i := SliceOfLast(states, steps, k);
  }
}
