/**
 * The AFQ scheduler as a whole: works arrive, are selected, go out in batches past the gate and
 * return. Selection hands the gate only works it has not seen, and every work that arrives is at
 * any time waiting, out, or back, and only one of these.
 */
module AfqRuns {
  import AfqSelect
  import AfqGate

  type Work = AfqSelect.Work
  type Sel = AfqSelect.Sel
  type Gate = AfqGate.G

  /** Both halves, the ids of all works there have been, and of those that have returned. */
  datatype State = State(sel: Sel, gate: Gate, ids: set<int>, returned: set<int>)

  const Start := State(AfqSelect.Start, AfqGate.Start, {}, {})

  datatype Step =
    | Arrive(w: Work, now: int)
    | Books(entry: AfqSelect.Step)    // accounts, charges, settings and the minimum thread
    | Call(now: int)                  // basic_sched_dispatch
    | Finish(w: Work)
    | Gated(event: AfqGate.Step)      // the timer, and requests outside any batch

  ghost predicate Enabled(x: State, step: Step) {
    match step
    case Arrive(w, _) => w.id !in x.ids && w.acct in x.sel.accts && AfqGate.Known(w)
    case Books(s) => !s.Arrive? && !s.Pick? && AfqSelect.Enabled(x.sel, s)
    case Call(_) => AfqSelect.ActiveOk(x.sel)
    case Finish(w) => AfqGate.Enabled(x.gate, AfqGate.Finish(w))
    case Gated(s) => (s.Timer? || s.OtherIo?) && AfqGate.Enabled(x.gate, s)
  }

  /** Select work if the gate lets a batch through, and submit what was selected. */
  function Called(x: State, now: int): State
    requires AfqSelect.ActiveOk(x.sel)
  {
    if !AfqGate.WantDispatch(x.gate) then x
    else
      match AfqSelect.Select(x.sel, now)
      case Batch(t, works, _) => x.(sel := t, gate := AfqGate.Submit(x.gate, works))
      case NoWork(t) => x.(sel := t)
      case Error(t) => x.(sel := t)
  }

  function Next(x: State, step: Step): State
    requires Enabled(x, step)
  {
    match step
    case Arrive(w, now) => x.(sel := AfqSelect.AddWork(x.sel, w.acct, w, now), ids := x.ids + {w.id})
    case Books(s) => x.(sel := AfqSelect.Next(x.sel, s))
    case Call(now) => Called(x, now)
    case Finish(w) => x.(gate := AfqGate.Return(x.gate, w), returned := x.returned + {w.id})
    case Gated(s) => x.(gate := AfqGate.Next(x.gate, s))
  }

  // ----- Where a work is --------------------------------------------------

  /** Work `w` is the i-th in the queue of account a. */
  ghost predicate Sits(s: Sel, a: int, i: int, w: int) {
    0 <= i < |AfqSelect.WorksOf(s, a)| && AfqSelect.WorksOf(s, a)[i].id == w
  }

  ghost predicate Waiting(s: Sel, w: int) { exists a, i :: Sits(s, a, i, w) }

  /** No id is queued twice. */
  ghost predicate Distinct(s: Sel) {
    forall a, i, b, j, w :: Sits(s, a, i, w) && Sits(s, b, j, w) ==> a == b && i == j
  }

  ghost predicate AllKnown(s: Sel) {
    forall a, i :: 0 <= i < |AfqSelect.WorksOf(s, a)| ==> AfqGate.Known(AfqSelect.WorksOf(s, a)[i])
  }

  /** Every work that has arrived is waiting, out or back, and only one of these. */
  ghost predicate Accounted(x: State, w: int) {
    && (w in x.ids <==> Waiting(x.sel, w) || w in x.gate.owner || w in x.returned)
    && !(Waiting(x.sel, w) && w in x.gate.owner)
    && !(Waiting(x.sel, w) && w in x.returned)
    && !(w in x.gate.owner && w in x.returned)
  }

  ghost predicate Ledger(x: State) { forall w :: Accounted(x, w) }

  ghost predicate Whole(x: State) {
    && AfqSelect.Ok(x.sel) && AfqGate.Inv(x.gate) && Distinct(x.sel) && AllKnown(x.sel) && Ledger(x)
  }

  // ----- What a selection takes -------------------------------------------

  lemma {:induction false} MineHas(works: seq<Work>, i: nat)
    requires i < |works|
    ensures works[i] in AfqSelect.Mine(works, works[i].acct)
  {
    if i < |works| - 1 { MineHas(works[..|works| - 1], i); }
  }

  lemma {:induction false} MineIsOf(works: seq<Work>, a: int, w: Work)
    requires w in AfqSelect.Mine(works, a)
    ensures w in works && w.acct == a
  {
    if works != [] && w in AfqSelect.Mine(works[..|works| - 1], a) { MineIsOf(works[..|works| - 1], a, w); }
  }

  /** A work of the batch was queued, among the first of its account. */
  lemma PickedSat(s: Sel, t: Sel, works: seq<Work>, k: nat) returns (i: int)
    requires AfqSelect.Conserves(s, t, works) && k < |works|
    ensures var a := works[k].acct;
      Sits(s, a, i, works[k].id) && i < |AfqSelect.Mine(works, a)| && AfqSelect.WorksOf(s, a)[i] == works[k]
  {
    var a := works[k].acct;
    MineHas(works, k);
    i :| 0 <= i < |AfqSelect.Mine(works, a)| && AfqSelect.Mine(works, a)[i] == works[k];
    assert AfqSelect.WorksOf(s, a) == AfqSelect.Mine(works, a) + AfqSelect.WorksOf(t, a);
  }

  ghost predicate InBatch(works: seq<Work>, w: int) { exists k :: 0 <= k < |works| && works[k].id == w }

  /** What is left was queued, further back. */
  lemma LeftSat(s: Sel, t: Sel, works: seq<Work>, a: int, i: int, w: int)
    requires AfqSelect.Conserves(s, t, works) && Sits(t, a, i, w)
    ensures Sits(s, a, |AfqSelect.Mine(works, a)| + i, w)
  {
    assert AfqSelect.WorksOf(s, a) == AfqSelect.Mine(works, a) + AfqSelect.WorksOf(t, a);
  }

  lemma LeftIsNotPicked(s: Sel, t: Sel, works: seq<Work>, w: int)
    requires AfqSelect.Conserves(s, t, works) && Distinct(s) && Waiting(t, w)
    ensures Waiting(s, w) && !InBatch(works, w)
  {
    var a, i :| Sits(t, a, i, w);
    LeftSat(s, t, works, a, i, w);
    if InBatch(works, w) {
      var k :| 0 <= k < |works| && works[k].id == w;
      var j := PickedSat(s, t, works, k);
    }
  }

  lemma PickedWaited(s: Sel, t: Sel, works: seq<Work>, w: int)
    requires AfqSelect.Conserves(s, t, works) && InBatch(works, w)
    ensures Waiting(s, w)
  {
    var k :| 0 <= k < |works| && works[k].id == w;
    var j := PickedSat(s, t, works, k);
  }

  lemma MineIsInBatch(works: seq<Work>, a: int, i: nat)
    requires i < |AfqSelect.Mine(works, a)|
    ensures InBatch(works, AfqSelect.Mine(works, a)[i].id)
  {
    var w := AfqSelect.Mine(works, a)[i];
    MineIsOf(works, a, w);
    var k :| 0 <= k < |works| && works[k] == w;
  }

  lemma SplitQueue(s: Sel, t: Sel, works: seq<Work>, a: int, i: int, w: int)
    requires AfqSelect.Conserves(s, t, works) && Sits(s, a, i, w)
    ensures var n := |AfqSelect.Mine(works, a)|;
      if i < n then AfqSelect.Mine(works, a)[i].id == w else Sits(t, a, i - n, w)
  {
    assert AfqSelect.WorksOf(s, a) == AfqSelect.Mine(works, a) + AfqSelect.WorksOf(t, a);
  }

  lemma WaitedIsPickedOrLeft(s: Sel, t: Sel, works: seq<Work>, w: int)
    requires AfqSelect.Conserves(s, t, works) && Waiting(s, w)
    ensures InBatch(works, w) || Waiting(t, w)
  {
    var a, i :| Sits(s, a, i, w);
    SplitQueue(s, t, works, a, i, w);
    if i < |AfqSelect.Mine(works, a)| { MineIsInBatch(works, a, i); }
  }

  lemma LeftIsDistinct(s: Sel, t: Sel, works: seq<Work>)
    requires AfqSelect.Conserves(s, t, works) && Distinct(s)
    ensures Distinct(t)
  {
    forall a, i, b, j, w | Sits(t, a, i, w) && Sits(t, b, j, w) ensures a == b && i == j {
      LeftSat(s, t, works, a, i, w);
      LeftSat(s, t, works, b, j, w);
    }
  }

  lemma LeftIsKnown(s: Sel, t: Sel, works: seq<Work>)
    requires AfqSelect.Conserves(s, t, works) && AllKnown(s)
    ensures AllKnown(t)
  {
    forall a, i | 0 <= i < |AfqSelect.WorksOf(t, a)| ensures AfqGate.Known(AfqSelect.WorksOf(t, a)[i]) {
      var mine := AfqSelect.Mine(works, a);
      assert AfqSelect.WorksOf(s, a) == mine + AfqSelect.WorksOf(t, a);
      assert AfqSelect.WorksOf(s, a)[|mine| + i] == AfqSelect.WorksOf(t, a)[i];
    }
  }

  lemma PickedIsKnown(s: Sel, t: Sel, works: seq<Work>, k: nat)
    requires AfqSelect.Conserves(s, t, works) && AllKnown(s) && k < |works|
    ensures AfqGate.Known(works[k])
  {
    var i := PickedSat(s, t, works, k);
  }

  ghost predicate Twice(ws: seq<Work>, w: Work) {
    exists k, l :: 0 <= k < l < |ws| && ws[k] == w && ws[l] == w
  }

  lemma TwiceInLonger(front: seq<Work>, ws: seq<Work>, w: Work)
    requires Twice(front, w) && front <= ws
    ensures Twice(ws, w)
  {
    var k, l :| 0 <= k < l < |front| && front[k] == w && front[l] == w;
    assert ws[k] == w && ws[l] == w;
  }

  lemma {:induction false} TwiceInMine(works: seq<Work>, w: Work, i: nat, j: nat)
    requires i < j < |works| && works[i] == w && works[j] == w
    ensures Twice(AfqSelect.Mine(works, w.acct), w)
  {
    var n := |works| - 1;
    var mine, front := AfqSelect.Mine(works, w.acct), AfqSelect.Mine(works[..n], w.acct);
    assert front <= mine;
    if j < n {
      TwiceInMine(works[..n], w, i, j);
      TwiceInLonger(front, mine, w);
    } else {
      MineHas(works[..n], i);
      var k :| 0 <= k < |front| && front[k] == w;
      assert mine == front + [w];
      assert mine[k] == w && mine[|front|] == w;
    }
  }

  /** Works that were queued under distinct ids are distinct in a batch that keeps each account's order. */
  lemma BatchIsDistinct(s: Sel, t: Sel, works: seq<Work>, i: nat, j: nat)
    requires AfqSelect.Conserves(s, t, works) && Distinct(s) && i < j < |works|
    ensures works[i].id != works[j].id
  {
    if works[i].id == works[j].id {
      var w := works[i];
      var p := PickedSat(s, t, works, i);
      var q := PickedSat(s, t, works, j);
      assert works[j] == w;
      TwiceInMine(works, w, i, j);
      var mine := AfqSelect.Mine(works, w.acct);
      var k, l :| 0 <= k < l < |mine| && mine[k] == w && mine[l] == w;
      assert AfqSelect.WorksOf(s, w.acct) == mine + AfqSelect.WorksOf(t, w.acct);
      assert Sits(s, w.acct, k, w.id) && Sits(s, w.acct, l, w.id);
    }
  }

  /** So the gate has seen none of the works that selection hands it, and knows what to do with each. */
  lemma SelectedMayGo(x: State, t: Sel, works: seq<Work>)
    requires Whole(x) && AfqGate.WantDispatch(x.gate) && AfqSelect.Conserves(x.sel, t, works) && works != []
    ensures AfqGate.Enabled(x.gate, AfqGate.Dispatch(works))
  {
    forall i, j | 0 <= i < |works| && 0 <= j < |works|
      ensures works[i].id !in x.gate.owner && (i != j ==> works[i].id != works[j].id)
    {
      PickedWaited(x.sel, t, works, works[i].id) by { assert InBatch(works, works[i].id); }
      assert Accounted(x, works[i].id);
      if i < j { BatchIsDistinct(x.sel, t, works, i, j); }
      if j < i { BatchIsDistinct(x.sel, t, works, j, i); }
    }
    PickedIsKnown(x.sel, t, works, 0);
  }

  /** After a submission exactly the works of the batch are newly out. */
  lemma SubmittedOwners(g: Gate, works: seq<Work>, w: int)
    requires AfqGate.Inv(g) && AfqGate.Enabled(g, AfqGate.Dispatch(works))
    requires forall i :: 0 <= i < |works| ==> AfqGate.Known(works[i])
    ensures w in AfqGate.Submit(g, works).owner <==> w in g.owner || InBatch(works, w)
  {
    var b := g.submitted;
    var start := g.(batches := g.batches[b := 0], submitted := g.submitted + 1);
    assert b !in g.batches;
    AfqGate.NoMembers(g, b);
    AfqGate.SubmitAllEffect(start, b, works);
    if InBatch(works, w) {
      var i :| 0 <= i < |works| && works[i].id == w;
      AfqGate.SubmitAllOwns(start, b, works, i);
    }
  }

  lemma CallAccounts(x: State, t: Sel, works: seq<Work>, w: int)
    requires Whole(x) && AfqGate.WantDispatch(x.gate) && AfqSelect.Conserves(x.sel, t, works) && works != []
    ensures Accounted(x.(sel := t, gate := AfqGate.Submit(x.gate, works)), w)
  {
    assert Accounted(x, w);
    SelectedMayGo(x, t, works);
    forall i | 0 <= i < |works| ensures AfqGate.Known(works[i]) { PickedIsKnown(x.sel, t, works, i); }
    SubmittedOwners(x.gate, works, w);
    if Waiting(t, w) { LeftIsNotPicked(x.sel, t, works, w); }
    if Waiting(x.sel, w) { WaitedIsPickedOrLeft(x.sel, t, works, w); }
    if InBatch(works, w) { PickedWaited(x.sel, t, works, w); }
  }

  lemma CallIsWhole(x: State, now: int)
    requires Whole(x)
    ensures Whole(Called(x, now))
  {
    if AfqGate.WantDispatch(x.gate) {
      AfqSelect.SelectionIsSound(x.sel, now);
      match AfqSelect.Select(x.sel, now)
      case Batch(t, works, _) =>
        SelectedMayGo(x, t, works);
        AfqGate.SubmitKeepsInv(x.gate, works);
        LeftIsDistinct(x.sel, t, works);
        LeftIsKnown(x.sel, t, works);
        forall w ensures Accounted(Called(x, now), w) { CallAccounts(x, t, works, w); }
      case NoWork(t) =>
      case Error(t) =>
    }
  }

  // ----- The other steps --------------------------------------------------

  /** Steps that leave every queue as it was. */
  lemma SameQueues(s: Sel, t: Sel)
    requires forall a :: AfqSelect.WorksOf(t, a) == AfqSelect.WorksOf(s, a)
    ensures Distinct(s) ==> Distinct(t)
    ensures AllKnown(s) ==> AllKnown(t)
    ensures forall w :: Waiting(t, w) <==> Waiting(s, w)
  {
    forall a, i, w ensures Sits(t, a, i, w) <==> Sits(s, a, i, w) { }
    forall w ensures Waiting(t, w) <==> Waiting(s, w) {
      if Waiting(s, w) { var a, i :| Sits(s, a, i, w); assert Sits(t, a, i, w); }
      if Waiting(t, w) { var a, i :| Sits(t, a, i, w); assert Sits(s, a, i, w); }
    }
  }

  lemma BooksAreWhole(x: State, s: AfqSelect.Step)
    requires Whole(x) && Enabled(x, Books(s))
    ensures Whole(Next(x, Books(s)))
  {
    var t := AfqSelect.Next(x.sel, s);
    AfqSelect.NextKeepsOk(x.sel, s);
    forall a ensures AfqSelect.WorksOf(t, a) == AfqSelect.WorksOf(x.sel, a) {
      AfqSelect.OtherStepKeepsWorks(x.sel, s, a);
    }
    SameQueues(x.sel, t);
    forall w ensures Accounted(Next(x, Books(s)), w) { assert Accounted(x, w); }
  }

  lemma ArrivalQueues(s: Sel, w: Work, now: int, a: int)
    requires w.acct in s.accts
    ensures AfqSelect.WorksOf(AfqSelect.AddWork(s, w.acct, w, now), a)
         == AfqSelect.WorksOf(s, a) + if a == w.acct then [w] else []
  {
  }

  lemma ArrivalSits(s: Sel, w: Work, now: int, a: int, i: int, v: int)
    requires w.acct in s.accts
    ensures var t := AfqSelect.AddWork(s, w.acct, w, now);
      Sits(t, a, i, v) <==> Sits(s, a, i, v) || (a == w.acct && i == |AfqSelect.WorksOf(s, a)| && v == w.id)
  {
    ArrivalQueues(s, w, now, a);
  }

  lemma ArrivalWaits(s: Sel, w: Work, now: int, v: int)
    requires w.acct in s.accts
    ensures Waiting(AfqSelect.AddWork(s, w.acct, w, now), v) <==> Waiting(s, v) || v == w.id
  {
    var t := AfqSelect.AddWork(s, w.acct, w, now);
    if Waiting(s, v) {
      var a, i :| Sits(s, a, i, v);
      ArrivalSits(s, w, now, a, i, v);
    }
    if v == w.id { ArrivalSits(s, w, now, w.acct, |AfqSelect.WorksOf(s, w.acct)|, v); }
    if Waiting(t, v) {
      var a, i :| Sits(t, a, i, v);
      ArrivalSits(s, w, now, a, i, v);
    }
  }

  lemma ArrivalIsDistinct(s: Sel, w: Work, now: int)
    requires w.acct in s.accts && Distinct(s) && AllKnown(s) && !Waiting(s, w.id) && AfqGate.Known(w)
    ensures var t := AfqSelect.AddWork(s, w.acct, w, now); Distinct(t) && AllKnown(t)
  {
    var t := AfqSelect.AddWork(s, w.acct, w, now);
    forall a, i, b, j, v | Sits(t, a, i, v) && Sits(t, b, j, v) ensures a == b && i == j {
      ArrivalSits(s, w, now, a, i, v);
      ArrivalSits(s, w, now, b, j, v);
    }
    forall a, i | 0 <= i < |AfqSelect.WorksOf(t, a)| ensures AfqGate.Known(AfqSelect.WorksOf(t, a)[i]) {
      ArrivalQueues(s, w, now, a);
    }
  }

  lemma ArrivalIsWhole(x: State, w: Work, now: int)
    requires Whole(x) && Enabled(x, Arrive(w, now))
    ensures Whole(Next(x, Arrive(w, now)))
  {
    assert Accounted(x, w.id);
    AfqSelect.AddWorkKeeps(x.sel, w.acct, w, now);
    ArrivalIsDistinct(x.sel, w, now);
    forall v ensures Accounted(Next(x, Arrive(w, now)), v) {
      assert Accounted(x, v);
      ArrivalWaits(x.sel, w, now, v);
    }
  }

  lemma FinishIsWhole(x: State, w: Work)
    requires Whole(x) && Enabled(x, Finish(w))
    ensures Whole(Next(x, Finish(w)))
  {
    AfqGate.ReturnKeepsInv(x.gate, w);
    forall v ensures Accounted(Next(x, Finish(w)), v) { assert Accounted(x, v); }
  }

  lemma GatedIsWhole(x: State, s: AfqGate.Step)
    requires Whole(x) && Enabled(x, Gated(s))
    ensures Whole(Next(x, Gated(s)))
  {
    AfqGate.NextKeepsInv(x.gate, s);
    forall v ensures Accounted(Next(x, Gated(s)), v) { assert Accounted(x, v); }
  }

  lemma NextIsWhole(x: State, step: Step)
    requires Whole(x) && Enabled(x, step)
    ensures Whole(Next(x, step))
  {
    match step
    case Arrive(w, now) => ArrivalIsWhole(x, w, now);
    case Books(s) => BooksAreWhole(x, s);
    case Call(now) => CallIsWhole(x, now);
    case Finish(w) => FinishIsWhole(x, w);
    case Gated(s) => GatedIsWhole(x, s);
  }

  // ----- Runs -------------------------------------------------------------

  ghost predicate StepTaken(states: seq<State>, steps: seq<Step>, i: nat)
    requires |states| == |steps| + 1 && i < |steps|
  {
    Enabled(states[i], steps[i]) && states[i + 1] == Next(states[i], steps[i])
  }

  ghost predicate IsRun(states: seq<State>, steps: seq<Step>) {
    && |states| == |steps| + 1 && states[0] == Start
    && forall i :: 0 <= i < |steps| ==> StepTaken(states, steps, i)
  }

  lemma StartIsWhole()
    ensures Whole(Start)
  {
    forall a ensures AfqSelect.WorksOf(Start.sel, a) == [] { }
  }

  /**
   * In every state of every run of the whole scheduler, selection and gate are in order, and every
   * work that has arrived is waiting in one queue at one place, out in one batch, or back.
   */
  lemma {:induction false} RunIsWhole(states: seq<State>, steps: seq<Step>, k: nat)
    requires IsRun(states, steps) && k <= |steps|
    ensures Whole(states[k])
  {
    if k == 0 {
      StartIsWhole();
    } else {
      RunIsWhole(states, steps, k - 1);
      assert StepTaken(states, steps, k - 1);
      NextIsWhole(states[k - 1], steps[k - 1]);
    }
  }

  /**
   * In every reachable state a dispatch that the gate wants submits a batch of 1 to 100 works, all of
   * which it counts, unless nothing waits or the last account is being waited for; it never fails.
   */
  lemma CallSubmits(states: seq<State>, steps: seq<Step>, k: nat, now: int)
    requires IsRun(states, steps) && k <= |steps|
    ensures var x := states[k];
      AfqSelect.ActiveOk(x.sel) && AfqGate.WantDispatch(x.gate) ==>
        match AfqSelect.Select(x.sel, now)
        case Error(_) => false
        case NoWork(t) => t == x.sel && (x.sel.active == [] || AfqSelect.IdleForLast(x.sel, now))
        case Batch(_, works, _) =>
          && 1 <= |works| <= AfqSelect.MAX_BATCH_SIZE && AfqGate.Enabled(x.gate, AfqGate.Dispatch(works))
          && Called(x, now).gate.batches == x.gate.batches[x.gate.submitted := |works|]
  {
    RunIsWhole(states, steps, k);
    var x := states[k];
    AfqSelect.SelectionIsSound(x.sel, now);
    if AfqGate.WantDispatch(x.gate) && AfqSelect.Select(x.sel, now).Batch? {
      var o := AfqSelect.Select(x.sel, now);
      SelectedMayGo(x, o.s, o.works);
      AfqGate.SubmitKeepsInv(x.gate, o.works);
      forall i | 0 <= i < |o.works| ensures AfqGate.Known(o.works[i]) { PickedIsKnown(x.sel, o.s, o.works, i); }
      AllAreCounted(o.works);
    }
  }

  lemma {:induction false} AllAreCounted(works: seq<Work>)
    requires forall i :: 0 <= i < |works| ==> AfqGate.Known(works[i])
    ensures AfqGate.KnownCount(works) == |works|
  {
    if works != [] { AllAreCounted(works[..|works| - 1]); }
  }
}
