/**
 * The life of a submitted batch in the AFQ scheduler and the gate that keeps new batches
 * back: closed by a submission, half opened by a timer, opened when a batch is done.
 * Submission, completion and the timer all run under a lock, so each is one step.
 */
module AfqGate {
  import opened Seqs
  import AfqSelect

  type Work = AfqSelect.Work

  const MIN_IN_FLIGHT := 2

  datatype Gate = AllowNewBatch | NoNewBatch | KeepInFlight

  /**
   * Outstanding batches with their one_loop_work counts, which batch each submitted work belongs
   * to until it returns, how many batches there have been, and which have been freed, in order.
   */
  datatype G = G(batches: map<int, int>, owner: map<int, int>, gate: Gate, inflight: int,
                 submitted: nat, freed: seq<int>)

  const Start := G(map[], map[], AllowNewBatch, 0, 0, [])

  /** Works the submission switch knows; anything else is dropped from the batch with a message. */
  predicate Known(w: Work) { !w.kind.WriteReq? }

  function Latest(g: G): int { g.submitted - 1 }

  predicate WantDispatch(g: G) {
    g.gate.AllowNewBatch? || (g.gate.KeepInFlight? && g.inflight < MIN_IN_FLIGHT)
  }

  // ----- Steps ------------------------------------------------------------

  /** Handing one work over to its batch. */
  function SubmitOne(g: G, b: int, w: Work): G {
    if !Known(w) then g
    else
      g.(owner := g.owner[w.id := b],
         batches := g.batches[b := (if b in g.batches then g.batches[b] else 0) + 1],
         inflight := if w.kind.ReadReq? then g.inflight + 1 else g.inflight)
  }

  function SubmitAll(g: G, b: int, works: seq<Work>): G {
    if works == [] then g else SubmitOne(SubmitAll(g, b, works[..|works| - 1]), b, works[|works| - 1])
  }

  function Submit(g: G, works: seq<Work>): G {
    SubmitAll(g.(batches := g.batches[g.submitted := 0], submitted := g.submitted + 1), g.submitted, works)
      .(gate := NoNewBatch)
  }

  /** dec_check_cleanup_batch: the last work to return opens the gate and frees the batch. */
  function DecCheckCleanup(g: G, b: int): G
    requires b in g.batches
  {
    var left := g.batches[b] - 1;
    if left == 0 then g.(batches := g.batches - {b}, gate := AllowNewBatch, freed := g.freed + [b])
    else g.(batches := g.batches[b := left])
  }

  function Return(g: G, w: Work): G
    requires w.id in g.owner && g.owner[w.id] in g.batches
  {
    var h := g.(owner := g.owner - {w.id}, inflight := if w.kind.ReadReq? then g.inflight - 1 else g.inflight);
    DecCheckCleanup(h, g.owner[w.id])
  }

  function TimerFires(g: G): G {
    if g.gate.NoNewBatch? then g.(gate := KeepInFlight) else g
  }

  datatype Step =
    | Dispatch(works: seq<Work>)
    | Finish(w: Work)
    | Timer
    | OtherIo(change: int)     // requests outside any batch, which move inflight alone

  ghost predicate Fresh(g: G, works: seq<Work>) {
    forall i, j :: 0 <= i < |works| && 0 <= j < |works| ==>
      works[i].id !in g.owner && (i != j ==> works[i].id != works[j].id)
  }

  ghost predicate Enabled(g: G, step: Step) {
    match step
    case Dispatch(works) => WantDispatch(g) && Fresh(g, works) && exists i :: 0 <= i < |works| && Known(works[i])
    case Finish(w) => w.id in g.owner && g.owner[w.id] in g.batches
    case Timer => true
    case OtherIo(_) => true
  }

  function Next(g: G, step: Step): G
    requires Enabled(g, step)
  {
    match step
    case Dispatch(works) => Submit(g, works)
    case Finish(w) => Return(g, w)
    case Timer => TimerFires(g)
    case OtherIo(change) => g.(inflight := g.inflight + change)
  }

  // ----- Invariant --------------------------------------------------------

  /** The works of batch b that have not returned. */
  ghost function Members(owner: map<int, int>, b: int): set<int> {
    set w | w in owner && owner[w] == b
  }

  /** one_loop_work counts the members not yet returned, and a batch without any is gone. */
  ghost predicate CountsOk(g: G) {
    && (forall b :: b in g.batches ==> 0 <= b < g.submitted && 0 < g.batches[b] == |Members(g.owner, b)|)
    && (forall w :: w in g.owner ==> g.owner[w] in g.batches)
  }

  /** Every batch ever submitted is either outstanding or has been freed, once. */
  ghost predicate FreedOnce(g: G) {
    && NoDup(g.freed)
    && forall b :: b in g.freed <==> 0 <= b < g.submitted && b !in g.batches
  }

  /** A gate that is not open means the latest batch is still out. */
  ghost predicate GateOk(g: G) {
    !g.gate.AllowNewBatch? ==> 0 < g.submitted && Latest(g) in g.batches
  }

  ghost predicate Inv(g: G) { CountsOk(g) && FreedOnce(g) && GateOk(g) }

  // ----- Submission -------------------------------------------------------

  function KnownCount(works: seq<Work>): nat {
    if works == [] then 0 else KnownCount(works[..|works| - 1]) + (if Known(works[|works| - 1]) then 1 else 0)
  }

  lemma {:induction false} KnownPositive(works: seq<Work>, i: nat)
    requires i < |works| && Known(works[i])
    ensures KnownCount(works) > 0
  {
    if i < |works| - 1 { KnownPositive(works[..|works| - 1], i); }
  }

  /** Submitting to batch b changes only b's count and the works' owner. */
  lemma {:induction false} SubmitAllEffect(g: G, b: int, works: seq<Work>)
    requires b in g.batches && g.batches[b] == 0 && Fresh(g, works) && Members(g.owner, b) == {}
    ensures var h := SubmitAll(g, b, works);
      && h.batches == g.batches[b := KnownCount(works)]
      && |Members(h.owner, b)| == KnownCount(works)
      && (forall w :: w in h.owner ==> (w in g.owner && h.owner[w] == g.owner[w]) || (w !in g.owner && h.owner[w] == b))
      && (forall w :: w in g.owner ==> w in h.owner)
      && (forall w :: w in h.owner && w !in g.owner ==> exists i :: 0 <= i < |works| && works[i].id == w)
      && h.submitted == g.submitted && h.freed == g.freed && h.gate == g.gate
  {
    if works != [] {
      var n := |works| - 1;
      var front, last := works[..n], works[n];
      SubmitAllEffect(g, b, front);
      var h := SubmitAll(g, b, front);
      if Known(last) {
        assert last.id !in h.owner;
        assert Members(h.owner[last.id := b], b) == Members(h.owner, b) + {last.id};
      }
    }
  }

  /** Every known work gets an owner. */
  lemma {:induction false} SubmitAllOwns(g: G, b: int, works: seq<Work>, i: nat)
    requires i < |works| && Known(works[i])
    ensures works[i].id in SubmitAll(g, b, works).owner
  {
    if i < |works| - 1 { SubmitAllOwns(g, b, works[..|works| - 1], i); }
  }

  lemma MembersElsewhere(before: map<int, int>, after: map<int, int>, b: int, c: int)
    requires forall w :: w in after ==> (w in before && after[w] == before[w]) || (w !in before && after[w] == b)
    requires forall w :: w in before ==> w in after
    requires c != b
    ensures Members(after, c) == Members(before, c)
  {
    forall w ensures w in Members(after, c) <==> w in Members(before, c) { }
  }

  lemma SubmitCounts(g: G, h: G, b: int, n: nat)
    requires CountsOk(g) && b == g.submitted && h.submitted == b + 1 && n > 0
    requires h.batches == g.batches[b := n] && |Members(h.owner, b)| == n
    requires forall w :: w in h.owner ==> (w in g.owner && h.owner[w] == g.owner[w]) || (w !in g.owner && h.owner[w] == b)
    requires forall w :: w in g.owner ==> w in h.owner
    ensures CountsOk(h)
  {
    forall c | c in h.batches
      ensures 0 <= c < h.submitted && 0 < h.batches[c] == |Members(h.owner, c)|
    {
      if c != b { MembersElsewhere(g.owner, h.owner, b, c); }
    }
  }

  lemma NoMembers(g: G, b: int)
    requires CountsOk(g) && b !in g.batches
    ensures Members(g.owner, b) == {}
  {
    forall w ensures w !in Members(g.owner, b) {
      if w in g.owner { assert g.owner[w] in g.batches; }
    }
  }

  lemma SubmitEffect(g: G, works: seq<Work>)
    requires Inv(g) && Enabled(g, Dispatch(works))
    ensures var h := Submit(g, works);
      && h.batches == g.batches[g.submitted := KnownCount(works)] && h.submitted == g.submitted + 1
      && h.freed == g.freed && CountsOk(h) && 0 < KnownCount(works)
  {
    var b := g.submitted;
    var start := g.(batches := g.batches[b := 0], submitted := g.submitted + 1);
    assert b !in g.batches;
    NoMembers(g, b);
    SubmitAllEffect(start, b, works);
    var i :| 0 <= i < |works| && Known(works[i]);
    KnownPositive(works, i);
    SubmitCounts(g, Submit(g, works), b, KnownCount(works));
  }

  lemma SubmitKeepsInv(g: G, works: seq<Work>)
    requires Inv(g) && Enabled(g, Dispatch(works))
    ensures Inv(Submit(g, works))
    ensures Submit(g, works).batches == g.batches[g.submitted := KnownCount(works)]
  {
    SubmitEffect(g, works);
  }

  // ----- Return -----------------------------------------------------------

  lemma ReturnCounts(g: G, w: Work)
    requires CountsOk(g) && w.id in g.owner
    ensures g.owner[w.id] in g.batches && CountsOk(Return(g, w))
  {
    var b, h := g.owner[w.id], Return(g, w);
    assert Members(h.owner, b) == Members(g.owner, b) - {w.id};
    assert w.id in Members(g.owner, b);
    forall c | c in h.batches
      ensures 0 <= c < h.submitted && 0 < h.batches[c] == |Members(h.owner, c)|
    {
      if c != b { assert Members(h.owner, c) == Members(g.owner, c); }
    }
    forall x | x in h.owner ensures h.owner[x] in h.batches {
      if h.owner[x] == b { assert x in Members(h.owner, b); }
    }
  }

  lemma ReturnKeepsInv(g: G, w: Work)
    requires Inv(g) && w.id in g.owner
    ensures g.owner[w.id] in g.batches && Inv(Return(g, w))
  {
    ReturnCounts(g, w);
    var b, h := g.owner[w.id], Return(g, w);
    assert b !in g.freed;
    forall c ensures c in h.freed <==> 0 <= c < h.submitted && c !in h.batches {
      assert c in g.freed <==> 0 <= c < g.submitted && c !in g.batches;
    }
  }

  lemma NextKeepsInv(g: G, step: Step)
    requires Inv(g) && Enabled(g, step)
    ensures Inv(Next(g, step))
  {
    match step
    case Dispatch(works) => SubmitKeepsInv(g, works);
    case Finish(w) => ReturnKeepsInv(g, w);
    case Timer =>
    case OtherIo(_) =>
  }

  // ----- Runs -------------------------------------------------------------

  ghost predicate StepTaken(states: seq<G>, steps: seq<Step>, i: nat)
    requires |states| == |steps| + 1 && i < |steps|
  {
    Enabled(states[i], steps[i]) && states[i + 1] == Next(states[i], steps[i])
  }

  ghost predicate IsRun(states: seq<G>, steps: seq<Step>) {
    && |states| == |steps| + 1 && states[0] == Start
    && forall i :: 0 <= i < |steps| ==> StepTaken(states, steps, i)
  }

  /**
   * Batch lifetime over every run: counts equal the members not returned, every batch is freed
   * exactly once, when its last member returns, and a gate that is not open means that the most
   * recently submitted batch is still outstanding.
   */
  lemma {:induction false} RunInv(states: seq<G>, steps: seq<Step>, k: nat)
    requires IsRun(states, steps) && k <= |steps|
    ensures Inv(states[k])
  {
    if k == 0 {
      assert Inv(Start);
    } else {
      RunInv(states, steps, k - 1);
      assert StepTaken(states, steps, k - 1);
      NextKeepsInv(states[k - 1], steps[k - 1]);
    }
  }

  /** Freed once means freed for good: what is freed stays freed, in order. */
  lemma {:induction false} RunFrees(states: seq<G>, steps: seq<Step>, i: nat, j: nat)
    requires IsRun(states, steps) && i <= j <= |steps|
    ensures states[i].freed <= states[j].freed
  {
    if i < j {
      RunFrees(states, steps, i, j - 1);
      RunInv(states, steps, j - 1);
      assert StepTaken(states, steps, j - 1);
      if steps[j - 1].Dispatch? {
        SubmitKeepsFreed(states[j - 1], steps[j - 1].works);
      }
    }
  }

  lemma {:induction false} SubmitAllKeepsFreed(g: G, b: int, works: seq<Work>)
    ensures SubmitAll(g, b, works).freed == g.freed && SubmitAll(g, b, works).submitted == g.submitted
  {
    if works != [] { SubmitAllKeepsFreed(g, b, works[..|works| - 1]); }
  }

  lemma SubmitKeepsFreed(g: G, works: seq<Work>)
    ensures Submit(g, works).freed == g.freed
  {
    SubmitAllKeepsFreed(g.(batches := g.batches[g.submitted := 0], submitted := g.submitted + 1), g.submitted, works);
  }

  /** Without the timer there is one batch at a time, out exactly while the gate is closed. */
  ghost predicate OneAtATime(g: G) {
    match g.gate
    case AllowNewBatch => g.batches == map[]
    case NoNewBatch => 0 < g.submitted && g.batches.Keys == {Latest(g)}
    case KeepInFlight => false
  }

  lemma FinishKeepsOne(g: G, w: Work)
    requires Inv(g) && OneAtATime(g) && w.id in g.owner && g.owner[w.id] in g.batches
    ensures OneAtATime(Return(g, w))
  {
    var b, h := g.owner[w.id], Return(g, w);
    assert b in g.batches.Keys;
    if g.batches[b] == 1 {
      assert h.batches.Keys == {};
    } else {
      assert h.batches.Keys == g.batches.Keys;
    }
  }

  lemma {:induction false} RunWithoutTimer(states: seq<G>, steps: seq<Step>, k: nat)
    requires IsRun(states, steps) && k <= |steps| && forall i :: 0 <= i < k ==> !steps[i].Timer?
    ensures OneAtATime(states[k]) && |states[k].batches| <= 1
  {
    if k > 0 {
      RunWithoutTimer(states, steps, k - 1);
      RunInv(states, steps, k - 1);
      assert StepTaken(states, steps, k - 1);
      var g, step := states[k - 1], steps[k - 1];
      match step {
        case Dispatch(works) => SubmitKeepsInv(g, works);
        case Finish(w) => FinishKeepsOne(g, w);
        case Timer =>
        case OtherIo(_) =>
      }
    }
    var g := states[k];
    assert |g.batches.Keys| == |g.batches|;
  }

  // ----- When a dispatch is wanted ----------------------------------------

  /** Steps i to k - 1 submit no batch and free none. */
  ghost predicate Quiet(states: seq<G>, steps: seq<Step>, i: nat, k: nat)
    requires IsRun(states, steps) && k <= |steps|
  {
    forall j :: i <= j < k ==> !steps[j].Dispatch? && states[j + 1].freed == states[j].freed
  }

  ghost predicate TimerFired(steps: seq<Step>, i: nat, k: nat)
    requires k <= |steps|
  {
    exists j :: i <= j < k && steps[j].Timer?
  }

  /** Once a batch is done, dispatches are wanted until the next batch goes out. */
  lemma {:induction false} WantedAfterFree(states: seq<G>, steps: seq<Step>, i: nat, k: nat)
    requires IsRun(states, steps) && i < k <= |steps| && states[i + 1].freed != states[i].freed
    requires Quiet(states, steps, i + 1, k)
    ensures states[k].gate.AllowNewBatch? && WantDispatch(states[k])
    decreases k
  {
    assert StepTaken(states, steps, k - 1);
    if k == i + 1 {
      if steps[i].Dispatch? { SubmitKeepsFreed(states[i], steps[i].works); }
    } else {
      WantedAfterFree(states, steps, i, k - 1);
    }
  }

  /**
   * After a batch goes out and until one is done, a dispatch is wanted exactly if the timer has fired
   * and fewer than two requests are in flight.
   */
  lemma {:induction false} WantedAfterSubmit(states: seq<G>, steps: seq<Step>, i: nat, k: nat)
    requires IsRun(states, steps) && i < k <= |steps| && steps[i].Dispatch? && Quiet(states, steps, i + 1, k)
    ensures states[k].gate == if TimerFired(steps, i + 1, k) then KeepInFlight else NoNewBatch
    ensures WantDispatch(states[k]) <==> TimerFired(steps, i + 1, k) && states[k].inflight < 2
    decreases k
  {
    assert StepTaken(states, steps, k - 1);
    if k > i + 1 {
      WantedAfterSubmit(states, steps, i, k - 1);
      TimerSoFar(steps, i + 1, k);
    }
  }

  lemma TimerSoFar(steps: seq<Step>, i: nat, k: nat)
    requires i < k <= |steps|
    ensures TimerFired(steps, i, k) <==> TimerFired(steps, i, k - 1) || steps[k - 1].Timer?
  {
    if steps[k - 1].Timer? { assert i <= k - 1 < k; }
  }

  // ----- What is in flight ------------------------------------------------

  function ReadsIn(works: seq<Work>): nat {
    if works == [] then 0 else ReadsIn(works[..|works| - 1]) + (if works[|works| - 1].kind.ReadReq? then 1 else 0)
  }

  /** What a step adds to the requests in flight. */
  function Change(step: Step): int {
    match step
    case Dispatch(works) => ReadsIn(works)
    case Finish(w) => if w.kind.ReadReq? then -1 else 0
    case Timer => 0
    case OtherIo(change) => change
  }

  lemma {:induction false} SubmitAllInflight(g: G, b: int, works: seq<Work>)
    ensures SubmitAll(g, b, works).inflight == g.inflight + ReadsIn(works)
  {
    if works != [] { SubmitAllInflight(g, b, works[..|works| - 1]); }
  }

  ghost function Changes(steps: seq<Step>, k: nat): int
    requires k <= |steps|
  {
    if k == 0 then 0 else Changes(steps, k - 1) + Change(steps[k - 1])
  }

  /** Over every run, in flight are the reads submitted and not returned, and what is outside any batch. */
  lemma {:induction false} InflightIsExact(states: seq<G>, steps: seq<Step>, k: nat)
    requires IsRun(states, steps) && k <= |steps|
    ensures states[k].inflight == Changes(steps, k)
  {
    if k > 0 {
      InflightIsExact(states, steps, k - 1);
      assert StepTaken(states, steps, k - 1);
      var g, step := states[k - 1], steps[k - 1];
      if step.Dispatch? {
        var start := g.(batches := g.batches[g.submitted := 0], submitted := g.submitted + 1);
        SubmitAllInflight(start, g.submitted, step.works);
      }
    }
  }

  // ----- The gate itself --------------------------------------------------

  class Scheduler {
    var g: G

    constructor ()
      ensures g == Start && Inv(g)
    {
      g := Start;
    }

    method Wants() returns (want: nat)
      ensures want > 0 <==> WantDispatch(g)
      ensures want == 1 <==> g.gate.AllowNewBatch?
    {
      if g.gate.AllowNewBatch? { return 1; }
      if g.gate.KeepInFlight? && g.inflight < MIN_IN_FLIGHT { return 2; }
      want := 0;
    }

    /** Hand over the works of a new batch one after the other, then close the gate. */
    method SubmitIoWork(works: seq<Work>)
      requires Inv(g) && Enabled(g, Dispatch(works))
      modifies this
      ensures Inv(g) && g == Submit(old(g), works)
    {
      SubmitKeepsInv(g, works);
      var b, count := g.submitted, 0;
      g := g.(batches := g.batches[b := 0], submitted := g.submitted + 1);
      ghost var start := g;
      var i := 0;
      while i < |works|
        invariant 0 <= i <= |works| && b in g.batches && count == g.batches[b]
        invariant g == SubmitAll(start, b, works[..i])
      {
        assert works[..i + 1][..i] == works[..i];
        var w := works[i];
        match w.kind {
          case WriteReq =>
          case ReadReq =>
            count := count + 1;
            g := g.(owner := g.owner[w.id := b], batches := g.batches[b := count], inflight := g.inflight + 1);
          case _ =>
            count := count + 1;
            g := g.(owner := g.owner[w.id := b], batches := g.batches[b := count]);
        }
        i := i + 1;
      }
      assert works[..i] == works;
      g := g.(gate := NoNewBatch);
    }

    /** A work returns to its batch; `last` tells whether that freed the batch. */
    method Complete(w: Work) returns (last: bool)
      requires Inv(g) && w.id in g.owner && g.owner[w.id] in g.batches
      modifies this
      ensures Inv(g) && g == Return(old(g), w)
      ensures last <==> Members(g.owner, old(g.owner[w.id])) == {}
    {
      ReturnKeepsInv(g, w);
      ReturnCounts(g, w);
      var b := g.owner[w.id];
      ghost var before := Members(g.owner, b);
      if w.kind.ReadReq? { g := g.(inflight := g.inflight - 1); }
      g := g.(owner := g.owner - {w.id});
      ghost var after := Members(g.owner, b);
      assert after == before - {w.id} && w.id in before;
      var left := g.batches[b] - 1;
      assert |after| == left;
      last := left == 0;
      if last {
        g := g.(gate := AllowNewBatch, batches := g.batches - {b}, freed := g.freed + [b]);
      } else {
        g := g.(batches := g.batches[b := left]);
      }
    }

    method BatchWaitTimer()
      requires Inv(g)
      modifies this
      ensures Inv(g) && g == TimerFires(old(g))
    {
      if g.gate.NoNewBatch? { g := g.(gate := KeepInFlight); }
    }
  }
}
