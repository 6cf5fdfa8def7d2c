/**
 * What the token bucket's dispatcher does with the requests in its queues: over every run each queue
 * is served oldest first and loses nothing, no read is served without tokens, a call passes over only
 * queues that have nothing to serve, and it waits for a queue just served no longer than ten milliseconds.
 */
module TbQueues {
  import opened TbAccount
  import opened TbHooks
  import opened TbDispatch

  // ----- A queue by its id ------------------------------------------------

  /** The queue of this id; one that is not there yet is as good as new. */
  function Find(qs: seq<Queue>, qid: QueueId): Queue {
    var p := Position(qs, qid);
    if p < |qs| then qs[p] else Queue(qid, [], 0, 0)
  }

  lemma FindAt(qs: seq<Queue>, i: nat)
    requires ValidQueues(qs) && i < |qs|
    ensures Find(qs, qs[i].qid) == qs[i]
  {
    PositionUnique(qs, qs[i].qid, i);
  }

  /** Two lists with the same queues in another order. */
  lemma FindSame(qs: seq<Queue>, rs: seq<Queue>, qid: QueueId)
    requires ValidQueues(qs) && ValidQueues(rs)
    requires forall q :: q in qs <==> q in rs
    ensures Find(qs, qid) == Find(rs, qid)
  {
    var p := Position(qs, qid);
    if p < |qs| {
      assert qs[p] in rs;
      var i :| 0 <= i < |rs| && rs[i] == qs[p];
      PositionUnique(rs, qid, i);
    } else {
      forall i | 0 <= i < |rs| ensures rs[i].qid != qid {
        assert rs[i] in qs;
      }
    }
  }

  lemma FindRotated(d: DState, qid: QueueId)
    requires d.queues != [] && ValidD(d) && ValidD(Rotate(d))
    ensures Find(Rotate(d).queues, qid) == Find(d.queues, qid)
  {
    var qs := d.queues;
    assert qs == [qs[0]] + qs[1..];
    FindSame(qs, Rotate(d).queues, qid);
  }

  lemma FindUpdated(qs: seq<Queue>, i: nat, q: Queue, qid: QueueId)
    requires ValidQueues(qs) && i < |qs| && q.qid == qs[i].qid && ValidQueues(qs[i := q])
    ensures Find(qs[i := q], qid) == if qid == q.qid then q else Find(qs, qid)
  {
    var p := Position(qs, qid);
    if p < |qs| {
      PositionUnique(qs[i := q], qid, p);
      PositionUnique(qs, q.qid, i);
    } else {
      var rs := qs[i := q];
      forall j | 0 <= j < |rs| ensures rs[j].qid != qid { }
    }
  }

  // ----- One call ---------------------------------------------------------

  /** What the call took from queue qid. */
  function TakenFrom(o: Outcome, qid: QueueId): seq<Rq> {
    if o.Served? && o.qid == qid then [o.rq] else []
  }

  /** Queue `after` is queue `before` without the requests taken from its front, popped at time t if any were. */
  ghost predicate Follows(before: Queue, after: Queue, taken: seq<Rq>, t: int) {
    && after.qid == before.qid && before.reqs == taken + after.reqs && before.count == after.count + |taken|
    && after.lastPop == if taken == [] then before.lastPop else t
  }

  function PopTime(o: Outcome, times: seq<Tick>): int {
    if o.rotations < |times| then times[o.rotations].pop else 0
  }

  lemma ServeHeadFollows(d: DState, now: int, qid: QueueId)
    requires ValidD(d) && d.queues != [] && d.queues[0].reqs != []
    ensures var q := d.queues[0];
      Follows(Find(d.queues, qid), Find(ServeHead(d, now).queues, qid), if qid == q.qid then [q.reqs[0]] else [], now)
  {
    var q := d.queues[0];
    var e := ServeHead(d, now);
    assert e.queues == d.queues[0 := e.queues[0]];
    assert ValidQueues(e.queues);
    FindAt(d.queues, 0);
    FindUpdated(d.queues, 0, e.queues[0], qid);
    assert q.reqs == [q.reqs[0]] + e.queues[0].reqs;
  }

  /** The head can be served: it is within its run and is a write or has tokens. */
  predicate Servable(e: DState)
    requires e.queues != [] && e.queues[0].qid.account in e.accts
  {
    var q, a := e.queues[0], e.accts[e.queues[0].qid.account];
    e.run < RUN_SIZE_LIMIT && (q.qid.write || a.rate <= 0 || 0 < Count(a))
  }

  /** A turn serves the head, anticipates for it, or rotates. */
  lemma OneTurn(d: DState, i: nat, wait: int, times: seq<Tick>) returns (later: int)
    requires ValidD(d) && ClockOk(d, times, i) && i < |d.queues| <= |times|
    ensures var o, e := DispatchFrom(d, i, wait, times), RefreshHead(d, times[i].refresh);
      && ValidD(e) && e.queues == d.queues && e.run == d.run && ValidD(Rotate(e)) && ClockOk(Rotate(e), times, i + 1)
      && var q := d.queues[0];
         if Servable(e) && q.reqs != [] then o == Served(ServeHead(e, times[i].pop), i, q.qid, q.reqs[0])
         else if Servable(e) && i == 0 && PopElapsedUs(q, times[i].pop) < ANTICIPATION_US
         then o == Idle(e, i, true, ANTICIPATION_US - PopElapsedUs(q, times[i].pop))
         else o == DispatchFrom(Rotate(e), i + 1, later, times)
  {
    PassOver(d, times, i);
    var e := RefreshHead(d, times[i].refresh);
    later := if e.run >= RUN_SIZE_LIMIT then wait else SoonerWait(wait, e.queues[0], e.accts[e.queues[0].qid.account]);
  }

  lemma ServedFollows(e: DState, times: seq<Tick>, i: nat, o: Outcome, qid: QueueId)
    requires ValidD(e) && i < |e.queues| <= |times| && e.queues[0].reqs != []
    requires o == Served(ServeHead(e, times[i].pop), i, e.queues[0].qid, e.queues[0].reqs[0])
    ensures Follows(Find(e.queues, qid), Find(o.d.queues, qid), TakenFrom(o, qid), PopTime(o, times))
  {
    ServeHeadFollows(e, times[i].pop, qid);
  }

  lemma {:induction false} DispatchFromFollows(d: DState, i: nat, wait: int, times: seq<Tick>, qid: QueueId)
    requires ValidD(d) && ClockOk(d, times, i) && i <= |d.queues| <= |times|
    ensures var o := DispatchFrom(d, i, wait, times);
      Follows(Find(d.queues, qid), Find(o.d.queues, qid), TakenFrom(o, qid), PopTime(o, times))
    decreases |d.queues| - i
  {
    if i < |d.queues| {
      var later := OneTurn(d, i, wait, times);
      var o, e := DispatchFrom(d, i, wait, times), RefreshHead(d, times[i].refresh);
      if Servable(e) && d.queues[0].reqs != [] {
        ServedFollows(e, times, i, o, qid);
      } else if o == DispatchFrom(Rotate(e), i + 1, later, times) {
        assert Find(Rotate(e).queues, qid) == Find(d.queues, qid) by { FindRotated(e, qid); }
        DispatchFromFollows(Rotate(e), i + 1, later, times, qid);
      }
    }
  }

  /** A read that is served is unlimited or has tokens when it goes. */
  lemma {:induction false} ServedHasTokens(d: DState, i: nat, wait: int, times: seq<Tick>)
    requires ValidD(d) && ClockOk(d, times, i) && i <= |d.queues| <= |times|
    ensures var o := DispatchFrom(d, i, wait, times);
      o.Served? && !o.qid.write ==>
        o.qid.account in o.d.accts && var a := o.d.accts[o.qid.account]; a.rate <= 0 || 0 < Count(a)
    decreases |d.queues| - i
  {
    if i < |d.queues| {
      var later := OneTurn(d, i, wait, times);
      var o, e := DispatchFrom(d, i, wait, times), RefreshHead(d, times[i].refresh);
      if o == DispatchFrom(Rotate(e), i + 1, later, times) { ServedHasTokens(Rotate(e), i + 1, later, times); }
    }
  }

  // ----- Runs -------------------------------------------------------------

  function Added(step: DStep, qid: QueueId): seq<Rq> {
    if step.AddRequest? && step.qid == qid then [step.rq] else []
  }

  function TakenBy(d: DState, step: DStep, m: nat, qid: QueueId): seq<Rq>
    requires DEnabled(d, step, m)
  {
    if step.Call? then TakenFrom(Dispatch(d, step.times), qid) else []
  }

  lemma AddRequestQueue(d: DState, step: DStep, m: nat, qid: QueueId)
    requires ValidD(d) && Bounded(d, m) && step.AddRequest? && DEnabled(d, step, m)
    ensures Find(DNext(d, step, m).queues, qid).reqs == Find(d.queues, qid).reqs + Added(step, qid)
    ensures Find(DNext(d, step, m).queues, qid).lastPop == Find(d.queues, qid).lastPop
  {
    var p := Position(d.queues, step.qid);
    AddRequestValid(d, step, m);
    FindAt(d.queues, p);
    FindUpdated(d.queues, p, Push(d.queues[p], step.rq), qid);
  }

  lemma AddAccountQueue(d: DState, step: DStep, m: nat, qid: QueueId)
    requires ValidD(d) && step.AddAccount? && DEnabled(d, step, m)
    ensures Find(DNext(d, step, m).queues, qid) == Find(d.queues, qid)
  {
    AddAccountValid(d, step, m);
    var e, p := DNext(d, step, m), Position(d.queues, qid);
    if p < |d.queues| {
      assert e.queues[p] == d.queues[p];
      PositionUnique(e.queues, qid, p);
    }
  }

  /** One step's arrivals go to the back of a queue and its services come from the front. */
  lemma StepBalances(d: DState, step: DStep, m: nat, qid: QueueId)
    requires ValidD(d) && Bounded(d, m) && DEnabled(d, step, m)
    ensures Find(d.queues, qid).reqs + Added(step, qid)
         == TakenBy(d, step, m, qid) + Find(DNext(d, step, m).queues, qid).reqs
    ensures Find(DNext(d, step, m).queues, qid).lastPop
         == if TakenBy(d, step, m, qid) == [] then Find(d.queues, qid).lastPop
            else PopTime(Dispatch(d, step.times), step.times)
  {
    match step
    case AddRequest(_, _) => AddRequestQueue(d, step, m, qid);
    case AddAccount(_, _) => AddAccountQueue(d, step, m, qid);
    case Bill(_, _) =>
    case Call(times) => DispatchFromFollows(d, 0, 0, times, qid);
  }

  ghost function AddedBy(steps: seq<DStep>, k: nat, qid: QueueId): seq<Rq>
    requires k <= |steps|
  {
    if k == 0 then [] else AddedBy(steps, k - 1, qid) + Added(steps[k - 1], qid)
  }

  ghost function ServedBy(states: seq<DState>, steps: seq<DStep>, m: nat, k: nat, qid: QueueId): seq<Rq>
    requires IsDRun(states, steps, m) && k <= |steps|
  {
    if k == 0 then [] else ServedBy(states, steps, m, k - 1, qid) + TakenBy(states[k - 1], steps[k - 1], m, qid)
  }

  lemma Rebalance(start: seq<Rq>, added: seq<Rq>, out: seq<Rq>, left: seq<Rq>, a: seq<Rq>, p: seq<Rq>, left': seq<Rq>)
    requires start + added == out + left && left + a == p + left'
    ensures start + (added + a) == (out + p) + left'
  {
    assert start + (added + a) == (start + added) + a;
    assert (out + left) + a == out + (left + a);
    assert out + (p + left') == (out + p) + left';
  }

  /**
   * Over every run, what a queue held at the start followed by what was added to it is what was served
   * from it followed by what it holds: nothing is lost, repeated or overtaken.
   */
  lemma {:induction false} RunIsFifo(states: seq<DState>, steps: seq<DStep>, m: nat, k: nat, qid: QueueId)
    requires IsDRun(states, steps, m) && k <= |steps|
    ensures Find(states[0].queues, qid).reqs + AddedBy(steps, k, qid)
         == ServedBy(states, steps, m, k, qid) + Find(states[k].queues, qid).reqs
  {
    if k > 0 {
      RunIsFifo(states, steps, m, k - 1, qid);
      assert Find(states[k - 1].queues, qid).reqs + Added(steps[k - 1], qid)
          == TakenBy(states[k - 1], steps[k - 1], m, qid) + Find(states[k].queues, qid).reqs by
      {
        RunValid(states, steps, m, k - 1);
        StepBalances(states[k - 1], steps[k - 1], m, qid);
      }
      Rebalance(Find(states[0].queues, qid).reqs, AddedBy(steps, k - 1, qid), ServedBy(states, steps, m, k - 1, qid),
                Find(states[k - 1].queues, qid).reqs, Added(steps[k - 1], qid),
                TakenBy(states[k - 1], steps[k - 1], m, qid), Find(states[k].queues, qid).reqs);
    }
  }

  lemma LastPopStep(states: seq<DState>, steps: seq<DStep>, m: nat, j: nat, qid: QueueId)
    requires IsDRun(states, steps, m) && j < |steps|
    ensures Find(states[j + 1].queues, qid).lastPop
         == if Serves(states[j], steps[j], m, qid) then PopTime(Dispatch(states[j], steps[j].times), steps[j].times)
            else Find(states[j].queues, qid).lastPop
  {
    assert ValidD(states[j]) && Bounded(states[j], m) by { RunValid(states, steps, m, j); }
    StepBalances(states[j], steps[j], m, qid);
  }

  /** A queue remembers when it was last served, whatever else happened since. */
  lemma {:induction false} LastPopIsLastService(states: seq<DState>, steps: seq<DStep>, m: nat,
                                                i: nat, k: nat, qid: QueueId)
    requires IsDRun(states, steps, m) && i < k <= |steps| && Serves(states[i], steps[i], m, qid)
    requires forall j :: i < j < k ==> !Serves(states[j], steps[j], m, qid)
    ensures Find(states[k].queues, qid).lastPop == PopTime(Dispatch(states[i], steps[i].times), steps[i].times)
    decreases k
  {
    LastPopStep(states, steps, m, k - 1, qid);
    if i < k - 1 {
      assert !Serves(states[k - 1], steps[k - 1], m, qid);
      LastPopIsLastService(states, steps, m, i, k - 1, qid);
    }
  }

  // ----- Anticipation -----------------------------------------------------

  lemma {:induction false} OnlyFirstTurnAnticipates(d: DState, i: nat, wait: int, times: seq<Tick>)
    requires ValidD(d) && ClockOk(d, times, i) && 0 < i <= |d.queues| <= |times|
    ensures var o := DispatchFrom(d, i, wait, times); !(o.Idle? && o.anticipating)
    decreases |d.queues| - i
  {
    if i < |d.queues| {
      var later := OneTurn(d, i, wait, times);
      OnlyFirstTurnAnticipates(Rotate(RefreshHead(d, times[i].refresh)), i + 1, later, times);
    }
  }

  /**
   * A call holds the disk for its head queue exactly if that queue is empty, is within its run and could
   * be served, and was served less than ten milliseconds ago; it then waits for the rest of that time.
   */
  lemma AnticipationIff(d: DState, times: seq<Tick>)
    requires ValidD(d) && ClockOk(d, times, 0) && 0 < |d.queues| <= |times|
    ensures var o, q := Dispatch(d, times), d.queues[0];
      var a := RefreshHead(d, times[0].refresh).accts[q.qid.account];
      && (o.Idle? && o.anticipating <==>
            d.run < RUN_SIZE_LIMIT && (q.qid.write || a.rate <= 0 || 0 < Count(a)) && q.reqs == []
            && PopElapsedUs(q, times[0].pop) < ANTICIPATION_US)
      && (o.Idle? && o.anticipating ==>
            o.d.queues == d.queues && o.wait == ANTICIPATION_US - PopElapsedUs(q, times[0].pop))
  {
    var later := OneTurn(d, 0, 0, times);
    OnlyFirstTurnAnticipates(Rotate(RefreshHead(d, times[0].refresh)), 1, later, times);
  }

  /** The clamp of the elapsed time never decides it: as far as whole microseconds go, it is the time since the pop. */
  lemma AnticipationWindow(q: Queue, now: int)
    requires q.lastPop <= now
    ensures PopElapsedUs(q, now) < ANTICIPATION_US <==> now / NSEC_PER_USEC - q.lastPop / NSEC_PER_USEC < ANTICIPATION_US
    ensures PopElapsedUs(q, now) < ANTICIPATION_US ==>
      PopElapsedUs(q, now) == now / NSEC_PER_USEC - q.lastPop / NSEC_PER_USEC
  {
  }

  // ----- Passing over -----------------------------------------------------

  /** Queue j has nothing to serve, or is the head and has used up its run. */
  ghost predicate Skippable(d: DState, j: nat, times: seq<Tick>)
    requires ValidD(d) && ClockOk(d, times, 0) && j < |d.queues| <= |times|
  {
    (j == 0 && d.run >= RUN_SIZE_LIMIT) || d.queues[j].reqs == [] || InDebt(d, j, times)
  }

  /** One turn: it ends the call, or the queue may be skipped. */
  lemma TurnSkips(d: DState, i: nat, wait: int, times: seq<Tick>) returns (later: int)
    requires ValidD(d) && ClockOk(d, times, 0) && i < |d.queues| <= |times|
    ensures var o := DispatchFrom(Visit(d, i, times), i, wait, times);
      o.rotations == i || (Skippable(d, i, times) && o == DispatchFrom(Visit(d, i + 1, times), i + 1, later, times))
  {
    var v := Visit(d, i, times);
    VisitNext(d, i, times);
    var e := RefreshHead(v, times[i].refresh);
    later := if e.run >= RUN_SIZE_LIMIT then wait else SoonerWait(wait, d.queues[i], ExaminedAccount(d, i, times));
  }

  /** Every queue that a call passes over had nothing to serve when it was examined. */
  lemma {:induction false} PassedOverFrom(d: DState, i: nat, wait: int, times: seq<Tick>, j: nat)
    requires ValidD(d) && ClockOk(d, times, 0) && i <= |d.queues| <= |times| && i <= j < |d.queues|
    ensures j < DispatchFrom(Visit(d, i, times), i, wait, times).rotations ==> Skippable(d, j, times)
    decreases |d.queues| - i
  {
    var later := TurnSkips(d, i, wait, times);
    if i < j { PassedOverFrom(d, i + 1, later, times, j); }
  }

  lemma PassedOver(d: DState, times: seq<Tick>, j: nat)
    requires ValidD(d) && ClockOk(d, times, 0) && j < |d.queues| <= |times|
    requires j < Dispatch(d, times).rotations
    ensures Skippable(d, j, times)
  {
    PassedOverFrom(d, 0, 0, times, j);
  }

  // ----- How long to wait -------------------------------------------------

  /** Queue w has requests, and this is how long it has to wait. */
  ghost predicate WaitOf(d: DState, times: seq<Tick>, w: nat, wait: int)
    requires ValidD(d) && ClockOk(d, times, 0) && |d.queues| <= |times|
  {
    w < |d.queues| && d.queues[w].reqs != [] && wait == EstimateWait(ExaminedAccount(d, w, times))
  }

  /** Queue j does not have to wait less than this. */
  ghost predicate WaitsAsLong(d: DState, times: seq<Tick>, j: nat, wait: int)
    requires ValidD(d) && ClockOk(d, times, 0) && |d.queues| <= |times|
  {
    j < |d.queues| && d.queues[j].reqs != [] ==> wait <= EstimateWait(ExaminedAccount(d, j, times))
  }

  /** One turn of a declining call: the wait does not grow, and is at most the queue's own. */
  lemma WaitTurn(d: DState, i: nat, wait: int, times: seq<Tick>, o: Outcome) returns (later: int)
    requires DeclinesFrom(d, i, wait, times, o) && i < |d.queues|
    ensures DeclinesFrom(d, i + 1, later, times, o)
    ensures wait > 0 ==> 0 < later <= wait
    ensures d.queues[i].reqs != [] ==> 0 < later
    ensures WaitsAsLong(d, times, i, later) && (later == wait || WaitOf(d, times, i, later))
  {
    later := DeclineTurnAt(d, i, wait, times, o);
    assert d.queues[i].count == |d.queues[i].reqs|;
  }

  lemma {:induction false} WaitOnlyShrinks(d: DState, i: nat, wait: int, times: seq<Tick>, o: Outcome)
    requires DeclinesFrom(d, i, wait, times, o) && wait > 0
    ensures o.wait <= wait
    decreases |d.queues| - i
  {
    if i == |d.queues| {
      DeclineEnd(d, wait, times, o);
    } else {
      var later := WaitTurn(d, i, wait, times, o);
      WaitOnlyShrinks(d, i + 1, later, times, o);
    }
  }

  /** No queue with requests has a shorter wait than a declining call. */
  lemma {:induction false} WaitAtMost(d: DState, i: nat, wait: int, times: seq<Tick>, o: Outcome, j: nat)
    requires DeclinesFrom(d, i, wait, times, o) && i <= j < |d.queues|
    ensures WaitsAsLong(d, times, j, o.wait)
    decreases |d.queues| - i
  {
    var later := WaitTurn(d, i, wait, times, o);
    if i < j {
      WaitAtMost(d, i + 1, later, times, o, j);
    } else if d.queues[i].reqs != [] {
      WaitOnlyShrinks(d, i + 1, later, times, o);
    }
  }

  /** The wait of a declining call is that of one of the queues. */
  lemma {:induction false} WaitIsSome(d: DState, i: nat, wait: int, times: seq<Tick>, o: Outcome) returns (w: nat)
    requires DeclinesFrom(d, i, wait, times, o)
    ensures o.wait == wait || WaitOf(d, times, w, o.wait)
    decreases |d.queues| - i
  {
    w := i;
    if i == |d.queues| {
      DeclineEnd(d, wait, times, o);
    } else {
      var later := WaitTurn(d, i, wait, times, o);
      w := WaitIsSome(d, i + 1, later, times, o);
      if o.wait == later { w := i; }
    }
  }

  /** A call that declines sets the timer to the least estimated wait over the queues with requests. */
  lemma TimerIsLeastWait(d: DState, times: seq<Tick>, j: nat) returns (w: nat)
    requires ValidD(d) && ClockOk(d, times, 0) && |d.queues| <= |times| && d.run < RUN_SIZE_LIMIT
    requires Dispatch(d, times).Idle? && !Dispatch(d, times).anticipating
    requires j < |d.queues| && d.queues[j].reqs != []
    ensures WaitsAsLong(d, times, j, Dispatch(d, times).wait)
    ensures WaitOf(d, times, w, Dispatch(d, times).wait)
  {
    var o := Dispatch(d, times);
    WaitAtMost(d, 0, 0, times, o, j);
    w := WaitIsSome(d, 0, 0, times, o);
    assert o.wait > 0 by { DecliningIsJustified(d, times); }
  }
}
