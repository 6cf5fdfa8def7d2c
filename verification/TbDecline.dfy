/**
 * What a declining dispatch leaves behind: whether the accounts it found in debt are still in
 * debt when it returns, which depends on the order of their queues and on the clock.
 */
module TbDecline {
  import opened TbAccount
  import opened TbDispatch

  ghost predicate Declines(d: DState, times: seq<Tick>) {
    && ValidD(d) && ClockOk(d, times, 0) && |d.queues| <= |times| && d.run < RUN_SIZE_LIMIT
    && Dispatch(d, times).Idle? && !Dispatch(d, times).anticipating
  }

  // ----- One account through the visits -----------------------------------

  lemma VisitLeavesOne(d: DState, i: nat, times: seq<Tick>, id: int)
    requires ValidD(d) && ClockOk(d, times, 0) && i < |d.queues| <= |times| && id in d.accts
    requires d.queues[i].qid.account != id
    ensures Visit(d, i + 1, times).accts[id] == Visit(d, i, times).accts[id]
  {
    VisitNext(d, i, times);
  }

  /** Visiting the queues of others leaves an account alone. */
  lemma {:induction false} VisitLeavesAlone(d: DState, i: nat, j: nat, times: seq<Tick>, id: int)
    requires ValidD(d) && ClockOk(d, times, 0) && i <= j <= |d.queues| <= |times| && id in d.accts
    requires forall k :: i <= k < j ==> d.queues[k].qid.account != id
    ensures Visit(d, j, times).accts[id] == Visit(d, i, times).accts[id]
    decreases j - i
  {
    if i < j {
      VisitLeavesOne(d, i, times, id);
      VisitLeavesAlone(d, i + 1, j, times, id);
    }
  }

  /** After the last of its queues, an account stays as it was when that queue was examined. */
  lemma LeftAsExamined(d: DState, i: nat, j: nat, times: seq<Tick>)
    requires ValidD(d) && ClockOk(d, times, 0) && i < j <= |d.queues| <= |times|
    requires forall k :: i < k < j ==> d.queues[k].qid.account != d.queues[i].qid.account
    ensures Visit(d, j, times).accts[d.queues[i].qid.account] == ExaminedAccount(d, i, times)
  {
    VisitNext(d, i, times);
    VisitLeavesAlone(d, i + 1, j, times, d.queues[i].qid.account);
  }

  /** Queue k is the write queue of the account whose read queue is j, and is visited later. */
  predicate WriteAfter(d: DState, j: int, k: int) {
    0 <= j < k < |d.queues| && !d.queues[j].qid.write && d.queues[k].qid == QueueId(d.queues[j].qid.account, true)
  }

  /** What an account refreshed at t0 earns by t1 lifts its count above zero. */
  predicate EarnsBack(a: Account, t0: int, t1: int)
    requires a.lastUpdate <= t0 <= t1
  {
    var b := Refresh(a, t0);
    0 < b.limit && 0 < Count(b) + Income(b, t1)
  }

  lemma RefreshOutOfDebt(b: Account, t: int)
    requires b.lastUpdate <= t && Count(b) <= 0
    ensures Count(Refresh(b, t)) > 0 <==> 0 < b.limit && 0 < Count(b) + Income(b, t)
    ensures Refresh(b, t).rate == b.rate
  {
  }

  /** An account has one read queue and one write queue. */
  lemma OtherQueueOfAccount(d: DState, j: nat, k: nat)
    requires ValidQueues(d.queues) && j < |d.queues| && k < |d.queues| && j != k
    requires d.queues[k].qid.account == d.queues[j].qid.account && !d.queues[j].qid.write
    ensures d.queues[k].qid == QueueId(d.queues[j].qid.account, true)
    ensures forall i :: 0 <= i < |d.queues| && d.queues[i].qid.account == d.queues[j].qid.account ==> i == j || i == k
  {
    assert d.queues[j].qid != d.queues[k].qid;
    forall i | 0 <= i < |d.queues| && d.queues[i].qid.account == d.queues[j].qid.account
      ensures i == j || i == k
    {
      assert d.queues[i].qid == d.queues[j].qid || d.queues[i].qid == d.queues[k].qid;
    }
  }

  /** The account of a read queue at the end of the visits, when its write queue came after. */
  lemma RefreshedTwice(d: DState, j: nat, k: nat, times: seq<Tick>)
    requires ValidD(d) && ClockOk(d, times, 0) && |d.queues| <= |times| && WriteAfter(d, j, k)
    ensures var id := d.queues[j].qid.account;
      && ExaminedAccount(d, j, times) == Refresh(d.accts[id], times[j].refresh)
      && ExaminedAccount(d, j, times).lastUpdate <= times[k].refresh
      && Visit(d, |d.queues|, times).accts[id] == Refresh(ExaminedAccount(d, j, times), times[k].refresh)
  {
    var id := d.queues[j].qid.account;
    OtherQueueOfAccount(d, j, k);
    VisitLeavesAlone(d, 0, j, times, id);
    LeftAsExamined(d, j, k, times);
    LeftAsExamined(d, k, |d.queues|, times);
  }

  // ----- The account at return --------------------------------------------

  /** In debt when the call returns. */
  ghost predicate DebtAtReturn(d: DState, times: seq<Tick>, j: nat)
    requires ValidD(d) && ClockOk(d, times, 0) && j < |d.queues| <= |times|
  {
    var id, e := d.queues[j].qid.account, Dispatch(d, times).d;
    id in e.accts && 0 < e.accts[id].rate && Count(e.accts[id]) <= 0
  }

  /** The write queue of account j comes later, and by then the account has earned its way out of debt. */
  ghost predicate EarnsOut(d: DState, times: seq<Tick>, j: nat, k: nat)
    requires ValidD(d) && ClockOk(d, times, 0) && j < |d.queues| <= |times|
  {
    WriteAfter(d, j, k) && EarnsBack(d.accts[d.queues[j].qid.account], times[j].refresh, times[k].refresh)
  }

  lemma DeclinedIsVisited(d: DState, times: seq<Tick>, j: nat)
    requires Declines(d, times) && j < |d.queues| && d.queues[j].reqs != []
    ensures Dispatch(d, times).d == Visit(d, |d.queues|, times) && InDebt(d, j, times)
  {
    DeclineFrom(d, 0, 0, times, Dispatch(d, times), j);
  }

  lemma DebtWithWriteAfter(d: DState, times: seq<Tick>, j: nat, k: nat)
    requires Declines(d, times) && j < |d.queues| && d.queues[j].reqs != [] && WriteAfter(d, j, k)
    ensures DebtAtReturn(d, times, j) <==> !EarnsOut(d, times, j, k)
  {
    DeclinedIsVisited(d, times, j);
    RefreshedTwice(d, j, k, times);
    RefreshOutOfDebt(ExaminedAccount(d, j, times), times[k].refresh);
  }

  lemma DebtWithoutWriteAfter(d: DState, times: seq<Tick>, j: nat)
    requires Declines(d, times) && j < |d.queues| && d.queues[j].reqs != []
    requires forall k :: j < k < |d.queues| ==> d.queues[k].qid.account != d.queues[j].qid.account
    ensures DebtAtReturn(d, times, j)
  {
    DeclinedIsVisited(d, times, j);
    LeftAsExamined(d, j, |d.queues|, times);
  }

  /** A read queue that is passed over stays in debt unless its account earns its way out at its write queue. */
  lemma DebtAtReturnIff(d: DState, times: seq<Tick>, j: nat)
    requires Declines(d, times) && j < |d.queues| && d.queues[j].reqs != []
    ensures !d.queues[j].qid.write
    ensures DebtAtReturn(d, times, j) <==> forall k :: j < k < |d.queues| ==> !EarnsOut(d, times, j, k)
  {
    assert !d.queues[j].qid.write by { DeclinedIsVisited(d, times, j); }
    if k :| j < k < |d.queues| && d.queues[k].qid.account == d.queues[j].qid.account {
      OtherQueueOfAccount(d, j, k);
      DebtWithWriteAfter(d, times, j, k);
      assert forall i :: j < i < |d.queues| && WriteAfter(d, j, i) ==> i == k;
    } else {
      DebtWithoutWriteAfter(d, times, j);
    }
  }

  /**
   * When a call declines, every request left is a read of an account in debt at that moment, for
   * every clock, exactly if no read queue with requests comes before its account's write queue
   * with enough time between them to earn back the debt.
   */
  lemma DecliningAtReturn(d: DState, times: seq<Tick>)
    requires Declines(d, times)
    ensures (forall j :: 0 <= j < |d.queues| && d.queues[j].reqs != [] ==> DebtAtReturn(d, times, j))
       <==> (forall j, k :: 0 <= j < k < |d.queues| && d.queues[j].reqs != [] ==> !EarnsOut(d, times, j, k))
  {
    forall j | 0 <= j < |d.queues| && d.queues[j].reqs != []
      ensures DebtAtReturn(d, times, j) <==> forall k :: j < k < |d.queues| ==> !EarnsOut(d, times, j, k)
    {
      DebtAtReturnIff(d, times, j);
    }
  }

  /** If every account's write queue comes before its read queue, the claim holds whatever the clock does. */
  lemma DecliningBehindWrites(d: DState, times: seq<Tick>)
    requires Declines(d, times)
    requires forall j, k :: 0 <= j < k < |d.queues| && d.queues[j].reqs != [] ==> !WriteAfter(d, j, k)
    ensures forall j :: 0 <= j < |d.queues| && d.queues[j].reqs != [] ==> DebtAtReturn(d, times, j)
  {
    DecliningAtReturn(d, times);
  }

  lemma NothingEarnedAtOneTime(a: Account, t: int)
    requires a.lastUpdate <= t && Count(Refresh(a, t)) <= 0
    ensures !EarnsBack(a, t, t)
  {
    assert Income(Refresh(a, t), t) == 0;
  }

  /** So it does if the clock stands still during the call. */
  lemma DecliningAtOneTime(d: DState, times: seq<Tick>, t: int)
    requires Declines(d, times) && forall i :: 0 <= i < |times| ==> times[i].refresh == t
    ensures forall j :: 0 <= j < |d.queues| && d.queues[j].reqs != [] ==> DebtAtReturn(d, times, j)
  {
    forall j, k | 0 <= j < k < |d.queues| && d.queues[j].reqs != [] ensures !EarnsOut(d, times, j, k) {
      if WriteAfter(d, j, k) {
        assert Count(Refresh(d.accts[d.queues[j].qid.account], t)) <= 0 by {
          DeclinedIsVisited(d, times, j);
          RefreshedTwice(d, j, k, times);
        }
        NothingEarnedAtOneTime(d.accts[d.queues[j].qid.account], t);
      }
    }
    DecliningAtReturn(d, times);
  }

  // ----- The claim fails --------------------------------------------------

  /** All there is are the queues of one account without tokens: a read waits in front of an empty write queue. */
  ghost predicate ReadFirst(d: DState, times: seq<Tick>, id: int) {
    && ValidD(d) && ClockOk(d, times, 0) && |d.queues| == 2 <= |times| && d.run < RUN_SIZE_LIMIT
    && d.queues[0].qid == QueueId(id, false) && d.queues[0].reqs != []
    && d.queues[1].qid == QueueId(id, true) && d.queues[1].reqs == []
    && 0 < d.accts[id].rate && Count(Refresh(d.accts[id], times[0].refresh)) <= 0
  }

  /** A turn that finds its queue in debt, or empty and not the first, goes on to the next queue. */
  lemma TurnPasses(d: DState, i: nat, wait: int, times: seq<Tick>)
    requires ValidD(d) && ClockOk(d, times, i) && i < |d.queues| <= |times| && d.run < RUN_SIZE_LIMIT
    requires var e := RefreshHead(d, times[i].refresh);
      !Eligible(d.queues[0], e.accts[d.queues[0].qid.account]) || (d.queues[0].reqs == [] && i > 0)
    ensures var e := RefreshHead(d, times[i].refresh);
      && ValidD(Rotate(e)) && ClockOk(Rotate(e), times, i + 1)
      && DispatchFrom(d, i, wait, times)
           == DispatchFrom(Rotate(e), i + 1, SoonerWait(wait, d.queues[0], e.accts[d.queues[0].qid.account]), times)
  {
    PassOver(d, times, i);
  }

  lemma ReadFirstDeclines(d: DState, times: seq<Tick>, id: int)
    requires ReadFirst(d, times, id)
    ensures Declines(d, times) && WriteAfter(d, 0, 1)
  {
    TurnPasses(d, 0, 0, times);
    var e := Rotate(RefreshHead(d, times[0].refresh));
    assert e.queues == [d.queues[1], d.queues[0]];
    TurnPasses(e, 1, SoonerWait(0, d.queues[0], e.accts[id]), times);
  }

  /** Such a read is left although its account has tokens again exactly if the account earned them between the queues. */
  lemma ReadFirstIsLeft(d: DState, times: seq<Tick>, id: int)
    requires ReadFirst(d, times, id)
    ensures Declines(d, times)
    ensures !DebtAtReturn(d, times, 0) <==> EarnsBack(d.accts[id], times[0].refresh, times[1].refresh)
  {
    ReadFirstDeclines(d, times, id);
    DebtWithWriteAfter(d, times, 0, 1);
  }

  /** An account that earns a token in a microsecond. */
  function Poor(limit: int): Account { Account(USEC_PER_SEC, limit, 0, 0, 0, 0, 0, 0, [], 0) }

  lemma PoorEarns(limit: int)
    requires 0 < limit
    ensures Refresh(Poor(limit), 0) == Poor(limit) && EarnsBack(Poor(limit), 0, NSEC_PER_USEC)
  {
    assert Income(Poor(limit), 0) == 0 && Income(Poor(limit), NSEC_PER_USEC) == 1;
  }

  function PoorState(id: int, rq: Rq, limit: int): DState {
    DState([Queue(QueueId(id, false), [rq], 1, 0), Queue(QueueId(id, true), [], 0, 0)], map[id := Poor(limit)], 0)
  }

  /** A microsecond is enough: the call declines a read that its account could pay for by the time it returns. */
  lemma ClockRunsOutOfDebt(id: int, rq: Rq, limit: int, pop: int)
    requires 0 < limit
    ensures var d, times := PoorState(id, rq, limit), [Tick(0, pop), Tick(NSEC_PER_USEC, pop)];
      Declines(d, times) && d.queues[0].reqs != [] && !DebtAtReturn(d, times, 0)
  {
    var d, times := PoorState(id, rq, limit), [Tick(0, pop), Tick(NSEC_PER_USEC, pop)];
    PoorEarns(limit);
    ReadFirstIsLeft(d, times, id);
  }
}
