/**
 * The token bucket's dispatcher: a rotating list of read and write queues, the head of
 * which is served until it has had its run, runs out of requests, or runs out of tokens.
 */
module TbDispatch {
  import opened TbAccount
  import opened TbHooks

  const RUN_SIZE_LIMIT := 10 * 1024 * 1024
  const ANTICIPATION_US := 10000
  const NSEC_PER_SEC := 1000000000

  datatype Rq = Rq(id: int, bytes: nat)

  datatype QueueId = QueueId(account: int, write: bool)

  /** struct queue: its requests, how many there are, and when one was last popped. */
  datatype Queue = Queue(qid: QueueId, reqs: seq<Rq>, count: int, lastPop: int)

  function Push(q: Queue, rq: Rq): Queue {
    q.(reqs := q.reqs + [rq], count := q.count + 1)
  }

  function Pop(q: Queue, now: int): Queue
    requires q.reqs != []
  {
    q.(reqs := q.reqs[1..], count := q.count - 1, lastPop := now)
  }

  /** Time since the last pop, never more than about three seconds; an unsigned number if the clock went back. */
  function PopElapsedUs(q: Queue, now: int): int {
    var usecs := now / NSEC_PER_USEC - q.lastPop / NSEC_PER_USEC;
    if now / NSEC_PER_SEC > q.lastPop / NSEC_PER_SEC + 2 then 1000000
    else if usecs < 0 then usecs + U64
    else usecs
  }

  datatype DState = DState(queues: seq<Queue>, accts: map<int, Account>, run: int)

  ghost predicate ValidQueues(qs: seq<Queue>) {
    && (forall i :: 0 <= i < |qs| ==> qs[i].count == |qs[i].reqs|)
    && (forall i, j :: 0 <= i < j < |qs| ==> qs[i].qid != qs[j].qid)
  }

  ghost predicate ValidD(d: DState) {
    ValidQueues(d.queues) && forall i :: 0 <= i < |d.queues| ==> d.queues[i].qid.account in d.accts
  }

  /** The clock as read when a queue is visited: to refresh its account, and to pop or to anticipate. */
  datatype Tick = Tick(refresh: int, pop: int)

  /** Readings for every queue visited, never behind any account's clock. */
  ghost predicate ClockOk(d: DState, times: seq<Tick>, i: nat) {
    && (forall j, k :: i <= j <= k < |times| ==> times[j].refresh <= times[k].refresh)
    && (i < |times| ==> forall id :: id in d.accts ==> d.accts[id].lastUpdate <= times[i].refresh)
  }

  function RefreshHead(d: DState, now: int): DState
    requires d.queues != [] && d.queues[0].qid.account in d.accts
    requires d.accts[d.queues[0].qid.account].lastUpdate <= now
  {
    var id := d.queues[0].qid.account;
    d.(accts := d.accts[id := Refresh(d.accts[id], now)])
  }

  /** Writes are always served; reads when the account is unlimited or has tokens. */
  predicate Eligible(q: Queue, a: Account) {
    q.qid.write || a.rate <= 0 || Count(a) > 0
  }

  function Rotate(d: DState): DState
    requires d.queues != []
  {
    d.(queues := d.queues[1..] + [d.queues[0]], run := 0)
  }

  function ServeHead(d: DState, now: int): DState
    requires d.queues != [] && d.queues[0].reqs != []
  {
    d.(queues := d.queues[0 := Pop(d.queues[0], now)], run := d.run + d.queues[0].reqs[0].bytes)
  }

  /** How a call ends: with a request, or with a wait that arms the timer when it is positive. */
  datatype Outcome =
    | Served(d: DState, rotations: nat, qid: QueueId, rq: Rq)
    | Idle(d: DState, rotations: nat, anticipating: bool, wait: int)

  function SoonerWait(wait: int, q: Queue, a: Account): int {
    if q.count > 0 && (wait == 0 || EstimateWait(a) < wait) then EstimateWait(a) else wait
  }

  /** The dispatch loop from its i-th turn on. */
  function DispatchFrom(d: DState, i: nat, wait: int, times: seq<Tick>): Outcome
    requires ValidD(d) && ClockOk(d, times, i) && i <= |d.queues| <= |times|
    decreases |d.queues| - i
  {
    if i == |d.queues| then Idle(d, i, false, wait)
    else
      var e := RefreshHead(d, times[i].refresh);
      var q, a := e.queues[0], e.accts[e.queues[0].qid.account];
      if e.run >= RUN_SIZE_LIMIT then Switch(e, i, wait, times)
      else if Eligible(q, a) then
        if q.reqs != [] then Served(ServeHead(e, times[i].pop), i, q.qid, q.reqs[0])
        else if i == 0 && PopElapsedUs(q, times[i].pop) < ANTICIPATION_US
        then Idle(e, i, true, ANTICIPATION_US - PopElapsedUs(q, times[i].pop))
        else Switch(e, i, SoonerWait(wait, q, a), times)
      else Switch(e, i, SoonerWait(wait, q, a), times)
  }

  function Switch(e: DState, i: nat, wait: int, times: seq<Tick>): Outcome
    requires ValidD(e) && ClockOk(e, times, i) && i < |e.queues| <= |times|
    decreases |e.queues| - i, 0
  {
    DispatchFrom(Rotate(e), i + 1, wait, times)
  }

  function Dispatch(d: DState, times: seq<Tick>): Outcome
    requires ValidD(d) && ClockOk(d, times, 0) && |d.queues| <= |times|
  {
    DispatchFrom(d, 0, 0, times)
  }

  // ----- Declining is justified -------------------------------------------

  /** Examining and passing over the head keeps the state in order and the clocks behind the time. */
  lemma PassOver(d: DState, times: seq<Tick>, i: nat)
    requires ValidD(d) && ClockOk(d, times, i) && i < |times| && d.queues != []
    ensures var e := Rotate(RefreshHead(d, times[i].refresh));
      && ValidD(e) && ClockOk(e, times, i + 1) && e.accts.Keys == d.accts.Keys
      && e.queues == d.queues[1..] + [d.queues[0]] && e.run == 0
  {
    var e := Rotate(RefreshHead(d, times[i].refresh));
    forall k | 0 <= k < |e.queues| ensures e.queues[k].qid.account in e.accts {
      assert e.queues[k] == if k < |d.queues| - 1 then d.queues[k + 1] else d.queues[0];
    }
  }

  lemma RotationSnoc(qs: seq<Queue>, k: nat)
    requires k < |qs|
    ensures var r := qs[k..] + qs[..k]; r[1..] + [r[0]] == qs[k + 1..] + qs[..k + 1]
  {
  }

  /** The state after visiting k queues in turn without serving any. */
  ghost function Visit(d: DState, k: nat, times: seq<Tick>): (e: DState)
    requires ValidD(d) && ClockOk(d, times, 0) && k <= |d.queues| <= |times|
    ensures ValidD(e) && ClockOk(e, times, k) && e.accts.Keys == d.accts.Keys
    ensures e.queues == d.queues[k..] + d.queues[..k]
    ensures e.run == if k == 0 then d.run else 0
  {
    if k == 0 then d
    else
      var v := Visit(d, k - 1, times);
      PassOver(v, times, k - 1);
      RotationSnoc(d.queues, k - 1);
      Rotate(RefreshHead(v, times[k - 1].refresh))
  }

  /** The account of the j-th queue as it stands when the queue is examined. */
  ghost function ExaminedAccount(d: DState, j: nat, times: seq<Tick>): Account
    requires ValidD(d) && ClockOk(d, times, 0) && j < |d.queues| <= |times|
  {
    RefreshHead(Visit(d, j, times), times[j].refresh).accts[d.queues[j].qid.account]
  }

  /** A queue with requests that is passed over is a read queue of an account in debt. */
  ghost predicate InDebt(d: DState, j: nat, times: seq<Tick>)
    requires ValidD(d) && ClockOk(d, times, 0) && j < |d.queues| <= |times|
  {
    var a := ExaminedAccount(d, j, times);
    !d.queues[j].qid.write && 0 < a.rate && Count(a) <= 0
  }

  ghost predicate HasWork(qs: seq<Queue>, i: nat) {
    exists j :: i <= j < |qs| && qs[j].reqs != []
  }

  lemma VisitNext(d: DState, i: nat, times: seq<Tick>)
    requires ValidD(d) && ClockOk(d, times, 0) && i < |d.queues| <= |times|
    ensures Visit(d, i + 1, times) == Rotate(RefreshHead(Visit(d, i, times), times[i].refresh))
    ensures Visit(d, i, times).queues[0] == d.queues[i]
  {
  }

  /** o is how the loop goes on from the state in which i queues have been visited, and it declines. */
  ghost predicate DeclinesFrom(d: DState, i: nat, wait: int, times: seq<Tick>, o: Outcome) {
    && ValidD(d) && ClockOk(d, times, 0) && i <= |d.queues| <= |times|
    && d.run < RUN_SIZE_LIMIT && 0 <= wait && o.Idle? && !o.anticipating
    && o == DispatchFrom(Visit(d, i, times), i, wait, times)
  }

  lemma DeclineEnd(d: DState, wait: int, times: seq<Tick>, o: Outcome)
    requires DeclinesFrom(d, |d.queues|, wait, times, o)
    ensures o.d == Visit(d, |d.queues|, times) && o.wait == wait
  {
  }

  /** The i-th turn, in terms of the state the call started from. */
  lemma DeclineTurnAt(d: DState, i: nat, wait: int, times: seq<Tick>, o: Outcome) returns (later: int)
    requires DeclinesFrom(d, i, wait, times, o) && i < |d.queues|
    ensures DeclinesFrom(d, i + 1, later, times, o) && later == SoonerWait(wait, d.queues[i], ExaminedAccount(d, i, times))
    ensures later > 0 <==> wait > 0 || d.queues[i].reqs != []
    ensures d.queues[i].reqs != [] ==> InDebt(d, i, times)
  {
    later := SoonerWait(wait, d.queues[i], ExaminedAccount(d, i, times));
    VisitNext(d, i, times);
    DeclineTurn(Visit(d, i, times), i, wait, times);
  }

  /** How a call that declines ends, in general and for the j-th queue. */
  lemma {:induction false} DeclineFrom(d: DState, i: nat, wait: int, times: seq<Tick>, o: Outcome, j: nat)
    requires DeclinesFrom(d, i, wait, times, o)
    ensures o.d == Visit(d, |d.queues|, times)
    ensures i <= j < |d.queues| && d.queues[j].reqs != [] ==> InDebt(d, j, times)
    ensures o.wait > 0 <==> wait > 0 || HasWork(d.queues, i)
    decreases |d.queues| - i
  {
    if i == |d.queues| {
      DeclineEnd(d, wait, times, o);
    } else {
      var later := DeclineTurnAt(d, i, wait, times, o);
      DeclineFrom(d, i + 1, later, times, o, j);
      WorkFrom(d.queues, i);
    }
  }

  lemma WorkFrom(qs: seq<Queue>, i: nat)
    requires i < |qs|
    ensures HasWork(qs, i) <==> qs[i].reqs != [] || HasWork(qs, i + 1)
  {
  }

  /** One turn of a call that ends up declining: the head is not served, so it is empty or in debt. */
  lemma DeclineTurn(v: DState, i: nat, wait: int, times: seq<Tick>)
    requires ValidD(v) && ClockOk(v, times, i) && i < |v.queues| <= |times| && v.run < RUN_SIZE_LIMIT
    requires var o := DispatchFrom(v, i, wait, times); o.Idle? && !o.anticipating
    ensures var e := RefreshHead(v, times[i].refresh);
      var q, a := v.queues[0], e.accts[v.queues[0].qid.account];
      && (q.reqs != [] ==> !q.qid.write && 0 < a.rate && Count(a) <= 0)
      && ValidD(Rotate(e)) && ClockOk(Rotate(e), times, i + 1)
      && DispatchFrom(v, i, wait, times) == DispatchFrom(Rotate(e), i + 1, SoonerWait(wait, q, a), times)
      && (0 <= wait ==> 0 <= SoonerWait(wait, q, a) && (SoonerWait(wait, q, a) > 0 <==> wait > 0 || q.reqs != []))
  {
    PassOver(v, times, i);
    assert v.queues[0].count == |v.queues[0].reqs|;
  }

  /**
   * A call that starts within a run, finds nothing to serve and does not anticipate leaves all
   * queues and their order as they were; every request left is a read of an account that had
   * no tokens when its queue was examined; and the timer is armed exactly when there is one.
   */
  lemma DecliningIsJustified(d: DState, times: seq<Tick>)
    requires ValidD(d) && ClockOk(d, times, 0) && |d.queues| <= |times|
    requires d.run < RUN_SIZE_LIMIT
    requires Dispatch(d, times).Idle? && !Dispatch(d, times).anticipating
    ensures var o := Dispatch(d, times);
      && o.d.queues == d.queues
      && (forall j :: 0 <= j < |d.queues| && d.queues[j].reqs != [] ==> InDebt(d, j, times))
      && (o.wait > 0 <==> exists j :: 0 <= j < |d.queues| && d.queues[j].reqs != [])
  {
    var o := Dispatch(d, times);
    forall j | 0 <= j < |d.queues| && d.queues[j].reqs != [] ensures InDebt(d, j, times) {
      DeclineFrom(d, 0, 0, times, o, j);
    }
    DeclineFrom(d, 0, 0, times, o, 0);
    assert d.queues[|d.queues|..] + d.queues[..|d.queues|] == d.queues;
  }

  // ----- Byte fairness of the rotation ------------------------------------

  function Position(qs: seq<Queue>, qid: QueueId): (p: nat)
    ensures p <= |qs|
    ensures p < |qs| ==> qs[p].qid == qid
    ensures p == |qs| ==> forall i :: 0 <= i < |qs| ==> qs[i].qid != qid
  {
    if qs == [] then 0 else if qs[0].qid == qid then 0 else 1 + Position(qs[1..], qid)
  }

  lemma PositionUnique(qs: seq<Queue>, qid: QueueId, i: nat)
    requires ValidQueues(qs) && i < |qs| && qs[i].qid == qid
    ensures Position(qs, qid) == i
  {
  }

  /** Every queued request is at most m bytes, and the run is one a head can have had. */
  ghost predicate Bounded(d: DState, m: nat) {
    && 0 <= d.run <= RUN_SIZE_LIMIT - 1 + m
    && forall i, k :: 0 <= i < |d.queues| && 0 <= k < |d.queues[i].reqs| ==> d.queues[i].reqs[k].bytes <= m
  }

  /** The most a head can be served before it is rotated away. */
  function Tenure(m: nat): nat { RUN_SIZE_LIMIT - 1 + m }

  /** Bytes that can still go to other queues before `qid` is served. */
  function Budget(d: DState, qid: QueueId, m: nat): int {
    var p := Position(d.queues, qid);
    if p == 0 then if d.run < RUN_SIZE_LIMIT then 0 else (|d.queues| - 1) * Tenure(m)
    else p * Tenure(m) - d.run
  }

  /** `qid` is a write queue on the list, with a request. */
  ghost predicate WaitingWrite(d: DState, qid: QueueId) {
    var p := Position(d.queues, qid);
    p < |d.queues| && qid.write && d.queues[p].reqs != []
  }

  lemma BudgetNonNegative(d: DState, qid: QueueId, m: nat)
    requires Bounded(d, m) && WaitingWrite(d, qid)
    ensures 0 <= Budget(d, qid, m)
  {
    var p := Position(d.queues, qid);
    if p > 0 {
      assert (p - 1) * Tenure(m) >= 0;
      assert p * Tenure(m) == (p - 1) * Tenure(m) + Tenure(m);
    }
  }

  /** Passing over the head, whoever it is, never adds to the budget. */
  lemma RotateBudget(d: DState, qid: QueueId, m: nat)
    requires ValidD(d) && Bounded(d, m) && WaitingWrite(d, qid)
    requires Position(d.queues, qid) > 0 || d.run >= RUN_SIZE_LIMIT
    ensures WaitingWrite(Rotate(d), qid) && Budget(Rotate(d), qid, m) <= Budget(d, qid, m)
    ensures ValidD(Rotate(d)) && Bounded(Rotate(d), m)
  {
    var p := Position(d.queues, qid);
    var e := Rotate(d);
    var at := if p == 0 then |d.queues| - 1 else p - 1;
    assert e.queues[at] == d.queues[p];
    PositionUnique(e.queues, qid, at);
    if p > 0 { assert p * Tenure(m) == (p - 1) * Tenure(m) + Tenure(m); }
  }

  lemma RefreshKeepsQueues(d: DState, now: int)
    requires ValidD(d) && d.queues != [] && d.accts[d.queues[0].qid.account].lastUpdate <= now
    ensures ValidD(RefreshHead(d, now)) && RefreshHead(d, now).queues == d.queues
  {
  }

  lemma ServeHeadPosition(d: DState, qid: QueueId, now: int)
    requires ValidD(d) && d.queues != [] && d.queues[0].reqs != [] && WaitingWrite(d, qid)
    requires Position(d.queues, qid) > 0
    ensures var e := ServeHead(d, now);
      ValidQueues(e.queues) && Position(e.queues, qid) == Position(d.queues, qid) && WaitingWrite(e, qid)
  {
    var p := Position(d.queues, qid);
    PositionUnique(ServeHead(d, now).queues, qid, p);
  }

  lemma ServeHeadBounded(d: DState, now: int, m: nat)
    requires ValidD(d) && Bounded(d, m) && d.queues != [] && d.queues[0].reqs != [] && d.run < RUN_SIZE_LIMIT
    ensures Bounded(ServeHead(d, now), m) && d.queues[0].reqs[0].bytes <= m
  {
    var e := ServeHead(d, now);
    forall i, k | 0 <= i < |e.queues| && 0 <= k < |e.queues[i].reqs| ensures e.queues[i].reqs[k].bytes <= m {
      if i == 0 { assert e.queues[0].reqs[k] == d.queues[0].reqs[k + 1]; }
    }
  }

  /** What one call does to the budget of a write queue it does not serve. */
  ghost predicate BudgetKept(before: int, o: Outcome, qid: QueueId, m: nat) {
    && ValidD(o.d) && Bounded(o.d, m)
    && match o
       case Served(d, _, served, rq) =>
         served != qid ==> WaitingWrite(d, qid) && Budget(d, qid, m) + rq.bytes <= before
       case Idle(d, _, _, _) => WaitingWrite(d, qid) && Budget(d, qid, m) <= before
  }

  lemma {:induction false} DispatchFromBudget(d: DState, i: nat, wait: int, times: seq<Tick>, qid: QueueId, m: nat)
    requires ValidD(d) && ClockOk(d, times, i) && i <= |d.queues| <= |times|
    requires Bounded(d, m) && WaitingWrite(d, qid)
    ensures BudgetKept(Budget(d, qid, m), DispatchFrom(d, i, wait, times), qid, m)
    decreases |d.queues| - i
  {
    if i < |d.queues| {
      var e := RefreshHead(d, times[i].refresh);
      RefreshKeepsBudget(d, times[i].refresh, qid, m);
      var q, a := e.queues[0], e.accts[e.queues[0].qid.account];
      if e.run < RUN_SIZE_LIMIT && Eligible(q, a) && q.reqs != [] {
        ServeBudget(e, times[i].pop, qid, m);
      } else if e.run < RUN_SIZE_LIMIT && Eligible(q, a) && i == 0 && PopElapsedUs(q, times[i].pop) < ANTICIPATION_US {
      } else {
        var w := if e.run >= RUN_SIZE_LIMIT then wait else SoonerWait(wait, q, a);
        PassOver(d, times, i);
        RotateBudget(e, qid, m);
        DispatchFromBudget(Rotate(e), i + 1, w, times, qid, m);
      }
    }
  }

  lemma RefreshKeepsBudget(d: DState, now: int, qid: QueueId, m: nat)
    requires ValidD(d) && d.queues != [] && d.accts[d.queues[0].qid.account].lastUpdate <= now
    requires Bounded(d, m) && WaitingWrite(d, qid)
    ensures var e := RefreshHead(d, now);
      ValidD(e) && e.queues == d.queues && e.run == d.run
      && Bounded(e, m) && WaitingWrite(e, qid) && Budget(e, qid, m) == Budget(d, qid, m)
  {
    RefreshKeepsQueues(d, now);
  }

  lemma ServeBudget(d: DState, now: int, qid: QueueId, m: nat)
    requires ValidD(d) && Bounded(d, m) && WaitingWrite(d, qid)
    requires d.queues != [] && d.queues[0].reqs != [] && d.run < RUN_SIZE_LIMIT
    ensures var e := ServeHead(d, now);
      && ValidD(e) && Bounded(e, m)
      && (d.queues[0].qid != qid ==>
            WaitingWrite(e, qid) && Budget(e, qid, m) + d.queues[0].reqs[0].bytes <= Budget(d, qid, m))
  {
    ServeHeadBounded(d, now, m);
    if d.queues[0].qid != qid {
      assert Position(d.queues, qid) > 0;
      ServeHeadPosition(d, qid, now);
    }
  }

  // ----- Runs of the dispatcher -------------------------------------------

  datatype DStep =
    | AddRequest(qid: QueueId, rq: Rq)
    | AddAccount(id: int, now: int)
    | Bill(id: int, a: Account)
    | Call(times: seq<Tick>)

  ghost predicate DEnabled(d: DState, step: DStep, m: nat) {
    match step
    case AddRequest(qid, rq) => Position(d.queues, qid) < |d.queues| && rq.bytes <= m
    case AddAccount(id, now) => id !in d.accts
    case Bill(id, a) => id in d.accts
    case Call(times) => ValidD(d) && ClockOk(d, times, 0) && |d.queues| <= |times|
  }

  /** Accounting at dispatch may change any account; get_account appends a new account's queues. */
  function DNext(d: DState, step: DStep, m: nat): DState
    requires DEnabled(d, step, m)
  {
    match step
    case AddRequest(qid, rq) =>
      var p := Position(d.queues, qid);
      d.(queues := d.queues[p := Push(d.queues[p], rq)])
    case AddAccount(id, now) =>
      d.(queues := d.queues + [Queue(QueueId(id, false), [], 0, 0), Queue(QueueId(id, true), [], 0, 0)],
         accts := d.accts[id := NewAccount(now)])
    case Bill(id, a) => d.(accts := d.accts[id := a])
    case Call(times) => Dispatch(d, times).d
  }

  /** Bytes a step serves from queues other than `qid`. */
  function ToOthers(d: DState, step: DStep, m: nat, qid: QueueId): nat
    requires DEnabled(d, step, m)
  {
    if step.Call? && Dispatch(d, step.times).Served? && Dispatch(d, step.times).qid != qid
    then Dispatch(d, step.times).rq.bytes else 0
  }

  predicate Serves(d: DState, step: DStep, m: nat, qid: QueueId)
    requires DEnabled(d, step, m)
  {
    step.Call? && Dispatch(d, step.times).Served? && Dispatch(d, step.times).qid == qid
  }

  /** A queue at the head whose run is used up goes behind every queue there is, new ones included. */
  function Growth(d: DState, step: DStep, m: nat, qid: QueueId): nat {
    if step.AddAccount? && Position(d.queues, qid) == 0 && d.run >= RUN_SIZE_LIMIT then 2 * Tenure(m) else 0
  }

  /** Queues belong to accounts on the books, so a new account brings new queues. */
  lemma AddAccountValid(d: DState, step: DStep, m: nat)
    requires ValidD(d) && step.AddAccount? && DEnabled(d, step, m)
    ensures ValidD(DNext(d, step, m))
  {
    var e := DNext(d, step, m);
    forall i, j | 0 <= i < j < |e.queues| ensures e.queues[i].qid != e.queues[j].qid {
      if i < |d.queues| { assert d.queues[i].qid.account in d.accts; }
    }
  }

  lemma AddRequestValid(d: DState, step: DStep, m: nat)
    requires ValidD(d) && Bounded(d, m) && step.AddRequest? && DEnabled(d, step, m)
    ensures ValidD(DNext(d, step, m)) && Bounded(DNext(d, step, m), m)
  {
    var e := DNext(d, step, m);
    var p := Position(d.queues, step.qid);
    forall i, k | 0 <= i < |e.queues| && 0 <= k < |e.queues[i].reqs| ensures e.queues[i].reqs[k].bytes <= m {
      if i == p && k == |d.queues[p].reqs| { assert e.queues[i].reqs[k] == step.rq; }
    }
  }

  lemma AddedBudget(d: DState, step: DStep, m: nat, qid: QueueId)
    requires ValidD(d) && Bounded(d, m) && WaitingWrite(d, qid) && !step.Call? && DEnabled(d, step, m)
    ensures var e := DNext(d, step, m);
      && ValidD(e) && Bounded(e, m) && WaitingWrite(e, qid)
      && Budget(e, qid, m) <= Budget(d, qid, m) + Growth(d, step, m, qid)
  {
    var e := DNext(d, step, m);
    var p := Position(d.queues, qid);
    match step {
      case AddRequest(_, _) => AddRequestValid(d, step, m);
      case AddAccount(_, _) => AddAccountValid(d, step, m);
      case Bill(_, _) =>
    }
    assert e.queues[p].qid == qid;
    PositionUnique(e.queues, qid, p);
  }

  lemma StepBudget(d: DState, step: DStep, m: nat, qid: QueueId)
    requires ValidD(d) && Bounded(d, m) && WaitingWrite(d, qid) && DEnabled(d, step, m) && !Serves(d, step, m, qid)
    ensures var e := DNext(d, step, m);
      && ValidD(e) && Bounded(e, m) && WaitingWrite(e, qid)
      && ToOthers(d, step, m, qid) + Budget(e, qid, m) <= Budget(d, qid, m) + Growth(d, step, m, qid)
  {
    if step.Call? {
      DispatchFromBudget(d, 0, 0, step.times, qid, m);
    } else {
      AddedBudget(d, step, m, qid);
    }
  }

  ghost predicate IsDRun(states: seq<DState>, steps: seq<DStep>, m: nat) {
    && |states| == |steps| + 1
    && ValidD(states[0]) && Bounded(states[0], m)
    && forall i :: 0 <= i < |steps| ==>
         DEnabled(states[i], steps[i], m) && states[i + 1] == DNext(states[i], steps[i], m)
  }

  ghost function BytesToOthers(states: seq<DState>, steps: seq<DStep>, m: nat, k: nat, qid: QueueId): nat
    requires IsDRun(states, steps, m) && k <= |steps|
  {
    if k == 0 then 0 else BytesToOthers(states, steps, m, k - 1, qid) + ToOthers(states[k - 1], steps[k - 1], m, qid)
  }

  ghost function TotalGrowth(states: seq<DState>, steps: seq<DStep>, m: nat, k: nat, qid: QueueId): nat
    requires IsDRun(states, steps, m) && k <= |steps|
  {
    if k == 0 then 0 else TotalGrowth(states, steps, m, k - 1, qid) + Growth(states[k - 1], steps[k - 1], m, qid)
  }

  lemma {:induction false} RunBudget(states: seq<DState>, steps: seq<DStep>, m: nat, k: nat, qid: QueueId)
    requires IsDRun(states, steps, m) && k <= |steps| && WaitingWrite(states[0], qid)
    requires forall i :: 0 <= i < k ==> !Serves(states[i], steps[i], m, qid)
    ensures ValidD(states[k]) && Bounded(states[k], m) && WaitingWrite(states[k], qid)
    ensures BytesToOthers(states, steps, m, k, qid) + Budget(states[k], qid, m)
         <= Budget(states[0], qid, m) + TotalGrowth(states, steps, m, k, qid)
  {
    if k > 0 {
      RunBudget(states, steps, m, k - 1, qid);
      StepBudget(states[k - 1], steps[k - 1], m, qid);
    }
  }

  /** How many queues come before `qid`: all the others when its own run is used up. */
  function Ahead(d: DState, qid: QueueId): int {
    var p := Position(d.queues, qid);
    if p == 0 && d.run >= RUN_SIZE_LIMIT then |d.queues| - 1 else p
  }

  lemma BudgetAtMost(d: DState, qid: QueueId, m: nat)
    requires Bounded(d, m)
    ensures Budget(d, qid, m) <= Ahead(d, qid) * Tenure(m)
  {
  }

  lemma TenureBelowLimit(n: int, m: nat)
    requires n > 0
    ensures n * Tenure(m) < n * (RUN_SIZE_LIMIT + m)
  {
    assert Tenure(m) == RUN_SIZE_LIMIT + m - 1;
    assert n * Tenure(m) == n * (RUN_SIZE_LIMIT + m) - n;
  }

  /**
   * Byte fairness. As long as a write queue with work goes unserved, whatever is added or charged
   * meanwhile, the other queues together are served less than one run limit plus one largest
   * request for each queue ahead of it.
   */
  lemma WriteIsServedInTurn(states: seq<DState>, steps: seq<DStep>, m: nat, qid: QueueId)
    requires IsDRun(states, steps, m) && WaitingWrite(states[0], qid)
    requires forall i :: 0 <= i < |steps| ==> !Serves(states[i], steps[i], m, qid)
    ensures var ahead := Ahead(states[0], qid);
      var bytes := BytesToOthers(states, steps, m, |steps|, qid) - TotalGrowth(states, steps, m, |steps|, qid);
      bytes <= ahead * Tenure(m) && (ahead > 0 ==> bytes < ahead * (RUN_SIZE_LIMIT + m))
  {
    RunBudget(states, steps, m, |steps|, qid);
    BudgetNonNegative(states[|steps|], qid, m);
    BudgetAtMost(states[0], qid, m);
    var ahead := Ahead(states[0], qid);
    if ahead > 0 { TenureBelowLimit(ahead, m); }
  }

  // ----- What run_serve_size measures -------------------------------------

  datatype Event = Rotated | ServedFrom(qid: QueueId, bytes: nat)

  function Events(o: Outcome): seq<Event> {
    seq(o.rotations, _ => Rotated) + (if o.Served? then [ServedFrom(o.qid, o.rq.bytes)] else [])
  }

  /** Bytes served since the last rotation. */
  function BytesSinceRotation(log: seq<Event>): nat {
    if log == [] || log[|log| - 1].Rotated? then 0
    else BytesSinceRotation(log[..|log| - 1]) + log[|log| - 1].bytes
  }

  /** Everything served since the last rotation came from `qid`. */
  ghost predicate AllFrom(log: seq<Event>, qid: QueueId) {
    if log == [] || log[|log| - 1].Rotated? then true
    else log[|log| - 1].qid == qid && AllFrom(log[..|log| - 1], qid)
  }

  /** run_serve_size is the bytes served from the current head since it became the head. */
  ghost predicate RunMeasuresHead(d: DState, log: seq<Event>) {
    && d.queues != []
    && d.run == BytesSinceRotation(log)
    && AllFrom(log, d.queues[0].qid)
  }

  lemma {:induction false} DispatchFromRun(d: DState, i: nat, wait: int, times: seq<Tick>)
    requires ValidD(d) && ClockOk(d, times, i) && i <= |d.queues| <= |times| && d.queues != []
    ensures var o := DispatchFrom(d, i, wait, times);
      var base := if o.rotations == i then d.run else 0;
      && i <= o.rotations && o.d.queues != []
      && (o.rotations == i ==> o.d.queues[0].qid == d.queues[0].qid)
      && o.d.run == (if o.Served? then base + o.rq.bytes else base)
      && (o.Served? ==> o.d.queues[0].qid == o.qid)
    decreases |d.queues| - i
  {
    if i < |d.queues| {
      PassOver(d, times, i);
      var e := RefreshHead(d, times[i].refresh);
      var q, a := e.queues[0], e.accts[e.queues[0].qid.account];
      DispatchFromRun(Rotate(e), i + 1, if e.run >= RUN_SIZE_LIMIT then wait else SoonerWait(wait, q, a), times);
    }
  }

  lemma LogAfterCall(log: seq<Event>, o: Outcome)
    ensures var after := log + Events(o);
      var base := if o.rotations == 0 then BytesSinceRotation(log) else 0;
      BytesSinceRotation(after) == if o.Served? then base + o.rq.bytes else base
    ensures forall qid :: (o.rotations == 0 ==> AllFrom(log, qid)) && (o.Served? ==> o.qid == qid) ==> AllFrom(log + Events(o), qid)
  {
    var rots := seq(o.rotations, _ => Rotated);
    var mid := log + rots;
    if o.rotations == 0 { assert mid == log; } else { assert mid[|mid| - 1] == Rotated; }
    var after := log + Events(o);
    if o.Served? {
      assert after[..|after| - 1] == mid;
    } else {
      assert after == mid;
    }
  }

  /** Every call keeps run_serve_size an exact measure of the head's service. */
  lemma CallKeepsMeasure(d: DState, times: seq<Tick>, log: seq<Event>)
    requires ValidD(d) && ClockOk(d, times, 0) && |d.queues| <= |times| && RunMeasuresHead(d, log)
    ensures RunMeasuresHead(Dispatch(d, times).d, log + Events(Dispatch(d, times)))
  {
    DispatchFromRun(d, 0, 0, times);
    LogAfterCall(log, Dispatch(d, times));
  }

  function EventsOf(d: DState, step: DStep, m: nat): seq<Event>
    requires DEnabled(d, step, m)
  {
    if step.Call? then Events(Dispatch(d, step.times)) else []
  }

  /** The events of a run's first k steps. */
  ghost function LogOf(states: seq<DState>, steps: seq<DStep>, m: nat, k: nat): seq<Event>
    requires IsDRun(states, steps, m) && k <= |steps|
  {
    if k == 0 then [] else LogOf(states, steps, m, k - 1) + EventsOf(states[k - 1], steps[k - 1], m)
  }

  lemma StepKeepsMeasure(d: DState, step: DStep, m: nat, log: seq<Event>)
    requires ValidD(d) && DEnabled(d, step, m) && RunMeasuresHead(d, log)
    ensures RunMeasuresHead(DNext(d, step, m), log + EventsOf(d, step, m))
  {
    if step.Call? {
      CallKeepsMeasure(d, step.times, log);
    } else {
      assert log + [] == log;
    }
  }

  lemma {:induction false} DispatchFromKeepsValid(d: DState, i: nat, wait: int, times: seq<Tick>, m: nat)
    requires ValidD(d) && ClockOk(d, times, i) && i <= |d.queues| <= |times| && Bounded(d, m)
    ensures ValidD(DispatchFrom(d, i, wait, times).d) && Bounded(DispatchFrom(d, i, wait, times).d, m)
    decreases |d.queues| - i
  {
    if i < |d.queues| {
      PassOver(d, times, i);
      var e := RefreshHead(d, times[i].refresh);
      var q, a := e.queues[0], e.accts[e.queues[0].qid.account];
      if e.run < RUN_SIZE_LIMIT && Eligible(q, a) && q.reqs != [] {
        ServeHeadBounded(e, times[i].pop, m);
      } else {
        DispatchFromKeepsValid(Rotate(e), i + 1, if e.run >= RUN_SIZE_LIMIT then wait else SoonerWait(wait, q, a),
                               times, m);
      }
    }
  }

  lemma {:induction false} RunValid(states: seq<DState>, steps: seq<DStep>, m: nat, k: nat)
    requires IsDRun(states, steps, m) && k <= |steps|
    ensures ValidD(states[k]) && Bounded(states[k], m)
  {
    if k > 0 {
      RunValid(states, steps, m, k - 1);
      var d, step := states[k - 1], steps[k - 1];
      match step {
        case AddRequest(_, _) => AddRequestValid(d, step, m);
        case AddAccount(_, _) => AddAccountValid(d, step, m);
        case Bill(_, _) =>
        case Call(times) => DispatchFromKeepsValid(d, 0, 0, times, m);
      }
    }
  }

  /** Along every run without forced dispatch, run_serve_size measures the current head's service. */
  lemma {:induction false} RunServeSizeIsExact(states: seq<DState>, steps: seq<DStep>, m: nat, k: nat)
    requires IsDRun(states, steps, m) && k <= |steps|
    requires states[0].queues != [] && states[0].run == 0
    ensures RunMeasuresHead(states[k], LogOf(states, steps, m, k))
  {
    if k > 0 {
      RunServeSizeIsExact(states, steps, m, k - 1);
      RunValid(states, steps, m, k - 1);
      StepKeepsMeasure(states[k - 1], steps[k - 1], m, LogOf(states, steps, m, k - 1));
    }
  }

  // ----- The dispatcher itself --------------------------------------------

  class Dispatcher {
    var queues: seq<Queue>
    var accts: map<int, Account>
    var run: int

    function AsD(): DState
      reads this
    {
      DState(queues, accts, run)
    }

    constructor (now: int)
      ensures ValidD(AsD()) && run == 0 && |queues| == 2 && 0 in accts
    {
      accts := map[0 := NewAccount(now)];
      queues := [Queue(QueueId(0, false), [], 0, 0), Queue(QueueId(0, true), [], 0, 0)];
      run := 0;
    }

    /** queue_push, onto the queue the request was routed to. */
    method PushRequest(p: nat, rq: Rq)
      requires ValidD(AsD()) && p < |queues|
      modifies this`queues
      ensures ValidD(AsD()) && queues == old(queues)[p := Push(old(queues)[p], rq)]
    {
      var q := queues[p];
      q := q.(reqs := q.reqs + [rq]);
      q := q.(count := q.count + 1);
      queues := queues[p := q];
    }

    /** Move the head to the end of the list. */
    method SwitchQueue()
      requires ValidD(AsD()) && queues != []
      modifies this`queues, this`run
      ensures AsD() == Rotate(old(AsD()))
    {
      run := 0;
      queues := queues[1..] + [queues[0]];
    }

    method RefreshHeadAccount(now: int)
      requires ValidD(AsD()) && queues != [] && accts[queues[0].qid.account].lastUpdate <= now
      modifies this`accts
      ensures AsD() == RefreshHead(old(AsD()), now)
    {
      var id := queues[0].qid.account;
      accts := accts[id := Refresh(accts[id], now)];
    }

    /** queue_pop and dispatch_sort of the head's first request. */
    method PopHead(now: int) returns (rq: Rq)
      requires queues != [] && queues[0].reqs != []
      modifies this`queues, this`run
      ensures rq == old(queues)[0].reqs[0] && AsD() == ServeHead(old(AsD()), now)
    {
      var q := queues[0];
      rq := q.reqs[0];
      q := q.(reqs := q.reqs[1..], count := q.count - 1, lastPop := now);
      queues := queues[0 := q];
      run := run + rq.bytes;
    }

    method DispatchOne(times: seq<Tick>) returns (out: Outcome)
      requires ValidD(AsD()) && ClockOk(AsD(), times, 0) && |queues| <= |times|
      modifies this
      ensures out == Dispatch(old(AsD()), times) && out.d == AsD()
    {
      var i, wait := 0, 0;
      while i < |queues|
        invariant 0 <= i <= |queues| <= |times|
        invariant ValidD(AsD()) && ClockOk(AsD(), times, i)
        invariant DispatchFrom(AsD(), i, wait, times) == Dispatch(old(AsD()), times)
        decreases |queues| - i
      {
        PassOver(AsD(), times, i);
        RefreshHeadAccount(times[i].refresh);
        var q, a := queues[0], accts[queues[0].qid.account];
        if run < RUN_SIZE_LIMIT {
          if Eligible(q, a) {
            if q.reqs != [] {
              var rq := PopHead(times[i].pop);
              return Served(AsD(), i, q.qid, rq);
            } else if i == 0 {
              var elapsed := PopElapsedUs(q, times[i].pop);
              if elapsed < ANTICIPATION_US {
                return Idle(AsD(), i, true, ANTICIPATION_US - elapsed);
              }
            }
          }
          if q.count > 0 {
            var usecs := EstimateWait(a);
            if wait == 0 || usecs < wait { wait := usecs; }
          }
        }
        SwitchQueue();
        i := i + 1;
      }
      out := Idle(AsD(), i, false, wait);
    }
  }
}
