/**
 * Runs of the deadline scheduler: any interleaving of arrivals, merges and dispatches under
 * fixed settings and a clock that does not run backwards.
 */
module DeadlineRuns {
  import opened Lists
  import opened Deadline

  datatype Step =
    | Add(id: int, rq: Rq)
    | Front(id: int, pos: int, sectors: nat)
    | Back(id: int, sectors: nat)
    | Merge(kept: int, gone: int)
    | Serve

  ghost predicate Enabled(s: DD, step: Step) {
    match step
    case Add(id, _) => id !in s.rq
    case Front(id, _, _) => id in s.rq
    case Back(id, _) => id in s.rq
    case Merge(kept, gone) =>
      kept in s.rq && gone in s.rq && kept != gone && s.rq[kept].dir == s.rq[gone].dir
    case Serve => Inv(s)
  }

  function Next(s: DD, step: Step, cfg: Config, now: int): DD
    requires Enabled(s, step)
  {
    match step
    case Add(id, rq) => AddRequest(s, id, rq, cfg, now)
    case Front(id, pos, sectors) => FrontMerge(s, id, pos, sectors)
    case Back(id, sectors) => BackMerge(s, id, sectors)
    case Merge(kept, gone) => MergeRequests(s, kept, gone)
    case Serve => Dispatch(s, cfg, now)
  }

  lemma NextKeepsInv(s: DD, step: Step, cfg: Config, now: int)
    requires Inv(s) && Enabled(s, step)
    ensures Inv(Next(s, step, cfg, now))
  {
    match step
    case Add(id, rq) => AddKeepsInv(s, id, rq, cfg, now);
    case Front(id, pos, sectors) => FrontMergeKeepsInv(s, id, pos, sectors);
    case Back(id, sectors) => BackMergeKeepsInv(s, id, sectors);
    case Merge(kept, gone) => MergeKeepsInv(s, kept, gone);
    case Serve => DispatchTakesOne(s, cfg, now);
  }

  // ----- Starvation is bounded --------------------------------------------

  function Batch(cfg: Config): nat { if cfg.fifoBatch > 1 then cfg.fifoBatch else 1 }

  /** A batch in direction d is going and may go on. */
  predicate Batching(s: DD, cfg: Config, d: Dir) {
    s.Of(d).next.Some? && s.batching < cfg.fifoBatch
  }

  /** The counters stay in range, and a write batch is only ever going with the starvation count at zero. */
  ghost predicate Counters(s: DD, cfg: Config) {
    && s.starved <= cfg.StarveLimit()
    && s.batching <= Batch(cfg)
    && (s.write.next.Some? ==> s.starved == 0)
  }

  /** How many more reads can be dispatched while a write waits. */
  function ReadsLeft(s: DD, cfg: Config): int {
    (cfg.StarveLimit() - s.starved) * Batch(cfg) + (if Batching(s, cfg, Read) then Batch(cfg) - s.batching else 0)
  }

  /** How many more writes can be dispatched while a read waits. */
  function WritesLeft(s: DD, cfg: Config): int {
    if Batching(s, cfg, Write) then Batch(cfg) - s.batching
    else if s.starved >= cfg.StarveLimit() then Batch(cfg) else 0
  }

  /** The direction a dispatch serves, if any. */
  function Served(s: DD, cfg: Config, now: int): Option<Dir> {
    match Choose(s, cfg, now)
    case Nothing => None
    case Continue(_) => Some(if s.write.next.Some? then Write else Read)
    case Start(d, _, _) => Some(d)
  }

  /** After a dispatch the batch can go on only from the next sector of the same direction. */
  lemma MovedNext(s: DD, id: int, d: Dir)
    requires Inv(s) && Queued(s.rq, d, id)
    ensures var t := MoveRequest(s, id);
      t.Of(Other(d)).next.None? && t.batching == s.batching && t.starved == s.starved
  {
    LatterIsMember(s.Of(d).sorted, id);
  }

  lemma DispatchCounters(s: DD, cfg: Config, now: int)
    requires Inv(s) && Counters(s, cfg)
    ensures var t := Dispatch(s, cfg, now);
      Counters(t, cfg) && match Choose(s, cfg, now)
        case Nothing => t == s
        case Continue(_) => t.batching == s.batching + 1 && t.starved == s.starved
                            && t.Of(Other(Served(s, cfg, now).value)).next.None?
        case Start(d, _, starved) => t.batching == 1 && t.starved == starved && t.Of(Other(d)).next.None?
  {
    ChosenIsQueued(s, cfg, now);
    match Choose(s, cfg, now)
    case Nothing =>
    case Continue(id) =>
      var d := s.rq[id].dir;
      MovedNext(s.(batching := s.batching + 1), id, d);
    case Start(d, id, starved) => MovedNext(s.(batching := 1, starved := starved), id, d);
  }

  lemma OneBatchLess(limit: int, starved: int, b: int)
    ensures (limit - starved) * b == (limit - (starved + 1)) * b + b
  {
  }

  /** A read dispatched while a write waits uses up at least one of the reads left. */
  lemma ReadUsesRank(s: DD, cfg: Config, now: int)
    requires Inv(s) && Counters(s, cfg) && s.write.fifo != [] && Served(s, cfg, now) == Some(Read)
    ensures ReadsLeft(Dispatch(s, cfg, now), cfg) < ReadsLeft(s, cfg)
  {
    DispatchCounters(s, cfg, now);
    OneBatchLess(cfg.StarveLimit(), s.starved, Batch(cfg));
  }

  /** A write dispatched while a read waits uses up at least one of the writes left. */
  lemma WriteUsesRank(s: DD, cfg: Config, now: int)
    requires Inv(s) && Counters(s, cfg) && s.read.fifo != [] && Served(s, cfg, now) == Some(Write)
    requires cfg.StarveLimit() >= 1
    ensures WritesLeft(Dispatch(s, cfg, now), cfg) < WritesLeft(s, cfg)
  {
    DispatchCounters(s, cfg, now);
  }

  /** Arrivals and merges start no batch and reset no counter. */
  lemma OtherStepsKeepRanks(s: DD, step: Step, cfg: Config, now: int)
    requires Inv(s) && Counters(s, cfg) && Enabled(s, step) && !step.Serve?
    ensures var t := Next(s, step, cfg, now);
      && Counters(t, cfg) && t.batching == s.batching && t.starved == s.starved
      && (s.read.next.None? ==> t.read.next.None?) && (s.write.next.None? ==> t.write.next.None?)
  {
  }

  /** Step i of a run leads from state i to state i + 1. */
  ghost predicate Taken(states: seq<DD>, steps: seq<Step>, times: seq<int>, cfg: Config, i: nat)
    requires |states| == |steps| + 1 && |times| == |steps| && i < |steps|
  {
    Enabled(states[i], steps[i]) && states[i + 1] == Next(states[i], steps[i], cfg, times[i])
  }

  ghost predicate IsRun(states: seq<DD>, steps: seq<Step>, times: seq<int>, cfg: Config) {
    && |states| == |steps| + 1 && |times| == |steps|
    && Inv(states[0]) && Counters(states[0], cfg)
    && (forall i, j :: 0 <= i <= j < |times| ==> times[i] <= times[j])
    && forall i :: 0 <= i < |steps| ==> Taken(states, steps, times, cfg, i)
  }

  lemma {:induction false} RunInv(states: seq<DD>, steps: seq<Step>, times: seq<int>, cfg: Config, k: nat)
    requires IsRun(states, steps, times, cfg) && k <= |steps|
    ensures Inv(states[k]) && Counters(states[k], cfg)
  {
    if k > 0 {
      RunInv(states, steps, times, cfg, k - 1);
      assert Taken(states, steps, times, cfg, k - 1);
      NextKeepsAll(states[k - 1], steps[k - 1], states[k], cfg, times[k - 1]);
    }
  }

  lemma NextKeepsAll(s: DD, step: Step, t: DD, cfg: Config, now: int)
    requires Inv(s) && Counters(s, cfg) && Enabled(s, step) && t == Next(s, step, cfg, now)
    ensures Inv(t) && Counters(t, cfg)
  {
    NextKeepsInv(s, step, cfg, now);
    if step.Serve? { DispatchCounters(s, cfg, now); } else { OtherStepsKeepRanks(s, step, cfg, now); }
  }

  /** Step i dispatches a request of direction d. */
  predicate Serves(s: DD, step: Step, cfg: Config, now: int, d: Dir) {
    step.Serve? && Served(s, cfg, now) == Some(d)
  }

  function Served01(s: DD, step: Step, cfg: Config, now: int, d: Dir): nat {
    if Serves(s, step, cfg, now, d) then 1 else 0
  }

  lemma ReadStep(s: DD, step: Step, cfg: Config, now: int)
    requires Inv(s) && Counters(s, cfg) && Enabled(s, step)
    requires s.write.fifo != [] && !Serves(s, step, cfg, now, Write)
    ensures Served01(s, step, cfg, now, Read) + ReadsLeft(Next(s, step, cfg, now), cfg) <= ReadsLeft(s, cfg)
  {
    if step.Serve? {
      assert Served(s, cfg, now) == Some(Read);
      ReadUsesRank(s, cfg, now);
    } else {
      OtherStepsKeepRanks(s, step, cfg, now);
    }
  }

  lemma WriteStep(s: DD, step: Step, cfg: Config, now: int)
    requires Inv(s) && Counters(s, cfg) && Enabled(s, step) && cfg.StarveLimit() >= 1
    requires s.read.fifo != [] && !Serves(s, step, cfg, now, Read)
    ensures Served01(s, step, cfg, now, Write) + WritesLeft(Next(s, step, cfg, now), cfg) <= WritesLeft(s, cfg)
  {
    if step.Serve? {
      assert Served(s, cfg, now) == Some(Write);
      WriteUsesRank(s, cfg, now);
    } else {
      OtherStepsKeepRanks(s, step, cfg, now);
    }
  }

  ghost function ServedIn(states: seq<DD>, steps: seq<Step>, times: seq<int>, cfg: Config, i: nat, j: nat, d: Dir): nat
    requires IsRun(states, steps, times, cfg) && i <= j <= |steps|
  {
    if i == j then 0
    else ServedIn(states, steps, times, cfg, i, j - 1, d) + Served01(states[j - 1], steps[j - 1], cfg, times[j - 1], d)
  }

  /** Throughout the window something in direction d is queued and nothing in direction d is dispatched. */
  ghost predicate Waits(states: seq<DD>, steps: seq<Step>, times: seq<int>, cfg: Config, i: nat, j: nat, d: Dir)
    requires IsRun(states, steps, times, cfg) && i <= j <= |steps|
  {
    forall k :: i <= k < j ==>
      states[k].Of(d).fifo != [] && !Serves(states[k], steps[k], cfg, times[k], d)
  }

  lemma {:induction false} ReadsInWindow(states: seq<DD>, steps: seq<Step>, times: seq<int>, cfg: Config, i: nat, j: nat)
    requires IsRun(states, steps, times, cfg) && i <= j <= |steps| && Waits(states, steps, times, cfg, i, j, Write)
    ensures ServedIn(states, steps, times, cfg, i, j, Read) + ReadsLeft(states[j], cfg) <= ReadsLeft(states[i], cfg)
  {
    if i < j {
      var s, step, now := states[j - 1], steps[j - 1], times[j - 1];
      ReadsInWindow(states, steps, times, cfg, i, j - 1);
      assert Inv(s) && Counters(s, cfg) by { RunInv(states, steps, times, cfg, j - 1); }
      assert s.Of(Write).fifo != [] && !Serves(s, step, cfg, now, Write);
      assert Taken(states, steps, times, cfg, j - 1);
      assert Served01(s, step, cfg, now, Read) + ReadsLeft(states[j], cfg) <= ReadsLeft(s, cfg) by {
        ReadStep(s, step, cfg, now);
      }
    }
  }

  lemma RankBounds(s: DD, cfg: Config)
    requires Inv(s) && Counters(s, cfg)
    ensures 0 <= ReadsLeft(s, cfg) < (cfg.StarveLimit() + 1) * Batch(cfg)
    ensures 0 <= WritesLeft(s, cfg) <= Batch(cfg)
  {
    var rest := cfg.StarveLimit() - s.starved;
    assert 0 <= rest * Batch(cfg) <= cfg.StarveLimit() * Batch(cfg);
    assert (cfg.StarveLimit() + 1) * Batch(cfg) == cfg.StarveLimit() * Batch(cfg) + Batch(cfg);
  }

  /**
   * Bounded starvation: however requests arrive and merge, fewer than (writes_starved + 1)
   * batches of reads are dispatched while a write stays queued and none is dispatched.
   */
  lemma WritesAreNotStarved(states: seq<DD>, steps: seq<Step>, times: seq<int>, cfg: Config, i: nat, j: nat)
    requires IsRun(states, steps, times, cfg) && i <= j <= |steps| && Waits(states, steps, times, cfg, i, j, Write)
    ensures ServedIn(states, steps, times, cfg, i, j, Read) < (cfg.StarveLimit() + 1) * Batch(cfg)
  {
    ReadsInWindow(states, steps, times, cfg, i, j);
    RunInv(states, steps, times, cfg, i);
    RunInv(states, steps, times, cfg, j);
    RankBounds(states[i], cfg);
    RankBounds(states[j], cfg);
  }

  lemma {:induction false} WritesInWindow(states: seq<DD>, steps: seq<Step>, times: seq<int>, cfg: Config, i: nat, j: nat)
    requires IsRun(states, steps, times, cfg) && i <= j <= |steps| && Waits(states, steps, times, cfg, i, j, Read)
    requires cfg.StarveLimit() >= 1
    ensures ServedIn(states, steps, times, cfg, i, j, Write) + WritesLeft(states[j], cfg) <= WritesLeft(states[i], cfg)
  {
    if i < j {
      var s, step, now := states[j - 1], steps[j - 1], times[j - 1];
      WritesInWindow(states, steps, times, cfg, i, j - 1);
      assert Inv(s) && Counters(s, cfg) by { RunInv(states, steps, times, cfg, j - 1); }
      assert s.Of(Read).fifo != [] && !Serves(s, step, cfg, now, Read);
      assert Taken(states, steps, times, cfg, j - 1);
      assert Served01(s, step, cfg, now, Write) + WritesLeft(states[j], cfg) <= WritesLeft(s, cfg) by {
        WriteStep(s, step, cfg, now);
      }
    }
  }

  /** A queued read waits for at most one batch of writes, unless writes_starved is zero. */
  lemma ReadsWaitOneBatch(states: seq<DD>, steps: seq<Step>, times: seq<int>, cfg: Config, i: nat, j: nat)
    requires IsRun(states, steps, times, cfg) && i <= j <= |steps| && Waits(states, steps, times, cfg, i, j, Read)
    requires cfg.writesStarved != 0 && -0x8000_0000 <= cfg.writesStarved
    ensures ServedIn(states, steps, times, cfg, i, j, Write) <= Batch(cfg)
  {
    WritesInWindow(states, steps, times, cfg, i, j);
    RunInv(states, steps, times, cfg, i);
    RunInv(states, steps, times, cfg, j);
    RankBounds(states[i], cfg);
    RankBounds(states[j], cfg);
  }

  // ----- The head of the FIFO decides deadlines ---------------------------

  /** Oldest first, and nothing due later than a request that arrived now. */
  ghost predicate FifoOk(s: DD, cfg: Config, now: int, d: Dir) {
    && SortedBy(Expiries(s.rq), s.Of(d).fifo)
    && forall id :: Queued(s.rq, d, id) ==> s.rq[id].expire <= now + cfg.Expire(d)
  }

  /** With the FIFO in order, its head is overdue exactly when anything is, and it is due first. */
  lemma HeadDecides(s: DD, cfg: Config, now: int, d: Dir, at: int)
    requires Inv(s) && FifoOk(s, cfg, now, d)
    ensures HeadExpired(s, d, at) <==> exists id :: Queued(s.rq, d, id) && s.rq[id].expire < at
    ensures s.Of(d).fifo != [] ==> forall id :: Queued(s.rq, d, id) ==>
      s.Of(d).fifo[0] in s.rq && s.rq[s.Of(d).fifo[0]].expire <= s.rq[id].expire
  {
    var fifo := s.Of(d).fifo;
    if fifo != [] {
      var head := fifo[0];
      assert head in fifo;
      assert Queued(s.rq, d, head);
      forall id | Queued(s.rq, d, id) ensures s.rq[head].expire <= s.rq[id].expire {
        assert id in fifo;
        var i :| 0 <= i < |fifo| && fifo[i] == id;
        assert Key(Expiries(s.rq), fifo[0]) <= Key(Expiries(s.rq), fifo[i]);
      }
    } else {
      forall id ensures !Queued(s.rq, d, id) { assert id !in fifo; }
    }
  }

  lemma FifoElsewhere(s: DD, t: DD, cfg: Config, now: int, later: int, d: Dir)
    requires Inv(s) && FifoOk(s, cfg, now, d) && now <= later
    requires t.Of(d).fifo == s.Of(d).fifo
    requires forall id :: Queued(t.rq, d, id) ==> Queued(s.rq, d, id) && t.rq[id].expire == s.rq[id].expire
    requires forall id :: Queued(s.rq, d, id) ==> Queued(t.rq, d, id)
    ensures FifoOk(t, cfg, later, d)
  {
    SortedBySame(Expiries(s.rq), Expiries(t.rq), s.Of(d).fifo) by {
      forall x | x in s.Of(d).fifo ensures Key(Expiries(t.rq), x) == Key(Expiries(s.rq), x) {
        assert Queued(s.rq, d, x);
      }
    }
  }

  lemma AddFifo(s: DD, id: int, rq: Rq, cfg: Config, now: int, later: int)
    requires Inv(s) && id !in s.rq && now <= later && FifoOk(s, cfg, now, rq.dir)
    ensures FifoOk(AddRequest(s, id, rq, cfg, later), cfg, later, rq.dir)
  {
    var d := rq.dir;
    var t := AddRequest(s, id, rq, cfg, later);
    var fifo := s.Of(d).fifo;
    forall i, j | 0 <= i < j < |fifo + [id]|
      ensures Key(Expiries(t.rq), (fifo + [id])[i]) <= Key(Expiries(t.rq), (fifo + [id])[j])
    {
      var x := fifo[i];
      assert x in fifo;
      assert Queued(s.rq, d, x);
      if j < |fifo| {
        var y := fifo[j];
        assert y in fifo;
        assert Queued(s.rq, d, y);
        assert Key(Expiries(s.rq), fifo[i]) <= Key(Expiries(s.rq), fifo[j]);
      }
    }
  }

  lemma RemoveFifo(s: DD, gone: int, cfg: Config, now: int, d: Dir)
    requires Inv(s) && gone in s.rq && FifoOk(s, cfg, now, d)
    ensures FifoOk(RemoveRequest(s, gone), cfg, now, d)
  {
    var t := RemoveRequest(s, gone);
    if s.rq[gone].dir == d {
      WithoutMembers(s.Of(d).fifo, gone);
      WithoutSorted(Expiries(s.rq), s.Of(d).fifo, gone);
      SortedBySame(Expiries(s.rq), Expiries(t.rq), Without(s.Of(d).fifo, gone));
    } else {
      FifoElsewhere(s, t, cfg, now, now, d);
    }
  }

  /** The survivor takes the place right behind the request whose deadline it takes. */
  lemma InheritedOrder(s: DD, kept: int, gone: int, d: Dir)
    requires Inv(s) && SortedBy(Expiries(s.rq), s.Of(d).fifo)
    requires Queued(s.rq, d, kept) && Queued(s.rq, d, gone) && kept != gone
    ensures var keys := Expiries(s.rq[kept := s.rq[kept].(expire := s.rq[gone].expire)]);
      SortedBy(keys, InsertAfter(Without(s.Of(d).fifo, kept), gone, kept))
  {
    var fifo, keys := s.Of(d).fifo, Expiries(s.rq[kept := s.rq[kept].(expire := s.rq[gone].expire)]);
    var rest := Without(fifo, kept);
    assert gone in fifo;
    WithoutMembers(fifo, kept);
    WithoutSorted(Expiries(s.rq), fifo, kept);
    SortedBySame(Expiries(s.rq), keys, rest);
    InsertAfterSorted(keys, rest, gone, kept);
  }

  lemma InheritFifo(s: DD, kept: int, gone: int, cfg: Config, now: int, d: Dir)
    requires Inv(s) && FifoOk(s, cfg, now, d)
    requires kept in s.rq && gone in s.rq && kept != gone && s.rq[kept].dir == s.rq[gone].dir
    ensures FifoOk(InheritDeadline(s, kept, gone), cfg, now, d)
  {
    if s.rq[gone].expire < s.rq[kept].expire {
      if s.rq[kept].dir == d {
        InheritedOrder(s, kept, gone, d);
      } else {
        FifoElsewhere(s, InheritDeadline(s, kept, gone), cfg, now, now, d);
      }
    }
  }

  /** Moving a request to the dispatch queue is removing it, as far as the FIFOs are concerned. */
  lemma MoveFifo(s: DD, id: int, cfg: Config, now: int, later: int, d: Dir)
    requires Inv(s) && id in s.rq && 0 < s.batching && FifoOk(s, cfg, now, d) && now <= later
    ensures FifoOk(MoveRequest(s, id), cfg, later, d)
  {
    RemoveFifo(s, id, cfg, now, d);
    var r, t := RemoveRequest(s, id), MoveRequest(s, id);
    assert t.rq == r.rq && t.Of(d).fifo == r.Of(d).fifo;
  }

  lemma NextFifo(s: DD, step: Step, cfg: Config, now: int, later: int, d: Dir)
    requires Inv(s) && Enabled(s, step) && FifoOk(s, cfg, now, d) && now <= later
    ensures FifoOk(Next(s, step, cfg, later), cfg, later, d)
  {
    match step
    case Add(id, rq) =>
      if rq.dir == d { AddFifo(s, id, rq, cfg, now, later); }
      else { FifoElsewhere(s, AddRequest(s, id, rq, cfg, later), cfg, now, later, d); }
    case Front(id, pos, sectors) => FifoElsewhere(s, FrontMerge(s, id, pos, sectors), cfg, now, later, d);
    case Back(id, sectors) => FifoElsewhere(s, BackMerge(s, id, sectors), cfg, now, later, d);
    case Merge(kept, gone) =>
      InheritFifo(s, kept, gone, cfg, now, d);
      InheritKeepsInv(s, kept, gone);
      RemoveFifo(InheritDeadline(s, kept, gone), gone, cfg, now, d);
    case Serve =>
      ChosenIsQueued(s, cfg, later);
      match Choose(s, cfg, later) {
        case Nothing =>
        case Continue(id) => MoveFifo(s.(batching := s.batching + 1), id, cfg, now, later, d);
        case Start(_, id, starved) => MoveFifo(s.(batching := 1, starved := starved), id, cfg, now, later, d);
      }
  }

  /**
   * In every run from an empty scheduler both FIFOs stay ordered by deadline, so looking at the
   * head alone finds an overdue request exactly when there is one.
   */
  lemma {:induction false} RunFifo(states: seq<DD>, steps: seq<Step>, times: seq<int>, cfg: Config, k: nat, d: Dir)
    requires IsRun(states, steps, times, cfg) && states[0] == Empty && k <= |steps|
    ensures k == 0 ==> forall now :: FifoOk(states[0], cfg, now, d)
    ensures k > 0 ==> FifoOk(states[k], cfg, times[k - 1], d)
  {
    if k > 0 {
      RunFifo(states, steps, times, cfg, k - 1, d);
      RunInv(states, steps, times, cfg, k - 1);
      assert Taken(states, steps, times, cfg, k - 1);
      var before := if k > 1 then times[k - 2] else times[k - 1];
      NextFifo(states[k - 1], steps[k - 1], cfg, before, times[k - 1], d);
    }
  }

  lemma HeadDecidesInRuns(states: seq<DD>, steps: seq<Step>, times: seq<int>, cfg: Config, k: nat, d: Dir, at: int)
    requires IsRun(states, steps, times, cfg) && states[0] == Empty && 0 < k <= |steps|
    ensures var s := states[k];
      HeadExpired(s, d, at) <==> exists id :: Queued(s.rq, d, id) && s.rq[id].expire < at
  {
    RunInv(states, steps, times, cfg, k);
    RunFifo(states, steps, times, cfg, k, d);
    HeadDecides(states[k], cfg, times[k - 1], d, at);
  }

  // ----- Draining ---------------------------------------------------------

  /** The state after a dispatch at each of these times and nothing else. */
  ghost function Drained(s: DD, cfg: Config, times: seq<int>): DD
    requires Inv(s)
    decreases times
  {
    if times == [] then s
    else
      DispatchTakesOne(s, cfg, times[0]);
      Drained(Dispatch(s, cfg, times[0]), cfg, times[1..])
  }

  lemma OneLess(m: map<int, Rq>, id: int)
    requires id in m
    ensures |m - {id}| == |m| - 1
  {
    var m' := m - {id};
    assert m'.Keys == m.Keys - {id};
    assert |m'.Keys| == |m'| && |m.Keys| == |m|;
  }

  /** Dispatch returns 0 exactly when nothing is queued, and otherwise takes one request. */
  lemma DispatchCounts(s: DD, cfg: Config, now: int)
    requires Inv(s)
    ensures Choose(s, cfg, now).Nothing? <==> |s.rq| == 0
    ensures |s.rq| > 0 ==> |Dispatch(s, cfg, now).rq| == |s.rq| - 1
  {
    DispatchTakesOne(s, cfg, now);
    match Choose(s, cfg, now)
    case Nothing =>
    case Continue(id) => OneLess(s.rq, id);
    case Start(_, id, _) => OneLess(s.rq, id);
  }

  /** n queued requests take exactly n dispatches, each of which finds one, and none is left. */
  lemma {:induction false} DrainsExactly(s: DD, cfg: Config, times: seq<int>, now: int)
    requires Inv(s) && |times| <= |s.rq|
    ensures var t := Drained(s, cfg, times);
      Inv(t) && |t.rq| == |s.rq| - |times| && (Choose(t, cfg, now).Nothing? <==> |times| == |s.rq|)
    decreases times
  {
    if times == [] {
      DispatchCounts(s, cfg, now);
    } else {
      DispatchCounts(s, cfg, times[0]);
      DispatchTakesOne(s, cfg, times[0]);
      DrainsExactly(Dispatch(s, cfg, times[0]), cfg, times[1..], now);
    }
  }
}
