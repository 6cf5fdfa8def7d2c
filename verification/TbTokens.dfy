/**
 * What becomes of tokens over runs of the token bucket: none is lost while there is room, every
 * estimate a batch was loaded with is booked as raw usage when it is settled, and a page costs its
 * first dirtier the distance from where the inode was last written.
 */
module TbTokens {
  import opened DiskSim
  import opened Seqs
  import opened TbAccount
  import opened TbState
  import opened TbRuns

  // ----- Nothing is lost while there is room ------------------------------

  /** Whatever was lost on the way from a to b did not fit. */
  ghost predicate SpillsOver(a: Account, b: Account) {
    a.lost <= b.lost && (a.lost < b.lost ==> Count(b) == b.limit)
  }

  lemma ApplySpills(e: Effect, id: int, a: Account)
    ensures SpillsOver(a, Apply(e, id, a))
  {
  }

  /** Charging an account within its limit, and loading its batch, lose nothing. */
  lemma ChargeKeepsLost(e: Effect, id: int, a: Account)
    requires e.Load? || (e.Charge? && 0 <= e.amt && Count(a) <= a.limit)
    ensures Apply(e, id, a).lost == a.lost
  {
  }

  ghost predicate SpillsIn(t: Accounts, u: Accounts, id: int) {
    id in t.of && id in u.of && SpillsOver(t.of[id], u.of[id])
  }

  lemma PassSpills(t: Accounts, items: seq<int>, e: Effect, now: int, id: int)
    requires ValidAccounts(t) && NoDup(items) && id in t.of
    ensures SpillsIn(t, UpdateAll(t, items, e, now), id)
  {
    UpdateAllPointwise(t, items, e, now);
    ApplySpills(e, id, t.of[id]);
  }

  lemma PassKeepsLost(t: Accounts, items: seq<int>, e: Effect, now: int, id: int)
    requires ValidAccounts(t) && NoDup(items) && id in t.of
    requires e.Load? || (e.Charge? && 0 <= e.amt && Count(t.of[id]) <= t.of[id].limit)
    ensures var u := UpdateAll(t, items, e, now); ValidAccounts(u) && id in u.of && u.of[id].lost == t.of[id].lost
  {
    UpdateAllPointwise(t, items, e, now);
    ChargeKeepsLost(e, id, t.of[id]);
  }

  lemma ChargingKeepsLost(c: Core, cl: CauseList, size: int, now: int, id: int)
    requires ValidAccounts(c.accts) && NoDup(cl.items) && id in c.accts.of
    requires Count(c.accts.of[id]) <= c.accts.of[id].limit && 0 <= size
    ensures var u := ChargeUnlessDirtied(c, cl, size, now).accts;
      ValidAccounts(u) && id in u.of && u.of[id].lost == c.accts.of[id].lost
  {
    if |cl.items| > 0 {
      assert 0 <= SafeDiv(size, |cl.items|) by { SafeDivTruncates(size, |cl.items|); }
      PassKeepsLost(c.accts, cl.items, Charge(SafeDiv(size, |cl.items|)), now, id);
    }
  }

  lemma DiskAccountingSpills(c: Core, cl: CauseList, offset: int, costs: Costs, now: int, id: int)
    requires ValidAccounts(c.accts) && NoDup(cl.items) && id in c.accts.of
    ensures SpillsIn(c.accts, DiskAccounting(c, cl, offset, costs, now).accts, id)
  {
    PassKeepsLost(c.accts, cl.items, Load(IORequest(offset, cl.size), SafeDiv(cl.cost, |cl.items|)), now, id);
    var loaded := LoadAll(c, cl, offset, now);
    PassSpills(loaded.accts, loaded.accts.ids, Settle(costs.combined, costs.basic, Summed(loaded.accts, costs)), now, id);
  }

  lemma AccountingSpills(c: Core, cl: CauseList, offset: int, size: int, costs: Costs, now: int, id: int)
    requires ValidAccounts(c.accts) && NoDup(cl.items) && id in c.accts.of
    requires Count(c.accts.of[id]) <= c.accts.of[id].limit && 0 <= size
    ensures SpillsIn(c.accts, AccountForCauses(c, cl, offset, size, costs, now).accts, id)
  {
    ChargingKeepsLost(c, cl, size, now, id);
    DiskAccountingSpills(ChargeUnlessDirtied(c, cl, size, now), Billed(cl, size), offset, costs, now, id);
  }

  /** Sizes of requests are not negative. */
  predicate SizeOk(step: Step) { step.DispatchUndirtied? ==> 0 <= step.size }

  lemma PollSpills(s: State, polled: int, now: int, id: int)
    requires Inv(s) && Enabled(s, Poll(polled), now) && id in s.core.accts.of
    ensures SpillsIn(s.core.accts, Next(s, Poll(polled), now).core.accts, id)
  {
    if polled == id { RefreshIsExact(s.core.accts.of[id], now); }
  }

  /** A step that leaves an account's settings alone loses tokens only by filling the bucket to the limit. */
  lemma StepSpills(s: State, step: Step, now: int, id: int)
    requires Inv(s) && Enabled(s, step, now) && id in s.core.accts.of && SizeOk(step)
    requires !(step.Set? && step.id == id)
    ensures SpillsIn(s.core.accts, Next(s, step, now).core.accts, id)
  {
    var t := s.core.accts;
    match step
    case NewList =>
    case Dirty(l, newId, bsize, inode, pos) =>
      if newId !in s.lists[l].items {
        DirtiedList(s, step, now);
        var cl := Dirtied(s, step);
        PassSpills(t, cl.items, Resplit(cl.cost, |cl.items|, newId), now, id);
      }
    case Dispatch(l, offset, costs) =>
      assert ValidList(s.lists[l]);
      AccountingSpills(s.core, s.lists[l], offset, s.lists[l].size, costs, now, id);
    case DispatchUndirtied(cl, offset, size, costs) => AccountingSpills(s.core, cl, offset, size, costs, now, id);
    case Free(l) =>
      assert ValidList(s.lists[l]);
      PassSpills(t, s.lists[l].items, Refund(SafeDiv(s.lists[l].size, |s.lists[l].items|)), now, id);
    case Poll(polled) => PollSpills(s, polled, now, id);
    case Set(other, key, val) =>
  }

  /** From i to j the settings of `id` are left alone and its bucket is never full. */
  ghost predicate RoomAllAlong(states: seq<State>, steps: seq<Step>, i: nat, j: nat, id: int)
    requires i <= j <= |steps| && |states| == |steps| + 1
  {
    && id in states[i].core.accts.of
    && (forall k :: i <= k < j ==> SizeOk(steps[k]) && !(steps[k].Set? && steps[k].id == id))
    && (forall k :: i < k <= j ==> id in states[k].core.accts.of ==> HasRoom(states[k].core.accts.of[id]))
  }

  predicate HasRoom(a: Account) { Count(a) < a.limit }

  /** Over any window of any run in which the bucket stays below its limit, no token is lost. */
  lemma {:induction false} NothingIsLostWithRoom(states: seq<State>, steps: seq<Step>, i: nat, j: nat, id: int)
    requires IsRun(states, steps) && i <= j <= |steps| && RoomAllAlong(states, steps, i, j, id)
    ensures id in states[j].core.accts.of && states[j].core.accts.of[id].lost == states[i].core.accts.of[id].lost
  {
    if i < j {
      NothingIsLostWithRoom(states, steps, i, j - 1, id);
      assert Inv(states[j - 1]) by { RunInv(states, steps, j - 1); }
      assert StepTaken(states, steps, j - 1);
      assert SizeOk(steps[j - 1]) && !(steps[j - 1].Set? && steps[j - 1].id == id);
      StepSpills(states[j - 1], steps[j - 1], states[j].now, id);
      assert HasRoom(states[j].core.accts.of[id]);
    }
  }

  // ----- Raw usage --------------------------------------------------------

  /** Estimates booked as raw usage, or in the batch and about to be. */
  function Raw(t: Accounts, id: int): int {
    if id in t.of then t.of[id].usedRaw + t.of[id].batchEstimate else 0
  }

  function RawChange(e: Effect): int { if e.Load? then e.share else 0 }

  lemma UpdateAllRaw(t: Accounts, items: seq<int>, e: Effect, now: int, id: int)
    requires ValidAccounts(t) && NoDup(items)
    ensures Raw(UpdateAll(t, items, e, now), id) == Raw(t, id) + (if id in items then RawChange(e) else 0)
    ensures ValidAccounts(UpdateAll(t, items, e, now))
  {
    UpdateAllPointwise(t, items, e, now);
  }

  /** What account `id` was charged, dirty or late, for the list that a step dispatches. */
  function DispatchedShare(s: State, step: Step, id: int): int {
    if step.Dispatch? && step.l < |s.lists| then BilledShare(s.lists[step.l], s.lists[step.l].size, id)
    else if step.DispatchUndirtied? then BilledShare(step.cl, step.size, id)
    else 0
  }

  function BilledShare(cl: CauseList, size: int, id: int): int {
    if id in cl.items then SafeDiv(Billed(cl, size).cost, |cl.items|) else 0
  }

  lemma AccountingRaw(c: Core, cl: CauseList, offset: int, size: int, costs: Costs, now: int, id: int)
    requires ValidAccounts(c.accts) && NoDup(cl.items)
    ensures Raw(AccountForCauses(c, cl, offset, size, costs, now).accts, id) == Raw(c.accts, id) + BilledShare(cl, size, id)
  {
    var charged, billed := ChargeUnlessDirtied(c, cl, size, now), Billed(cl, size);
    UpdateAllRaw(c.accts, cl.items, Charge(SafeDiv(size, |cl.items|)), now, id);
    UpdateAllRaw(charged.accts, billed.items,
                 Load(IORequest(offset, billed.size), SafeDiv(billed.cost, |billed.items|)), now, id);
    var loaded := LoadAll(charged, billed, offset, now);
    UpdateAllRaw(loaded.accts, loaded.accts.ids,
                 Settle(costs.combined, costs.basic, Summed(loaded.accts, costs)), now, id);
  }

  lemma DirtyOrFreeRaw(s: State, step: Step, now: int, id: int)
    requires Inv(s) && Enabled(s, step, now) && (step.Dirty? || step.Free?)
    ensures Raw(Next(s, step, now).core.accts, id) == Raw(s.core.accts, id)
  {
    var t := s.core.accts;
    match step
    case Dirty(l, newId, bsize, inode, pos) =>
      if newId !in s.lists[l].items {
        DirtiedList(s, step, now);
        var cl := Dirtied(s, step);
        UpdateAllRaw(t, cl.items, Resplit(cl.cost, |cl.items|, newId), now, id);
      }
    case Free(l) =>
      assert ValidList(s.lists[l]);
      UpdateAllRaw(t, s.lists[l].items, Refund(SafeDiv(s.lists[l].size, |s.lists[l].items|)), now, id);
  }

  lemma PollOrSetRaw(s: State, step: Step, now: int, id: int)
    requires Enabled(s, step, now) && (step.Poll? || step.Set?)
    ensures Raw(Next(s, step, now).core.accts, id) == Raw(s.core.accts, id)
  {
  }

  lemma DispatchRaw(s: State, step: Step, now: int, id: int)
    requires Inv(s) && Enabled(s, step, now) && (step.Dispatch? || step.DispatchUndirtied?)
    ensures Raw(Next(s, step, now).core.accts, id) == Raw(s.core.accts, id) + DispatchedShare(s, step, id)
  {
    match step
    case Dispatch(l, offset, costs) =>
      assert ValidList(s.lists[l]);
      AccountingRaw(s.core, s.lists[l], offset, s.lists[l].size, costs, now, id);
    case DispatchUndirtied(cl, offset, size, costs) => AccountingRaw(s.core, cl, offset, size, costs, now, id);
  }

  lemma StepRaw(s: State, step: Step, now: int, id: int)
    requires Inv(s) && Enabled(s, step, now)
    ensures Raw(Next(s, step, now).core.accts, id) == Raw(s.core.accts, id) + DispatchedShare(s, step, id)
  {
    if step.Dispatch? || step.DispatchUndirtied? {
      DispatchRaw(s, step, now, id);
    } else if step.Dirty? || step.Free? {
      DirtyOrFreeRaw(s, step, now, id);
    } else if step.Poll? || step.Set? {
      PollOrSetRaw(s, step, now, id);
    }
  }

  ghost function DispatchedTotal(states: seq<State>, steps: seq<Step>, k: nat, id: int): int
    requires k <= |steps| <= |states|
  {
    if k == 0 then 0 else DispatchedTotal(states, steps, k - 1, id) + DispatchedShare(states[k - 1], steps[k - 1], id)
  }

  /** In every reachable state the raw usage and the batch estimate are all the estimates dispatched so far. */
  lemma {:induction false} RawLedger(states: seq<State>, steps: seq<Step>, k: nat, id: int)
    requires IsRun(states, steps) && k <= |steps|
    ensures Raw(states[k].core.accts, id) == DispatchedTotal(states, steps, k, id)
  {
    if k > 0 {
      RawLedger(states, steps, k - 1, id);
      assert Inv(states[k - 1]) by { RunInv(states, steps, k - 1); }
      assert StepTaken(states, steps, k - 1);
      StepRaw(states[k - 1], steps[k - 1], states[k].now, id);
    }
  }

  // ----- The price of a page ----------------------------------------------

  /** The first dirtier of a page is charged its bytes and the capped distance from the inode's last position. */
  lemma FirstDirtierPays(s: State, step: Step, now: int, id: int)
    requires Inv(s) && step.Dirty? && Enabled(s, step, now) && s.lists[step.l].items == []
    ensures Estimate(Next(s, step, now).core.accts, id) == Estimate(s.core.accts, id)
      + if id == step.newId then step.bsize + SeekTime(InodePos(s, step.inode), step.pos) else 0
  {
    var l := step.l;
    assert ValidList(s.lists[l]);
    DirtiedList(s, step, now);
    var cl := Dirtied(s, step);
    SeekIsDistance(step.pos, InodePos(s, step.inode), 0);
    assert cl.items == [step.newId];
    UpdateAllPointwise(s.core.accts, cl.items, Resplit(cl.cost, 1, step.newId), now);
  }

  /** Step i of a run wrote to the inode as a new cause of some page. */
  ghost predicate WritesTo(s: State, step: Step, inode: int) {
    step.Dirty? && step.inode == inode && step.l < |s.lists| && step.newId !in s.lists[step.l].items
  }

  /** The list a write goes to has this size afterwards: that of the first write it saw. */
  function SizeAfter(s: State, step: Step): int
    requires step.Dirty? && step.l < |s.lists|
  {
    if s.lists[step.l].items == [] then step.bsize else s.lists[step.l].size
  }

  ghost predicate Untouched(states: seq<State>, steps: seq<Step>, i: nat, k: nat, inode: int)
    requires i <= k <= |steps| <= |states|
  {
    forall j :: i <= j < k ==> !WritesTo(states[j], steps[j], inode)
  }

  lemma DirtiedSize(s: State, step: Step)
    requires Inv(s) && step.Dirty? && step.l < |s.lists| && (s.lists[step.l].items == [] || s.lists[step.l].callback)
    ensures Dirtied(s, step).size == SizeAfter(s, step)
  {
    assert ValidList(s.lists[step.l]);
  }

  lemma DirtyMovesInode(s: State, step: Step, now: int, inode: int)
    requires Inv(s) && Enabled(s, step, now) && step.Dirty?
    ensures InodePos(Next(s, step, now), inode)
         == if WritesTo(s, step, inode) then step.pos + SizeAfter(s, step) else InodePos(s, inode)
  {
    DirtiedSize(s, step);
  }

  lemma WriteMovesInode(s: State, step: Step, now: int, inode: int)
    requires Inv(s) && Enabled(s, step, now)
    ensures InodePos(Next(s, step, now), inode)
         == if WritesTo(s, step, inode) then step.pos + SizeAfter(s, step) else InodePos(s, inode)
  {
    if step.Dirty? {
      DirtyMovesInode(s, step, now, inode);
    } else {
      OthersLeaveInodes(s, step, now);
    }
  }

  lemma OthersLeaveInodes(s: State, step: Step, now: int)
    requires Enabled(s, step, now) && !step.Dirty?
    ensures Next(s, step, now).inodePos == s.inodePos
  {
    match step
    case _ =>
  }

  /** In every run an inode's position is where its last write ended. */
  lemma {:induction false} InodePosIsLastEnd(states: seq<State>, steps: seq<Step>, i: nat, k: nat, inode: int)
    requires IsRun(states, steps) && i < k <= |steps|
    requires WritesTo(states[i], steps[i], inode) && Untouched(states, steps, i + 1, k, inode)
    ensures InodePos(states[k], inode) == steps[i].pos + SizeAfter(states[i], steps[i])
    decreases k
  {
    assert Inv(states[k - 1]) by { RunInv(states, steps, k - 1); }
    assert StepTaken(states, steps, k - 1);
    WriteMovesInode(states[k - 1], steps[k - 1], states[k].now, inode);
    if i < k - 1 {
      assert !WritesTo(states[k - 1], steps[k - 1], inode);
      InodePosIsLastEnd(states, steps, i, k - 1, inode);
    }
  }

  /**
   * Sequential writing is priced without seeks: a write to a new page that starts where the inode's
   * last write ended costs its first dirtier its bytes; n bytes away, the bytes and n up to the cap.
   */
  lemma DistanceIsPaid(states: seq<State>, steps: seq<Step>, i: nat, k: nat, away: nat)
    requires IsRun(states, steps) && i < k < |steps| && steps[k].Dirty?
    requires WritesTo(states[i], steps[i], steps[k].inode) && Untouched(states, steps, i + 1, k, steps[k].inode)
    requires steps[k].l < |states[k].lists| && states[k].lists[steps[k].l].items == []
    requires var end := steps[i].pos + SizeAfter(states[i], steps[i]);
      steps[k].pos == end + away || steps[k].pos == end - away
    ensures var id := steps[k].newId;
      Estimate(states[k + 1].core.accts, id) - Estimate(states[k].core.accts, id)
        == steps[k].bsize + if away < SEEK_CAP then away else SEEK_CAP
  {
    InodePosIsLastEnd(states, steps, i, k, steps[k].inode);
    assert Inv(states[k]) by { RunInv(states, steps, k); }
    assert StepTaken(states, steps, k);
    FirstDirtierPays(states[k], steps[k], states[k + 1].now, steps[k].newId);
    SeekByBytes(InodePos(states[k], steps[k].inode), away);
    SeekByBytes(steps[k].pos, away);
  }
}
