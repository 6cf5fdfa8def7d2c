/**
 * Runs of the token bucket within one scheduler generation: any interleaving of the
 * dirty hook, dispatch, the free hook, polls and settings. Three results over whole
 * runs: no batch is ever left full, every account's estimate is accounted for page by
 * page, and no account uses more than its rate and limit allow.
 */
module TbRuns {
  import opened DiskSim
  import opened Seqs
  import opened TbAccount
  import opened TbState

  datatype State = State(core: Core, lists: seq<CauseList>, inodePos: map<int, int>, now: int)

  /** Each step carries the time it happens at. */
  datatype Step =
    | NewList
    | Dirty(l: nat, newId: int, bsize: int, inode: int, pos: int)
    | Dispatch(l: nat, offset: int, costs: Costs)
    | DispatchUndirtied(cl: CauseList, offset: int, size: int, costs: Costs)
    | Free(l: nat)
    | Poll(id: int)
    | Set(id: int, key: Key, val: int)

  const DEFAULT_ACCOUNT := 0

  ghost predicate Init(s: State) {
    && s.core == Core(Accounts([DEFAULT_ACCOUNT], map[DEFAULT_ACCOUNT := NewAccount(s.now)]), [])
    && s.lists == []
  }

  function InodePos(s: State, inode: int): int {
    if inode in s.inodePos then s.inodePos[inode] else 0
  }

  /** The core and the list as account_for_causes hands them to disk accounting. */
  function Loaded(c: Core, cl: CauseList, offset: int, size: int, now: int): Core {
    LoadAll(ChargeUnlessDirtied(c, cl, size, now), Billed(cl, size), offset, now)
  }

  /**
   * When a step can happen. A buffer's list is handed over to a bio before it is dispatched,
   * so only lists that are fresh or still pending are dirtied. A list that never went through
   * the dirty hook is billed as it comes.
   */
  ghost predicate Enabled(s: State, step: Step, now: int) {
    && s.now <= now
    && match step
       case NewList => true
       case Dirty(l, newId, bsize, _, _) =>
         l < |s.lists| && bsize > 0 && (s.lists[l].items == [] || s.lists[l].callback)
       case Dispatch(l, offset, costs) =>
         l < |s.lists| && AreCosts(Loaded(s.core, s.lists[l], offset, s.lists[l].size, now), costs)
       case DispatchUndirtied(cl, offset, size, costs) =>
         !cl.callback && NoDup(cl.items) && AreCosts(Loaded(s.core, cl, offset, size, now), costs)
       case Free(l) => l < |s.lists|
       case Poll(id) => Get(s.core.accts, id, now).lastUpdate <= now
       case Set(_, _, _) => true
  }

  function PollAccount(t: Accounts, id: int, now: int): Accounts
    requires Get(t, id, now).lastUpdate <= now
  {
    var u := Ensure(t, id, now);
    u.(of := u.of[id := Refresh(u.of[id], now)])
  }

  /** The default account has no settings. */
  function SetAccount(t: Accounts, id: int, key: Key, val: int, now: int): Accounts {
    if id == DEFAULT_ACCOUNT then t
    else
      var u := Ensure(t, id, now);
      u.(of := u.of[id := KvSet(u.of[id], key, val)])
  }

  function Next(s: State, step: Step, now: int): State
    requires Enabled(s, step, now)
  {
    match step
    case NewList => s.(lists := s.lists + [FreshList], now := now)
    case Dirty(l, newId, bsize, inode, pos) =>
      if newId in s.lists[l].items then s.(now := now)
      else
        var cl := Priced(Stamped(s.lists[l], newId, bsize), pos, InodePos(s, inode));
        s.(core := s.core.(accts := CausesDirty(s.core.accts, cl, newId, now)),
           lists := s.lists[l := cl],
           inodePos := s.inodePos[inode := pos + cl.size],
           now := now)
    case Dispatch(l, offset, costs) =>
      var cl := s.lists[l];
      s.(core := AccountForCauses(s.core, cl, offset, cl.size, costs, now),
         lists := s.lists[l := Billed(cl, cl.size)],
         now := now)
    case DispatchUndirtied(cl, offset, size, costs) =>
      s.(core := AccountForCauses(s.core, cl, offset, size, costs, now), now := now)
    case Free(l) =>
      var cl := s.lists[l];
      s.(core := if cl.callback then s.core.(accts := CausesFree(s.core.accts, cl, now)) else s.core,
         lists := s.lists[l := FreshList],
         now := now)
    case Poll(id) => s.(core := s.core.(accts := PollAccount(s.core.accts, id, now)), now := now)
    case Set(id, key, val) => s.(core := s.core.(accts := SetAccount(s.core.accts, id, key, val, now)), now := now)
  }

  // ----- Invariant --------------------------------------------------------

  /** No batch is full, so the next request is never refused. */
  ghost predicate Roomy(c: Core) {
    !Full(c.batch) && forall id :: id in c.accts.of ==> !Full(c.accts.of[id].batch)
  }

  ghost predicate ValidList(cl: CauseList) {
    || cl == FreshList
    || (NoDup(cl.items) && cl.items != [] && 0 < cl.size && (cl.callback ==> cl.size <= cl.cost))
  }

  /** Accounts under their limit with clocks not ahead of now. */
  ghost predicate Solvent(t: Accounts, now: int) {
    forall id :: id in t.of ==> Count(t.of[id]) <= t.of[id].limit && t.of[id].lastUpdate <= now
  }

  ghost predicate Inv(s: State) {
    && ValidAccounts(s.core.accts)
    && Roomy(s.core)
    && Solvent(s.core.accts, s.now)
    && (forall l :: 0 <= l < |s.lists| ==> ValidList(s.lists[l]))
  }

  lemma InitInv(s: State)
    requires Init(s)
    ensures Inv(s)
  {
  }

  /** One application of an effect keeps an account under its limit and its clock where it was. */
  lemma ApplyKeepsLimit(e: Effect, id: int, a: Account)
    requires Count(a) <= a.limit
    ensures var b := Apply(e, id, a);
      Count(b) <= b.limit && b.limit == a.limit && b.rate == a.rate && b.lastUpdate == a.lastUpdate
  {
  }

  lemma UpdateAllSolvent(t: Accounts, items: seq<int>, e: Effect, now: int)
    requires ValidAccounts(t) && NoDup(items) && Solvent(t, now)
    ensures Solvent(UpdateAll(t, items, e, now), now) && ValidAccounts(UpdateAll(t, items, e, now))
  {
    UpdateAllPointwise(t, items, e, now);
    var u := UpdateAll(t, items, e, now);
    forall id | id in u.of
      ensures Count(u.of[id]) <= u.of[id].limit && u.of[id].lastUpdate <= now
    {
      if id in items { ApplyKeepsLimit(e, id, Get(t, id, now)); }
    }
  }

  /** Effects on the estimate alone leave every batch as it was. */
  lemma UpdateAllRoomy(c: Core, items: seq<int>, e: Effect, now: int)
    requires ValidAccounts(c.accts) && NoDup(items) && Roomy(c)
    requires e.Resplit? || e.Charge? || e.Refund?
    ensures Roomy(c.(accts := UpdateAll(c.accts, items, e, now)))
  {
    UpdateAllPointwise(c.accts, items, e, now);
  }

  lemma LoadOverflowsVisibly(c: Core, cl: CauseList, offset: int, now: int)
    requires ValidAccounts(c.accts) && NoDup(cl.items) && Roomy(c)
    ensures var loaded := LoadAll(c, cl, offset, now);
      AnyFull(loaded, cl.items) || Roomy(loaded)
  {
    UpdateAllPointwise(c.accts, cl.items, Load(IORequest(offset, cl.size), SafeDiv(cl.cost, |cl.items|)), now);
  }

  /** Settling empties every batch there is. */
  lemma SettleMakesRoom(c: Core, costs: Costs, now: int)
    requires ValidAccounts(c.accts)
    ensures Roomy(SettleAll(c, costs, now))
  {
    UpdateAllPointwise(c.accts, c.accts.ids, Settle(costs.combined, costs.basic, Summed(c.accts, costs)), now);
  }

  lemma DiskAccountingKeepsRoom(c: Core, cl: CauseList, offset: int, costs: Costs, now: int)
    requires ValidAccounts(c.accts) && Roomy(c) && NoDup(cl.items) && Solvent(c.accts, now)
    ensures var d := DiskAccounting(c, cl, offset, costs, now);
      ValidAccounts(d.accts) && Roomy(d) && Solvent(d.accts, now)
  {
    UpdateAllSolvent(c.accts, cl.items, Load(IORequest(offset, cl.size), SafeDiv(cl.cost, |cl.items|)), now);
    LoadOverflowsVisibly(c, cl, offset, now);
    var loaded := LoadAll(c, cl, offset, now);
    SettleMakesRoom(loaded, costs, now);
    UpdateAllSolvent(loaded.accts, loaded.accts.ids,
                     Settle(costs.combined, costs.basic, Summed(loaded.accts, costs)), now);
  }

  lemma AccountingKeepsRoom(c: Core, cl: CauseList, offset: int, size: int, costs: Costs, now: int)
    requires ValidAccounts(c.accts) && Roomy(c) && NoDup(cl.items) && Solvent(c.accts, now)
    ensures var d := AccountForCauses(c, cl, offset, size, costs, now);
      ValidAccounts(d.accts) && Roomy(d) && Solvent(d.accts, now)
  {
    UpdateAllRoomy(c, cl.items, Charge(SafeDiv(size, |cl.items|)), now);
    UpdateAllSolvent(c.accts, cl.items, Charge(SafeDiv(size, |cl.items|)), now);
    DiskAccountingKeepsRoom(ChargeUnlessDirtied(c, cl, size, now), Billed(cl, size), offset, costs, now);
  }

  /** The list a Dirty step leaves behind. */
  function Dirtied(s: State, step: Step): CauseList
    requires step.Dirty? && step.l < |s.lists|
  {
    Priced(Stamped(s.lists[step.l], step.newId, step.bsize), step.pos, InodePos(s, step.inode))
  }

  lemma DirtiedList(s: State, step: Step, now: int)
    requires Inv(s) && step.Dirty? && Enabled(s, step, now) && step.newId !in s.lists[step.l].items
    ensures var cl := Dirtied(s, step);
      ValidList(cl) && cl.callback && NoDup(cl.items) && cl.items == s.lists[step.l].items + [step.newId]
    ensures s.lists[step.l].items != [] ==> Dirtied(s, step).cost == s.lists[step.l].cost > 0
  {
    assert ValidList(s.lists[step.l]);
  }

  lemma DirtyInv(s: State, step: Step, now: int)
    requires Inv(s) && step.Dirty? && Enabled(s, step, now)
    ensures Inv(Next(s, step, now))
  {
    assert Solvent(s.core.accts, now);
    if step.newId !in s.lists[step.l].items {
      DirtiedList(s, step, now);
      var cl := Dirtied(s, step);
      var e := Resplit(cl.cost, |cl.items|, step.newId);
      UpdateAllRoomy(s.core, cl.items, e, now);
      UpdateAllSolvent(s.core.accts, cl.items, e, now);
    }
  }

  lemma FreeInv(s: State, step: Step, now: int)
    requires Inv(s) && step.Free? && Enabled(s, step, now)
    ensures Inv(Next(s, step, now))
  {
    assert Solvent(s.core.accts, now);
    var cl := s.lists[step.l];
    assert ValidList(cl);
    var e := Refund(SafeDiv(cl.size, |cl.items|));
    UpdateAllRoomy(s.core, cl.items, e, now);
    UpdateAllSolvent(s.core.accts, cl.items, e, now);
  }

  lemma DispatchInv(s: State, step: Step, now: int)
    requires Inv(s) && (step.Dispatch? || step.DispatchUndirtied?) && Enabled(s, step, now)
    ensures Inv(Next(s, step, now))
  {
    assert Solvent(s.core.accts, now);
    if step.Dispatch? {
      var cl := s.lists[step.l];
      assert ValidList(cl);
      AccountingKeepsRoom(s.core, cl, step.offset, cl.size, step.costs, now);
    } else {
      AccountingKeepsRoom(s.core, step.cl, step.offset, step.size, step.costs, now);
    }
  }

  /** Replacing one account by one as solvent and with the same batch keeps the books in order. */
  lemma ReplaceKeepsBooks(c: Core, id: int, a: Account, now: int)
    requires ValidAccounts(c.accts) && Roomy(c) && Solvent(c.accts, now)
    requires Count(a) <= a.limit && a.lastUpdate <= now && a.batch == Get(c.accts, id, now).batch
    ensures var t := Ensure(c.accts, id, now);
      var u := t.(of := t.of[id := a]);
      ValidAccounts(u) && Roomy(c.(accts := u)) && Solvent(u, now)
  {
  }

  lemma PollOrSetInv(s: State, step: Step, now: int)
    requires Inv(s) && (step.Poll? || step.Set?) && Enabled(s, step, now)
    ensures Inv(Next(s, step, now))
  {
    var a := Get(s.core.accts, step.id, now);
    assert Solvent(s.core.accts, now);
    if step.Poll? {
      assert Count(Refresh(a, now)) <= Refresh(a, now).limit;
      ReplaceKeepsBooks(s.core, step.id, Refresh(a, now), now);
    } else {
      ReplaceKeepsBooks(s.core, step.id, KvSet(a, step.key, step.val), now);
    }
  }

  lemma NextInv(s: State, step: Step, now: int)
    requires Inv(s) && Enabled(s, step, now)
    ensures Inv(Next(s, step, now))
  {
    match step
    case NewList =>
    case Dirty(_, _, _, _, _) => DirtyInv(s, step, now);
    case Dispatch(_, _, _) => DispatchInv(s, step, now);
    case DispatchUndirtied(_, _, _, _) => DispatchInv(s, step, now);
    case Free(_) => FreeInv(s, step, now);
    case Poll(_) => PollOrSetInv(s, step, now);
    case Set(_, _, _) => PollOrSetInv(s, step, now);
  }

  // ----- The estimate ledger ----------------------------------------------

  /** What account `id` has been charged for one page still pending. */
  function Share(cl: CauseList, id: int): int {
    if cl.callback && id in cl.items then SafeDiv(cl.cost, |cl.items|) else 0
  }

  /** What account `id` has been charged for all pages still pending. */
  function Owed(lists: seq<CauseList>, id: int): int {
    if lists == [] then 0 else Owed(lists[..|lists| - 1], id) + Share(lists[|lists| - 1], id)
  }

  lemma {:induction false} OwedUpdate(lists: seq<CauseList>, l: nat, cl: CauseList, id: int)
    requires l < |lists|
    ensures Owed(lists[l := cl], id) == Owed(lists, id) - Share(lists[l], id) + Share(cl, id)
  {
    var n := |lists| - 1;
    if l == n {
      assert lists[l := cl][..n] == lists[..n];
    } else {
      OwedUpdate(lists[..n], l, cl, id);
      assert lists[l := cl][..n] == lists[..n][l := cl];
    }
  }

  function Estimate(t: Accounts, id: int): int { if id in t.of then t.of[id].estimate else 0 }
  function BatchEstimate(t: Accounts, id: int): int { if id in t.of then t.of[id].batchEstimate else 0 }

  /** The part of an account's estimate not explained by its batch or by pending pages. */
  function Residue(s: State, id: int): int {
    Estimate(s.core.accts, id) - BatchEstimate(s.core.accts, id) - Owed(s.lists, id)
  }

  /** Freeing a page that was never dispatched refunds its size, not the seek it was priced with. */
  function Unrefunded(s: State, step: Step, id: int): int {
    if step.Free? && step.l < |s.lists| && s.lists[step.l].callback && id in s.lists[step.l].items
    then SafeDiv(s.lists[step.l].cost, |s.lists[step.l].items|)
       - SafeDiv(s.lists[step.l].size, |s.lists[step.l].items|)
    else 0
  }

  function Net(t: Accounts, id: int): int { Estimate(t, id) - BatchEstimate(t, id) }

  /** How much one pass over the causes moves an account's estimate net of its batch. */
  function NetChange(e: Effect, id: int): int {
    match e
    case Resplit(cost, n, newId) => SafeDiv(cost, n) - (if id != newId then SafeDiv(cost, n - 1) else 0)
    case Charge(amt) => amt
    case Refund(amt) => -amt
    case Load(_, share) => -share
    case Settle(_, _, _) => 0
  }

  lemma UpdateAllNet(t: Accounts, items: seq<int>, e: Effect, now: int, id: int)
    requires ValidAccounts(t) && NoDup(items)
    ensures Net(UpdateAll(t, items, e, now), id)
         == Net(t, id) + (if id in items then NetChange(e, id) else 0)
    ensures ValidAccounts(UpdateAll(t, items, e, now))
  {
    UpdateAllPointwise(t, items, e, now);
  }

  /** Dispatch moves a pending page's charge from the page to the batch, or charges and batches it. */
  lemma AccountingNet(c: Core, cl: CauseList, offset: int, size: int, costs: Costs, now: int, id: int)
    requires ValidAccounts(c.accts) && NoDup(cl.items)
    ensures Net(AccountForCauses(c, cl, offset, size, costs, now).accts, id)
         == Net(c.accts, id) - Share(cl, id)
  {
    var charged := ChargeUnlessDirtied(c, cl, size, now);
    var billed := Billed(cl, size);
    UpdateAllNet(c.accts, cl.items, Charge(SafeDiv(size, |cl.items|)), now, id);
    var load := Load(IORequest(offset, billed.size), SafeDiv(billed.cost, |billed.items|));
    UpdateAllNet(charged.accts, billed.items, load, now, id);
    var loaded := LoadAll(charged, billed, offset, now);
    UpdateAllNet(loaded.accts, loaded.accts.ids,
                 Settle(costs.combined, costs.basic, Summed(loaded.accts, costs)), now, id);
  }

  lemma FactorBelowOne(k: int, n: int)
    requires n > 0 && k * n < n
    ensures k < 1
  {
  }

  lemma DivMono(x: int, y: int, n: int)
    requires 0 <= x <= y && n > 0
    ensures SafeDiv(x, n) <= SafeDiv(y, n)
  {
    FloorBounds(x, n);
    FloorBounds(y, n);
    var k := x / n - y / n;
    assert k * n == x / n * n - y / n * n;
    FactorBelowOne(k, n);
  }

  /** The re-split on a new sharer telescopes: old sharers are moved from cost/(n-1) to cost/n. */
  lemma LedgerDirty(s: State, step: Step, now: int, id: int)
    requires Inv(s) && step.Dirty? && Enabled(s, step, now)
    ensures Residue(Next(s, step, now), id) == Residue(s, id)
  {
    if step.newId !in s.lists[step.l].items {
      DirtiedList(s, step, now);
      var cl := Dirtied(s, step);
      OwedUpdate(s.lists, step.l, cl, id);
      UpdateAllNet(s.core.accts, cl.items, Resplit(cl.cost, |cl.items|, step.newId), now, id);
      assert Share(cl, id) - Share(s.lists[step.l], id)
          == if id in cl.items then NetChange(Resplit(cl.cost, |cl.items|, step.newId), id) else 0;
    }
  }

  lemma LedgerDispatch(s: State, step: Step, now: int, id: int)
    requires Inv(s) && step.Dispatch? && Enabled(s, step, now)
    ensures Residue(Next(s, step, now), id) == Residue(s, id)
  {
    var cl := s.lists[step.l];
    assert ValidList(cl);
    OwedUpdate(s.lists, step.l, Billed(cl, cl.size), id);
    AccountingNet(s.core, cl, step.offset, cl.size, step.costs, now, id);
  }

  lemma LedgerFree(s: State, step: Step, now: int, id: int)
    requires Inv(s) && step.Free? && Enabled(s, step, now)
    ensures Residue(Next(s, step, now), id) == Residue(s, id) + Unrefunded(s, step, id)
    ensures Unrefunded(s, step, id) >= 0
  {
    var cl := s.lists[step.l];
    assert ValidList(cl);
    OwedUpdate(s.lists, step.l, FreshList, id);
    UpdateAllNet(s.core.accts, cl.items, Refund(SafeDiv(cl.size, |cl.items|)), now, id);
    if cl.callback { DivMono(cl.size, cl.cost, |cl.items|); }
  }

  lemma LedgerElsewhere(s: State, step: Step, now: int, id: int)
    requires Inv(s) && (step.NewList? || step.Poll? || step.Set?) && Enabled(s, step, now)
    ensures Residue(Next(s, step, now), id) == Residue(s, id)
  {
    if step.NewList? { assert (s.lists + [FreshList])[..|s.lists|] == s.lists; }
  }

  lemma LedgerUndirtied(s: State, step: Step, now: int, id: int)
    requires Inv(s) && step.DispatchUndirtied? && Enabled(s, step, now)
    ensures Residue(Next(s, step, now), id) == Residue(s, id)
  {
    AccountingNet(s.core, step.cl, step.offset, step.size, step.costs, now, id);
  }

  /** Every step accounts for every token: the residue moves only by what a free leaves unrefunded. */
  lemma LedgerStep(s: State, step: Step, now: int, id: int)
    requires Inv(s) && Enabled(s, step, now)
    ensures Residue(Next(s, step, now), id) == Residue(s, id) + Unrefunded(s, step, id)
    ensures Unrefunded(s, step, id) >= 0
  {
    if step.Dirty? { LedgerDirty(s, step, now, id); }
    else if step.Dispatch? { LedgerDispatch(s, step, now, id); }
    else if step.DispatchUndirtied? { LedgerUndirtied(s, step, now, id); }
    else if step.Free? { LedgerFree(s, step, now, id); }
    else { LedgerElsewhere(s, step, now, id); }
  }

  // ----- Conformance, step by step ----------------------------------------

  /** Account `id` is on the books before and after and has done nothing its rate does not allow. */
  ghost predicate ConformsIn(t: Accounts, u: Accounts, id: int) {
    id in t.of && id in u.of && Conforms(t.of[id], u.of[id])
  }

  ghost predicate EarnsIn(t: Accounts, u: Accounts, id: int, k: int) {
    id in t.of && id in u.of && t.of[id].rate == u.of[id].rate && EarnsAtLeast(t.of[id], u.of[id], k)
  }

  lemma ApplyConforms(e: Effect, id: int, a: Account)
    ensures Conforms(a, Apply(e, id, a))
    ensures EarnsAtLeast(a, Apply(e, id, a), 2) && EarnsAtLeast(a, Apply(e, id, a), 4)
  {
    match e
    case Resplit(cost, n, newId) =>
      var charge := SafeDiv(cost, n) - (if id != newId then SafeDiv(cost, n - 1) else 0);
      ChargeConforms(a, a.(estimate := a.estimate + charge));
    case Charge(amt) => ChargeConforms(a, a.(estimate := a.estimate + amt));
    case Refund(amt) => ChargeConforms(a, a.(estimate := a.estimate - amt));
    case Load(_, _) =>
    case Settle(combined, basic, summed) =>
      var alone := if id in basic then basic[id] else 0;
      ChargeConforms(a, a.(used := a.used + SafeDiv(combined * alone, summed),
                           usedRaw := a.usedRaw + a.batchEstimate,
                           estimate := a.estimate - a.batchEstimate));
  }

  /** A pass over a cause list earns nobody anything. */
  lemma PassConforms(t: Accounts, items: seq<int>, e: Effect, now: int, id: int)
    requires ValidAccounts(t) && NoDup(items) && id in t.of
    ensures var u := UpdateAll(t, items, e, now);
      ValidAccounts(u) && ConformsIn(t, u, id) && EarnsIn(t, u, id, 2) && EarnsIn(t, u, id, 4)
  {
    UpdateAllPointwise(t, items, e, now);
    if id in items { ApplyConforms(e, id, t.of[id]); }
  }

  lemma ConformsInTrans(t: Accounts, u: Accounts, v: Accounts, id: int)
    requires ConformsIn(t, u, id) && EarnsIn(t, u, id, 2) && EarnsIn(t, u, id, 4)
    requires ConformsIn(u, v, id) && EarnsIn(u, v, id, 2) && EarnsIn(u, v, id, 4)
    ensures ConformsIn(t, v, id) && EarnsIn(t, v, id, 2) && EarnsIn(t, v, id, 4)
  {
    ConformsTrans(t.of[id], u.of[id], v.of[id]);
    EarnsTrans(t.of[id], u.of[id], v.of[id], 2);
    EarnsTrans(t.of[id], u.of[id], v.of[id], 4);
  }

  lemma AccountingConforms(c: Core, cl: CauseList, offset: int, size: int, costs: Costs, now: int, id: int)
    requires ValidAccounts(c.accts) && NoDup(cl.items) && id in c.accts.of
    ensures var u := AccountForCauses(c, cl, offset, size, costs, now).accts;
      ConformsIn(c.accts, u, id) && EarnsIn(c.accts, u, id, 2) && EarnsIn(c.accts, u, id, 4)
  {
    var charged := ChargeUnlessDirtied(c, cl, size, now);
    var billed := Billed(cl, size);
    PassConforms(c.accts, cl.items, Charge(SafeDiv(size, |cl.items|)), now, id);
    var load := Load(IORequest(offset, billed.size), SafeDiv(billed.cost, |billed.items|));
    PassConforms(charged.accts, billed.items, load, now, id);
    var loaded := LoadAll(charged, billed, offset, now);
    ConformsInTrans(c.accts, charged.accts, loaded.accts, id);
    PassConforms(loaded.accts, loaded.accts.ids,
                 Settle(costs.combined, costs.basic, Summed(loaded.accts, costs)), now, id);
    if AnyFull(loaded, billed.items) {
      ConformsInTrans(c.accts, loaded.accts, SettleAll(loaded, costs, now).accts, id);
    }
  }

  /** No setting of account `id` changes, and its rate is not negative. */
  ghost predicate Fixed(s: State, step: Step, id: int) {
    && id in s.core.accts.of && 0 <= s.core.accts.of[id].rate
    && !(step.Set? && step.id == id)
  }

  /** The refresh does not overflow. */
  ghost predicate PollsInRange(s: State, step: Step, now: int, id: int) {
    step == Poll(id) && id in s.core.accts.of ==> NoWrap(s.core.accts.of[id], now)
  }

  /** The account's clock and this step's time are whole microseconds. */
  ghost predicate WholeMicroseconds(s: State, now: int, id: int) {
    id in s.core.accts.of && now % NSEC_PER_USEC == 0 && s.core.accts.of[id].lastUpdate % NSEC_PER_USEC == 0
  }

  lemma PollConforms(s: State, now: int, id: int)
    requires Inv(s) && Enabled(s, Poll(id), now) && Fixed(s, Poll(id), id)
    ensures var t, u := s.core.accts, Next(s, Poll(id), now).core.accts;
      && ConformsIn(t, u, id)
      && (PollsInRange(s, Poll(id), now, id) ==>
            && EarnsIn(t, u, id, 4)
            && (WholeMicroseconds(s, now, id) ==> EarnsIn(t, u, id, 2)))
  {
    var a := s.core.accts.of[id];
    var u := PollAccount(s.core.accts, id, now);
    assert u.of[id] == Refresh(a, now);
    RefreshConforms(a, now);
    if NoWrap(a, now) {
      RefreshEarns(a, now);
      WholeDifference(now, a.lastUpdate);
    }
  }

  lemma WholeDifference(x: int, y: int)
    ensures x % NSEC_PER_USEC == 0 && y % NSEC_PER_USEC == 0 ==> (x - y) % NSEC_PER_USEC == 0
  {
  }

  lemma StepConforms(s: State, step: Step, now: int, id: int)
    requires Inv(s) && Enabled(s, step, now) && Fixed(s, step, id)
    ensures var t, u := s.core.accts, Next(s, step, now).core.accts;
      && ConformsIn(t, u, id)
      && (PollsInRange(s, step, now, id) ==>
            && EarnsIn(t, u, id, 4)
            && (WholeMicroseconds(s, now, id) ==> EarnsIn(t, u, id, 2)))
      && (u.of[id].lastUpdate == t.of[id].lastUpdate || u.of[id].lastUpdate == now)
  {
    var t := s.core.accts;
    match step
    case NewList =>
    case Dirty(l, newId, bsize, inode, pos) =>
      if newId !in s.lists[l].items {
        DirtiedList(s, step, now);
        var cl := Dirtied(s, step);
        PassConforms(t, cl.items, Resplit(cl.cost, |cl.items|, newId), now, id);
        PassKeepsClock(t, cl.items, Resplit(cl.cost, |cl.items|, newId), now, id);
      }
    case Dispatch(l, offset, costs) =>
      var cl := s.lists[l];
      assert ValidList(cl);
      AccountingConforms(s.core, cl, offset, cl.size, costs, now, id);
      AccountingKeepsClock(s.core, cl, offset, cl.size, costs, now, id);
    case DispatchUndirtied(cl, offset, size, costs) =>
      AccountingConforms(s.core, cl, offset, size, costs, now, id);
      AccountingKeepsClock(s.core, cl, offset, size, costs, now, id);
    case Free(l) =>
      var cl := s.lists[l];
      assert ValidList(cl);
      PassConforms(t, cl.items, Refund(SafeDiv(cl.size, |cl.items|)), now, id);
      PassKeepsClock(t, cl.items, Refund(SafeDiv(cl.size, |cl.items|)), now, id);
    case Poll(p) => if p == id { PollConforms(s, now, id); }
    case Set(_, _, _) =>
  }

  lemma PassKeepsClock(t: Accounts, items: seq<int>, e: Effect, now: int, id: int)
    requires ValidAccounts(t) && NoDup(items) && id in t.of
    ensures var u := UpdateAll(t, items, e, now);
      ValidAccounts(u) && id in u.of && u.of[id].lastUpdate == t.of[id].lastUpdate
  {
    UpdateAllPointwise(t, items, e, now);
  }

  lemma AccountingKeepsClock(c: Core, cl: CauseList, offset: int, size: int, costs: Costs, now: int, id: int)
    requires ValidAccounts(c.accts) && NoDup(cl.items) && id in c.accts.of
    ensures var u := AccountForCauses(c, cl, offset, size, costs, now).accts;
      id in u.of && u.of[id].lastUpdate == c.accts.of[id].lastUpdate
  {
    var charged := ChargeUnlessDirtied(c, cl, size, now);
    var billed := Billed(cl, size);
    PassKeepsClock(c.accts, cl.items, Charge(SafeDiv(size, |cl.items|)), now, id);
    var load := Load(IORequest(offset, billed.size), SafeDiv(billed.cost, |billed.items|));
    PassKeepsClock(charged.accts, billed.items, load, now, id);
    var loaded := LoadAll(charged, billed, offset, now);
    PassKeepsClock(loaded.accts, loaded.accts.ids,
                   Settle(costs.combined, costs.basic, Summed(loaded.accts, costs)), now, id);
  }

  // ----- Whole runs -------------------------------------------------------

  /** The step leads from s to t, at the time of t. */
  ghost predicate Leads(s: State, step: Step, t: State) {
    Enabled(s, step, t.now) && t == Next(s, step, t.now)
  }

  ghost predicate StepTaken(states: seq<State>, steps: seq<Step>, i: nat)
    requires |states| == |steps| + 1 && i < |steps|
  {
    Leads(states[i], steps[i], states[i + 1])
  }

  /** A run of the scheduler: its states, one more than its steps, from a fresh start. */
  ghost predicate IsRun(states: seq<State>, steps: seq<Step>) {
    && |states| == |steps| + 1
    && Init(states[0])
    && forall i :: 0 <= i < |steps| ==> StepTaken(states, steps, i)
  }

  /** Every reachable state satisfies the invariant; in particular no batch is ever left full. */
  lemma {:induction false} RunInv(states: seq<State>, steps: seq<Step>, k: nat)
    requires IsRun(states, steps) && k <= |steps|
    ensures Inv(states[k])
  {
    if k == 0 {
      InitInv(states[0]);
    } else {
      RunInv(states, steps, k - 1);
      assert StepTaken(states, steps, k - 1);
      NextInv(states[k - 1], steps[k - 1], states[k].now);
    }
  }

  /** What frees have left unrefunded to account `id` in the first k steps. */
  ghost function UnrefundedTotal(states: seq<State>, steps: seq<Step>, k: nat, id: int): int
    requires k <= |steps| <= |states|
  {
    if k == 0 then 0
    else UnrefundedTotal(states, steps, k - 1, id) + Unrefunded(states[k - 1], steps[k - 1], id)
  }

  /**
   * The estimate ledger. In every reachable state an account's estimate is what its batch holds,
   * plus its share of every pending page, plus what frees left unrefunded, which never shrinks.
   */
  lemma {:induction false} EstimateLedger(states: seq<State>, steps: seq<Step>, k: nat, id: int)
    requires IsRun(states, steps) && k <= |steps|
    ensures var s := states[k];
      Estimate(s.core.accts, id)
        == BatchEstimate(s.core.accts, id) + Owed(s.lists, id) + UnrefundedTotal(states, steps, k, id)
    ensures 0 <= UnrefundedTotal(states, steps, k, id)
    ensures k > 0 ==> UnrefundedTotal(states, steps, k - 1, id) <= UnrefundedTotal(states, steps, k, id)
  {
    if k > 0 {
      EstimateLedger(states, steps, k - 1, id);
      RunInv(states, steps, k - 1);
      assert StepTaken(states, steps, k - 1);
      LedgerStep(states[k - 1], steps[k - 1], states[k].now, id);
    }
  }

  /** From step i to step j nobody changes the settings of account `id`. */
  ghost predicate SettingsHeld(states: seq<State>, steps: seq<Step>, i: nat, j: nat, id: int)
    requires i <= j <= |steps| && |states| == |steps| + 1
  {
    && id in states[i].core.accts.of && 0 <= states[i].core.accts.of[id].rate
    && forall k :: i <= k < j ==> !(steps[k].Set? && steps[k].id == id)
  }

  lemma {:induction false} WindowConforms(states: seq<State>, steps: seq<Step>, i: nat, j: nat, id: int)
    requires IsRun(states, steps) && i <= j <= |steps| && SettingsHeld(states, steps, i, j, id)
    ensures ConformsIn(states[i].core.accts, states[j].core.accts, id)
  {
    if i < j {
      WindowConforms(states, steps, i, j - 1, id);
      RunInv(states, steps, j - 1);
      assert StepTaken(states, steps, j - 1);
      StepConforms(states[j - 1], steps[j - 1], states[j].now, id);
      ConformsTrans(states[i].core.accts.of[id], states[j - 1].core.accts.of[id], states[j].core.accts.of[id]);
    }
  }

  /**
   * Token-bucket conformance. Over any window of any run in which the settings are left alone,
   * the count ends at or under the limit, and what the account was charged grew by at most the
   * refill for the elapsed time plus the part of the burst it has not got left.
   */
  lemma UsageConforms(states: seq<State>, steps: seq<Step>, i: nat, j: nat, id: int)
    requires IsRun(states, steps) && i <= j <= |steps| && SettingsHeld(states, steps, i, j, id)
    ensures id in states[j].core.accts.of
    ensures var a, b := states[i].core.accts.of[id], states[j].core.accts.of[id];
      && Count(b) <= b.limit
      && ((b.estimate + b.used) - (a.estimate + a.used) - (b.limit - Count(b))) * NANO
           <= a.rate * (states[j].now - a.lastUpdate)
  {
    WindowConforms(states, steps, i, j, id);
    RunInv(states, steps, i);
    RunInv(states, steps, j);
    var a, b := states[i].core.accts.of[id], states[j].core.accts.of[id];
    UsageIsBounded(a, b);
    MulMono(a.rate, b.lastUpdate - a.lastUpdate, states[j].now - a.lastUpdate);
  }

  /** Every poll of account `id` between i and j multiplies in range. */
  ghost predicate AllPollsInRange(states: seq<State>, steps: seq<Step>, i: nat, j: nat, id: int)
    requires i <= j <= |steps| && |states| == |steps| + 1
  {
    forall k :: i <= k < j ==> PollsInRange(states[k], steps[k], states[k + 1].now, id)
  }

  ghost predicate MicrosecondClock(states: seq<State>, i: nat, j: nat, id: int)
    requires i <= j < |states|
  {
    && id in states[i].core.accts.of && states[i].core.accts.of[id].lastUpdate % NSEC_PER_USEC == 0
    && forall k :: i < k <= j ==> states[k].now % NSEC_PER_USEC == 0
  }

  ghost predicate OnMicrosecond(s: State, id: int) {
    id in s.core.accts.of && s.core.accts.of[id].lastUpdate % NSEC_PER_USEC == 0
  }

  /** What account `id` has earned since it was a, after one more step. */
  lemma StepEarns(a: Account, s: State, step: Step, t: State, id: int)
    requires Inv(s) && Leads(s, step, t) && Fixed(s, step, id) && PollsInRange(s, step, t.now, id)
    requires a.rate == s.core.accts.of[id].rate && EarnsAtLeast(a, s.core.accts.of[id], 4)
    ensures id in t.core.accts.of && t.core.accts.of[id].rate == a.rate && EarnsAtLeast(a, t.core.accts.of[id], 4)
    ensures EarnsAtLeast(a, s.core.accts.of[id], 2) && OnMicrosecond(s, id) && t.now % NSEC_PER_USEC == 0 ==>
      EarnsAtLeast(a, t.core.accts.of[id], 2) && OnMicrosecond(t, id)
  {
    StepConforms(s, step, t.now, id);
    var b, c := s.core.accts.of[id], t.core.accts.of[id];
    EarnsTrans(a, b, c, 4);
    if EarnsAtLeast(a, b, 2) && OnMicrosecond(s, id) && t.now % NSEC_PER_USEC == 0 {
      assert WholeMicroseconds(s, t.now, id);
      EarnsTrans(a, b, c, 2);
    }
  }

  /**
   * However the polls are spaced, they bring in at least a quarter of rate times the time up to
   * the last update, and at least half of it when the clock ticks in whole microseconds.
   */
  lemma {:induction false} IncomeConforms(states: seq<State>, steps: seq<Step>, i: nat, j: nat, id: int)
    requires IsRun(states, steps) && i <= j <= |steps| && SettingsHeld(states, steps, i, j, id)
    requires AllPollsInRange(states, steps, i, j, id)
    ensures EarnsIn(states[i].core.accts, states[j].core.accts, id, 4)
    ensures MicrosecondClock(states, i, j, id) ==>
      EarnsIn(states[i].core.accts, states[j].core.accts, id, 2) && OnMicrosecond(states[j], id)
  {
    if i < j {
      var s, step, t := states[j - 1], steps[j - 1], states[j];
      IncomeConforms(states, steps, i, j - 1, id);
      assert ConformsIn(states[i].core.accts, s.core.accts, id) by { WindowConforms(states, steps, i, j - 1, id); }
      assert Inv(s) by { RunInv(states, steps, j - 1); }
      assert PollsInRange(s, step, t.now, id);
      assert StepTaken(states, steps, j - 1);
      StepEarns(states[i].core.accts.of[id], s, step, t, id);
    }
  }
}
