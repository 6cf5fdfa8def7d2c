/**
 * The accounting state of the token bucket and what each hook does to it: charging
 * dirty pages, re-splitting them among sharers, moving the charge into the batches
 * at dispatch, settling full batches by the disk model, refunding freed pages.
 */
module TbState {
  import opened DiskSim
  import opened IoBatch
  import opened Seqs
  import opened TbAccount

  const BATCH_SIZE := 64
  const BATCH_BYTE_CAP := 32 * 1024 * 1024

  predicate Full(stored: seq<IORequest>) {
    |stored| >= BATCH_SIZE || TotalSize(stored) >= BATCH_BYTE_CAP
  }

  /** iobatch_add_request: a full batch refuses. */
  function BatchAdd(stored: seq<IORequest>, r: IORequest): seq<IORequest> {
    if Full(stored) then stored else AddRequest(stored, r)
  }

  /** The accounts, by id and in the order of their creation. */
  datatype Accounts = Accounts(ids: seq<int>, of: map<int, Account>)

  ghost predicate ValidAccounts(t: Accounts) {
    NoDup(t.ids) && forall id :: id in t.of <==> id in t.ids
  }

  /** An account nobody has asked for yet is as good as a new one. */
  function Get(t: Accounts, id: int, now: int): Account {
    if id in t.of then t.of[id] else NewAccount(now)
  }

  /** get_account: find or create. */
  function Ensure(t: Accounts, id: int, now: int): Accounts {
    if id in t.of then t else Accounts(t.ids + [id], t.of[id := NewAccount(now)])
  }

  /** What a hook does to one account on its way through a list of causes. */
  datatype Effect =
    | Resplit(cost: int, sharers: int, newId: int)
    | Charge(amt: int)
    | Refund(amt: int)
    | Load(r: IORequest, share: int)
    | Settle(combined: int, basic: map<int, int>, summed: int)

  function Apply(e: Effect, id: int, a: Account): Account {
    match e
    case Resplit(cost, n, newId) =>
      var charge := SafeDiv(cost, n) - (if id != newId then SafeDiv(cost, n - 1) else 0);
      Saturate(a.(estimate := a.estimate + charge))
    case Charge(amt) => Saturate(a.(estimate := a.estimate + amt))
    case Refund(amt) => Saturate(a.(estimate := a.estimate - amt))
    case Load(r, share) => a.(batch := BatchAdd(a.batch, r), batchEstimate := a.batchEstimate + share)
    case Settle(combined, basic, summed) =>
      var alone := if id in basic then basic[id] else 0;
      Saturate(a.(used := a.used + SafeDiv(combined * alone, summed),
                  usedRaw := a.usedRaw + a.batchEstimate,
                  estimate := a.estimate - a.batchEstimate))
        .(batchEstimate := 0, batch := [])
  }

  function Update(t: Accounts, id: int, e: Effect, now: int): Accounts {
    var u := Ensure(t, id, now);
    u.(of := u.of[id := Apply(e, id, u.of[id])])
  }

  /** One pass over a list of causes. */
  function UpdateAll(t: Accounts, items: seq<int>, e: Effect, now: int): Accounts {
    if items == [] then t
    else Update(UpdateAll(t, items[..|items| - 1], e, now), items[|items| - 1], e, now)
  }

  /** A pass over a duplicate-free list touches each listed account once and no other. */
  lemma {:induction false} UpdateAllPointwise(t: Accounts, items: seq<int>, e: Effect, now: int)
    requires ValidAccounts(t) && NoDup(items)
    ensures var u := UpdateAll(t, items, e, now);
      && ValidAccounts(u)
      && t.ids <= u.ids
      && (forall id :: id in u.of <==> id in t.of || id in items)
      && (forall id :: id in items ==> u.of[id] == Apply(e, id, Get(t, id, now)))
      && (forall id :: id in t.of && id !in items ==> u.of[id] == t.of[id])
  {
    if items != [] {
      var front, last := items[..|items| - 1], items[|items| - 1];
      assert items == front + [last];
      UpdateAllPointwise(t, front, e, now);
      assert last !in front;
    }
  }

  // ----- Cause lists as the scheduler sees them ---------------------------

  /**
   * `callback` is callback_q != NULL: charged by the dirty hook and not yet dispatched.
   * `cost` is the scheduler's private field, -1 until it is set.
   */
  datatype CauseList = CauseList(items: seq<int>, size: int, cost: int, callback: bool)

  const FreshList := CauseList([], 0, -1, false)

  /** Accounts and the combined batch: what accounting reads and writes. */
  datatype Core = Core(accts: Accounts, batch: seq<IORequest>)

  /** What sorting and simulating each batch came to; the source leaves ties to sort(). */
  datatype Costs = Costs(combined: int, basic: map<int, int>)

  ghost predicate AreCosts(c: Core, costs: Costs) {
    && IsScanCost(costs.combined, c.batch)
    && costs.basic.Keys == c.accts.of.Keys
    && (forall id :: id in costs.basic ==> IsScanCost(costs.basic[id], c.accts.of[id].batch))
  }

  function BasicOf(ids: seq<int>, basic: map<int, int>): seq<int> {
    seq(|ids|, i requires 0 <= i < |ids| => if ids[i] in basic then basic[ids[i]] else 0)
  }

  function Summed(t: Accounts, costs: Costs): int {
    Sum(BasicOf(t.ids, costs.basic))
  }

  /** First half of do_disk_accounting: every batch gets the request, every sharer its share. */
  function LoadAll(c: Core, cl: CauseList, offset: int, now: int): Core {
    var r := IORequest(offset, cl.size);
    Core(UpdateAll(c.accts, cl.items, Load(r, SafeDiv(cl.cost, |cl.items|)), now), BatchAdd(c.batch, r))
  }

  predicate FullAt(t: Accounts, id: int) {
    id in t.of && Full(t.of[id].batch)
  }

  predicate AnyFull(c: Core, items: seq<int>) {
    Full(c.batch) || exists i :: 0 <= i < |items| && FullAt(c.accts, items[i])
  }

  /** Second half: settle every account by the disk model and start over. */
  function SettleAll(c: Core, costs: Costs, now: int): Core {
    Core(UpdateAll(c.accts, c.accts.ids, Settle(costs.combined, costs.basic, Summed(c.accts, costs)), now), [])
  }

  function DiskAccounting(c: Core, cl: CauseList, offset: int, costs: Costs, now: int): Core {
    var loaded := LoadAll(c, cl, offset, now);
    if AnyFull(loaded, cl.items) then SettleAll(loaded, costs, now) else loaded
  }

  /** account_for_causes: what the list becomes, and what is charged before disk accounting. */
  function Billed(cl: CauseList, size: int): CauseList {
    if cl.callback then cl.(callback := false)
    else if |cl.items| > 0 then cl.(cost := size)
    else cl
  }

  function ChargeUnlessDirtied(c: Core, cl: CauseList, size: int, now: int): Core {
    if !cl.callback && |cl.items| > 0
    then c.(accts := UpdateAll(c.accts, cl.items, Charge(SafeDiv(size, |cl.items|)), now))
    else c
  }

  function AccountForCauses(c: Core, cl: CauseList, offset: int, size: int, costs: Costs, now: int): Core {
    DiskAccounting(ChargeUnlessDirtied(c, cl, size, now), Billed(cl, size), offset, costs, now)
  }

  /** The buffer hook up to the scheduler's dirty hook: one new cause, stamped if it is the first. */
  function Stamped(cl: CauseList, newId: int, bsize: int): CauseList {
    var l := cl.(items := cl.items + [newId]);
    if l.callback then l else l.(callback := true, size := bsize)
  }

  /** The crude model of randomness: a seek from where this inode was last dirtied, once per list. */
  function Priced(cl: CauseList, pos: int, inodePos: int): CauseList {
    if cl.cost <= 0 then cl.(cost := SeekTime(pos, inodePos) + cl.size) else cl
  }

  function CausesDirty(t: Accounts, priced: CauseList, newId: int, now: int): Accounts {
    UpdateAll(t, priced.items, Resplit(priced.cost, |priced.items|, newId), now)
  }

  function CausesFree(t: Accounts, cl: CauseList, now: int): Accounts {
    UpdateAll(t, cl.items, Refund(SafeDiv(cl.size, |cl.items|)), now)
  }
}
