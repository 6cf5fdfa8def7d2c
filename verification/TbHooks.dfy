/**
 * The hooks of the token bucket as they run: loops over cause lists and accounts that
 * update the books in place. Each is proved to do what TbState says it does.
 */
module TbHooks {
  import opened DiskSim
  import opened ScanTheory
  import opened IoBatch
  import opened Seqs
  import opened TbAccount
  import opened TbState

  lemma UpdateAllSnoc(t: Accounts, items: seq<int>, i: nat, e: Effect, now: int)
    requires i < |items|
    ensures UpdateAll(t, items[..i + 1], e, now) == Update(UpdateAll(t, items[..i], e, now), items[i], e, now)
  {
    assert items[..i + 1][..i] == items[..i];
  }

  const MIN_WAIT_USECS := 100
  const MAX_SLEEP_USECS := 5 * USEC_PER_SEC

  /** How long until the account is out of debt, as far as whole microseconds can tell. */
  function EstimateWait(a: Account): int {
    var usecs := SafeDiv(-Count(a) * USEC_PER_SEC, a.rate);
    if usecs < MIN_WAIT_USECS then MIN_WAIT_USECS else usecs
  }

  /**
   * The wait earns back the debt up to the rounding, and goes past it exactly when the shortest
   * wait there is already earns more.
   */
  lemma WaitPaysTheDebt(a: Account)
    requires 0 < a.rate && Count(a) <= 0
    ensures var earned := EstimateWait(a) * a.rate / USEC_PER_SEC;
      && -(a.rate / USEC_PER_SEC + 2) < Count(a) + earned
      && (Count(a) + earned <= 0 <==> MIN_WAIT_USECS * a.rate / USEC_PER_SEC <= -Count(a))
  {
    WaitCoversDebt(a);
    var debt, paid := -Count(a), EstimateWait(a) * a.rate;
    FloorOfParts(debt, paid, a.rate);
    if MIN_WAIT_USECS < EstimateWait(a) {
      FloorWithin(debt, MIN_WAIT_USECS * a.rate);
      FloorWithin(debt, paid);
    }
  }

  /** In millionths of a token, what the wait earns reaches the debt up to one microsecond, and passes it only if clamped. */
  lemma WaitCoversDebt(a: Account)
    requires 0 < a.rate && Count(a) <= 0
    ensures -Count(a) * USEC_PER_SEC < EstimateWait(a) * a.rate + a.rate
    ensures MIN_WAIT_USECS < EstimateWait(a) ==>
      MIN_WAIT_USECS * a.rate <= EstimateWait(a) * a.rate <= -Count(a) * USEC_PER_SEC
  {
    var debt, wait := -Count(a) * USEC_PER_SEC, EstimateWait(a);
    FloorBounds(debt, a.rate);
    MulMono(a.rate, debt / a.rate, wait);
    if MIN_WAIT_USECS < wait { MulMono(a.rate, MIN_WAIT_USECS, wait); }
  }

  lemma FloorOfParts(debt: int, paid: int, rate: int)
    requires 0 < rate && debt * USEC_PER_SEC < paid + rate
    ensures debt < paid / USEC_PER_SEC + rate / USEC_PER_SEC + 2
  {
  }

  lemma FloorWithin(debt: int, paid: int)
    requires paid <= debt * USEC_PER_SEC
    ensures paid / USEC_PER_SEC <= debt
  {
  }

  /** saturate_counts; the warning it ends with never fires. */
  method SaturateCounts(a: Account) returns (r: Account)
    ensures r == Saturate(a)
  {
    r := a;
    var diff := Count(a) - a.limit;
    if diff > 0 {
      r := a.(credit := a.credit - diff, lost := a.lost + diff);
    }
    assert Count(r) <= r.limit;
  }

  /** Charge an account its share by the disk model, refund its estimate, and start over. */
  method SettledAccount(a: Account, id: int, alone: int, combined: int, ghost basic: map<int, int>, summed: int)
    returns (r: Account)
    requires id in basic && basic[id] == alone
    ensures r == Apply(Settle(combined, basic, summed), id, a)
  {
    var adjusted := SafeDiv(combined * alone, summed);
    r := SaturateCounts(a.(used := a.used + adjusted,
                           usedRaw := a.usedRaw + a.batchEstimate,
                           estimate := a.estimate - a.batchEstimate));
    r := r.(batchEstimate := 0, batch := []);
  }

  ghost predicate AllCached(ids: seq<int>, cache: map<int, int>) {
    forall k :: 0 <= k < |ids| ==> ids[k] in cache
  }

  /** Asking for one more price adds it to the sum of those asked for, and changes none of them. */
  lemma OneMoreCost(ids: seq<int>, i: nat, before: map<int, int>, after: map<int, int>, c: int)
    requires i < |ids| && AllCached(ids[..i], before) && after == before[ids[i] := c]
    requires ids[i] in before ==> before[ids[i]] == c
    ensures AllCached(ids[..i + 1], after)
    ensures Sum(BasicOf(ids[..i + 1], after)) == Sum(BasicOf(ids[..i], before)) + c
  {
    var basic := BasicOf(ids[..i + 1], after);
    assert basic[i] == c;
    assert basic[..i] == BasicOf(ids[..i], before);
  }

  lemma CachedKeys(t: Accounts, cache: map<int, int>)
    requires ValidAccounts(t) && AllCached(t.ids, cache) && forall id :: id in cache ==> id in t.of
    ensures cache.Keys == t.of.Keys
  {
    forall id | id in cache.Keys ensures id in t.of.Keys { assert id in cache; }
    forall id | id in t.of.Keys ensures id in cache.Keys {
      assert id in t.of;
      assert id in t.ids;
      var k :| 0 <= k < |t.ids| && t.ids[k] == id;
    }
  }

  class TokenBucket {
    var accts: Accounts
    var batch: seq<IORequest>
    /** The cost cached in each account's batch, for those batches that have one. */
    var cache: map<int, int>

    ghost predicate Valid()
      reads this
    {
      && ValidAccounts(accts)
      && forall id :: id in cache ==> id in accts.of && IsScanCost(cache[id], accts.of[id].batch)
    }

    function AsCore(): Core
      reads this
    {
      Core(accts, batch)
    }

    constructor (now: int)
      ensures Valid() && batch == []
      ensures accts == Accounts([0], map[0 := NewAccount(now)])
    {
      accts := Accounts([0], map[0 := NewAccount(now)]);
      batch := [];
      cache := map[];
    }

    method GetAccount(id: int, now: int) returns (a: Account)
      requires Valid()
      modifies this`accts
      ensures Valid()
      ensures accts == Ensure(old(accts), id, now) && a == accts.of[id]
    {
      if id !in accts.of {
        accts := Accounts(accts.ids + [id], accts.of[id := NewAccount(now)]);
      }
      a := accts.of[id];
    }

    /** Write one account back. */
    method Put(id: int, a: Account)
      requires Valid() && id in accts.of && (id in cache ==> a.batch == accts.of[id].batch)
      modifies this`accts
      ensures Valid() && accts == old(accts).(of := old(accts).of[id := a])
    {
      accts := accts.(of := accts.of[id := a]);
    }

    method RefreshCount(id: int, now: int)
      requires Valid() && id in accts.of && accts.of[id].lastUpdate <= now
      modifies this`accts
      ensures Valid()
      ensures accts == old(accts).(of := old(accts).of[id := Refresh(old(accts).of[id], now)])
    {
      var a := accts.of[id];
      var inc := Income(a, now);
      assert inc >= 0;
      if inc > 0 {
        a := SaturateCounts(a.(credit := a.credit + inc));
        a := a.(lastUpdate := now);
      }
      Put(id, a);
    }

    /** Sort and simulate a batch. */
    method Simulate(stored: seq<IORequest>) returns (c: int)
      ensures IsScanCost(c, stored)
    {
      var order := Sort(stored);
      assert IsScanOrder(order, stored);
      c := FreshCost(order);
    }

    /** iobatch_get_cost of an account's batch: the cached cost if there is one. */
    method GetCost(id: int) returns (c: int)
      requires Valid() && id in accts.of
      modifies this`cache
      ensures Valid() && IsScanCost(c, accts.of[id].batch)
      ensures id in old(cache) ==> c == old(cache[id])
      ensures cache == old(cache)[id := c]
    {
      if id in cache {
        c := cache[id];
      } else {
        c := Simulate(accts.of[id].batch);
      }
      cache := cache[id := c];
    }

    /** Add the request to the batch of one account that caused it. */
    method LoadOne(id: int, r: IORequest, share: int, now: int) returns (full: bool)
      requires Valid()
      modifies this`accts, this`cache
      ensures Valid() && accts == Update(old(accts), id, Load(r, share), now)
      ensures full <==> FullAt(accts, id)
    {
      var a := GetAccount(id, now);
      a := a.(batch := BatchAdd(a.batch, r), batchEstimate := a.batchEstimate + share);
      cache := cache - {id};
      Put(id, a);
      full := Full(a.batch);
    }

    method LoadSharers(cl: CauseList, r: IORequest, now: int) returns (full: bool)
      requires Valid()
      modifies this`accts, this`cache
      ensures Valid()
      ensures accts == UpdateAll(old(accts), cl.items, Load(r, SafeDiv(cl.cost, |cl.items|)), now)
      ensures full <==> exists i :: 0 <= i < |cl.items| && FullAt(accts, cl.items[i])
    {
      var items := cl.items;
      var share := SafeDiv(cl.cost, |items|);
      full := false;
      var i := 0;
      while i < |items|
        invariant 0 <= i <= |items| && Valid()
        invariant accts == UpdateAll(old(accts), items[..i], Load(r, share), now)
        invariant full <==> exists k :: 0 <= k < i && FullAt(accts, items[k])
      {
        ghost var before := accts;
        UpdateAllSnoc(old(accts), items, i, Load(r, share), now);
        LoadKeepsFlags(before, items, i, r, share, now);
        var filled := LoadOne(items[i], r, share, now);
        full := full || filled;
        i := i + 1;
      }
      assert items[..i] == items;
    }

    /** Charge one account by the disk model, refund its estimate, clear its batch. */
    method SettleOne(id: int, combined: int, basic: map<int, int>, summed: int, now: int)
      requires Valid() && id in accts.of && id in cache && id in basic && cache[id] == basic[id]
      modifies this`accts, this`cache
      ensures Valid() && accts == Update(old(accts), id, Settle(combined, basic, summed), now)
      ensures cache == old(cache) - {id}
    {
      var alone := GetCost(id);
      var a := SettledAccount(accts.of[id], id, alone, combined, basic, summed);
      cache := cache - {id};
      Put(id, a);
    }

    /** Settle every account: the two loops of do_disk_accounting see the same costs. */
    method SettleAccounts(combined: int, now: int) returns (ghost basic: map<int, int>)
      requires Valid()
      modifies this`accts, this`cache
      ensures Valid()
      ensures basic.Keys == old(accts).of.Keys
      ensures forall id :: id in basic ==> IsScanCost(basic[id], old(accts).of[id].batch)
      ensures accts == UpdateAll(old(accts), old(accts).ids,
                                 Settle(combined, basic, Sum(BasicOf(old(accts).ids, basic))), now)
    {
      var summed := SumCosts();
      basic := cache;
      assert forall id :: id in basic ==> IsScanCost(basic[id], accts.of[id].batch);
      SettleEach(combined, cache, summed, now);
    }

    /** Second loop. */
    method SettleEach(combined: int, costs: map<int, int>, summed: int, now: int)
      requires Valid() && costs == cache && cache.Keys == accts.of.Keys
      modifies this`accts, this`cache
      ensures Valid()
      ensures accts == UpdateAll(old(accts), old(accts).ids, Settle(combined, costs, summed), now)
    {
      var ids := accts.ids;
      forall k | 0 <= k < |ids| ensures ids[k] in costs {
        var id := ids[k];
        assert id in ids && id in accts.of && id in accts.of.Keys;
      }
      var i := 0;
      while i < |ids|
        invariant 0 <= i <= |ids| && Valid()
        invariant accts == UpdateAll(old(accts), ids[..i], Settle(combined, costs, summed), now)
        invariant accts.ids == ids && accts.of.Keys == costs.Keys
        invariant forall k :: i <= k < |ids| ==> ids[k] in cache && ids[k] in costs && cache[ids[k]] == costs[ids[k]]
      {
        UpdateAllSnoc(old(accts), ids, i, Settle(combined, costs, summed), now);
        var id := ids[i];
        assert id in accts.of;
        SettleOne(id, combined, costs, summed, now);
        i := i + 1;
      }
      assert ids[..i] == ids;
    }

    /** First loop: every batch simulated, its cost cached, the costs added up. */
    method SumCosts() returns (summed: int)
      requires Valid()
      modifies this`cache
      ensures Valid() && cache.Keys == accts.of.Keys
      ensures summed == Sum(BasicOf(accts.ids, cache))
    {
      var ids := accts.ids;
      summed := 0;
      var i := 0;
      while i < |ids|
        invariant 0 <= i <= |ids| && Valid()
        invariant AllCached(ids[..i], cache) && summed == Sum(BasicOf(ids[..i], cache))
      {
        var id := ids[i];
        assert id in accts.ids;
        ghost var before := cache;
        var c := GetCost(id);
        OneMoreCost(ids, i, before, cache, c);
        summed := summed + c;
        i := i + 1;
      }
      assert ids[..i] == ids;
      CachedKeys(accts, cache);
    }

    method DoDiskAccounting(cl: CauseList, offset: int, now: int) returns (ghost costs: Costs)
      requires Valid()
      modifies this
      ensures Valid()
      ensures AsCore() == DiskAccounting(old(AsCore()), cl, offset, costs, now)
      ensures var loaded := LoadAll(old(AsCore()), cl, offset, now);
        AnyFull(loaded, cl.items) ==> AreCosts(loaded, costs)
    {
      var r := IORequest(offset, cl.size);
      batch := BatchAdd(batch, r);
      var full := LoadSharers(cl, r, now);
      full := full || Full(batch);
      ghost var loaded := AsCore();
      assert loaded == LoadAll(old(AsCore()), cl, offset, now);
      assert full <==> AnyFull(loaded, cl.items);
      costs := Costs(0, map[]);
      if full {
        var combined := Simulate(batch);
        batch := [];
        ghost var basic := SettleAccounts(combined, now);
        costs := Costs(combined, basic);
      }
    }

    /** account_for_causes: a list the dirty hook has charged is only marked as dispatched. */
    method AccountForCauses(cl: CauseList, offset: int, size: int, now: int)
      returns (billed: CauseList, ghost costs: Costs)
      requires Valid()
      modifies this
      ensures Valid() && billed == Billed(cl, size)
      ensures AsCore() == TbState.AccountForCauses(old(AsCore()), cl, offset, size, costs, now)
      ensures var loaded := LoadAll(ChargeUnlessDirtied(old(AsCore()), cl, size, now), Billed(cl, size), offset, now);
        AnyFull(loaded, cl.items) ==> AreCosts(loaded, costs)
    {
      billed := cl;
      if cl.callback {
        billed := cl.(callback := false);
      } else if |cl.items| > 0 {
        billed := cl.(cost := size);
        ApplyToSharers(cl.items, Charge(SafeDiv(size, |cl.items|)), now);
      }
      costs := DoDiskAccounting(billed, offset, now);
    }

    /** Change one account's estimate, then saturate. */
    method ApplyToOne(id: int, e: Effect, now: int)
      requires Valid() && (e.Resplit? || e.Charge? || e.Refund?)
      modifies this`accts
      ensures Valid() && accts == Update(old(accts), id, e, now)
    {
      var a := GetAccount(id, now);
      var change := match e
        case Resplit(cost, n, newId) => SafeDiv(cost, n) - (if id != newId then SafeDiv(cost, n - 1) else 0)
        case Charge(amt) => amt
        case Refund(amt) => -amt;
      a := SaturateCounts(a.(estimate := a.estimate + change));
      Put(id, a);
    }

    /** The loop shared by the charging hooks. */
    method ApplyToSharers(items: seq<int>, e: Effect, now: int)
      requires Valid() && (e.Resplit? || e.Charge? || e.Refund?)
      modifies this`accts
      ensures Valid()
      ensures accts == UpdateAll(old(accts), items, e, now)
    {
      var i := 0;
      while i < |items|
        invariant 0 <= i <= |items| && Valid()
        invariant accts == UpdateAll(old(accts), items[..i], e, now)
      {
        UpdateAllSnoc(old(accts), items, i, e, now);
        ApplyToOne(items[i], e, now);
        i := i + 1;
      }
      assert items[..i] == items;
    }

    /** The dirty hook: price the list once, then re-split the price among the sharers. */
    method CausesDirty(cl: CauseList, newId: int, pos: int, inodePos: int, now: int)
      returns (priced: CauseList, newInodePos: int)
      requires Valid()
      modifies this`accts
      ensures Valid()
      ensures priced == Priced(cl, pos, inodePos) && newInodePos == pos + cl.size
      ensures accts == TbState.CausesDirty(old(accts), priced, newId, now)
    {
      priced := cl;
      if cl.cost <= 0 {
        priced := cl.(cost := SeekTime(pos, inodePos) + cl.size);
      }
      newInodePos := pos + cl.size;
      ApplyToSharers(cl.items, Resplit(priced.cost, |cl.items|, newId), now);
    }

    method CausesFree(cl: CauseList, now: int)
      requires Valid()
      modifies this`accts
      ensures Valid()
      ensures accts == TbState.CausesFree(old(accts), cl, now)
    {
      ApplyToSharers(cl.items, Refund(SafeDiv(cl.size, |cl.items|)), now);
    }

    /** A writer in debt sleeps for as long as its debt takes to pay, within limits. */
    method MaybeSleep(id: int, current: bool, now: int) returns (sleepy: bool, usecs: int)
      requires Valid() && Get(accts, id, now).lastUpdate <= now
      modifies this`accts
      ensures Valid()
      ensures !current ==> !sleepy && accts == old(accts)
      ensures current ==>
        var a := Refresh(Get(old(accts), id, now), now);
        && accts == Ensure(old(accts), id, now).(of := Ensure(old(accts), id, now).of[id := a])
        && (sleepy <==> Count(a) < 0 < a.rate)
        && (sleepy ==> usecs == Min(EstimateWait(a), MAX_SLEEP_USECS) && MIN_WAIT_USECS <= usecs)
    {
      sleepy, usecs := false, 0;
      if !current { return; }
      var a := GetAccount(id, now);
      RefreshCount(id, now);
      a := accts.of[id];
      if Count(a) < 0 && a.rate > 0 {
        sleepy := true;
        usecs := EstimateWait(a);
        if MAX_SLEEP_USECS < usecs { usecs := MAX_SLEEP_USECS; }
      }
    }
  }

  /** A batch that is full stays full, so the flags collected on the way are the flags at the end. */
  lemma LoadKeepsFull(t: Accounts, id: int, r: IORequest, share: int, now: int, other: int)
    ensures var u := Update(t, id, Load(r, share), now);
      && (FullAt(t, other) ==> FullAt(u, other))
      && (other != id ==> (FullAt(t, other) <==> FullAt(u, other)))
  {
  }

  lemma LoadKeepsFlags(t: Accounts, items: seq<int>, i: nat, r: IORequest, share: int, now: int)
    requires i < |items|
    ensures var u := Update(t, items[i], Load(r, share), now);
      (exists k :: 0 <= k <= i && FullAt(u, items[k]))
        <==> FullAt(u, items[i]) || exists k :: 0 <= k < i && FullAt(t, items[k])
  {
    var u := Update(t, items[i], Load(r, share), now);
    if k :| 0 <= k <= i && FullAt(u, items[k]) {
      LoadKeepsFull(t, items[i], r, share, now, items[k]);
    }
    if k :| 0 <= k < i && FullAt(t, items[k]) {
      LoadKeepsFull(t, items[i], r, share, now, items[k]);
    }
  }
}
