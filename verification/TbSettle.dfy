/**
 * Settling a batch: the simulated cost of the combined batch is split among the
 * accounts in proportion to what each would have cost alone.
 */
module TbSettle {
  import opened DiskSim
  import opened ScanTheory
  import opened IoBatch
  import opened Seqs
  import opened TbAccount
  import opened TbState
  import opened TbRuns

  // ----- The split conserves the cost -------------------------------------

  function Adjusted(combined: int, basic: seq<int>, summed: int): seq<int> {
    seq(|basic|, i requires 0 <= i < |basic| => SafeDiv(combined * basic[i], summed))
  }

  ghost predicate AllNonNegative(s: seq<int>) {
    forall i :: 0 <= i < |s| ==> 0 <= s[i]
  }

  function NonZero(basic: seq<int>): nat {
    if basic == [] then 0 else NonZero(basic[..|basic| - 1]) + (if basic[|basic| - 1] != 0 then 1 else 0)
  }

  lemma Product(x: int, y: int)
    requires 0 <= x && 0 <= y
    ensures 0 <= x * y
  {
  }

  lemma Distribute(x: int, y: int, k: int)
    ensures (x + y) * k == x * k + y * k
    ensures k * (x + y) == k * x + k * y
  {
  }

  /** One share, rounded down: off by less than `summed`, and exact when it is zero. */
  lemma ShareBounds(combined: int, b: int, summed: int)
    requires 0 <= combined && 0 < summed && 0 <= b
    ensures var q := SafeDiv(combined * b, summed);
      && q * summed <= combined * b < (q + 1) * summed
      && (b == 0 ==> q == 0)
  {
    Product(combined, b);
    FloorBounds(combined * b, summed);
  }

  lemma {:induction false} SplitBounds(combined: int, basic: seq<int>, summed: int)
    requires 0 <= combined && 0 < summed && AllNonNegative(basic)
    ensures var charged := Sum(Adjusted(combined, basic, summed));
      && charged * summed <= combined * Sum(basic) <= (charged + NonZero(basic)) * summed
      && (NonZero(basic) > 0 ==> combined * Sum(basic) < (charged + NonZero(basic)) * summed)
  {
    if basic != [] {
      var n := |basic| - 1;
      var front, b := basic[..n], basic[n];
      assert basic == front + [b];
      SplitBounds(combined, front, summed);
      assert Adjusted(combined, basic, summed)[..n] == Adjusted(combined, front, summed);
      ShareBounds(combined, b, summed);
      var q := SafeDiv(combined * b, summed);
      var charged := Sum(Adjusted(combined, front, summed));
      assert Sum(Adjusted(combined, basic, summed)) == charged + q;
      Distribute(charged, q, summed);
      Distribute(Sum(front), b, combined);
      Distribute(charged + NonZero(front), q, summed);
      Distribute(charged + NonZero(front), q + 1, summed);
    }
  }

  lemma CancelLe(x: int, y: int, s: int)
    requires 0 < s && x * s <= y * s
    ensures x <= y
  {
  }

  lemma CancelLt(x: int, y: int, s: int)
    requires 0 < s && x * s < y * s
    ensures x < y
  {
  }

  lemma {:induction false} SumOfNonNegative(basic: seq<int>)
    requires AllNonNegative(basic)
    ensures 0 <= Sum(basic) && (0 < Sum(basic) <==> 0 < NonZero(basic))
  {
    if basic != [] {
      var front := basic[..|basic| - 1];
      assert basic == front + [basic[|basic| - 1]];
      SumOfNonNegative(front);
    }
  }

  /** The charges total at most the combined cost and fall short by less than one per payer. */
  lemma SplitConservesCost(combined: int, basic: seq<int>)
    requires 0 <= combined && AllNonNegative(basic) && 0 < Sum(basic)
    ensures var charged := Sum(Adjusted(combined, basic, Sum(basic)));
      charged <= combined < charged + NonZero(basic)
  {
    SumOfNonNegative(basic);
    SplitBounds(combined, basic, Sum(basic));
    var charged := Sum(Adjusted(combined, basic, Sum(basic)));
    CancelLe(charged, combined, Sum(basic));
    CancelLt(combined, charged + NonZero(basic), Sum(basic));
  }

  function UsedOf(t: Accounts, id: int): int { if id in t.of then t.of[id].used else 0 }
  function BatchOf(t: Accounts, id: int): seq<IORequest> { if id in t.of then t.of[id].batch else [] }

  /** How much each account's disk charge grows from t to u. */
  function UsedGrowth(ids: seq<int>, t: Accounts, u: Accounts): seq<int> {
    seq(|ids|, i requires 0 <= i < |ids| => UsedOf(u, ids[i]) - UsedOf(t, ids[i]))
  }

  function BatchesInUse(t: Accounts, ids: seq<int>): nat {
    if ids == [] then 0
    else BatchesInUse(t, ids[..|ids| - 1]) + (if BatchOf(t, ids[|ids| - 1]) != [] then 1 else 0)
  }

  ghost predicate NonNegativeBatches(c: Core) {
    NonNegative(c.batch) && forall id :: id in c.accts.of ==> NonNegative(c.accts.of[id].batch)
  }

  lemma ScanCostSign(cost: int, stored: seq<IORequest>)
    requires NonNegative(stored) && IsScanCost(cost, stored)
    ensures 0 <= cost && (cost == 0 <==> stored == [])
    ensures cost <= |stored| * SEEK_CAP + TotalSize(stored)
  {
    var order :| IsScanOrder(order, stored) && cost == FreshCost(order);
    NonNegativeOfPermutation(stored, order);
    FreshCostBounds(order);
    TotalOfPermutation(order, stored);
    assert |order| == |multiset(order)| && |stored| == |multiset(stored)|;
    if order != [] { TotalNonNegative(order); }
  }

  lemma {:induction false} TotalNonNegative(rs: seq<IORequest>)
    requires NonNegative(rs)
    ensures 0 <= TotalSize(rs)
  {
    if rs != [] {
      forall x | x in rs[..|rs| - 1] ensures x.size >= 0 { assert x in rs; }
      assert rs[|rs| - 1] in rs;
      TotalNonNegative(rs[..|rs| - 1]);
    }
  }

  lemma {:induction false} PayersAreBatchesInUse(c: Core, costs: Costs, ids: seq<int>)
    requires NonNegativeBatches(c) && AreCosts(c, costs)
    ensures AllNonNegative(BasicOf(ids, costs.basic))
    ensures NonZero(BasicOf(ids, costs.basic)) == BatchesInUse(c.accts, ids)
  {
    if ids != [] {
      var n := |ids| - 1;
      PayersAreBatchesInUse(c, costs, ids[..n]);
      var all := BasicOf(ids, costs.basic);
      assert all[..n] == BasicOf(ids[..n], costs.basic);
      var id := ids[n];
      if id in c.accts.of {
        assert id in costs.basic.Keys;
        ScanCostSign(costs.basic[id], c.accts.of[id].batch);
      }
      assert all == all[..n] + [all[n]];
    }
  }

  lemma SettlingCharges(c: Core, costs: Costs, now: int, id: int)
    requires ValidAccounts(c.accts) && id in c.accts.of && id in costs.basic
    ensures UsedOf(SettleAll(c, costs, now).accts, id)
         == UsedOf(c.accts, id) + SafeDiv(costs.combined * costs.basic[id], Summed(c.accts, costs))
  {
    var e := Settle(costs.combined, costs.basic, Summed(c.accts, costs));
    UpdateAllPointwise(c.accts, c.accts.ids, e, now);
  }

  lemma GrowthIsAdjusted(c: Core, costs: Costs, now: int)
    requires ValidAccounts(c.accts) && AreCosts(c, costs)
    ensures UsedGrowth(c.accts.ids, c.accts, SettleAll(c, costs, now).accts)
         == Adjusted(costs.combined, BasicOf(c.accts.ids, costs.basic), Summed(c.accts, costs))
  {
    var t, u := c.accts, SettleAll(c, costs, now).accts;
    forall i | 0 <= i < |t.ids|
      ensures UsedGrowth(t.ids, t, u)[i]
           == Adjusted(costs.combined, BasicOf(t.ids, costs.basic), Summed(t, costs))[i]
    {
      assert t.ids[i] in t.ids;
      SettlingCharges(c, costs, now, t.ids[i]);
    }
  }

  /**
   * Settling conserves the cost: what the accounts are charged together is at most the cost of
   * the combined batch, and less than one unit short of it per account with requests in its batch.
   */
  lemma SettlingConservesCost(c: Core, costs: Costs, now: int)
    requires ValidAccounts(c.accts) && NonNegativeBatches(c) && AreCosts(c, costs)
    requires Summed(c.accts, costs) != 0
    ensures var charged := Sum(UsedGrowth(c.accts.ids, c.accts, SettleAll(c, costs, now).accts));
      charged <= costs.combined < charged + BatchesInUse(c.accts, c.accts.ids)
  {
    var basic := BasicOf(c.accts.ids, costs.basic);
    PayersAreBatchesInUse(c, costs, c.accts.ids);
    SumOfNonNegative(basic);
    ScanCostSign(costs.combined, c.batch);
    SplitConservesCost(costs.combined, basic);
    GrowthIsAdjusted(c, costs, now);
  }

  // ----- Machine integers suffice -----------------------------------------

  /** Sizes for which a batch's running byte count cannot leave a 32-bit int. */
  const MAX_SIZE := 0x8000_0000 - BATCH_BYTE_CAP

  /** An upper bound on the cost of a batch of such sizes. */
  const MAX_COST := 0x8800_0000

  lemma ProductFits(x: int, y: int)
    requires 0 <= x <= MAX_COST && 0 <= y <= MAX_COST
    ensures 0 <= x * y < 0x8000_0000_0000_0000
  {
    Product(x, y);
    MulMono(x, y, MAX_COST);
    MulMono(MAX_COST, x, MAX_COST);
  }

  lemma {:induction false} OneWithinTotal(rs: seq<IORequest>, i: nat)
    requires NonNegative(rs) && i < |rs|
    ensures rs[i].size <= TotalSize(rs)
  {
    TotalWithout(rs, i);
    var rest := rs[..i] + rs[i + 1..];
    forall x | x in rest ensures x.size >= 0 { assert x in rs; }
    TotalNonNegative(rest);
  }

  /** A batch just loaded onto one that had room. */
  ghost predicate JustLoaded(stored: seq<IORequest>) {
    NonNegative(stored) && |stored| <= BATCH_SIZE && TotalSize(stored) < BATCH_BYTE_CAP + MAX_SIZE
  }

  lemma LoadedOntoRoom(stored: seq<IORequest>, r: IORequest)
    requires NonNegative(stored) && !Full(stored) && 0 <= r.size <= MAX_SIZE
    ensures JustLoaded(AddRequest(stored, r)) && BatchAdd(stored, r) == AddRequest(stored, r)
  {
    AddNonNegative(stored, r);
    AddTotal(stored, r);
  }

  lemma LoadedCost(cost: int, stored: seq<IORequest>)
    requires JustLoaded(stored) && IsScanCost(cost, stored)
    ensures 0 <= cost <= BATCH_SIZE * SEEK_CAP + TotalSize(stored)
    ensures cost <= MAX_COST
  {
    ScanCostSign(cost, stored);
  }

  /** Stored sizes fit an int, costs fit a size_t, and the product that is split fits a long long. */
  lemma CostsFitMachineWords(combined: int, batch: seq<IORequest>, basic: int, own: seq<IORequest>)
    requires JustLoaded(batch) && JustLoaded(own)
    requires IsScanCost(combined, batch) && IsScanCost(basic, own)
    ensures forall r <- batch :: r.size < 0x8000_0000
    ensures 0 <= combined <= BATCH_SIZE * SEEK_CAP + TotalSize(batch)
    ensures 0 <= combined * basic < 0x8000_0000_0000_0000
  {
    forall r | r in batch ensures r.size < 0x8000_0000 {
      var i :| 0 <= i < |batch| && batch[i] == r;
      OneWithinTotal(batch, i);
    }
    LoadedCost(combined, batch);
    LoadedCost(basic, own);
    ProductFits(combined, basic);
  }

  // ----- Nobody pays more than alone --------------------------------------

  /** One request loaded since the batches were last settled, and whose it is. */
  datatype Entry = Entry(r: IORequest, causes: set<int>)

  function Coalesce(rs: seq<IORequest>): seq<IORequest> {
    if rs == [] then [] else AddRequest(Coalesce(rs[..|rs| - 1]), rs[|rs| - 1])
  }

  lemma {:induction false} CoalesceRepresents(rs: seq<IORequest>)
    ensures Represents(Coalesce(rs), rs)
  {
    if rs != [] {
      CoalesceRepresents(rs[..|rs| - 1]);
      RepresentsAdd(Coalesce(rs[..|rs| - 1]), rs[..|rs| - 1], rs[|rs| - 1]);
      assert rs[..|rs| - 1] + [rs[|rs| - 1]] == rs;
    }
  }

  /** How many requests do not start where the one before ended. */
  function Stretches(rs: seq<IORequest>): nat {
    if rs == [] then 0
    else
      var n := |rs| - 1;
      Stretches(rs[..n]) + (if n > 0 && rs[n].offset == rs[n - 1].End() then 0 else 1)
  }

  /** A batch uses one slot for each stretch of contiguous requests, however many they are. */
  lemma {:induction false} OneSlotPerStretch(rs: seq<IORequest>)
    ensures |Coalesce(rs)| == Stretches(rs)
    ensures rs != [] ==> Coalesce(rs) != [] && Coalesce(rs)[|Coalesce(rs)| - 1].End() == rs[|rs| - 1].End()
  {
    if rs != [] { OneSlotPerStretch(rs[..|rs| - 1]); }
  }

  /** Every request of the epoch, and the requests account `id` had a part in. */
  function Everyones(epoch: seq<Entry>): seq<IORequest> {
    if epoch == [] then [] else Everyones(epoch[..|epoch| - 1]) + [epoch[|epoch| - 1].r]
  }

  function Mine(epoch: seq<Entry>, id: int): seq<IORequest> {
    if epoch == [] then []
    else
      var last := epoch[|epoch| - 1];
      Mine(epoch[..|epoch| - 1], id) + (if id in last.causes then [last.r] else [])
  }

  /** The batches hold exactly the epoch: the combined one all of it, each account's its own part. */
  ghost predicate Tracks(c: Core, epoch: seq<Entry>) {
    && c.batch == Coalesce(Everyones(epoch))
    && forall id :: BatchOf(c.accts, id) == Coalesce(Mine(epoch, id))
  }

  lemma {:induction false} MineIsPart(epoch: seq<Entry>, id: int)
    ensures multiset(Mine(epoch, id)) <= multiset(Everyones(epoch))
  {
    if epoch != [] { MineIsPart(epoch[..|epoch| - 1], id); }
  }

  lemma PartOfSeparated(part: seq<IORequest>, whole: seq<IORequest>)
    requires multiset(part) <= multiset(whole) && Separated(whole) && NonNegative(whole)
    ensures Separated(part) && NonNegative(part)
  {
    forall r | r in part ensures r.size >= 0 {
      assert r in multiset(part);
      assert r in multiset(whole);
    }
    forall a, b | a in multiset(part) && b in multiset(part)
      ensures (a == b && multiset(part)[a] == 1) || Apart(a, b)
    {
      assert a in multiset(whole) && b in multiset(whole);
    }
  }

  /** The simulated cost of a coalesced separated list is the size of its footprint. */
  lemma CoalescedCost(cost: int, rs: seq<IORequest>)
    requires NonNegative(rs) && Separated(rs) && IsScanCost(cost, Coalesce(rs))
    ensures cost == |Footprint(rs)|
  {
    CoalesceRepresents(rs);
    var order :| IsScanOrder(order, Coalesce(rs)) && cost == FreshCost(order);
    SeparatedScanCost(order, Coalesce(rs));
  }

  ghost function Covered(epoch: seq<Entry>, ids: seq<int>): set<int> {
    if ids == [] then {} else Covered(epoch, ids[..|ids| - 1]) + Footprint(Mine(epoch, ids[|ids| - 1]))
  }

  lemma {:induction false} CoveredContains(epoch: seq<Entry>, ids: seq<int>, i: nat)
    requires i < |ids|
    ensures Footprint(Mine(epoch, ids[i])) <= Covered(epoch, ids)
  {
    if i < |ids| - 1 { CoveredContains(epoch, ids[..|ids| - 1], i); }
  }

  ghost predicate OnTheBooks(ids: seq<int>, e: Entry) {
    exists i :: 0 <= i < |ids| && ids[i] in e.causes
  }

  /** Every request of the epoch was caused by somebody with an account. */
  ghost predicate Attributed(ids: seq<int>, epoch: seq<Entry>) {
    forall k :: 0 <= k < |epoch| ==> OnTheBooks(ids, epoch[k])
  }

  /** Every byte and seek of the epoch belongs to somebody on the books. */
  lemma {:induction false} EpochIsCovered(epoch: seq<Entry>, k: nat, ids: seq<int>)
    requires k <= |epoch|
    requires Attributed(ids, epoch)
    ensures Footprint(Everyones(epoch[..k])) <= Covered(epoch, ids)
  {
    if k > 0 {
      var e := epoch[k - 1];
      EpochIsCovered(epoch, k - 1, ids);
      assert epoch[..k][..k - 1] == epoch[..k - 1];
      FootprintSnoc(Everyones(epoch[..k - 1]), e.r);
      assert OnTheBooks(ids, e);
      var i :| 0 <= i < |ids| && ids[i] in e.causes;
      MineReaches(epoch, k - 1, ids[i]);
      CoveredContains(epoch, ids, i);
    }
  }

  lemma {:induction false} MineReaches(epoch: seq<Entry>, j: nat, id: int)
    requires j < |epoch| && id in epoch[j].causes
    ensures Reach(epoch[j].r) <= Footprint(Mine(epoch, id))
  {
    var front, last := epoch[..|epoch| - 1], epoch[|epoch| - 1];
    if j < |epoch| - 1 { MineReaches(front, j, id); }
    FootprintSnoc(Mine(front, id), last.r);
    assert Mine(front, id) + [] == Mine(front, id);
  }

  lemma {:induction false} CoveredSize(epoch: seq<Entry>, ids: seq<int>, basic: map<int, int>)
    requires forall i :: 0 <= i < |ids| ==> ids[i] in basic && basic[ids[i]] == |Footprint(Mine(epoch, ids[i]))|
    ensures |Covered(epoch, ids)| <= Sum(BasicOf(ids, basic))
  {
    if ids != [] {
      var n := |ids| - 1;
      CoveredSize(epoch, ids[..n], basic);
      assert BasicOf(ids, basic)[..n] == BasicOf(ids[..n], basic);
    }
  }

  lemma CostsAreFootprints(c: Core, epoch: seq<Entry>, costs: Costs)
    requires Tracks(c, epoch) && AreCosts(c, costs)
    requires NonNegative(Everyones(epoch)) && Separated(Everyones(epoch))
    ensures costs.combined == |Footprint(Everyones(epoch))|
    ensures forall id :: id in costs.basic ==> costs.basic[id] == |Footprint(Mine(epoch, id))|
  {
    CoalescedCost(costs.combined, Everyones(epoch));
    forall id | id in costs.basic ensures costs.basic[id] == |Footprint(Mine(epoch, id))| {
      MineIsPart(epoch, id);
      PartOfSeparated(Mine(epoch, id), Everyones(epoch));
      assert id in c.accts.of.Keys;
      assert BatchOf(c.accts, id) == c.accts.of[id].batch;
      CoalescedCost(costs.basic[id], Mine(epoch, id));
    }
  }

  /** The footprint of all is at most the sum of the footprints of each. */
  lemma FootprintSubadditive(epoch: seq<Entry>, ids: seq<int>, basic: map<int, int>)
    requires Attributed(ids, epoch)
    requires forall i :: 0 <= i < |ids| ==> ids[i] in basic && basic[ids[i]] == |Footprint(Mine(epoch, ids[i]))|
    ensures |Footprint(Everyones(epoch))| <= Sum(BasicOf(ids, basic))
  {
    EpochIsCovered(epoch, |epoch|, ids);
    assert epoch[..|epoch|] == epoch;
    SubsetSize(Footprint(Everyones(epoch)), Covered(epoch, ids));
    CoveredSize(epoch, ids, basic);
  }

  lemma EveryoneHasCost(c: Core, costs: Costs, i: nat)
    requires ValidAccounts(c.accts) && AreCosts(c, costs) && i < |c.accts.ids|
    ensures c.accts.ids[i] in costs.basic
  {
    var id := c.accts.ids[i];
    assert id in c.accts.ids;
    assert id in c.accts.of;
    assert id in c.accts.of.Keys;
  }

  /** Sharing the disk is no dearer than having it to oneself: combined cost is subadditive. */
  lemma CombinedAtMostSummed(c: Core, epoch: seq<Entry>, costs: Costs)
    requires ValidAccounts(c.accts) && Tracks(c, epoch) && AreCosts(c, costs) && Attributed(c.accts.ids, epoch)
    requires NonNegative(Everyones(epoch)) && Separated(Everyones(epoch))
    ensures 0 <= costs.combined <= Summed(c.accts, costs)
  {
    CostsAreFootprints(c, epoch, costs);
    forall i | 0 <= i < |c.accts.ids| ensures c.accts.ids[i] in costs.basic {
      EveryoneHasCost(c, costs, i);
    }
    FootprintSubadditive(epoch, c.accts.ids, costs.basic);
  }

  lemma ShareAtMostWhole(combined: int, basic: int, summed: int)
    requires 0 <= combined <= summed && 0 <= basic
    requires basic <= summed
    ensures SafeDiv(combined * basic, summed) <= basic
  {
    Product(combined, basic);
    if summed > 0 {
      assert combined * basic <= summed * basic;
      FloorBounds(combined * basic, summed);
      CancelLe(SafeDiv(combined * basic, summed), basic, summed);
    }
  }

  /** A share exceeds the account's own price exactly when the combined price exceeds the sum by enough. */
  lemma ShareExceedsIff(combined: int, basic: int, summed: int)
    requires 0 <= combined && 0 <= basic && 0 < summed
    ensures SafeDiv(combined * basic, summed) > basic <==> (combined - summed) * basic >= summed
  {
    ShareBounds(combined, basic, summed);
    var q := SafeDiv(combined * basic, summed);
    assert (combined - summed) * basic == combined * basic - basic * summed;
    if q > basic {
      MulMono(summed, basic + 1, q);
    } else {
      MulMono(summed, q + 1, basic + 1);
    }
  }

  lemma {:induction false} PartAtMostSum(basic: seq<int>, i: nat)
    requires i < |basic| && AllNonNegative(basic)
    ensures 0 <= basic[i] <= Sum(basic)
  {
    var n := |basic| - 1;
    SumOfNonNegative(basic[..n]);
    if i < n { PartAtMostSum(basic[..n], i); }
  }

  /**
   * No account pays more than alone. When a batch of separated, attributed requests is settled,
   * what each account is charged is at most the simulated cost of its own requests, in any offset
   * order and without coalescing.
   */
  lemma NobodyPaysMoreThanAlone(c: Core, epoch: seq<Entry>, costs: Costs, now: int, id: int, alone: seq<IORequest>)
    requires ValidAccounts(c.accts) && Tracks(c, epoch) && AreCosts(c, costs) && Attributed(c.accts.ids, epoch)
    requires NonNegative(Everyones(epoch)) && Separated(Everyones(epoch))
    requires id in c.accts.of && IsScanOrder(alone, Mine(epoch, id))
    ensures UsedOf(SettleAll(c, costs, now).accts, id) - UsedOf(c.accts, id) <= FreshCost(alone)
  {
    CombinedAtMostSummed(c, epoch, costs);
    CostsAreFootprints(c, epoch, costs);
    assert id in costs.basic.Keys;
    SettlingCharges(c, costs, now, id);
    MineIsPart(epoch, id);
    PartOfSeparated(Mine(epoch, id), Everyones(epoch));
    SeparatedScanCost(alone, Mine(epoch, id));
    BasicWithinSummed(c, epoch, costs, id);
    ShareAtMostWhole(costs.combined, costs.basic[id], Summed(c.accts, costs));
  }

  lemma BasicWithinSummed(c: Core, epoch: seq<Entry>, costs: Costs, id: int)
    requires ValidAccounts(c.accts) && id in c.accts.of && id in costs.basic
    requires forall k :: k in costs.basic ==> costs.basic[k] == |Footprint(Mine(epoch, k))|
    ensures 0 <= costs.basic[id] <= Summed(c.accts, costs)
  {
    var ids := c.accts.ids;
    var i :| 0 <= i < |ids| && ids[i] == id;
    var all := BasicOf(ids, costs.basic);
    forall j | 0 <= j < |all| ensures 0 <= all[j] {
      if ids[j] in costs.basic { assert all[j] == |Footprint(Mine(epoch, ids[j]))|; }
    }
    PartAtMostSum(all, i);
  }

  // ----- The epoch along a run --------------------------------------------

  function NextEpoch(s: State, step: Step, now: int, epoch: seq<Entry>): seq<Entry>
    requires step.Dispatch? ==> step.l < |s.lists|
  {
    match step
    case Dispatch(l, offset, _) =>
      EpochAfter(Loaded(s.core, s.lists[l], offset, s.lists[l].size, now), s.lists[l], offset, epoch)
    case DispatchUndirtied(cl, offset, size, _) =>
      EpochAfter(Loaded(s.core, cl, offset, size, now), cl, offset, epoch)
    case _ => epoch
  }

  function NewEntry(cl: CauseList, offset: int): Entry {
    Entry(IORequest(offset, cl.size), set id | id in cl.items)
  }

  function EpochAfter(loaded: Core, cl: CauseList, offset: int, epoch: seq<Entry>): seq<Entry> {
    if AnyFull(loaded, cl.items) then [] else epoch + [NewEntry(cl, offset)]
  }

  lemma EpochSnoc(epoch: seq<Entry>, e: Entry, id: int)
    ensures Everyones(epoch + [e]) == Everyones(epoch) + [e.r]
    ensures Mine(epoch + [e], id) == Mine(epoch, id) + (if id in e.causes then [e.r] else [])
  {
    assert (epoch + [e])[..|epoch|] == epoch;
  }

  lemma CoalesceSnoc(rs: seq<IORequest>, r: IORequest)
    ensures Coalesce(rs + [r]) == AddRequest(Coalesce(rs), r)
  {
    assert (rs + [r])[..|rs|] == rs;
  }

  lemma LoadedBatchOf(t: Accounts, items: seq<int>, r: IORequest, share: int, now: int, id: int)
    requires ValidAccounts(t) && NoDup(items)
    ensures BatchOf(UpdateAll(t, items, Load(r, share), now), id)
         == if id in items then BatchAdd(BatchOf(t, id), r) else BatchOf(t, id)
  {
    UpdateAllPointwise(t, items, Load(r, share), now);
  }

  lemma LoadTracksOne(t: Accounts, cl: CauseList, offset: int, now: int, epoch: seq<Entry>, id: int)
    requires ValidAccounts(t) && NoDup(cl.items)
    requires !Full(BatchOf(t, id)) && BatchOf(t, id) == Coalesce(Mine(epoch, id))
    ensures var e := NewEntry(cl, offset);
      BatchOf(UpdateAll(t, cl.items, Load(e.r, SafeDiv(cl.cost, |cl.items|)), now), id)
        == Coalesce(Mine(epoch + [e], id))
  {
    var e := NewEntry(cl, offset);
    LoadedBatchOf(t, cl.items, e.r, SafeDiv(cl.cost, |cl.items|), now, id);
    EpochSnoc(epoch, e, id);
    if id in cl.items {
      CoalesceSnoc(Mine(epoch, id), e.r);
    } else {
      assert Mine(epoch, id) + [] == Mine(epoch, id);
    }
  }

  /** Loading a request onto batches with room tracks the epoch with one more entry. */
  lemma LoadTracks(c: Core, cl: CauseList, offset: int, now: int, epoch: seq<Entry>)
    requires ValidAccounts(c.accts) && Roomy(c) && Tracks(c, epoch) && NoDup(cl.items)
    ensures Tracks(LoadAll(c, cl, offset, now), epoch + [NewEntry(cl, offset)])
  {
    var e := NewEntry(cl, offset);
    var d := LoadAll(c, cl, offset, now);
    EpochSnoc(epoch, e, 0);
    CoalesceSnoc(Everyones(epoch), e.r);
    forall id ensures BatchOf(d.accts, id) == Coalesce(Mine(epoch + [e], id)) {
      assert !Full([]);
      assert BatchOf(c.accts, id) == Coalesce(Mine(epoch, id));
      LoadTracksOne(c.accts, cl, offset, now, epoch, id);
    }
  }

  lemma SettleTracks(c: Core, costs: Costs, now: int)
    requires ValidAccounts(c.accts)
    ensures Tracks(SettleAll(c, costs, now), [])
  {
    UpdateAllPointwise(c.accts, c.accts.ids, Settle(costs.combined, costs.basic, Summed(c.accts, costs)), now);
  }

  lemma EstimateOnlyBatchOf(t: Accounts, items: seq<int>, e: Effect, now: int, id: int)
    requires ValidAccounts(t) && NoDup(items) && (e.Resplit? || e.Charge? || e.Refund?)
    ensures ValidAccounts(UpdateAll(t, items, e, now))
    ensures BatchOf(UpdateAll(t, items, e, now), id) == BatchOf(t, id)
  {
    UpdateAllPointwise(t, items, e, now);
  }

  lemma EstimateOnlyTracks(c: Core, items: seq<int>, e: Effect, now: int, epoch: seq<Entry>)
    requires ValidAccounts(c.accts) && Tracks(c, epoch) && NoDup(items)
    requires e.Resplit? || e.Charge? || e.Refund?
    ensures Tracks(c.(accts := UpdateAll(c.accts, items, e, now)), epoch)
  {
    var u := UpdateAll(c.accts, items, e, now);
    forall id ensures BatchOf(u, id) == Coalesce(Mine(epoch, id)) {
      assert BatchOf(c.accts, id) == Coalesce(Mine(epoch, id));
      EstimateOnlyBatchOf(c.accts, items, e, now, id);
    }
  }

  lemma ChargeTracks(c: Core, cl: CauseList, size: int, now: int, epoch: seq<Entry>)
    requires ValidAccounts(c.accts) && Roomy(c) && Tracks(c, epoch) && NoDup(cl.items) && Solvent(c.accts, now)
    ensures var charged := ChargeUnlessDirtied(c, cl, size, now);
      ValidAccounts(charged.accts) && Roomy(charged) && Tracks(charged, epoch) && Solvent(charged.accts, now)
  {
    var e := Charge(SafeDiv(size, |cl.items|));
    EstimateOnlyTracks(c, cl.items, e, now, epoch);
    UpdateAllRoomy(c, cl.items, e, now);
    UpdateAllSolvent(c.accts, cl.items, e, now);
  }

  lemma LoadedTracks(c: Core, cl: CauseList, offset: int, size: int, now: int, epoch: seq<Entry>)
    requires ValidAccounts(c.accts) && Roomy(c) && Tracks(c, epoch) && NoDup(cl.items) && Solvent(c.accts, now)
    ensures Tracks(Loaded(c, cl, offset, size, now), epoch + [NewEntry(cl, offset)])
    ensures ValidAccounts(Loaded(c, cl, offset, size, now).accts)
  {
    var charged, billed := ChargeUnlessDirtied(c, cl, size, now), Billed(cl, size);
    ChargeTracks(c, cl, size, now, epoch);
    LoadTracks(charged, billed, offset, now, epoch);
    assert NewEntry(billed, offset) == NewEntry(cl, offset);
    UpdateAllSolvent(charged.accts, billed.items,
                     Load(IORequest(offset, billed.size), SafeDiv(billed.cost, |billed.items|)), now);
  }

  lemma AccountingTracks(c: Core, cl: CauseList, offset: int, size: int, costs: Costs, now: int, epoch: seq<Entry>)
    requires ValidAccounts(c.accts) && Roomy(c) && Tracks(c, epoch) && NoDup(cl.items) && Solvent(c.accts, now)
    ensures Tracks(Loaded(c, cl, offset, size, now), epoch + [NewEntry(cl, offset)])
    ensures Tracks(AccountForCauses(c, cl, offset, size, costs, now),
                   EpochAfter(Loaded(c, cl, offset, size, now), cl, offset, epoch))
    ensures ValidAccounts(Loaded(c, cl, offset, size, now).accts)
  {
    LoadedTracks(c, cl, offset, size, now, epoch);
    SettleTracks(Loaded(c, cl, offset, size, now), costs, now);
  }

  lemma NextTracks(s: State, step: Step, now: int, epoch: seq<Entry>)
    requires Inv(s) && Enabled(s, step, now) && Tracks(s.core, epoch)
    ensures Tracks(Next(s, step, now).core, NextEpoch(s, step, now, epoch))
  {
    assert Solvent(s.core.accts, now);
    match step
    case NewList =>
    case Dirty(l, newId, bsize, inode, pos) =>
      if newId !in s.lists[l].items {
        DirtiedList(s, step, now);
        var cl := Dirtied(s, step);
        EstimateOnlyTracks(s.core, cl.items, Resplit(cl.cost, |cl.items|, newId), now, epoch);
      }
    case Dispatch(l, offset, costs) =>
      assert ValidList(s.lists[l]);
      AccountingTracks(s.core, s.lists[l], offset, s.lists[l].size, costs, now, epoch);
    case DispatchUndirtied(cl, offset, size, costs) =>
      AccountingTracks(s.core, cl, offset, size, costs, now, epoch);
    case Free(l) =>
      assert ValidList(s.lists[l]);
      EstimateOnlyTracks(s.core, s.lists[l].items, Refund(SafeDiv(s.lists[l].size, |s.lists[l].items|)), now, epoch);
    case Poll(id) => PollOrSetTracks(s, step, now, epoch);
    case Set(id, key, val) => PollOrSetTracks(s, step, now, epoch);
  }

  lemma PollOrSetTracks(s: State, step: Step, now: int, epoch: seq<Entry>)
    requires (step.Poll? || step.Set?) && Enabled(s, step, now) && Tracks(s.core, epoch)
    ensures Tracks(Next(s, step, now).core, epoch)
  {
    var t := s.core.accts;
    var u := if step.Poll? then PollAccount(t, step.id, now) else SetAccount(t, step.id, step.key, step.val, now);
    forall id ensures BatchOf(u, id) == Coalesce(Mine(epoch, id)) {
      assert BatchOf(t, id) == Coalesce(Mine(epoch, id));
      if step.Poll? { PollKeepsBatch(t, step.id, now, id); }
      else { SetKeepsBatch(t, step.id, step.key, step.val, now, id); }
    }
  }

  lemma PollKeepsBatch(t: Accounts, polled: int, now: int, id: int)
    requires Get(t, polled, now).lastUpdate <= now
    ensures BatchOf(PollAccount(t, polled, now), id) == BatchOf(t, id)
  {
  }

  lemma SetKeepsBatch(t: Accounts, setId: int, key: Key, val: int, now: int, id: int)
    ensures BatchOf(SetAccount(t, setId, key, val, now), id) == BatchOf(t, id)
  {
  }

  lemma InitTracks(s: State)
    requires Init(s)
    ensures Tracks(s.core, [])
  {
    forall id ensures BatchOf(s.core.accts, id) == Coalesce(Mine([], id)) { }
  }

  /** A run together with the requests loaded and not yet settled in each of its states. */
  ghost predicate IsTrackedRun(states: seq<State>, steps: seq<Step>, epochs: seq<seq<Entry>>) {
    && IsRun(states, steps) && |epochs| == |states| && epochs[0] == []
    && forall i :: 0 <= i < |steps| ==> EpochStep(states[i], steps[i], states[i + 1].now, epochs[i], epochs[i + 1])
  }

  ghost predicate EpochStep(s: State, step: Step, now: int, epoch: seq<Entry>, after: seq<Entry>) {
    (step.Dispatch? ==> step.l < |s.lists|) && after == NextEpoch(s, step, now, epoch)
  }

  lemma {:induction false} RunTracks(states: seq<State>, steps: seq<Step>, epochs: seq<seq<Entry>>, k: nat)
    requires IsTrackedRun(states, steps, epochs) && k <= |steps|
    ensures Tracks(states[k].core, epochs[k])
  {
    if k == 0 {
      InitTracks(states[0]);
    } else {
      RunTracks(states, steps, epochs, k - 1);
      RunInv(states, steps, k - 1);
      assert StepTaken(states, steps, k - 1);
      NextTracks(states[k - 1], steps[k - 1], states[k].now, epochs[k - 1]);
      assert EpochStep(states[k - 1], steps[k - 1], states[k].now, epochs[k - 1], epochs[k]);
    }
  }

  // ----- Billing along a run ----------------------------------------------

  lemma {:induction false} MineHas(epoch: seq<Entry>, j: nat, id: int)
    requires j < |epoch| && id in epoch[j].causes
    ensures Mine(epoch, id) != []
  {
    if j < |epoch| - 1 { MineHas(epoch[..|epoch| - 1], j, id); }
  }

  ghost predicate AllCaused(epoch: seq<Entry>) {
    forall k :: 0 <= k < |epoch| ==> epoch[k].causes != {}
  }

  /** Whoever caused a request in the epoch has requests in a batch, hence an account. */
  lemma TrackedIsAttributed(c: Core, epoch: seq<Entry>)
    requires ValidAccounts(c.accts) && Tracks(c, epoch)
    requires AllCaused(epoch)
    ensures Attributed(c.accts.ids, epoch)
  {
    forall k | 0 <= k < |epoch| ensures OnTheBooks(c.accts.ids, epoch[k]) {
      var id := AnyOf(epoch[k].causes);
      MineHas(epoch, k, id);
      CoalesceRepresents(Mine(epoch, id));
      assert BatchOf(c.accts, id) == Coalesce(Mine(epoch, id));
      assert id in c.accts.ids;
      var i :| 0 <= i < |c.accts.ids| && c.accts.ids[i] == id;
    }
  }

  predicate IsDispatch(step: Step) { step.Dispatch? || step.DispatchUndirtied? }

  function BilledList(s: State, step: Step): CauseList
    requires IsDispatch(step) && (step.Dispatch? ==> step.l < |s.lists|)
  {
    if step.Dispatch? then s.lists[step.l] else step.cl
  }

  function BilledSize(s: State, step: Step): int
    requires IsDispatch(step) && (step.Dispatch? ==> step.l < |s.lists|)
  {
    if step.Dispatch? then s.lists[step.l].size else step.size
  }

  /** The state a dispatch settles, if it settles: every batch loaded with the new request. */
  function LoadedBy(s: State, step: Step, now: int): Core
    requires IsDispatch(step) && (step.Dispatch? ==> step.l < |s.lists|)
  {
    Loaded(s.core, BilledList(s, step), step.offset, BilledSize(s, step), now)
  }

  lemma ChargeKeepsUsed(t: Accounts, items: seq<int>, e: Effect, now: int, id: int)
    requires ValidAccounts(t) && NoDup(items) && !e.Settle?
    ensures ValidAccounts(UpdateAll(t, items, e, now)) && UsedOf(UpdateAll(t, items, e, now), id) == UsedOf(t, id)
    ensures t.ids <= UpdateAll(t, items, e, now).ids
  {
    UpdateAllPointwise(t, items, e, now);
  }

  lemma LoadingKeepsUsed(c: Core, cl: CauseList, offset: int, size: int, now: int, id: int)
    requires ValidAccounts(c.accts) && NoDup(cl.items)
    ensures UsedOf(Loaded(c, cl, offset, size, now).accts, id) == UsedOf(c.accts, id)
  {
    var charged, billed := ChargeUnlessDirtied(c, cl, size, now), Billed(cl, size);
    ChargeKeepsUsed(c.accts, cl.items, Charge(SafeDiv(size, |cl.items|)), now, id);
    ChargeKeepsUsed(charged.accts, billed.items,
                    Load(IORequest(offset, billed.size), SafeDiv(billed.cost, |billed.items|)), now, id);
  }

  /** A dispatch in a tracked run: its loaded state tracks the epoch with the new request. */
  lemma DispatchTracks(s: State, step: Step, now: int, epoch: seq<Entry>)
    requires Inv(s) && Enabled(s, step, now) && Tracks(s.core, epoch) && IsDispatch(step)
    ensures var loaded := LoadedBy(s, step, now);
      && ValidAccounts(loaded.accts)
      && Tracks(loaded, epoch + [NewEntry(BilledList(s, step), step.offset)])
      && AreCosts(loaded, step.costs)
      && Next(s, step, now).core
           == (if AnyFull(loaded, BilledList(s, step).items) then SettleAll(loaded, step.costs, now) else loaded)
    ensures NoDup(BilledList(s, step).items)
  {
    assert Solvent(s.core.accts, now);
    var cl := BilledList(s, step);
    if step.Dispatch? { assert ValidList(cl); }
    AccountingTracks(s.core, cl, step.offset, BilledSize(s, step), step.costs, now, epoch);
  }

  /**
   * Billing fairness over every run: whatever happened before, a dispatch charges nobody more disk
   * time than their own requests since the last settlement would have cost alone, as long as those
   * requests are separated and each has a cause.
   */
  lemma RunIsFair(states: seq<State>, steps: seq<Step>, epochs: seq<seq<Entry>>, k: nat, id: int,
                  alone: seq<IORequest>)
    requires IsTrackedRun(states, steps, epochs) && k < |steps| && IsDispatch(steps[k])
    requires steps[k].Dispatch? ==> steps[k].l < |states[k].lists|
    requires var epoch := epochs[k] + [NewEntry(BilledList(states[k], steps[k]), steps[k].offset)];
      && NonNegative(Everyones(epoch)) && Separated(Everyones(epoch))
      && AllCaused(epoch)
      && IsScanOrder(alone, Mine(epoch, id))
    ensures UsedOf(states[k + 1].core.accts, id) - UsedOf(states[k].core.accts, id) <= FreshCost(alone)
  {
    assert Inv(states[k]) by { RunInv(states, steps, k); }
    assert Tracks(states[k].core, epochs[k]) by { RunTracks(states, steps, epochs, k); }
    assert StepTaken(states, steps, k);
    DispatchIsFair(states[k], steps[k], states[k + 1].now, epochs[k], id, alone);
  }

  lemma DispatchIsFair(s: State, step: Step, now: int, epoch: seq<Entry>, id: int, alone: seq<IORequest>)
    requires Inv(s) && Enabled(s, step, now) && Tracks(s.core, epoch) && IsDispatch(step)
    requires var all := epoch + [NewEntry(BilledList(s, step), step.offset)];
      && NonNegative(Everyones(all)) && Separated(Everyones(all))
      && AllCaused(all)
      && IsScanOrder(alone, Mine(all, id))
    ensures UsedOf(Next(s, step, now).core.accts, id) - UsedOf(s.core.accts, id) <= FreshCost(alone)
  {
    DispatchTracks(s, step, now, epoch);
    var loaded := LoadedBy(s, step, now);
    var all := epoch + [NewEntry(BilledList(s, step), step.offset)];
    LoadingKeepsUsed(s.core, BilledList(s, step), step.offset, BilledSize(s, step), now, id);
    TrackedIsAttributed(loaded, all);
    FreshIsNonNegative(all, id, alone);
    if id in loaded.accts.of {
      NobodyPaysMoreThanAlone(loaded, all, step.costs, now, id, alone);
    } else {
      SettlingAddsNobody(loaded, step.costs, now, id);
    }
  }

  lemma FreshIsNonNegative(epoch: seq<Entry>, id: int, alone: seq<IORequest>)
    requires NonNegative(Everyones(epoch)) && Separated(Everyones(epoch)) && IsScanOrder(alone, Mine(epoch, id))
    ensures 0 <= FreshCost(alone)
  {
    MineIsPart(epoch, id);
    PartOfSeparated(Mine(epoch, id), Everyones(epoch));
    SeparatedScanCost(alone, Mine(epoch, id));
  }

  lemma SettlingAddsNobody(c: Core, costs: Costs, now: int, id: int)
    requires ValidAccounts(c.accts) && id !in c.accts.of
    ensures UsedOf(SettleAll(c, costs, now).accts, id) == UsedOf(c.accts, id)
  {
    UpdateAllPointwise(c.accts, c.accts.ids, Settle(costs.combined, costs.basic, Summed(c.accts, costs)), now);
  }

  lemma TrackedIsNonNegative(c: Core, epoch: seq<Entry>)
    requires Tracks(c, epoch) && NonNegative(Everyones(epoch))
    ensures NonNegativeBatches(c)
  {
    CoalesceRepresents(Everyones(epoch));
    forall id | id in c.accts.of ensures NonNegative(c.accts.of[id].batch) {
      MineIsPart(epoch, id);
      forall r | r in Mine(epoch, id) ensures r.size >= 0 {
        assert r in multiset(Mine(epoch, id));
        assert r in multiset(Everyones(epoch));
      }
      CoalesceRepresents(Mine(epoch, id));
      assert BatchOf(c.accts, id) == c.accts.of[id].batch;
    }
  }

  /** A dispatch charges disk time only when it settles, and then charges what the disk model says. */
  lemma DispatchConserves(s: State, step: Step, now: int, epoch: seq<Entry>)
    requires Inv(s) && Enabled(s, step, now) && Tracks(s.core, epoch) && IsDispatch(step)
    requires NonNegative(Everyones(epoch + [NewEntry(BilledList(s, step), step.offset)]))
    ensures var loaded := LoadedBy(s, step, now);
      var charged := Sum(UsedGrowth(loaded.accts.ids, s.core.accts, Next(s, step, now).core.accts));
      if !AnyFull(loaded, BilledList(s, step).items) then charged == 0
      else Summed(loaded.accts, step.costs) != 0 ==>
        charged <= step.costs.combined < charged + BatchesInUse(loaded.accts, loaded.accts.ids)
  {
    DispatchTracks(s, step, now, epoch);
    var cl, loaded, after := BilledList(s, step), LoadedBy(s, step, now), Next(s, step, now).core.accts;
    TrackedIsNonNegative(loaded, epoch + [NewEntry(cl, step.offset)]);
    LoadingKeepsGrowth(s.core, cl, step.offset, BilledSize(s, step), now, loaded.accts.ids, after);
    if !AnyFull(loaded, cl.items) {
      SumOfZeros(UsedGrowth(loaded.accts.ids, loaded.accts, after));
    } else if Summed(loaded.accts, step.costs) != 0 {
      SettlingConservesCost(loaded, step.costs, now);
    }
  }

  lemma LoadingKeepsGrowth(c: Core, cl: CauseList, offset: int, size: int, now: int, ids: seq<int>, after: Accounts)
    requires ValidAccounts(c.accts) && NoDup(cl.items)
    ensures UsedGrowth(ids, c.accts, after) == UsedGrowth(ids, Loaded(c, cl, offset, size, now).accts, after)
  {
    forall i | 0 <= i < |ids|
      ensures UsedOf(Loaded(c, cl, offset, size, now).accts, ids[i]) == UsedOf(c.accts, ids[i])
    {
      LoadingKeepsUsed(c, cl, offset, size, now, ids[i]);
    }
  }

  /** Conservation over every run. */
  lemma RunConservesCost(states: seq<State>, steps: seq<Step>, epochs: seq<seq<Entry>>, k: nat)
    requires IsTrackedRun(states, steps, epochs) && k < |steps| && IsDispatch(steps[k])
    requires steps[k].Dispatch? ==> steps[k].l < |states[k].lists|
    requires NonNegative(Everyones(epochs[k] + [NewEntry(BilledList(states[k], steps[k]), steps[k].offset)]))
    ensures var s, step := states[k], steps[k];
      var loaded := LoadedBy(s, step, states[k + 1].now);
      var charged := Sum(UsedGrowth(loaded.accts.ids, s.core.accts, states[k + 1].core.accts));
      if !AnyFull(loaded, BilledList(s, step).items) then charged == 0
      else Summed(loaded.accts, step.costs) != 0 ==>
        charged <= step.costs.combined < charged + BatchesInUse(loaded.accts, loaded.accts.ids)
  {
    assert Inv(states[k]) by { RunInv(states, steps, k); }
    assert Tracks(states[k].core, epochs[k]) by { RunTracks(states, steps, epochs, k); }
    assert StepTaken(states, steps, k);
    DispatchConserves(states[k], steps[k], states[k + 1].now, epochs[k]);
  }

  lemma {:induction false} SumOfZeros(s: seq<int>)
    requires forall i :: 0 <= i < |s| ==> s[i] == 0
    ensures Sum(s) == 0
  {
    if s != [] { SumOfZeros(s[..|s| - 1]); }
  }

  /** Over every run of requests of sane size, the arithmetic of a settlement stays in range. */
  lemma RunFitsMachineWords(states: seq<State>, steps: seq<Step>, epochs: seq<seq<Entry>>, k: nat, id: int)
    requires IsTrackedRun(states, steps, epochs) && k < |steps| && IsDispatch(steps[k])
    requires steps[k].Dispatch? ==> steps[k].l < |states[k].lists|
    requires NonNegative(Everyones(epochs[k])) && 0 <= BilledList(states[k], steps[k]).size <= MAX_SIZE
    ensures var loaded := LoadedBy(states[k], steps[k], states[k + 1].now);
      id in loaded.accts.of ==>
        && JustLoaded(loaded.batch) && JustLoaded(loaded.accts.of[id].batch)
        && id in steps[k].costs.basic
        && 0 <= steps[k].costs.combined <= BATCH_SIZE * SEEK_CAP + TotalSize(loaded.batch)
        && 0 <= steps[k].costs.combined * steps[k].costs.basic[id] < 0x8000_0000_0000_0000
  {
    var s, step, now := states[k], steps[k], states[k + 1].now;
    assert Inv(s) by { RunInv(states, steps, k); }
    assert Tracks(s.core, epochs[k]) by { RunTracks(states, steps, epochs, k); }
    assert StepTaken(states, steps, k);
    DispatchTracks(s, step, now, epochs[k]);
    TrackedIsNonNegative(s.core, epochs[k]);
    var loaded := LoadedBy(s, step, now);
    if id in loaded.accts.of {
      LoadedBatches(s.core, BilledList(s, step), step.offset, BilledSize(s, step), now, id);
      assert id in step.costs.basic.Keys;
      CostsFitMachineWords(step.costs.combined, loaded.batch, step.costs.basic[id], loaded.accts.of[id].batch);
    }
  }

  lemma LoadedBatch(t: Accounts, items: seq<int>, r: IORequest, share: int, now: int, id: int)
    requires ValidAccounts(t) && NoDup(items) && 0 <= r.size <= MAX_SIZE
    requires NonNegative(BatchOf(t, id)) && !Full(BatchOf(t, id))
    ensures JustLoaded(BatchOf(UpdateAll(t, items, Load(r, share), now), id))
  {
    LoadedBatchOf(t, items, r, share, now, id);
    LoadedOntoRoom(BatchOf(t, id), r);
  }

  lemma LoadedBatches(c: Core, cl: CauseList, offset: int, size: int, now: int, id: int)
    requires ValidAccounts(c.accts) && NoDup(cl.items) && Roomy(c) && NonNegativeBatches(c)
    requires 0 <= cl.size <= MAX_SIZE
    ensures var loaded := Loaded(c, cl, offset, size, now);
      JustLoaded(loaded.batch) && JustLoaded(BatchOf(loaded.accts, id))
  {
    var r := IORequest(offset, cl.size);
    LoadedOntoRoom(c.batch, r);
    var charged, billed := ChargeUnlessDirtied(c, cl, size, now), Billed(cl, size);
    EstimateOnlyBatchOf(c.accts, cl.items, Charge(SafeDiv(size, |cl.items|)), now, id);
    assert NonNegative(BatchOf(c.accts, id)) && !Full(BatchOf(c.accts, id));
    LoadedBatch(charged.accts, billed.items, r, SafeDiv(billed.cost, |billed.items|), now, id);
  }
}
