/**
 * Why billing fairness needs separated requests: runs of three dispatches, two accounts writing
 * overlapping ranges, in which the settlement charges both more than they would pay alone.
 */
module TbOverlap {
  import opened DiskSim
  import opened ScanTheory
  import opened IoBatch
  import opened Seqs
  import opened TbAccount
  import opened TbState
  import opened TbRuns
  import opened TbSettle

  // ----- Dispatching for one account --------------------------------------

  /** Prices as one particular sort would give them. */
  function SomeCosts(c: Core): Costs {
    Costs(FreshCost(Sort(c.batch)), map id | id in c.accts.of :: FreshCost(Sort(c.accts.of[id].batch)))
  }

  lemma SomeCostsAreCosts(c: Core)
    ensures AreCosts(c, SomeCosts(c))
  {
    assert IsScanOrder(Sort(c.batch), c.batch);
    forall id | id in c.accts.of ensures IsScanCost(SomeCosts(c).basic[id], c.accts.of[id].batch) {
      assert IsScanOrder(Sort(c.accts.of[id].batch), c.accts.of[id].batch);
    }
  }

  function ListOf(id: int, r: IORequest): CauseList { CauseList([id], r.size, -1, false) }

  /** The step dispatches request r of account id, which no dirty hook has seen. */
  predicate Dispatches(step: Step, id: int, r: IORequest) {
    step.DispatchUndirtied? && step.cl == ListOf(id, r) && step.offset == r.offset && step.size == r.size
  }

  lemma CanDispatch(s: State, id: int, r: IORequest) returns (step: Step)
    ensures Dispatches(step, id, r) && Enabled(s, step, s.now)
  {
    var loaded := Loaded(s.core, ListOf(id, r), r.offset, r.size, s.now);
    SomeCostsAreCosts(loaded);
    step := DispatchUndirtied(ListOf(id, r), r.offset, r.size, SomeCosts(loaded));
  }

  function WithId(ids: seq<int>, id: int): seq<int> { if id in ids then ids else ids + [id] }

  lemma UpdateOneIds(t: Accounts, id: int, e: Effect, now: int)
    requires ValidAccounts(t)
    ensures UpdateAll(t, [id], e, now).ids == WithId(t.ids, id) && ValidAccounts(UpdateAll(t, [id], e, now))
  {
    assert [id][..0] == [];
    assert UpdateAll(t, [id], e, now) == Update(t, id, e, now);
    UpdateAllPointwise(t, [id], e, now);
  }

  lemma LoadedIds(c: Core, id: int, r: IORequest, now: int)
    requires ValidAccounts(c.accts)
    ensures Loaded(c, ListOf(id, r), r.offset, r.size, now).accts.ids == WithId(c.accts.ids, id)
  {
    UpdateOneIds(c.accts, id, Charge(SafeDiv(r.size, 1)), now);
    UpdateOneIds(ChargeUnlessDirtied(c, ListOf(id, r), r.size, now).accts, id, Load(r, SafeDiv(r.size, 1)), now);
  }

  /** What a dispatch does to every account and every batch before it settles anything. */
  lemma DispatchLoads(s: State, step: Step, id: int, r: IORequest, k: int) returns (loaded: Core)
    requires Inv(s) && Dispatches(step, id, r) && Enabled(s, step, s.now)
    ensures loaded == LoadedBy(s, step, s.now)
    ensures ValidAccounts(loaded.accts) && AreCosts(loaded, step.costs)
    ensures loaded.accts.ids == WithId(s.core.accts.ids, id) && loaded.batch == BatchAdd(s.core.batch, r)
    ensures BatchOf(loaded.accts, k) == if k == id then BatchAdd(BatchOf(s.core.accts, k), r) else BatchOf(s.core.accts, k)
    ensures UsedOf(loaded.accts, k) == UsedOf(s.core.accts, k)
  {
    loaded := LoadedBy(s, step, s.now);
    var charged := ChargeUnlessDirtied(s.core, step.cl, r.size, s.now);
    LoadedIds(s.core, id, r, s.now);
    LoadingKeepsUsed(s.core, step.cl, r.offset, r.size, s.now, k);
    EstimateOnlyBatchOf(s.core.accts, [id], Charge(SafeDiv(r.size, 1)), s.now, k);
    LoadedBatchOf(charged.accts, [id], r, SafeDiv(r.size, 1), s.now, k);
    UpdateOneIds(charged.accts, id, Load(r, SafeDiv(r.size, 1)), s.now);
  }

  lemma DispatchLeaves(s: State, step: Step, id: int, r: IORequest)
    requires Dispatches(step, id, r) && Enabled(s, step, s.now)
    ensures var loaded := LoadedBy(s, step, s.now);
      Next(s, step, s.now).core == if AnyFull(loaded, [id]) then SettleAll(loaded, step.costs, s.now) else loaded
    ensures Next(s, step, s.now).now == s.now
  {
  }

  // ----- The state of the books -------------------------------------------

  /** What is on the books: the combined batch, those of accounts 0, 1 and 2, and nothing charged yet. */
  ghost predicate Holds(c: Core, ids: seq<int>, all: seq<IORequest>, one: seq<IORequest>, two: seq<IORequest>) {
    && c.accts.ids == ids && c.batch == all
    && BatchOf(c.accts, 0) == [] && BatchOf(c.accts, 1) == one && BatchOf(c.accts, 2) == two
    && UsedOf(c.accts, 1) == 0 && UsedOf(c.accts, 2) == 0
  }

  function AddFor(id: int, k: int, stored: seq<IORequest>, r: IORequest): seq<IORequest> {
    if id == k then BatchAdd(stored, r) else stored
  }

  lemma LoadedHolds(s: State, step: Step, id: int, r: IORequest, ids: seq<int>,
                    all: seq<IORequest>, one: seq<IORequest>, two: seq<IORequest>) returns (loaded: Core)
    requires Inv(s) && Dispatches(step, id, r) && Enabled(s, step, s.now) && Holds(s.core, ids, all, one, two) && id != 0
    ensures loaded == LoadedBy(s, step, s.now) && ValidAccounts(loaded.accts) && AreCosts(loaded, step.costs)
    ensures Holds(loaded, WithId(ids, id), BatchAdd(all, r), AddFor(id, 1, one, r), AddFor(id, 2, two, r))
  {
    loaded := DispatchLoads(s, step, id, r, 0);
    var again := DispatchLoads(s, step, id, r, 1);
    again := DispatchLoads(s, step, id, r, 2);
  }

  // ----- Growing a run ----------------------------------------------------

  lemma RunSnoc(states: seq<State>, steps: seq<Step>, step: Step, t: State)
    requires IsRun(states, steps) && Leads(states[|steps|], step, t)
    ensures IsRun(states + [t], steps + [step])
  {
    var states', steps' := states + [t], steps + [step];
    forall i | 0 <= i < |steps'| ensures StepTaken(states', steps', i) {
      if i < |steps| { assert StepTaken(states, steps, i); }
    }
  }

  /** A run to a state with these books. */
  ghost predicate RunTo(states: seq<State>, steps: seq<Step>, ids: seq<int>,
                        all: seq<IORequest>, one: seq<IORequest>, two: seq<IORequest>) {
    IsRun(states, steps) && Holds(states[|steps|].core, ids, all, one, two)
  }

  lemma NotFull(loaded: Core, id: int, ids: seq<int>, all: seq<IORequest>, one: seq<IORequest>, two: seq<IORequest>)
    requires Holds(loaded, ids, all, one, two) && (id == 1 || id == 2) && !Full(all) && !Full(if id == 1 then one else two)
    ensures !AnyFull(loaded, [id])
  {
  }

  /** A dispatch that leaves room only loads. */
  lemma LoadOnly(states: seq<State>, steps: seq<Step>, id: int, r: IORequest, ids: seq<int>,
                 all: seq<IORequest>, one: seq<IORequest>, two: seq<IORequest>) returns (step: Step, t: State)
    requires RunTo(states, steps, ids, all, one, two) && (id == 1 || id == 2)
    requires !Full(BatchAdd(all, r)) && !Full(BatchAdd(if id == 1 then one else two, r))
    ensures Dispatches(step, id, r)
    ensures RunTo(states + [t], steps + [step], WithId(ids, id), BatchAdd(all, r), AddFor(id, 1, one, r), AddFor(id, 2, two, r))
  {
    var s := states[|steps|];
    RunInv(states, steps, |steps|);
    step := CanDispatch(s, id, r);
    t := Next(s, step, s.now);
    DispatchLeaves(s, step, id, r);
    RunSnoc(states, steps, step, t);
    var loaded := LoadedHolds(s, step, id, r, ids, all, one, two);
    NotFull(loaded, id, WithId(ids, id), BatchAdd(all, r), AddFor(id, 1, one, r), AddFor(id, 2, two, r));
    assert (states + [t])[|steps + [step]|] == t;
  }

  ghost predicate PaysShare(t: State, costs: Costs, ids: seq<int>, payer: int) {
    && payer in costs.basic
    && UsedOf(t.core.accts, payer) == SafeDiv(costs.combined * costs.basic[payer], Sum(BasicOf(ids, costs.basic)))
  }

  lemma SettledShare(c: Core, costs: Costs, now: int, payer: int)
    requires ValidAccounts(c.accts) && AreCosts(c, costs) && payer in c.accts.ids && UsedOf(c.accts, payer) == 0
    ensures payer in costs.basic
    ensures UsedOf(SettleAll(c, costs, now).accts, payer)
         == SafeDiv(costs.combined * costs.basic[payer], Sum(BasicOf(c.accts.ids, costs.basic)))
  {
    assert payer in costs.basic.Keys;
    SettlingCharges(c, costs, now, payer);
  }

  /** A dispatch that fills the combined batch charges accounts 1 and 2 their shares of the priced batches. */
  lemma LoadAndSettle(states: seq<State>, steps: seq<Step>, r: IORequest, ids: seq<int>,
                      all: seq<IORequest>, one: seq<IORequest>, two: seq<IORequest>)
    returns (step: Step, t: State, loaded: Core)
    requires RunTo(states, steps, ids, all, one, two) && 1 in ids && 2 in ids && Full(BatchAdd(all, r))
    ensures Dispatches(step, 1, r) && IsRun(states + [t], steps + [step])
    ensures ValidAccounts(loaded.accts) && AreCosts(loaded, step.costs)
    ensures Holds(loaded, ids, BatchAdd(all, r), BatchAdd(one, r), two)
    ensures PaysShare(t, step.costs, ids, 1) && PaysShare(t, step.costs, ids, 2)
  {
    var s := states[|steps|];
    RunInv(states, steps, |steps|);
    step := CanDispatch(s, 1, r);
    t := Next(s, step, s.now);
    DispatchLeaves(s, step, 1, r);
    RunSnoc(states, steps, step, t);
    loaded := LoadedHolds(s, step, 1, r, ids, all, one, two);
    assert AnyFull(loaded, [1]);
    SettledShare(loaded, step.costs, s.now, 1);
    SettledShare(loaded, step.costs, s.now, 2);
  }

  // ----- The requests -----------------------------------------------------

  /** Account 1 writes two halves; account 2 writes across the middle in between. */
  function A0(x: int, u: int): IORequest { IORequest(x, 2 * u) }
  function B0(x: int, u: int): IORequest { IORequest(x + u, 2 * u) }
  function A1(x: int, u: int): IORequest { IORequest(x + 2 * u, 2 * u) }

  /** Sizes for which the third request, and no earlier one, fills a batch. */
  predicate Fills(u: int) { SEEK_CAP <= u && 4 * u < BATCH_BYTE_CAP <= 6 * u }

  lemma StoreOne(a: IORequest)
    requires a.size < BATCH_BYTE_CAP
    ensures BatchAdd([], a) == [a] && !Full([a])
  {
    assert TotalSize([]) == 0 && TotalSize([a]) == a.size;
  }

  lemma StoreTwo(a: IORequest, b: IORequest)
    requires 0 <= b.size && a.size + b.size < BATCH_BYTE_CAP && b.offset != a.End()
    ensures BatchAdd([a], b) == [a, b] && !Full([a, b])
  {
    StoreOne(a);
    AddTotal([a], b);
  }

  lemma StoreThree(a: IORequest, b: IORequest, d: IORequest)
    requires 0 <= b.size && a.size + b.size < BATCH_BYTE_CAP <= a.size + b.size + d.size
    requires b.offset != a.End() && d.offset != b.End()
    ensures BatchAdd([a, b], d) == [a, b, d] && Full([a, b, d])
  {
    StoreTwo(a, b);
    AddTotal([a], b);
    AddTotal([a, b], d);
    assert TotalSize([a]) == a.size;
  }

  lemma StoreHalves(a: IORequest, d: IORequest)
    requires a.size < BATCH_BYTE_CAP && d.offset == a.End()
    ensures BatchAdd([a], d) == [Glued(a, d)]
  {
    StoreOne(a);
    assert [a][..0] == [];
  }

  // ----- Their prices -----------------------------------------------------

  lemma PriceOfOne(r: IORequest)
    ensures FreshCost([r]) == SEEK_CAP + r.size
  {
    ServeCostSnoc(r.offset, [], r);
    assert [] + [r] == [r];
  }

  lemma PriceOfThree(a: IORequest, b: IORequest, c: IORequest)
    ensures FreshCost([a, b, c]) == SEEK_CAP + a.size + b.size + c.size
                                    + SeekTime(a.End(), b.offset) + SeekTime(b.End(), c.offset)
  {
    FreshCostOfTwo(a, b);
    ServeCostSnoc(a.offset, [a, b], c);
    assert [a, b] + [c] == [a, b, c];
  }

  /** Without ties, any price of an ordered list is its own. */
  lemma PriceIs(cost: int, rs: seq<IORequest>)
    requires Ordered(rs) && TieFree(rs) && IsScanCost(cost, rs)
    ensures cost == FreshCost(rs)
  {
    var order :| IsScanOrder(order, rs) && cost == FreshCost(order);
    ScanOrderIsUnique(rs, order);
  }

  lemma BatchPriceIs(c: Core, costs: Costs, id: int, rs: seq<IORequest>)
    requires ValidAccounts(c.accts) && AreCosts(c, costs) && id in c.accts.ids && BatchOf(c.accts, id) == rs
    requires Ordered(rs) && TieFree(rs)
    ensures id in costs.basic && costs.basic[id] == FreshCost(rs)
  {
    assert id in costs.basic.Keys;
    PriceIs(costs.basic[id], rs);
  }

  /** The prices of what the batches hold. */
  ghost predicate PricesOf(costs: Costs, all: seq<IORequest>, one: seq<IORequest>, two: seq<IORequest>) {
    && costs.combined == FreshCost(all) && 0 in costs.basic && 1 in costs.basic && 2 in costs.basic
    && costs.basic[0] == FreshCost([]) && costs.basic[1] == FreshCost(one) && costs.basic[2] == FreshCost(two)
  }

  lemma HeldPrices(c: Core, costs: Costs, ids: seq<int>, all: seq<IORequest>, one: seq<IORequest>, two: seq<IORequest>)
    requires ValidAccounts(c.accts) && AreCosts(c, costs) && Holds(c, ids, all, one, two) && 0 in ids && 1 in ids && 2 in ids
    requires Ordered(all) && TieFree(all) && Ordered(one) && TieFree(one) && Ordered(two) && TieFree(two)
    ensures PricesOf(costs, all, one, two)
  {
    PriceIs(costs.combined, all);
    BatchPriceIs(c, costs, 0, []);
    BatchPriceIs(c, costs, 1, one);
    BatchPriceIs(c, costs, 2, two);
  }

  lemma InOrder(a: IORequest, b: IORequest, d: IORequest)
    requires a.offset < b.offset < d.offset
    ensures Ordered([a, b, d]) && TieFree([a, b, d])
    ensures Ordered([Glued(a, d)]) && TieFree([Glued(a, d)]) && Ordered([b]) && TieFree([b])
  {
  }

  /** The combined price is higher than the accounts' own prices together. */
  ghost predicate Dearer(costs: Costs, u: int) {
    && costs.combined == 3 * SEEK_CAP + 6 * u && 0 in costs.basic && 1 in costs.basic && 2 in costs.basic
    && costs.basic[0] == 0 && costs.basic[1] == SEEK_CAP + 4 * u && costs.basic[2] == SEEK_CAP + 2 * u
  }

  lemma PricesAreDearer(costs: Costs, x: int, u: int)
    requires SEEK_CAP <= u && PricesOf(costs, [A0(x, u), B0(x, u), A1(x, u)], [Glued(A0(x, u), A1(x, u))], [B0(x, u)])
    ensures Dearer(costs, u)
  {
    var a, b, d := A0(x, u), B0(x, u), A1(x, u);
    PriceOfThree(a, b, d);
    PriceOfOne(Glued(a, d));
    PriceOfOne(b);
  }

  lemma SumOfThree(x: int, y: int, z: int)
    ensures Sum([x, y, z]) == x + y + z
  {
    assert [x, y, z][..2] == [x, y] && [x, y][..1] == [x] && [x][..0] == [];
    assert Sum([x]) == x && Sum([x, y]) == x + y;
  }

  /** Both shares exceed the accounts' own prices. */
  lemma SharesExceed(costs: Costs, u: int)
    requires SEEK_CAP <= u && Dearer(costs, u)
    ensures var summed := Sum(BasicOf([0, 1, 2], costs.basic));
      && SafeDiv(costs.combined * costs.basic[1], summed) > costs.basic[1]
      && SafeDiv(costs.combined * costs.basic[2], summed) > costs.basic[2]
  {
    var summed := Sum(BasicOf([0, 1, 2], costs.basic));
    assert BasicOf([0, 1, 2], costs.basic) == [costs.basic[0], costs.basic[1], costs.basic[2]];
    SumOfThree(costs.basic[0], costs.basic[1], costs.basic[2]);
    assert costs.combined - summed == SEEK_CAP;
    ShareExceedsIff(costs.combined, costs.basic[1], summed);
    ShareExceedsIff(costs.combined, costs.basic[2], summed);
  }

  // ----- The run ----------------------------------------------------------

  function First(now: int): State {
    State(Core(Accounts([DEFAULT_ACCOUNT], map[DEFAULT_ACCOUNT := NewAccount(now)]), []), [], map[], now)
  }

  lemma Ids(ids: seq<int>)
    requires ids == WithId(WithId([0], 1), 2)
    ensures ids == [0, 1, 2] && 0 in ids && 1 in ids && 2 in ids
  {
  }

  lemma TwoLoads(before: seq<State>, taken: seq<Step>, a: IORequest, b: IORequest, ids: seq<int>)
    returns (states: seq<State>, steps: seq<Step>)
    requires RunTo(before, taken, ids, [], [], [])
    requires 0 <= a.size && 0 <= b.size && a.size + b.size < BATCH_BYTE_CAP && b.offset != a.End()
    ensures |steps| == |taken| + 2 && Dispatches(steps[|taken|], 1, a) && Dispatches(steps[|taken| + 1], 2, b)
    ensures before <= states && RunTo(states, steps, WithId(WithId(ids, 1), 2), [a, b], [a], [b])
  {
    StoreOne(a);
    StoreOne(b);
    StoreTwo(a, b);
    var step0, s1 := LoadOnly(before, taken, 1, a, ids, [], [], []);
    var step1, s2 := LoadOnly(before + [s1], taken + [step0], 2, b, WithId(ids, 1), [a], [a], []);
    states, steps := before + [s1] + [s2], taken + [step0] + [step1];
  }

  lemma ThirdLoad(states: seq<State>, steps: seq<Step>, ids: seq<int>, x: int, u: int) returns (step: Step, t: State)
    requires Fills(u) && RunTo(states, steps, ids, [A0(x, u), B0(x, u)], [A0(x, u)], [B0(x, u)])
    requires 0 in ids && 1 in ids && 2 in ids
    ensures Dispatches(step, 1, A1(x, u)) && IsRun(states + [t], steps + [step]) && Dearer(step.costs, u)
    ensures PaysShare(t, step.costs, ids, 1) && PaysShare(t, step.costs, ids, 2)
  {
    var a, b, d := A0(x, u), B0(x, u), A1(x, u);
    StoreThree(a, b, d);
    StoreHalves(a, d);
    InOrder(a, b, d);
    var loaded;
    step, t, loaded := LoadAndSettle(states, steps, d, ids, [a, b], [a], [b]);
    HeldPrices(loaded, step.costs, ids, [a, b, d], [Glued(a, d)], [b]);
    PricesAreDearer(step.costs, x, u);
  }

  /** Both accounts pay more than serving their own requests would cost. */
  lemma BothPayMore(t: State, costs: Costs, x: int, u: int)
    requires SEEK_CAP <= u && Dearer(costs, u)
    requires PaysShare(t, costs, [0, 1, 2], 1) && PaysShare(t, costs, [0, 1, 2], 2)
    ensures UsedOf(t.core.accts, 1) > FreshCost([A0(x, u), A1(x, u)])
    ensures UsedOf(t.core.accts, 2) > FreshCost([B0(x, u)])
  {
    SharesExceed(costs, u);
    FreshCostOfTwo(A0(x, u), A1(x, u));
    PriceOfOne(B0(x, u));
  }

  /**
   * Two accounts writing overlapping ranges both pay more than alone: serving them together by
   * offset adds a seek that neither account's own batch has. The run is three dispatches from the
   * start, the last of which fills the combined batch.
   */
  lemma OverlapCostsMoreThanAlone(now: int, x: int, u: int) returns (states: seq<State>, steps: seq<Step>)
    requires Fills(u)
    ensures |steps| == 3 && Dispatches(steps[0], 1, A0(x, u)) && Dispatches(steps[1], 2, B0(x, u))
    ensures Dispatches(steps[2], 1, A1(x, u)) && IsRun(states, steps)
    ensures UsedOf(states[0].core.accts, 1) == UsedOf(states[0].core.accts, 2) == 0
    ensures UsedOf(states[3].core.accts, 1) > FreshCost([A0(x, u), A1(x, u)])
    ensures UsedOf(states[3].core.accts, 2) > FreshCost([B0(x, u)])
  {
    states, steps := TwoLoads([First(now)], [], A0(x, u), B0(x, u), [0]);
    var ids := WithId(WithId([0], 1), 2);
    Ids(ids);
    var step, t := ThirdLoad(states, steps, ids, x, u);
    BothPayMore(t, step.costs, x, u);
    states, steps := states + [t], steps + [step];
  }
}
