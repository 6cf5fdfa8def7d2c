/**
 * One account of the token bucket (modules/tbucket.c): a credit that fills with
 * time, a running estimate of what its dirty pages will cost, and what the disk
 * model charged it.
 */
module TbAccount {
  import opened DiskSim

  const USEC_PER_SEC := 1000000
  const NSEC_PER_USEC := 1000
  const U64 := 0x1_0000_0000_0000_0000

  datatype Account = Account(
    rate: int,
    limit: int,
    credit: int,
    estimate: int,
    used: int,
    usedRaw: int,
    lost: int,
    lastUpdate: int,           // nanoseconds
    batch: seq<IORequest>,     // what the account's io_batch stores
    batchEstimate: int)

  function Min(x: int, y: int): int { if x < y then x else y }

  function NewAccount(now: int): Account {
    Account(0, 0, 0, 0, 0, 0, 0, now, [], 0)
  }

  function Count(a: Account): int {
    a.credit - (a.estimate + a.used)
  }

  /** C division, which drops the fraction; dividing by zero gives the dividend back. */
  function SafeDiv(a: int, b: int): int {
    if b == 0 then a
    else if a >= 0 then a / b
    else -((-a) / b)
  }

  /** The quotient rounds towards zero, for either sign of the dividend; by zero it is the dividend. */
  lemma SafeDivTruncates(a: int, b: int)
    requires 0 <= b
    ensures var q := SafeDiv(a, b);
      if b == 0 then q == a else if 0 <= a then q * b <= a < q * b + b else q * b - b < a <= q * b
  {
    if 0 < b { if 0 <= a { FloorBounds(a, b); } else { FloorBounds(-a, b); } }
  }

  /** Income that would lift the count above the limit is booked as lost. */
  function Saturate(a: Account): (r: Account)
    ensures Count(r) == Min(Count(a), a.limit)
    ensures r.credit + r.lost == a.credit + a.lost
    ensures r == a.(credit := r.credit, lost := r.lost)
  {
    var diff := Count(a) - a.limit;
    if diff > 0 then a.(credit := a.credit - diff, lost := a.lost + diff) else a
  }

  /** Tokens earned since the last update; the product is an unsigned 64-bit one. */
  function Income(a: Account, now: int): int
    requires a.lastUpdate <= now
  {
    var usecs := (now - a.lastUpdate) / NSEC_PER_USEC;
    ((usecs * a.rate) % U64) / USEC_PER_SEC
  }

  /** A poll that earns less than one token leaves the clock alone, so nothing is lost by it. */
  function Refresh(a: Account, now: int): Account
    requires a.lastUpdate <= now
  {
    var inc := Income(a, now);
    if inc > 0
    then Saturate(a.(credit := a.credit + inc)).(lastUpdate := now)
    else a
  }

  datatype Key = Rate | Limit | CountKey

  function KvSet(a: Account, key: Key, val: int): (r: Account)
    ensures r.rate == (if key.Rate? then val else a.rate) && r.limit == (if key.Limit? then val else a.limit)
    ensures Count(r) == Min(if key.CountKey? then val else Count(a), r.limit)
    ensures !key.CountKey? ==> r.credit + r.lost == a.credit + a.lost
    ensures r == a.(rate := r.rate, limit := r.limit, credit := r.credit, lost := r.lost)
  {
    match key
    case Rate => Saturate(a.(rate := val))
    case Limit => Saturate(a.(limit := val))
    case CountKey => Saturate(a.(credit := a.credit + (val - Count(a))))
  }

  // ----- Income -----------------------------------------------------------

  /** A poll adds the income, loses only what does not fit, and restarts the clock exactly if it earned anything. */
  lemma RefreshIsExact(a: Account, now: int)
    requires a.lastUpdate <= now
    ensures var b, inc := Refresh(a, now), Income(a, now);
      && 0 <= inc && b.lastUpdate == (if inc > 0 then now else a.lastUpdate)
      && b.credit + b.lost == a.credit + a.lost + inc
      && (Count(a) <= a.limit ==> Count(b) == Min(Count(a) + inc, a.limit))
      && b == a.(credit := b.credit, lost := b.lost, lastUpdate := b.lastUpdate)
  {
  }

  /** The income is the whole tokens in rate times whole microseconds, as long as the product fits 64 bits. */
  lemma IncomeIsExact(a: Account, now: int)
    requires NoWrap(a, now)
    ensures var product := (now - a.lastUpdate) / NSEC_PER_USEC * a.rate;
      Income(a, now) * USEC_PER_SEC <= product < Income(a, now) * USEC_PER_SEC + USEC_PER_SEC
  {
    var product := (now - a.lastUpdate) / NSEC_PER_USEC * a.rate;
    assert 0 <= product;
    assert product % U64 == product;
    FloorBounds(product, USEC_PER_SEC);
  }

  lemma FloorBounds(x: int, d: int)
    requires d > 0
    ensures x / d * d <= x < x / d * d + d
  {
  }

  /** Never more than rate times elapsed time, whether or not the product wraps. */
  lemma IncomeAtMost(a: Account, now: int)
    requires 0 <= a.rate && a.lastUpdate <= now
    ensures 0 <= Income(a, now)
    ensures Income(a, now) * USEC_PER_SEC * NSEC_PER_USEC <= a.rate * (now - a.lastUpdate)
  {
    var elapsed := now - a.lastUpdate;
    var usecs := elapsed / NSEC_PER_USEC;
    var product := usecs * a.rate;
    FloorBounds(elapsed, NSEC_PER_USEC);
    FloorBounds(product, U64);
    assert 0 <= product % U64 <= product by {
      assert product >= 0;
    }
    FloorBounds(product % U64, USEC_PER_SEC);
    assert Income(a, now) * USEC_PER_SEC <= usecs * a.rate;
    assert usecs * NSEC_PER_USEC * a.rate <= elapsed * a.rate;
  }

  /** The refresh multiplies without overflow: true for less than 2^64 micro-tokens between updates. */
  predicate NoWrap(a: Account, now: int) {
    a.lastUpdate <= now && 0 <= a.rate
    && (now - a.lastUpdate) / NSEC_PER_USEC * a.rate < U64
  }

  /**
   * An update drops less than a microsecond and less than a token, and happens only when
   * at least one of each has accrued: it keeps a quarter of the income, and half of it when
   * the clock ticks in whole microseconds.
   */
  lemma IncomeAtLeast(a: Account, now: int)
    requires NoWrap(a, now) && Income(a, now) > 0
    ensures a.rate * (now - a.lastUpdate) <= 4 * Income(a, now) * USEC_PER_SEC * NSEC_PER_USEC
    ensures (now - a.lastUpdate) % NSEC_PER_USEC == 0 ==>
      a.rate * (now - a.lastUpdate) <= 2 * Income(a, now) * USEC_PER_SEC * NSEC_PER_USEC
  {
    var elapsed := now - a.lastUpdate;
    var usecs := elapsed / NSEC_PER_USEC;
    var product := usecs * a.rate;
    var inc := Income(a, now);
    assert product >= 0;
    assert inc == product / USEC_PER_SEC;
    assert product <= 2 * inc * USEC_PER_SEC;
    assert usecs >= 1;
    assert elapsed <= 2 * usecs * NSEC_PER_USEC;
    calc {
      a.rate * elapsed;
    <= { MulMono(a.rate, elapsed, 2 * usecs * NSEC_PER_USEC); }
      a.rate * (2 * usecs * NSEC_PER_USEC);
    == { assert a.rate * usecs == product; MulRegroup(a.rate, usecs, 2 * NSEC_PER_USEC); }
      product * (2 * NSEC_PER_USEC);
    <=
      2 * inc * USEC_PER_SEC * (2 * NSEC_PER_USEC);
    }
    if elapsed % NSEC_PER_USEC == 0 {
      assert elapsed == usecs * NSEC_PER_USEC;
      MulRegroup(a.rate, usecs, NSEC_PER_USEC);
    }
  }

  lemma MulMono(k: int, x: int, y: int)
    requires 0 <= k && x <= y
    ensures k * x <= k * y
  {
  }

  lemma MulRegroup(k: int, x: int, y: int)
    ensures k * (x * y) == (k * x) * y
  {
  }

  // ----- Conformance ------------------------------------------------------

  /** What an account earned between two of its states, booked as credit or as lost. */
  function Earned(a: Account, b: Account): int {
    (b.credit + b.lost) - (a.credit + a.lost)
  }

  const NANO := USEC_PER_SEC * NSEC_PER_USEC

  /** From a to b the account only earned what its rate allows, and stayed under its limit. */
  ghost predicate Conforms(a: Account, b: Account) {
    && b.rate == a.rate && b.limit == a.limit
    && a.lastUpdate <= b.lastUpdate && a.lost <= b.lost
    && 0 <= Earned(a, b)
    && Earned(a, b) * NANO <= a.rate * (b.lastUpdate - a.lastUpdate)
    && (Count(a) <= a.limit ==> Count(b) <= b.limit)
  }

  /** From a to b the account earned at least one part in k of rate times elapsed time. */
  ghost predicate EarnsAtLeast(a: Account, b: Account, k: int) {
    a.rate * (b.lastUpdate - a.lastUpdate) <= k * Earned(a, b) * NANO
  }

  lemma ConformsTrans(a: Account, b: Account, c: Account)
    requires Conforms(a, b) && Conforms(b, c)
    ensures Conforms(a, c)
  {
    assert a.rate * (c.lastUpdate - a.lastUpdate)
        == a.rate * (b.lastUpdate - a.lastUpdate) + a.rate * (c.lastUpdate - b.lastUpdate);
  }

  lemma EarnsTrans(a: Account, b: Account, c: Account, k: int)
    requires a.rate == b.rate && EarnsAtLeast(a, b, k) && EarnsAtLeast(b, c, k)
    ensures EarnsAtLeast(a, c, k)
  {
    assert a.rate * (c.lastUpdate - a.lastUpdate)
        == a.rate * (b.lastUpdate - a.lastUpdate) + a.rate * (c.lastUpdate - b.lastUpdate);
    assert k * Earned(a, c) == k * Earned(a, b) + k * Earned(b, c);
  }

  lemma RefreshConforms(a: Account, now: int)
    requires 0 <= a.rate && a.lastUpdate <= now
    ensures Conforms(a, Refresh(a, now))
  {
    IncomeAtMost(a, now);
  }

  lemma RefreshEarns(a: Account, now: int)
    requires NoWrap(a, now)
    ensures EarnsAtLeast(a, Refresh(a, now), 4)
    ensures (now - a.lastUpdate) % NSEC_PER_USEC == 0 ==> EarnsAtLeast(a, Refresh(a, now), 2)
    ensures var b := Refresh(a, now);
      b.lastUpdate != now ==> a.rate * ((now - b.lastUpdate) / NSEC_PER_USEC) < USEC_PER_SEC
  {
    var usecs := (now - a.lastUpdate) / NSEC_PER_USEC;
    assert 0 <= usecs * a.rate < U64 by { MulMono(a.rate, 0, usecs); }
    if Income(a, now) > 0 {
      IncomeAtLeast(a, now);
    } else {
      assert Refresh(a, now) == a;
      assert (usecs * a.rate) / USEC_PER_SEC == Income(a, now);
    }
  }

  /** Any change of estimate and used, saturated, earns nothing. */
  lemma ChargeConforms(a: Account, b: Account)
    requires b.rate == a.rate && b.limit == a.limit && b.lastUpdate == a.lastUpdate
    requires b.credit == a.credit && b.lost == a.lost
    ensures Conforms(a, Saturate(b)) && EarnsAtLeast(a, Saturate(b), 2) && EarnsAtLeast(a, Saturate(b), 4)
  {
  }

  /** The token bucket's promise: usage over any window is bounded by the refill and the burst. */
  lemma UsageIsBounded(a: Account, b: Account)
    requires Conforms(a, b) && Count(a) <= a.limit
    ensures Count(b) <= b.limit
    ensures ((b.estimate + b.used) - (a.estimate + a.used) - (b.limit - Count(b))) * NANO
         <= a.rate * (b.lastUpdate - a.lastUpdate)
  {
    assert (b.estimate + b.used) - (a.estimate + a.used) - (b.limit - Count(b)) <= Earned(a, b);
  }
}
