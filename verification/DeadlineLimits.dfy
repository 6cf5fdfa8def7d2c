/**
 * How far the deadline scheduler's bounds reach: runs from an empty scheduler in which one
 * direction is passed over as often as the settings allow, for ever if writes_starved is zero.
 */
module DeadlineLimits {
  import opened Lists
  import opened Deadline
  import opened DeadlineRuns

  // ----- One request passed over ------------------------------------------

  /** Request 0, of direction d, is all that is queued, and no batch is going. */
  function Lone(d: Dir, cfg: Config, batching: nat, starved: nat, last: int): DD {
    DD(map[0 := Rq(d, 0, 0, cfg.Expire(d))], EmptyLane, EmptyLane, batching, starved, last)
      .With(d, Lane([0], [0], None))
  }

  function Passer(d: Dir): Rq { Rq(Other(d), 0, 0, 0) }

  /** ... and request 1, of the other direction, has just arrived. */
  function Passed(d: Dir, cfg: Config, batching: nat, starved: nat, last: int): DD {
    var s := Lone(d, cfg, batching, starved, last);
    s.(rq := s.rq[1 := Passer(d).(expire := cfg.Expire(Other(d)))]).With(Other(d), Lane([1], [1], None))
  }

  lemma LoneArrives(d: Dir, cfg: Config)
    ensures Next(Empty, Add(0, Rq(d, 0, 0, 0)), cfg, 0) == Lone(d, cfg, 0, 0, 0)
  {
  }

  lemma PasserArrives(d: Dir, cfg: Config, batching: nat, starved: nat, last: int)
    ensures Next(Lone(d, cfg, batching, starved, last), Add(1, Passer(d)), cfg, 0) == Passed(d, cfg, batching, starved, last)
  {
  }

  /** A new arrival is served past the lone request: a write always if the limit is zero, a read up to the limit. */
  predicate MayPass(d: Dir, cfg: Config, starved: nat) {
    if d.Read? then starved >= cfg.StarveLimit() else starved < cfg.StarveLimit()
  }

  function StarvedBy(d: Dir, starved: nat): nat { if d.Read? then 0 else starved + 1 }

  lemma PassedInv(d: Dir, cfg: Config, batching: nat, starved: nat, last: int)
    ensures Inv(Passed(d, cfg, batching, starved, last))
  {
    var s := Passed(d, cfg, batching, starved, last);
    assert s.rq.Keys == {0, 1};
    assert s.Of(d) == Lane([0], [0], None) && s.Of(Other(d)) == Lane([1], [1], None);
  }

  lemma PasserIsServed(d: Dir, cfg: Config, batching: nat, starved: nat, last: int)
    requires MayPass(d, cfg, starved)
    ensures var s := Passed(d, cfg, batching, starved, last);
      && Inv(s) && Served(s, cfg, 0) == Some(Other(d))
      && Next(s, Serve, cfg, 0) == Lone(d, cfg, 1, StarvedBy(d, starved), 0)
  {
    PassedInv(d, cfg, batching, starved, last);
    var s := Passed(d, cfg, batching, starved, last);
    assert Choose(s, cfg, 0) == Start(Other(d), 1, StarvedBy(d, starved));
    assert s.rq - {1} == map[0 := Rq(d, 0, 0, cfg.Expire(d))];
  }

  // ----- Runs of passes ---------------------------------------------------

  /** writes_starved is an int. */
  predicate InRange(cfg: Config) { -0x8000_0000 <= cfg.writesStarved <= 0x7FFF_FFFF }

  /** The limit is the setting reinterpreted as a 32-bit unsigned number. */
  lemma StarveLimitIsUnsigned(cfg: Config)
    requires InRange(cfg)
    ensures 0 <= cfg.StarveLimit() < 0x1_0000_0000 && cfg.StarveLimit() % 0x1_0000_0000 == cfg.writesStarved % 0x1_0000_0000
  {
  }

  /** A request of direction d can be passed n times. */
  predicate CanPass(d: Dir, cfg: Config, n: nat) {
    if d.Read? then cfg.writesStarved == 0 else n <= cfg.StarveLimit()
  }

  function AfterPasses(d: Dir, cfg: Config, k: nat): DD {
    Lone(d, cfg, if k == 0 then 0 else 1, if d.Read? then 0 else k, 0)
  }

  /** The lone request arrives; then arrivals in the other direction alternate with dispatches. */
  function StateAt(d: Dir, cfg: Config, i: nat): DD {
    if i == 0 then Empty
    else if i % 2 == 1 then AfterPasses(d, cfg, i / 2)
    else
      var k := i / 2 - 1;
      Passed(d, cfg, if k == 0 then 0 else 1, if d.Read? then 0 else k, 0)
  }

  function StepAt(d: Dir, i: nat): Step {
    if i == 0 then Add(0, Rq(d, 0, 0, 0)) else if i % 2 == 1 then Add(1, Passer(d)) else Serve
  }

  lemma StepIsTaken(d: Dir, cfg: Config, n: nat, i: nat)
    requires CanPass(d, cfg, n) && i <= 2 * n
    ensures Enabled(StateAt(d, cfg, i), StepAt(d, i))
    ensures StateAt(d, cfg, i + 1) == Next(StateAt(d, cfg, i), StepAt(d, i), cfg, 0)
    ensures Served01(StateAt(d, cfg, i), StepAt(d, i), cfg, 0, Other(d)) == if i > 0 && i % 2 == 0 then 1 else 0
    ensures !Serves(StateAt(d, cfg, i), StepAt(d, i), cfg, 0, d)
  {
    if i == 0 {
      LoneArrives(d, cfg);
    } else if i % 2 == 1 {
      var k := i / 2;
      assert (i + 1) / 2 - 1 == k;
      PasserArrives(d, cfg, if k == 0 then 0 else 1, if d.Read? then 0 else k, 0);
    } else {
      var k := i / 2 - 1;
      assert (i + 1) / 2 == k + 1;
      PasserIsServed(d, cfg, if k == 0 then 0 else 1, if d.Read? then 0 else k, 0);
    }
  }

  ghost function States(d: Dir, cfg: Config, n: nat): seq<DD> { seq(2 * n + 2, i requires 0 <= i => StateAt(d, cfg, i)) }
  ghost function Steps(d: Dir, n: nat): seq<Step> { seq(2 * n + 1, i requires 0 <= i => StepAt(d, i)) }
  ghost function Times(n: nat): seq<int> { seq(2 * n + 1, i => 0) }

  lemma PassesAreARun(d: Dir, cfg: Config, n: nat)
    requires InRange(cfg) && CanPass(d, cfg, n)
    ensures IsRun(States(d, cfg, n), Steps(d, n), Times(n), cfg)
    ensures Waits(States(d, cfg, n), Steps(d, n), Times(n), cfg, 1, 2 * n + 1, d)
  {
    var states, steps, times := States(d, cfg, n), Steps(d, n), Times(n);
    forall i | 0 <= i < |steps| ensures Taken(states, steps, times, cfg, i) { StepIsTaken(d, cfg, n, i); }
    assert Inv(Empty) && Counters(Empty, cfg);
    forall k | 1 <= k < 2 * n + 1
      ensures states[k].Of(d).fifo != [] && !Serves(states[k], steps[k], cfg, times[k], d)
    {
      StepIsTaken(d, cfg, n, k);
    }
  }

  /** From step 1 on, every other step serves direction d. */
  ghost predicate Alternates(states: seq<DD>, steps: seq<Step>, times: seq<int>, cfg: Config, d: Dir)
    requires |steps| < |states| && |times| == |steps|
  {
    forall i :: 1 <= i < |steps| ==>
      Served01(states[i], steps[i], cfg, times[i], d) == if i % 2 == 0 then 1 else 0
  }

  lemma {:induction false} AlternateServed(states: seq<DD>, steps: seq<Step>, times: seq<int>, cfg: Config, d: Dir, j: nat)
    requires IsRun(states, steps, times, cfg) && Alternates(states, steps, times, cfg, d) && 1 <= j <= |steps|
    ensures ServedIn(states, steps, times, cfg, 1, j, d) == (j - 1) / 2
  {
    if j > 1 {
      AlternateServed(states, steps, times, cfg, d, j - 1);
      assert Served01(states[j - 1], steps[j - 1], cfg, times[j - 1], d) == if (j - 1) % 2 == 0 then 1 else 0;
    }
  }

  lemma PassesAlternate(d: Dir, cfg: Config, n: nat)
    requires CanPass(d, cfg, n)
    ensures Alternates(States(d, cfg, n), Steps(d, n), Times(n), cfg, Other(d))
  {
    forall i | 1 <= i < 2 * n + 1
      ensures Served01(States(d, cfg, n)[i], Steps(d, n)[i], cfg, Times(n)[i], Other(d)) == if i % 2 == 0 then 1 else 0
    {
      StepIsTaken(d, cfg, n, i);
    }
  }

  /** A request of direction d waits in a run from an empty scheduler while n of the other direction are served. */
  ghost predicate PassedOver(states: seq<DD>, steps: seq<Step>, times: seq<int>, cfg: Config, d: Dir, n: nat) {
    && IsRun(states, steps, times, cfg) && states[0] == Empty && 1 <= |steps|
    && Waits(states, steps, times, cfg, 1, |steps|, d)
    && ServedIn(states, steps, times, cfg, 1, |steps|, Other(d)) == n
  }

  lemma PassesReached(d: Dir, cfg: Config, n: nat)
    requires InRange(cfg) && CanPass(d, cfg, n)
    ensures exists states, steps, times :: PassedOver(states, steps, times, cfg, d, n)
  {
    PassesAreARun(d, cfg, n);
    PassesAlternate(d, cfg, n);
    AlternateServed(States(d, cfg, n), Steps(d, n), Times(n), cfg, Other(d), 2 * n + 1);
    assert PassedOver(States(d, cfg, n), Steps(d, n), Times(n), cfg, d, n);
  }

  // ----- When a read waits for one batch at most --------------------------

  /** In this run no read waits for more than one batch of writes. */
  ghost predicate OneBatchInRun(states: seq<DD>, steps: seq<Step>, times: seq<int>, cfg: Config)
    requires IsRun(states, steps, times, cfg)
  {
    forall i, j | 0 <= i <= j <= |steps| && Waits(states, steps, times, cfg, i, j, Read) ::
      ServedIn(states, steps, times, cfg, i, j, Write) <= Batch(cfg)
  }

  ghost predicate OneBatchAlways(cfg: Config) {
    forall states, steps, times :: IsRun(states, steps, times, cfg) ==> OneBatchInRun(states, steps, times, cfg)
  }

  /** With writes_starved zero a read can be passed over by any number of writes. */
  lemma ZeroStarvesReads(cfg: Config, n: nat)
    requires cfg.writesStarved == 0
    ensures exists states, steps, times :: PassedOver(states, steps, times, cfg, Read, n)
  {
    PassesReached(Read, cfg, n);
  }

  /** A queued read waits for at most one batch of writes, in every run, exactly if writes_starved is not zero. */
  lemma OneBatchIffNonZero(cfg: Config)
    requires InRange(cfg)
    ensures OneBatchAlways(cfg) <==> cfg.writesStarved != 0
  {
    if cfg.writesStarved != 0 {
      forall states, steps, times | IsRun(states, steps, times, cfg)
        ensures OneBatchInRun(states, steps, times, cfg)
      {
        forall i, j | 0 <= i <= j <= |steps| && Waits(states, steps, times, cfg, i, j, Read)
          ensures ServedIn(states, steps, times, cfg, i, j, Write) <= Batch(cfg)
        {
          ReadsWaitOneBatch(states, steps, times, cfg, i, j);
        }
      }
    } else {
      var n := Batch(cfg) + 1;
      ZeroStarvesReads(cfg, n);
      var states, steps, times :| PassedOver(states, steps, times, cfg, Read, n);
      assert !OneBatchInRun(states, steps, times, cfg);
    }
  }

  /** A write can be passed over by as many reads as the setting says, read as an unsigned number. */
  lemma StarveLimitIsReached(cfg: Config)
    requires InRange(cfg)
    ensures exists states, steps, times :: PassedOver(states, steps, times, cfg, Write, cfg.StarveLimit())
    ensures cfg.writesStarved < 0 ==> cfg.StarveLimit() >= 0x8000_0000
  {
    PassesReached(Write, cfg, cfg.StarveLimit());
  }
}
