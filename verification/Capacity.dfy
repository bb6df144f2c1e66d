/** How many workers a host is allowed: reading its pressure, and the policy fed by each reading. */
module Capacity {
  import opened Common

  const DEFAULT_WORKER_MB := 1500.0
  const CRITICAL_AVAILABLE_MB := 1024.0
  const CRITICAL_DISK_MB := 1024.0
  const CRITICAL_SWAP_MB := 512.0

  datatype Pressure = Healthy | Constrained | Critical | Unknown

  /** One moment's readings; None means the host could not say. */
  datatype Snapshot = Snapshot(
    memoryTotal: Option<real>, memoryAvailable: Option<real>, swapUsed: Option<real>, cpuCount: Option<real>,
    cpuLoad: Option<real>, diskFree: Option<real>, memoryLimit: Option<real>, cpuLimit: Option<real>,
    memoryUsed: Option<real>)

  /** The smaller of two readings, or the one there is. */
  function Smaller(a: Option<real>, b: Option<real>): Option<real> {
    if a.None? then b else if b.None? then a else Some(MinReal(a.value, b.value))
  }

  function EffectiveMemory(s: Snapshot): Option<real> {
    Smaller(s.memoryTotal, s.memoryLimit)
  }

  function EffectiveCpus(s: Snapshot): Option<real> {
    Smaller(s.cpuCount, s.cpuLimit)
  }

  function EffectiveAvailable(s: Snapshot): Option<real> {
    if s.memoryAvailable.None? then None
    else
      var available := s.memoryAvailable.value;
      var within := if s.memoryLimit.Some? && s.memoryUsed.Some?
        then MinReal(available, s.memoryLimit.value - s.memoryUsed.value) else available;
      Some(MaxReal(within, 0.0))
  }

  predicate Missing(s: Snapshot) {
    || s.memoryTotal.None? || s.memoryAvailable.None? || s.swapUsed.None?
    || s.cpuCount.None? || s.cpuLoad.None? || s.diskFree.None?
  }

  predicate InTrouble(s: Snapshot) {
    || (EffectiveAvailable(s).Some? && EffectiveAvailable(s).value < CRITICAL_AVAILABLE_MB)
    || (s.swapUsed.Some? && s.swapUsed.value > CRITICAL_SWAP_MB)
    || (s.diskFree.Some? && s.diskFree.value < CRITICAL_DISK_MB)
  }

  function PressureOf(s: Snapshot): Pressure {
    if InTrouble(s) then Critical
    else if Missing(s) then Unknown
    else
      var cpus := EffectiveCpus(s).value;
      var load := 0.8 * (if cpus == 0.0 then 1.0 else cpus);
      if EffectiveAvailable(s).value < 0.2 * EffectiveMemory(s).value || s.cpuLoad.value > load then Constrained
      else Healthy
  }

  /** What the host could not say never counts as healthy, and trouble shows through what it could not say. */
  lemma HealthyNeedsEverything(s: Snapshot)
    ensures PressureOf(s).Healthy? ==> !Missing(s) && !InTrouble(s)
    ensures Missing(s) ==> PressureOf(s).Unknown? || PressureOf(s).Critical?
    ensures PressureOf(s).Critical? <==> InTrouble(s)
  {
  }

  /** Less than x is free, on the host or below the container's limit; never less than nothing. */
  ghost predicate LessFree(s: Snapshot, x: real) {
    && x > 0.0 && s.memoryAvailable.Some?
    && (|| s.memoryAvailable.value < x
        || (s.memoryLimit.Some? && s.memoryUsed.Some? && s.memoryLimit.value - s.memoryUsed.value < x))
  }

  /** The load is above four fifths of n processors; none count as one. */
  ghost predicate Overloads(load: real, n: real) {
    load > if n == 0.0 then 0.8 else 0.8 * n
  }

  ghost predicate Over(value: Option<real>, x: real) {
    value.Some? && value.value > x
  }

  ghost predicate Under(value: Option<real>, x: real) {
    value.Some? && value.value < x
  }

  /** Every reading by what the host said: who has the fewer processors or the smaller memory, host or limit, decides. */
  lemma PressureReads(s: Snapshot)
    ensures PressureOf(s).Critical? <==> LessFree(s, 1024.0) || Over(s.swapUsed, 512.0) || Under(s.diskFree, 1024.0)
    ensures PressureOf(s).Unknown? <==>
      && !PressureOf(s).Critical?
      && None in {s.memoryTotal, s.memoryAvailable, s.swapUsed, s.cpuCount, s.cpuLoad, s.diskFree}
    ensures PressureOf(s).Constrained? <==>
      && !PressureOf(s).Critical? && !PressureOf(s).Unknown?
      && (|| (LessFree(s, 0.2 * s.memoryTotal.value) && (s.memoryLimit.Some? ==> LessFree(s, 0.2 * s.memoryLimit.value)))
          || Overloads(s.cpuLoad.value,
               if Under(s.cpuLimit, s.cpuCount.value) then s.cpuLimit.value else s.cpuCount.value))
  {
  }

  function Severity(p: Pressure): nat {
    match p
    case Healthy => 0
    case Constrained => 1
    case Unknown => 1
    case Critical => 2
  }

  /** More free memory, all else equal, is never worse. */
  lemma MemoryHelps(s: Snapshot, more: real)
    requires s.memoryAvailable.Some? && more >= s.memoryAvailable.value
    ensures Severity(PressureOf(s.(memoryAvailable := Some(more)))) <= Severity(PressureOf(s))
  {
  }

  // -- how many workers fit --------------------------------------------------------------

  /** n workers of that size fit into the memory above the headroom. */
  predicate FitsIn(s: Snapshot, perWorker: real, headroom: real, n: int)
    requires EffectiveAvailable(s).Some?
  {
    n as real * MaxReal(perWorker, 1.0) <= EffectiveAvailable(s).value - headroom
  }

  function WorkersThatFit(s: Snapshot, perWorker: real, headroom: real): (fit: Option<nat>)
    ensures fit.None? <==> s.memoryAvailable.None?
  {
    var available := EffectiveAvailable(s);
    if available.None? then None
    else Some(Max(0, ((available.value - headroom) / MaxReal(perWorker, 1.0)).Floor))
  }

  lemma FloorDivides(a: real, p: real, n: int)
    requires p > 0.0 && n == (a / p).Floor
    ensures n as real * p <= a && a < (n + 1) as real * p
  {
    var q := a / p;
    var below, above := n as real, (n + 1) as real;
    assert below <= q < above;
    Scales(below, q, p);
    ScalesStrictly(q, above, p);
    assert q * p == a;
    assert below * p <= a;
    assert a < above * p;
  }

  lemma ScalesStrictly(a: real, b: real, p: real)
    requires a < b && p > 0.0
    ensures a * p < b * p
  {
  }

  /** It is the largest such number, and none at all when not even the headroom is free. */
  lemma FitIsLargest(s: Snapshot, perWorker: real, headroom: real)
    requires EffectiveAvailable(s).Some?
    ensures var fit := WorkersThatFit(s, perWorker, headroom).value;
      && (fit > 0 ==> FitsIn(s, perWorker, headroom, fit))
      && forall n :: n > fit ==> !FitsIn(s, perWorker, headroom, n)
  {
    var fit := WorkersThatFit(s, perWorker, headroom).value;
    var a, p := EffectiveAvailable(s).value - headroom, MaxReal(perWorker, 1.0);
    FloorDivides(a, p, (a / p).Floor);
    forall n | n > fit ensures !FitsIn(s, perWorker, headroom, n) {
      var above := (a / p).Floor + 1;
      assert n >= above;
      Scales(above as real, n as real, p);
    }
  }

  // -- the biggest worker seen --------------------------------------------------------------

  /** t is the default or the biggest peak, whichever is larger. */
  ghost predicate IsTypical(default_: real, peaks: map<string, real>, t: real) {
    && t >= default_ && (forall w :: w in peaks ==> peaks[w] <= t)
    && (t == default_ || exists w :: w in peaks && peaks[w] == t)
  }

  class WorkerPeaks {
    const default_: real
    var peaks: map<string, real>

    constructor (default_: real)
      ensures this.default_ == default_ && peaks == map[]
    {
      this.default_ := default_;
      peaks := map[];
    }

    /** A worker's peak only grows while it is watched. */
    method Observe(worker: string, rss: real, descendants: real) returns (peak: real)
      modifies this
      ensures worker in peaks && peak == peaks[worker] && peaks == old(peaks)[worker := peak]
      ensures peak >= MaxReal(rss, 0.0) + MaxReal(descendants, 0.0)
      ensures worker in old(peaks) ==> peak >= old(peaks)[worker]
      ensures peak == MaxReal(rss, 0.0) + MaxReal(descendants, 0.0)
        || (worker in old(peaks) && peak == old(peaks)[worker])
    {
      var total := MaxReal(rss, 0.0) + MaxReal(descendants, 0.0);
      peak := MaxReal(if worker in peaks then peaks[worker] else 0.0, total);
      peaks := peaks[worker := peak];
    }

    method Forget(worker: string)
      modifies this
      ensures peaks == old(peaks) - {worker}
    {
      peaks := peaks - {worker};
    }

    method Typical() returns (t: real)
      ensures IsTypical(default_, peaks, t)
    {
      t := default_;
      var left := peaks.Keys;
      while left != {}
        invariant left <= peaks.Keys && t >= default_
        invariant forall w :: w in peaks && w !in left ==> peaks[w] <= t
        invariant t == default_ || exists w :: w in peaks && peaks[w] == t
        decreases |left|
      {
        var w :| w in left;
        t := MaxReal(t, peaks[w]);
        left := left - {w};
      }
    }
  }

  /** There is one typical size. */
  lemma TypicalIsUnique(default_: real, peaks: map<string, real>, t: real, u: real)
    requires IsTypical(default_, peaks, t) && IsTypical(default_, peaks, u)
    ensures t == u
  {
  }

  /** Forgetting a worker never makes the typical size larger, and smaller only if its peak was the largest. */
  lemma ForgettingShrinks(default_: real, peaks: map<string, real>, worker: string, t: real, u: real)
    requires IsTypical(default_, peaks, t) && IsTypical(default_, peaks - {worker}, u)
    ensures u <= t
    ensures u < t ==> worker in peaks && peaks[worker] == t
  {
    if w :| w in peaks && peaks[w] == t && w != worker {
      assert (peaks - {worker})[w] == t;
    }
    if w :| w in peaks - {worker} && (peaks - {worker})[w] == u {
      assert peaks[w] == u;
    }
  }

  // -- the policy ---------------------------------------------------------------------------------

  datatype Policy = Policy(start: int, ceiling: int, growthStep: int, headroom: real, cooldownTicks: int)

  ghost predicate Sensible(p: Policy) {
    1 <= p.start <= p.ceiling && p.growthStep >= 1 && p.cooldownTicks >= 0
  }

  /** What the policy remembers between readings. */
  datatype State = State(capacity: int, cooldown: int, limit: Option<int>)

  /** One reading: the snapshot, the typical worker size and the slots held. */
  datatype Tick = Tick(snapshot: Snapshot, typical: real, held: int)

  datatype Decision = Decision(capacity: int, measured: int, pressure: Pressure, pause: bool, cancelUpTo: int)

  function Limited(value: int, limit: Option<int>): int {
    if limit.None? then value else Min(value, limit.value)
  }

  /** Slots held and those that would still fit. */
  function Room(p: Policy, t: Tick): int {
    var fit := WorkersThatFit(t.snapshot, t.typical, p.headroom);
    Max(0, t.held) + if fit.Some? then fit.value else 0
  }

  function Measured(p: Policy, s: State, t: Tick): int {
    var held := Max(0, t.held);
    var raw := match PressureOf(t.snapshot)
      case Critical => if held > 1 then Max(1, Min(s.capacity, held) - 1) else 1
      case Constrained => Max(1, held)
      case Unknown => Max(p.start, Min(s.capacity, held))
      case Healthy =>
        Max(1, if s.cooldown > 0 then (if Room(p, t) >= 1 then Min(s.capacity, Room(p, t)) else 1)
               else Min(s.capacity + p.growthStep, Room(p, t)));
    Min(raw, p.ceiling)
  }

  function After(p: Policy, s: State, t: Tick): State {
    var pressure := PressureOf(t.snapshot);
    var cooldown :=
      if pressure.Critical? || pressure.Constrained? then p.cooldownTicks
      else if pressure.Healthy? && s.cooldown > 0 then s.cooldown - 1
      else s.cooldown;
    State(Measured(p, s, t), cooldown, s.limit)
  }

  function Decide(p: Policy, s: State, t: Tick): Decision {
    var pressure := PressureOf(t.snapshot);
    var squeezed := pressure.Critical? || pressure.Constrained?;
    Decision(Limited(Measured(p, s, t), s.limit), Measured(p, s, t), pressure, squeezed,
      if pressure.Critical? && t.held > 1 then 1 else 0)
  }

  // -- every tick -----------------------------------------------------------------------------------

  ghost predicate Valid(p: Policy, s: State) {
    && Sensible(p) && 1 <= s.capacity <= p.ceiling && 0 <= s.cooldown <= p.cooldownTicks
  }

  datatype Op = Observe(tick: Tick) | SetLimit(limit: Option<int>)

  /** A limit below one is refused. */
  function Step(p: Policy, s: State, op: Op): State {
    match op
    case Observe(t) => After(p, s, t)
    case SetLimit(limit) => if limit.Some? && limit.value < 1 then s else s.(limit := limit)
  }

  function Run(p: Policy, s: State, ops: seq<Op>): State {
    if ops == [] then s else Step(p, Run(p, s, ops[..|ops| - 1]), ops[|ops| - 1])
  }

  lemma StepKeepsValid(p: Policy, s: State, op: Op)
    requires Valid(p, s)
    ensures Valid(p, Step(p, s, op))
  {
    hide PressureOf, Room;
  }

  /** The measured capacity stays between one and the ceiling over every run. */
  lemma {:induction false} RunKeepsValid(p: Policy, s: State, ops: seq<Op>)
    requires Valid(p, s)
    ensures Valid(p, Run(p, s, ops))
    ensures (s.limit.Some? ==> s.limit.value >= 1) ==> (Run(p, s, ops).limit.Some? ==> Run(p, s, ops).limit.value >= 1)
  {
    hide PressureOf, Room;
    if ops != [] {
      RunKeepsValid(p, s, ops[..|ops| - 1]);
    }
  }

  /**
   * The capacity given out never exceeds the ceiling or the external limit, and is at least one
   * exactly when that limit is: a limit set at construction is not checked.
   */
  lemma GivenOutIsBounded(p: Policy, s: State, t: Tick)
    requires Valid(p, s)
    ensures var d := Decide(p, s, t);
      && d.capacity <= p.ceiling && 1 <= d.measured <= p.ceiling
      && (s.limit.Some? ==> d.capacity <= s.limit.value)
      && (d.capacity >= 1 <==> (s.limit.Some? ==> s.limit.value >= 1))
  {
  }

  /** A limit of zero given at construction stops everything until somebody sets another one. */
  lemma {:induction false} ZeroLimitStops(p: Policy, ops: seq<Op>, t: Tick)
    requires Sensible(p) && forall i :: 0 <= i < |ops| ==> ops[i].Observe?
    ensures Run(p, State(p.start, 0, Some(0)), ops).limit == Some(0)
    ensures Decide(p, Run(p, State(p.start, 0, Some(0)), ops), t).capacity == 0
  {
    hide PressureOf, Room, Measured;
    RunKeepsValid(p, State(p.start, 0, Some(0)), ops);
    if ops != [] {
      ZeroLimitStops(p, ops[..|ops| - 1], t);
    }
    GivenOutIsBounded(p, Run(p, State(p.start, 0, Some(0)), ops), t);
  }

  /** A limit holds for every reading from then on, whatever they are, and so does having none; one below one is not taken. */
  lemma {:induction false} LimitHolds(p: Policy, s: State, limit: Option<int>, ops: seq<Op>, t: Tick)
    requires forall i :: 0 <= i < |ops| ==> ops[i].Observe?
    ensures
      var taken := if limit.Some? && limit.value < 1 then s.limit else limit;
      var now := Run(p, Step(p, s, SetLimit(limit)), ops);
      && now.limit == taken
      && Decide(p, now, t).capacity == if taken.None? then Measured(p, now, t) else Min(Measured(p, now, t), taken.value)
  {
    hide PressureOf, Room, Measured;
    if ops != [] {
      LimitHolds(p, s, limit, ops[..|ops| - 1], t);
    }
  }

  /** Fewer of them fit wherever more do. */
  lemma FewerFit(s: Snapshot, perWorker: real, headroom: real, n: int, more: int)
    requires EffectiveAvailable(s).Some? && FitsIn(s, perWorker, headroom, more) && n <= more
    ensures FitsIn(s, perWorker, headroom, n)
  {
    hide EffectiveAvailable;
    Scales(n as real, more as real, MaxReal(perWorker, 1.0));
  }

  /**
   * A healthy reading raises the capacity by at most the growth step and, beyond the one worker always
   * allowed, never past the slots held and the most workers that fit above the headroom.
   */
  lemma HealthyGrowth(p: Policy, s: State, t: Tick)
    requires Valid(p, s) && PressureOf(t.snapshot).Healthy?
    ensures EffectiveAvailable(t.snapshot).Some?
    ensures var m := Measured(p, s, t);
      && m <= s.capacity + p.growthStep
      && (m > 1 && m > Max(0, t.held) ==> FitsIn(t.snapshot, t.typical, p.headroom, m - Max(0, t.held)))
  {
    hide PressureOf, FitsIn, WorkersThatFit;
    HealthyNeedsEverything(t.snapshot);
    FitIsLargest(t.snapshot, t.typical, p.headroom);
    var n, fit := Measured(p, s, t) - Max(0, t.held), WorkersThatFit(t.snapshot, t.typical, p.headroom).value;
    if Measured(p, s, t) > 1 && n > 0 {
      FewerFit(t.snapshot, t.typical, p.headroom, n, fit);
    }
  }

  /**
   * Exactly how far a healthy reading goes: beyond one worker it allows n of them if and only if n is
   * within the ceiling and the growth step, no step at all while cooling down, and those not held yet fit.
   */
  lemma HealthyReaches(p: Policy, s: State, t: Tick, n: int)
    requires Valid(p, s) && PressureOf(t.snapshot).Healthy? && n > 1
    ensures EffectiveAvailable(t.snapshot).Some?
    ensures n <= Measured(p, s, t) <==>
      && n <= p.ceiling && n <= s.capacity + (if s.cooldown > 0 then 0 else p.growthStep)
      && (n <= t.held || FitsIn(t.snapshot, t.typical, p.headroom, n - Max(0, t.held)))
  {
    hide PressureOf, FitsIn, WorkersThatFit;
    HealthyNeedsEverything(t.snapshot);
    FitIsLargest(t.snapshot, t.typical, p.headroom);
    var more, fit := n - Max(0, t.held), WorkersThatFit(t.snapshot, t.typical, p.headroom).value;
    if 0 < more <= fit {
      FewerFit(t.snapshot, t.typical, p.headroom, more, fit);
    }
  }

  /** With no cooldown, whatever the ceiling, the step and the memory allow is reached. */
  lemma HealthyIsGreedy(p: Policy, s: State, t: Tick, m: int)
    requires Valid(p, s) && PressureOf(t.snapshot).Healthy? && s.cooldown == 0
    requires Max(0, t.held) < m <= Min(p.ceiling, s.capacity + p.growthStep)
    requires EffectiveAvailable(t.snapshot).Some? && FitsIn(t.snapshot, t.typical, p.headroom, m - Max(0, t.held))
    ensures m <= Measured(p, s, t)
  {
    hide PressureOf, FitsIn, WorkersThatFit;
    FitIsLargest(t.snapshot, t.typical, p.headroom);
  }

  /** What the other readings leave: one less than is used, what is held, or the starting size and what is used beyond it. */
  lemma OthersLeave(p: Policy, s: State, t: Tick)
    requires Valid(p, s)
    ensures
      var (m, used) := (Measured(p, s, t), if t.held < s.capacity then t.held else s.capacity);
      match PressureOf(t.snapshot)
      case Critical => m == if used <= 1 then 1 else used - 1
      case Constrained => m == if t.held <= 1 then 1 else if t.held <= p.ceiling then t.held else p.ceiling
      case Unknown => m == if used <= p.start then p.start else used
      case Healthy => m >= 1
  {
    hide PressureOf, Room;
  }

  /** What a decision tells the caller: when to start nobody, when to cancel somebody, and how many may run. */
  lemma DecisionSays(p: Policy, s: State, t: Tick)
    ensures
      var (d, pressure) := (Decide(p, s, t), PressureOf(t.snapshot));
      && d.pressure == pressure && (d.pause <==> pressure.Critical? || pressure.Constrained?)
      && (d.cancelUpTo == 1 <==> pressure.Critical? && t.held >= 2) && (d.cancelUpTo != 1 ==> d.cancelUpTo == 0)
      && d.measured == After(p, s, t).capacity
      && d.capacity == if s.limit.Some? && s.limit.value < d.measured then s.limit.value else d.measured
  {
    hide PressureOf, Measured;
  }

  /** Critical readings never raise it, and shed one when more than one slot is held. */
  lemma CriticalSheds(p: Policy, s: State, t: Tick)
    requires Valid(p, s) && PressureOf(t.snapshot).Critical?
    ensures Measured(p, s, t) <= s.capacity
    ensures t.held > 1 && s.capacity > 1 ==> Measured(p, s, t) < s.capacity && Measured(p, s, t) < t.held
    ensures Decide(p, s, t).pause && Decide(p, s, t).cancelUpTo <= Max(0, t.held - 1)
  {
  }

  /** Unless it is healthy a reading gives room for no start beyond the slots held and the starting size. */
  lemma NoGrowthUnlessHealthy(p: Policy, s: State, t: Tick)
    requires Valid(p, s) && !PressureOf(t.snapshot).Healthy?
    ensures Measured(p, s, t) <= Max(s.capacity, Max(p.start, t.held))
    ensures PressureOf(t.snapshot).Constrained? ==> Measured(p, s, t) <= Max(1, t.held)
    ensures PressureOf(t.snapshot).Unknown? ==> (Measured(p, s, t) > s.capacity <==> s.capacity < p.start)
  {
  }

  // -- cooling down -----------------------------------------------------------------------------------

  predicate Squeezes(op: Op) {
    op.Observe? && (PressureOf(op.tick.snapshot).Critical? || PressureOf(op.tick.snapshot).Constrained?)
  }

  predicate IsHealthy(op: Op) {
    op.Observe? && PressureOf(op.tick.snapshot).Healthy?
  }

  function HealthyTicks(ops: seq<Op>): nat {
    if ops == [] then 0 else HealthyTicks(ops[..|ops| - 1]) + if IsHealthy(ops[|ops| - 1]) then 1 else 0
  }

  lemma {:induction false} CooldownLasts(p: Policy, s: State, ops: seq<Op>)
    requires Valid(p, s)
    ensures Run(p, s, ops).cooldown >= s.cooldown - HealthyTicks(ops)
  {
    hide PressureOf, Measured;
    if ops != [] {
      CooldownLasts(p, s, ops[..|ops| - 1]);
      RunKeepsValid(p, s, ops[..|ops| - 1]);
    }
  }

  /** With no such reading in between the cooldown runs out after as many healthy ones. */
  lemma {:induction false} CooldownRunsOut(p: Policy, s: State, ops: seq<Op>)
    requires Valid(p, s) && forall i :: 0 <= i < |ops| ==> !Squeezes(ops[i])
    ensures Run(p, s, ops).cooldown == Max(0, s.cooldown - HealthyTicks(ops))
  {
    hide PressureOf, Measured;
    if ops != [] {
      CooldownRunsOut(p, s, ops[..|ops| - 1]);
      RunKeepsValid(p, s, ops[..|ops| - 1]);
    }
  }

  /**
   * So after a constrained or critical reading and then healthy ones, a healthy reading may grow by the
   * step again if and only if there have been cooldownTicks of them.
   */
  lemma {:induction false} GrowsAgain(p: Policy, s: State, squeeze: Op, between: seq<Op>)
    requires Valid(p, s) && Squeezes(squeeze) && forall i :: 0 <= i < |between| ==> !Squeezes(between[i])
    ensures Run(p, Step(p, s, squeeze), between).cooldown == 0 <==> HealthyTicks(between) >= p.cooldownTicks
  {
    hide PressureOf, Measured, Run, HealthyTicks;
    var squeezed := Step(p, s, squeeze);
    assert Valid(p, squeezed) by {
      StepKeepsValid(p, s, squeeze);
    }
    CooldownRunsOut(p, squeezed, between);
  }

  /**
   * Between a constrained or critical reading and the next healthy one that raises the capacity
   * there are at least cooldownTicks other healthy readings, whatever else happens in between.
   */
  lemma {:induction false} CooldownSeparates(p: Policy, s: State, squeeze: Op, between: seq<Op>, raise: Op)
    requires Valid(p, s) && Squeezes(squeeze) && IsHealthy(raise)
    requires var before := Run(p, Step(p, s, squeeze), between);
      Step(p, before, raise).capacity > before.capacity
    ensures HealthyTicks(between) >= p.cooldownTicks
  {
    hide PressureOf, Room;
    var squeezed := Step(p, s, squeeze);
    CooldownLasts(p, squeezed, between);
    RunKeepsValid(p, squeezed, between);
  }

  // -- the policy object -----------------------------------------------------------------------------------

  class CapacityPolicy {
    const params: Policy
    var externalLimit: Option<int>
    var capacity: int
    var cooldown: int

    ghost predicate Good()
      reads this
    {
      Valid(params, Now())
    }

    function Now(): State
      reads this
    {
      State(capacity, cooldown, externalLimit)
    }

    constructor (params: Policy, operatorLimit: Option<int>)
      requires Sensible(params)
      ensures Good() && this.params == params && Now() == State(params.start, 0, operatorLimit)
    {
      this.params := params;
      externalLimit, capacity, cooldown := operatorLimit, params.start, 0;
    }

    method SetExternalLimit(limit: Option<int>) returns (accepted: bool)
      requires Good()
      modifies this
      ensures Good() && Now() == Step(params, old(Now()), SetLimit(limit))
      ensures accepted <==> (limit.Some? ==> limit.value >= 1)
    {
      accepted := limit.None? || limit.value >= 1;
      if accepted {
        externalLimit := limit;
      }
    }

    /** Moves the capacity on one reading and says what is allowed until the next. */
    method DecideOn(snapshot: Snapshot, typical: real, slots: int) returns (d: Decision)
      requires Good()
      modifies this
      ensures Good() && Now() == Step(params, old(Now()), Observe(Tick(snapshot, typical, slots)))
      ensures d == Decide(params, old(Now()), Tick(snapshot, typical, slots))
    {
      hide PressureOf, WorkersThatFit;
      var pressure := PressureOf(snapshot);
      var held := Max(0, slots);
      var pause, cancel, measured := false, 0, 1;
      match pressure {
        case Critical =>
          cooldown, pause := params.cooldownTicks, true;
          cancel := if held > 1 then 1 else 0;
          measured := if held > 1 then Max(1, Min(capacity, held) - 1) else 1;
        case Constrained =>
          cooldown, pause := params.cooldownTicks, true;
          measured := Max(1, held);
        case Unknown =>
          measured := Max(params.start, Min(capacity, held));
        case Healthy =>
          var fit := WorkersThatFit(snapshot, typical, params.headroom);
          var room := held + if fit.Some? then fit.value else 0;
          if cooldown > 0 {
            cooldown := cooldown - 1;
            measured := if room >= 1 then Min(capacity, room) else 1;
          } else {
            measured := Min(capacity + params.growthStep, room);
          }
          measured := Max(1, measured);
      }
      measured := Min(measured, params.ceiling);
      capacity := measured;
      d := Decision(Limited(measured, externalLimit), measured, pressure, pause, cancel);
    }
  }

  /** With nothing readable and the capacity shed to one, an unknown reading restores the starting size. */
  lemma UnknownRestoresStart(p: Policy, s: State, t: Tick)
    requires Valid(p, s) && PressureOf(t.snapshot).Unknown? && s.capacity < p.start
    ensures Measured(p, s, t) == p.start > s.capacity
  {
  }
}
