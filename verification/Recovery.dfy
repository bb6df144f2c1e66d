/** Retrying a failed turn: how long to wait, when to switch targets, and when to give up. */
module Recovery {
  import opened Common

  /** Times and durations are in seconds. */
  datatype Policy = Policy(
    minDelay: real, baseDelay: real, multiplier: real, maxDelay: real, jitter: real,
    maxAttempts: int, maxTotal: real, fallbackAfter: int, enabled: bool)

  // -- how long to wait -------------------------------------------------------------------

  function Clamp(p: Policy, seconds: real): real {
    MaxReal(p.minDelay, MinReal(p.maxDelay, seconds))
  }

  function Power(m: real, n: nat): real {
    if n == 0 then 1.0 else m * Power(m, n - 1)
  }

  function Backoff(p: Policy, attempt: int): real {
    p.baseDelay * Power(p.multiplier, Max(0, attempt - 1))
  }

  function Jittered(p: Policy, base: real, share: real): real {
    base + base * p.jitter * share
  }

  /** The wait before the next attempt; `chance` is the random draw that spreads retries. */
  function RetryDelay(p: Policy, attempt: int, retryAfter: Option<real>, chance: real): real {
    if retryAfter.Some? && retryAfter.value > 0.0 then Clamp(p, retryAfter.value)
    else
      Clamp(p, Jittered(p, Clamp(p, Backoff(p, attempt)), MaxReal(0.0, MinReal(1.0, chance))))
  }

  /** Every wait lies within the bounds exactly when the bounds are the right way round. */
  lemma DelayIsBounded(p: Policy)
    ensures (forall attempt, retryAfter, chance ::
        p.minDelay <= RetryDelay(p, attempt, retryAfter, chance) <= p.maxDelay) <==> p.minDelay <= p.maxDelay
  {
    assert p.minDelay > p.maxDelay ==> RetryDelay(p, 0, Some(1.0), 0.0) > p.maxDelay;
  }

  /** y is x brought within the bounds. */
  ghost predicate Bounded(p: Policy, x: real, y: real) {
    if x < p.minDelay then y == p.minDelay else if x > p.maxDelay then y == p.maxDelay else y == x
  }

  /** The backoff before the second attempt is the base delay, and each further failure multiplies it. */
  lemma BackoffReads(p: Policy, attempt: int)
    ensures attempt <= 1 ==> Backoff(p, attempt) == p.baseDelay
    ensures attempt >= 1 ==> Backoff(p, attempt + 1) == Backoff(p, attempt) * p.multiplier
  {
    if attempt >= 1 {
      assert Power(p.multiplier, attempt) == p.multiplier * Power(p.multiplier, attempt - 1);
    }
  }

  lemma BoundedIsClamped(p: Policy, x: real, y: real)
    requires p.minDelay <= p.maxDelay
    ensures Bounded(p, x, y) <==> y == Clamp(p, x)
  {
  }

  lemma JitteredReads(p: Policy, base: real, draw: real)
    ensures Jittered(p, base, draw) == base * (1.0 + p.jitter * draw)
  {
    var x := p.jitter * draw;
    assert base * p.jitter * draw == base * x;
  }

  /** A positive hint is the wait; without one it is the backoff, and that share of the jitter on top the draw says. */
  lemma DelayReads(p: Policy, attempt: int, retryAfter: Option<real>, chance: real, base: real, draw: real)
    requires p.minDelay <= p.maxDelay && Bounded(p, Backoff(p, attempt), base)
    requires if chance < 0.0 then draw == 0.0 else if chance > 1.0 then draw == 1.0 else draw == chance
    ensures
      var delay := RetryDelay(p, attempt, retryAfter, chance);
      if retryAfter.Some? && retryAfter.value > 0.0 then Bounded(p, retryAfter.value, delay)
      else Bounded(p, base * (1.0 + p.jitter * draw), delay)
  {
    hide Backoff, Jittered, Clamp, Bounded;
    BoundedIsClamped(p, Backoff(p, attempt), base);
    JitteredReads(p, base, draw);
    assert MaxReal(0.0, MinReal(1.0, chance)) == draw;
    var wanted := if retryAfter.Some? && retryAfter.value > 0.0 then retryAfter.value else Jittered(p, base, draw);
    BoundedIsClamped(p, wanted, Clamp(p, wanted));
  }

  lemma {:induction false} PowerGrows(m: real, n: nat, k: nat)
    requires m >= 1.0 && n <= k
    ensures 1.0 <= Power(m, n) <= Power(m, k)
    decreases k
  {
    if k > n {
      PowerGrows(m, n, k - 1);
      Scales(1.0, m, Power(m, k - 1));
    } else if n > 0 {
      PowerGrows(m, n - 1, n - 1);
      Scales(1.0, m, Power(m, n - 1));
    }
  }

  lemma ClampGrows(p: Policy, a: real, b: real)
    requires a <= b
    ensures Clamp(p, a) <= Clamp(p, b)
  {
  }

  lemma JitterGrows(p: Policy, a: real, b: real, share: real)
    requires a <= b && p.jitter >= 0.0 && share >= 0.0
    ensures Jittered(p, a, share) <= Jittered(p, b, share)
  {
  }

  /** Without a hint later attempts never wait less, for the same draw. */
  lemma BackoffGrows(p: Policy, attempt: int, later: int, chance: real)
    requires attempt <= later && p.multiplier >= 1.0 && p.baseDelay >= 0.0 && p.jitter >= 0.0
    ensures RetryDelay(p, attempt, None, chance) <= RetryDelay(p, later, None, chance)
  {
    BaseGrows(p, attempt, later);
    hide Clamp, Backoff, Jittered;
    ClampGrows(p, Backoff(p, attempt), Backoff(p, later));
    var a, b := Clamp(p, Backoff(p, attempt)), Clamp(p, Backoff(p, later));
    var share := MaxReal(0.0, MinReal(1.0, chance));
    JitterGrows(p, a, b, share);
    ClampGrows(p, Jittered(p, a, share), Jittered(p, b, share));
  }

  lemma BaseGrows(p: Policy, attempt: int, later: int)
    requires attempt <= later && p.multiplier >= 1.0 && p.baseDelay >= 0.0
    ensures Backoff(p, attempt) <= Backoff(p, later)
  {
    var n, k := Max(0, attempt - 1), Max(0, later - 1);
    PowerGrows(p.multiplier, n, k);
    Scales(Power(p.multiplier, n), Power(p.multiplier, k), p.baseDelay);
  }

  // -- one failed attempt ------------------------------------------------------------------------

  /** chainIndex is the fallback in use, -1 for the original target. */
  datatype Tracker = Tracker(attempts: int, startedAt: Option<real>, chainIndex: int, onTarget: int)

  const FRESH := Tracker(0, None, -1, 0)

  /** What is known of a failed attempt when the tracker is asked. */
  datatype Failure = Failure(now: real, retryable: bool, retryAfter: Option<real>, delivered: bool, chance: real)

  datatype Decision = Stop | Ambiguous | Exhausted | Fallback(target: int) | Retry(delay: real)

  function StartedAt(t: Tracker, f: Failure): real {
    if t.startedAt.None? then f.now else t.startedAt.value
  }

  function Deadline(p: Policy, t: Tracker, f: Failure): real {
    StartedAt(t, f) + p.maxTotal
  }

  function Spent(p: Policy, t: Tracker, f: Failure): bool {
    t.attempts + 1 >= p.maxAttempts || Deadline(p, t, f) - f.now <= 0.0
  }

  function SwitchesTarget(p: Policy, chain: nat, t: Tracker): bool {
    t.onTarget + 1 >= p.fallbackAfter && t.chainIndex + 1 < chain
  }

  function Decide(p: Policy, chain: nat, t: Tracker, f: Failure): Decision {
    if !f.retryable then Stop
    else if f.delivered then Ambiguous
    else if !p.enabled || Spent(p, t, f) then Exhausted
    else if SwitchesTarget(p, chain, t) then Fallback(t.chainIndex + 1)
    else Retry(MaxReal(0.0, MinReal(RetryDelay(p, t.attempts + 1, f.retryAfter, f.chance), Deadline(p, t, f) - f.now)))
  }

  function After(p: Policy, chain: nat, t: Tracker, f: Failure): Tracker {
    if !f.retryable then t
    else
      var counted := Tracker(t.attempts + 1, Some(StartedAt(t, f)), t.chainIndex, t.onTarget + 1);
      if Decide(p, chain, t, f).Fallback? then counted.(chainIndex := t.chainIndex + 1, onTarget := 0) else counted
  }

  ghost predicate Sane(t: Tracker, chain: nat) {
    t.attempts >= 0 && t.onTarget >= 0 && -1 <= t.chainIndex < chain
  }

  /** Every retry is due by the deadline, and no later than the delay asked for. */
  lemma RetryIsDueInTime(p: Policy, chain: nat, t: Tracker, f: Failure)
    requires Decide(p, chain, t, f).Retry?
    ensures var d := Decide(p, chain, t, f).delay;
      0.0 <= d && f.now + d <= Deadline(p, t, f)
  {
  }

  /** And it waits as long as asked, unless the deadline comes first. */
  lemma RetryWaits(p: Policy, chain: nat, t: Tracker, f: Failure)
    requires Decide(p, chain, t, f).Retry? && p.minDelay >= 0.0
    ensures
      var asked := RetryDelay(p, t.attempts + 1, f.retryAfter, f.chance);
      Decide(p, chain, t, f).delay == if f.now + asked <= Deadline(p, t, f) then asked else Deadline(p, t, f) - f.now
  {
  }

  /** Who answers what, before anything is counted: a failure for good stops the turn and is forgotten, output that went out leaves it open. */
  lemma DecisionReads(p: Policy, chain: nat, t: Tracker, f: Failure)
    ensures Decide(p, chain, t, f).Stop? <==> !f.retryable
    ensures Decide(p, chain, t, f).Ambiguous? <==> f.retryable && f.delivered
    ensures !p.enabled && f.retryable && !f.delivered ==> Decide(p, chain, t, f).Exhausted?
    ensures !f.retryable ==> After(p, chain, t, f) == t
  {
    hide RetryDelay;
  }

  // -- a whole turn ---------------------------------------------------------------------------------

  function RunTo(p: Policy, chain: nat, t: Tracker, fs: seq<Failure>): Tracker {
    if fs == [] then t
    else After(p, chain, RunTo(p, chain, t, fs[..|fs| - 1]), fs[|fs| - 1])
  }

  function Decisions(p: Policy, chain: nat, t: Tracker, fs: seq<Failure>): (ds: seq<Decision>)
    ensures |ds| == |fs|
  {
    if fs == [] then []
    else
      var front := fs[..|fs| - 1];
      Decisions(p, chain, t, front) + [Decide(p, chain, RunTo(p, chain, t, front), fs[|fs| - 1])]
  }

  function Retryable(fs: seq<Failure>): nat {
    if fs == [] then 0 else Retryable(fs[..|fs| - 1]) + if fs[|fs| - 1].retryable then 1 else 0
  }

  lemma {:induction false} RunKeepsSane(p: Policy, chain: nat, t: Tracker, fs: seq<Failure>)
    requires Sane(t, chain)
    ensures Sane(RunTo(p, chain, t, fs), chain)
    ensures RunTo(p, chain, t, fs).attempts == t.attempts + Retryable(fs)
  {
    hide RetryDelay;
    if fs != [] {
      RunKeepsSane(p, chain, t, fs[..|fs| - 1]);
    }
  }

  /** At the maxAttempts-th retryable failure the turn is given up, at the latest. */
  lemma {:induction false} GivesUpInTime(p: Policy, chain: nat, fs: seq<Failure>, last: Failure)
    requires last.retryable && Retryable(fs) + 1 >= p.maxAttempts
    ensures var d := Decide(p, chain, RunTo(p, chain, FRESH, fs), last); d.Exhausted? || d.Ambiguous?
  {
    RunKeepsSane(p, chain, FRESH, fs);
  }

  /** And not before: it stops earlier only for want of time, of permission, or because output was delivered. */
  lemma {:induction false} GoesOnUntilThen(p: Policy, chain: nat, fs: seq<Failure>, last: Failure)
    requires last.retryable && !last.delivered && p.enabled && Retryable(fs) + 1 < p.maxAttempts
    ensures var t := RunTo(p, chain, FRESH, fs); var d := Decide(p, chain, t, last);
      (d.Retry? || d.Fallback?) <==> last.now < Deadline(p, t, last)
  {
    RunKeepsSane(p, chain, FRESH, fs);
    hide RetryDelay;
  }

  /** The window opens with the first retryable failure, and stays where it is. */
  lemma {:induction false} WindowOpens(p: Policy, chain: nat, fs: seq<Failure>)
    ensures RunTo(p, chain, FRESH, fs).startedAt.None? <==> forall k :: 0 <= k < |fs| ==> !fs[k].retryable
    ensures forall k :: 0 <= k < |fs| && fs[k].retryable && (forall j :: 0 <= j < k ==> !fs[j].retryable) ==>
      RunTo(p, chain, FRESH, fs).startedAt == Some(fs[k].now)
  {
    hide RetryDelay;
    if fs != [] {
      WindowOpens(p, chain, fs[..|fs| - 1]);
    }
  }

  /**
   * So a turn with attempts left goes on if and only if less than the total window has passed since its
   * first retryable failure.
   */
  lemma {:induction false} GoesOnWithinTheWindow(p: Policy, chain: nat, fs: seq<Failure>, last: Failure, k: nat)
    requires last.retryable && !last.delivered && p.enabled && Retryable(fs) + 1 < p.maxAttempts
    requires k <= |fs| && (k < |fs| ==> fs[k].retryable) && forall j :: 0 <= j < k ==> !fs[j].retryable
    ensures
      var d := Decide(p, chain, RunTo(p, chain, FRESH, fs), last);
      (d.Retry? || d.Fallback?) <==> last.now - (if k < |fs| then fs[k].now else last.now) < p.maxTotal
  {
    hide RunTo, Retryable, RetryDelay;
    WindowOpens(p, chain, fs);
    GoesOnUntilThen(p, chain, fs, last);
  }

  // -- the waits together fit the window -------------------------------------------------------------

  function Wait(d: Decision): real {
    if d.Retry? then d.delay else 0.0
  }

  function Waits(ds: seq<Decision>): real {
    if ds == [] then 0.0 else Waits(ds[..|ds| - 1]) + Wait(ds[|ds| - 1])
  }

  /** The clock does not run backwards, and the caller waits as long as it is told to. */
  ghost predicate Honoured(p: Policy, chain: nat, t: Tracker, fs: seq<Failure>) {
    forall k :: 0 < k < |fs| ==> fs[k].now >= fs[k - 1].now + Wait(Decisions(p, chain, t, fs)[k - 1])
  }

  lemma {:induction false} DecisionsGrow(p: Policy, chain: nat, t: Tracker, fs: seq<Failure>, n: nat)
    requires n <= |fs|
    ensures Decisions(p, chain, t, fs[..n]) == Decisions(p, chain, t, fs)[..n]
    decreases |fs| - n
  {
    if n < |fs| {
      DecisionsGrow(p, chain, t, fs, n + 1);
      assert fs[..n + 1][..n] == fs[..n];
    } else {
      assert fs[..n] == fs;
    }
  }

  lemma HonouredFront(p: Policy, chain: nat, t: Tracker, fs: seq<Failure>)
    requires Honoured(p, chain, t, fs) && fs != []
    ensures Honoured(p, chain, t, fs[..|fs| - 1])
  {
  }

  /** The waits so far fit between the start and the end of the last one, and in the window. */
  ghost predicate WaitsFit(p: Policy, chain: nat, fs: seq<Failure>) {
    var t, ds := RunTo(p, chain, FRESH, fs), Decisions(p, chain, FRESH, fs);
    if t.startedAt.None? then Waits(ds) == 0.0
    else
      && fs != [] && t.startedAt.value <= fs[|fs| - 1].now
      && Waits(ds) <= fs[|fs| - 1].now + Wait(ds[|ds| - 1]) - t.startedAt.value
      && (Waits(ds) > 0.0 ==> Waits(ds) <= p.maxTotal)
  }

  lemma {:induction false} WaitsStayFit(p: Policy, chain: nat, fs: seq<Failure>)
    requires Honoured(p, chain, FRESH, fs)
    ensures WaitsFit(p, chain, fs) && Waits(Decisions(p, chain, FRESH, fs)) >= 0.0
  {
    hide RetryDelay;
    if fs != [] {
      var n := |fs| - 1;
      HonouredFront(p, chain, FRESH, fs);
      WaitsStayFit(p, chain, fs[..n]);
      DecisionsGrow(p, chain, FRESH, fs, n);
      OneMoreWait(p, chain, fs);
    }
  }

  lemma {:induction false} OneMoreWait(p: Policy, chain: nat, fs: seq<Failure>)
    requires fs != [] && Honoured(p, chain, FRESH, fs)
    requires WaitsFit(p, chain, fs[..|fs| - 1]) && Waits(Decisions(p, chain, FRESH, fs[..|fs| - 1])) >= 0.0
    requires Decisions(p, chain, FRESH, fs[..|fs| - 1]) == Decisions(p, chain, FRESH, fs)[..|fs| - 1]
    ensures WaitsFit(p, chain, fs) && Waits(Decisions(p, chain, FRESH, fs)) >= 0.0
  {
  }

  /** The waits a caller honours over a turn add up to no more than the total window. */
  lemma {:induction false} WaitsFitTheWindow(p: Policy, chain: nat, fs: seq<Failure>)
    requires Honoured(p, chain, FRESH, fs)
    ensures Waits(Decisions(p, chain, FRESH, fs)) <= MaxReal(0.0, p.maxTotal)
  {
    hide Decisions, RunTo;
    WaitsStayFit(p, chain, fs);
  }

  // -- fallbacks in order ---------------------------------------------------------------------------------

  function Targets(ds: seq<Decision>): seq<int> {
    if ds == [] then []
    else Targets(ds[..|ds| - 1]) + if ds[|ds| - 1].Fallback? then [ds[|ds| - 1].target] else []
  }

  /** Each fallback target is entered at most once, and they are entered in chain order. */
  lemma {:induction false} FallbacksInOrder(p: Policy, chain: nat, fs: seq<Failure>)
    ensures var targets := Targets(Decisions(p, chain, FRESH, fs));
      && |targets| == RunTo(p, chain, FRESH, fs).chainIndex + 1 <= chain
      && forall k :: 0 <= k < |targets| ==> targets[k] == k
  {
    hide RetryDelay;
    if fs != [] {
      var n := |fs| - 1;
      FallbacksInOrder(p, chain, fs[..n]);
      DecisionsGrow(p, chain, FRESH, fs, n);
    }
  }

  lemma {:induction false} RunGoesOn(p: Policy, chain: nat, t: Tracker, a: seq<Failure>, b: seq<Failure>)
    ensures RunTo(p, chain, t, a + b) == RunTo(p, chain, RunTo(p, chain, t, a), b)
    decreases |b|
  {
    hide After;
    if b == [] {
      assert a + b == a;
    } else {
      RunGoesOn(p, chain, t, a, b[..|b| - 1]);
      assert (a + b)[..|a + b| - 1] == a + b[..|b| - 1];
    }
  }

  lemma {:induction false} DecisionAt(p: Policy, chain: nat, t: Tracker, fs: seq<Failure>, k: nat)
    requires k < |fs|
    ensures Decisions(p, chain, t, fs)[k] == Decide(p, chain, RunTo(p, chain, t, fs[..k]), fs[k])
    ensures RunTo(p, chain, t, fs[..k + 1]) == After(p, chain, RunTo(p, chain, t, fs[..k]), fs[k])
  {
    hide After, Decide;
    DecisionsGrow(p, chain, t, fs, k + 1);
    assert fs[..k + 1][..k] == fs[..k];
  }

  /** What is counted for a target are the failures since it was entered. */
  lemma {:induction false} CountsSinceEntered(p: Policy, chain: nat, t: Tracker, fs: seq<Failure>)
    requires t.onTarget >= 0
    ensures 0 <= RunTo(p, chain, t, fs).onTarget <= t.onTarget + Retryable(fs)
    ensures (forall k :: 0 <= k < |fs| ==> !Decisions(p, chain, t, fs)[k].Fallback?) ==>
      RunTo(p, chain, t, fs).onTarget == t.onTarget + Retryable(fs)
  {
    hide RetryDelay;
    if fs != [] {
      var front := fs[..|fs| - 1];
      CountsSinceEntered(p, chain, t, front);
      DecisionsGrow(p, chain, t, fs, |front|);
      if forall k :: 0 <= k < |fs| ==> !Decisions(p, chain, t, fs)[k].Fallback? {
        forall k | 0 <= k < |front| ensures !Decisions(p, chain, t, front)[k].Fallback? {
          assert Decisions(p, chain, t, front)[k] == Decisions(p, chain, t, fs)[k];
        }
        DecisionAt(p, chain, t, fs, |front|);
        assert !Decisions(p, chain, t, fs)[|front|].Fallback?;
      }
    }
  }

  /** Where the run stands at call k, seen from the state after call j. */
  lemma {:induction false} StandsAt(p: Policy, chain: nat, fs: seq<Failure>, j: int, k: nat)
    requires -1 <= j < k < |fs|
    ensures RunTo(p, chain, FRESH, fs[..k]) == RunTo(p, chain, RunTo(p, chain, FRESH, fs[..j + 1]), fs[j + 1..k])
    ensures Retryable(fs[j + 1..k + 1]) == Retryable(fs[j + 1..k]) + if fs[k].retryable then 1 else 0
  {
    assert fs[..k] == fs[..j + 1] + fs[j + 1..k];
    RunGoesOn(p, chain, FRESH, fs[..j + 1], fs[j + 1..k]);
    assert fs[j + 1..k + 1][..k - j - 1] == fs[j + 1..k];
  }

  lemma {:induction false} FallbackStartsOver(p: Policy, chain: nat, fs: seq<Failure>, j: int)
    requires -1 <= j < |fs| && (j >= 0 ==> Decisions(p, chain, FRESH, fs)[j].Fallback?)
    ensures RunTo(p, chain, FRESH, fs[..j + 1]).onTarget == 0
  {
    if j >= 0 {
      DecisionAt(p, chain, FRESH, fs, j);
      hide RetryDelay, RunTo;
    }
  }

  /**
   * Every target gets its share: from one fallback (or the start, j == -1) up to any later one there
   * are at least fallbackAfter retryable failures.
   */
  lemma {:induction false} TargetsGetTheirShare(p: Policy, chain: nat, fs: seq<Failure>, j: int, k: nat)
    requires -1 <= j < k < |fs|
    requires (j >= 0 ==> Decisions(p, chain, FRESH, fs)[j].Fallback?) && Decisions(p, chain, FRESH, fs)[k].Fallback?
    ensures Retryable(fs[j + 1..k + 1]) >= p.fallbackAfter
  {
    hide RunTo, Decisions, RetryDelay, Retryable;
    FallbackStartsOver(p, chain, fs, j);
    DecisionAt(p, chain, FRESH, fs, k);
    StandsAt(p, chain, fs, j, k);
    CountsSinceEntered(p, chain, RunTo(p, chain, FRESH, fs[..j + 1]), fs[j + 1..k]);
  }

  /** And no more than its share: it is retried once more only below fallbackAfter, or when nothing follows in the chain. */
  lemma {:induction false} NoMoreThanItsShare(p: Policy, chain: nat, fs: seq<Failure>, j: int, k: nat)
    requires -1 <= j < k < |fs| && (j >= 0 ==> Decisions(p, chain, FRESH, fs)[j].Fallback?)
    requires forall i :: j < i < k ==> !Decisions(p, chain, FRESH, fs)[i].Fallback?
    requires Decisions(p, chain, FRESH, fs)[k].Retry?
    ensures Retryable(fs[j + 1..k + 1]) < p.fallbackAfter || RunTo(p, chain, FRESH, fs[..k]).chainIndex + 1 >= chain
  {
    hide RunTo, RetryDelay, Retryable;
    FallbackStartsOver(p, chain, fs, j);
    DecisionAt(p, chain, FRESH, fs, k);
    StandsAt(p, chain, fs, j, k);
    var t, between := RunTo(p, chain, FRESH, fs[..j + 1]), fs[j + 1..k];
    forall i | 0 <= i < |between| ensures !Decisions(p, chain, t, between)[i].Fallback? {
      DecisionAt(p, chain, FRESH, fs, j + 1 + i);
      StandsAt(p, chain, fs, j, j + 1 + i);
      DecisionAt(p, chain, t, between, i);
      assert between[..i] == fs[j + 1..j + 1 + i];
    }
    hide Decisions;
    CountsSinceEntered(p, chain, t, between);
  }

  // -- the tracker object --------------------------------------------------------------------------------------

  class RecoveryTracker {
    const policy: Policy
    const chain: nat
    var attempts: int
    var startedAt: Option<real>
    var chainIndex: int
    var attemptsOnTarget: int

    function Now(): Tracker
      reads this
    {
      Tracker(attempts, startedAt, chainIndex, attemptsOnTarget)
    }

    ghost predicate Valid()
      reads this
    {
      Sane(Now(), chain)
    }

    constructor (policy: Policy, chain: nat)
      ensures Valid() && Now() == FRESH && this.policy == policy && this.chain == chain
    {
      this.policy, this.chain := policy, chain;
      attempts, startedAt, chainIndex, attemptsOnTarget := 0, None, -1, 0;
    }

    /** One call per failed attempt. */
    method Next(f: Failure) returns (d: Decision)
      requires Valid()
      modifies this
      ensures Valid() && Now() == After(policy, chain, old(Now()), f)
      ensures d == Decide(policy, chain, old(Now()), f)
    {
      hide RetryDelay;
      if !f.retryable {
        return Stop;
      }
      if startedAt.None? {
        startedAt := Some(f.now);
      }
      attempts, attemptsOnTarget := attempts + 1, attemptsOnTarget + 1;
      if f.delivered {
        return Ambiguous;
      }
      var remaining := startedAt.value + policy.maxTotal - f.now;
      if !policy.enabled || attempts >= policy.maxAttempts || remaining <= 0.0 {
        return Exhausted;
      }
      if attemptsOnTarget >= policy.fallbackAfter && chainIndex + 1 < chain {
        chainIndex, attemptsOnTarget := chainIndex + 1, 0;
        return Fallback(chainIndex);
      }
      var delay := RetryDelay(policy, attempts, f.retryAfter, f.chance);
      d := Retry(MaxReal(0.0, MinReal(delay, remaining)));
    }
  }
}
