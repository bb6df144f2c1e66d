/**
 * One update per interval, newest per target: the pacer under every interleaving of
 * submissions and the steps of its timer task.
 */
module Pacing {
  import opened Common

  /** The timer task: not there, created but not run yet, asleep, or waiting for its update to finish. */
  datatype Phase = NoTimer | Created | Sleeping(until: real) | Sending

  /** An update waiting for its target's slot; submissions are numbered as they come. */
  datatype Waiting = Waiting(key: string, id: nat)

  datatype Sent = Sent(at: real, key: string, id: nat)

  /** The pacer; `live` counts timer tasks, and sends and submitted record what happened. */
  datatype Pacer = Pacer(
    interval: real, clock: real, lastSent: Option<real>, pending: seq<Waiting>, phase: Phase, live: nat,
    sends: seq<Sent>, submitted: seq<string>)

  /** A waiting update of the same key is replaced where it stands; another key goes to the back. */
  function Put(pending: seq<Waiting>, key: string, id: nat): (r: seq<Waiting>)
    decreases pending
  {
    if pending == [] then [Waiting(key, id)]
    else if pending[0].key == key then [Waiting(key, id)] + pending[1..]
    else [pending[0]] + Put(pending[1..], key, id)
  }

  // -- the steps -----------------------------------------------------------------------

  predicate Due(m: Pacer, now: real) {
    m.pending == [] && m.phase.NoTimer? && (m.lastSent.None? || now - m.lastSent.value >= m.interval)
  }

  function Send(m: Pacer, now: real, key: string, id: nat): Pacer {
    m.(lastSent := Some(now), sends := m.sends + [Sent(now, key, id)])
  }

  function Submit(m: Pacer, now: real, key: string): Pacer {
    var id := |m.submitted|;
    var n := m.(submitted := m.submitted + [key]);
    if Due(m, now) then Send(n, now, key, id)
    else
      n.(pending := Put(m.pending, key, id),
         phase := if m.phase.NoTimer? then Created else m.phase,
         live := if m.phase.NoTimer? then m.live + 1 else m.live)
  }

  function Remaining(m: Pacer, now: real): real {
    if m.lastSent.None? then m.interval else MaxReal(0.0, m.interval - (now - m.lastSent.value))
  }

  /** The timer task ends; whoever still waits gets a new one. */
  function TimerEnds(m: Pacer): Pacer {
    if m.pending != [] then m.(phase := Created)
    else m.(phase := NoTimer, live := if m.live > 0 then m.live - 1 else 0)
  }

  /** The longest-waiting target's update goes out. */
  function Fire(m: Pacer, now: real): Pacer {
    if m.pending == [] then TimerEnds(m)
    else Send(m, now, m.pending[0].key, m.pending[0].id).(pending := m.pending[1..], phase := Sending)
  }

  datatype Step = Submits(key: string) | Starts | Wakes | Finishes

  datatype Event = Event(now: real, step: Step)

  /** A timer task sleeps at least as long as it asked to. */
  predicate MayHappen(m: Pacer, e: Event) {
    && e.now >= m.clock
    && match e.step
       case Submits(_) => true
       case Starts => m.phase.Created?
       case Wakes => m.phase.Sleeping? && e.now >= m.phase.until
       case Finishes => m.phase.Sending?
  }

  function After(m: Pacer, e: Event): Pacer {
    var n := m.(clock := e.now);
    match e.step
    case Submits(key) => Submit(n, e.now, key)
    case Starts =>
      if Remaining(n, e.now) > 0.0 then n.(phase := Sleeping(e.now + Remaining(n, e.now))) else Fire(n, e.now)
    case Wakes => Fire(n, e.now)
    case Finishes => TimerEnds(n)
  }

  function Run(m: Pacer, es: seq<Event>): Pacer {
    if es == [] then m else After(Run(m, es[..|es| - 1]), es[|es| - 1])
  }

  ghost predicate Happens(m: Pacer, es: seq<Event>) {
    es == [] || (Happens(m, es[..|es| - 1]) && MayHappen(Run(m, es[..|es| - 1]), es[|es| - 1]))
  }

  // -- pacing --------------------------------------------------------------------------------

  ghost predicate Spaced(m: Pacer) {
    && (forall i :: 0 < i < |m.sends| ==> m.sends[i].at - m.sends[i - 1].at >= m.interval)
    && (forall i :: 0 <= i < |m.sends| ==> m.sends[i].at <= m.clock)
    && m.lastSent == (if m.sends == [] then None else Some(m.sends[|m.sends| - 1].at))
  }

  /** One timer task at most, one whenever something waits, and it sleeps exactly to the end of the interval. */
  ghost predicate Timed(m: Pacer) {
    && m.interval > 0.0
    && m.live == (if m.phase.NoTimer? then 0 else 1)
    && (m.pending != [] ==> !m.phase.NoTimer?)
    && (m.phase.Created? || m.phase.Sleeping? ==> m.pending != [] && m.lastSent.Some?)
    && (m.phase.Sending? ==> m.lastSent.Some?)
    && (m.phase.Sleeping? ==> m.phase.until == m.lastSent.value + m.interval)
  }

  lemma SendKeepsSpacing(m: Pacer, now: real, key: string, id: nat)
    requires Spaced(m) && now >= m.clock && (m.lastSent.Some? ==> now - m.lastSent.value >= m.interval)
    ensures Spaced(Send(m.(clock := now), now, key, id))
  {
  }

  lemma {:induction false} PutKeepsSome(pending: seq<Waiting>, key: string, id: nat)
    ensures Put(pending, key, id) != []
  {
  }

  lemma SubmitKeepsPace(m: Pacer, now: real, key: string)
    requires Spaced(m) && Timed(m) && now >= m.clock
    ensures var n := Submit(m.(clock := now), now, key); Spaced(n) && Timed(n)
  {
    hide Put;
    PutKeepsSome(m.pending, key, |m.submitted|);
    if Due(m, now) {
      SendKeepsSpacing(m, now, key, |m.submitted|);
    }
  }

  lemma FireKeepsPace(m: Pacer, now: real)
    requires Spaced(m) && Timed(m) && now >= m.clock && m.pending != []
    requires m.lastSent.Some? && now - m.lastSent.value >= m.interval && !m.phase.NoTimer?
    ensures var n := Fire(m.(clock := now), now); Spaced(n) && Timed(n)
  {
  }

  /** At most one timer, sends an interval apart, after every step. */
  lemma StepKeepsPace(m: Pacer, e: Event)
    requires Spaced(m) && Timed(m) && MayHappen(m, e)
    ensures Spaced(After(m, e)) && Timed(After(m, e)) && After(m, e).interval == m.interval
  {
    hide Put, Spaced;
    var n := m.(clock := e.now);
    LaterStillSpaced(m, e.now);
    match e.step {
      case Submits(key) => SubmitKeepsPace(m, e.now, key);
      case Starts =>
        if Remaining(n, e.now) <= 0.0 {
          FireKeepsPace(m, e.now);
        } else {
          SameSends(n, After(m, e));
        }
      case Wakes => FireKeepsPace(m, e.now);
      case Finishes => SameSends(n, After(m, e));
    }
  }

  lemma LaterStillSpaced(m: Pacer, now: real)
    requires Spaced(m) && now >= m.clock
    ensures Spaced(m.(clock := now))
  {
  }

  lemma SameSends(m: Pacer, n: Pacer)
    requires Spaced(m) && n.sends == m.sends && n.clock == m.clock && n.interval == m.interval && n.lastSent == m.lastSent
    ensures Spaced(n)
  {
  }

  /** The interval has passed since every send so far. */
  ghost predicate Rested(m: Pacer, now: real) {
    forall i :: 0 <= i < |m.sends| ==> now - m.sends[i].at >= m.interval
  }

  lemma RestedSinceLast(m: Pacer, now: real)
    requires Spaced(m) && m.interval > 0.0
    ensures Rested(m, now) <==> m.lastSent.None? || now - m.lastSent.value >= m.interval
  {
    var n := |m.sends|;
    if n > 0 && now - m.sends[n - 1].at >= m.interval {
      forall i | 0 <= i < n ensures m.sends[i].at <= m.sends[n - 1].at {
        SendsAscend(m, i, n - 1);
      }
    }
  }

  lemma {:induction false} SendsAscend(m: Pacer, i: nat, k: nat)
    requires Spaced(m) && m.interval > 0.0 && i <= k < |m.sends|
    ensures m.sends[i].at <= m.sends[k].at
    decreases k
  {
    if i < k {
      SendsAscend(m, i, k - 1);
    }
  }

  /** A submission goes out at once exactly when nobody waits or is being sent and the interval has passed; else nothing does. */
  lemma GoesOutAtOnce(m: Pacer, now: real, key: string)
    requires Spaced(m) && Timed(m)
    ensures
      var n := After(m, Event(now, Submits(key)));
      if m.pending == [] && m.phase.NoTimer? && Rested(m, now)
        then n.sends == m.sends + [Sent(now, key, |m.submitted|)] && n.pending == [] && n.phase.NoTimer?
        else n.sends == m.sends && (m.phase.NoTimer? ==> n.phase.Created?) && (!m.phase.NoTimer? ==> n.phase == m.phase)
  {
    hide Spaced, Put;
    RestedSinceLast(m, now);
  }

  /**
   * The timer task sends the longest-waiting update as soon as the interval has passed: at once when it has,
   * and until then it sleeps to just that moment.
   */
  lemma TimerIsPunctual(m: Pacer, now: real)
    requires Spaced(m) && Timed(m) && m.phase.Created?
    ensures
      var n := After(m, Event(now, Starts));
      && m.pending != [] && m.sends != []
      && if Rested(m, now)
           then n.sends == m.sends + [Sent(now, m.pending[0].key, m.pending[0].id)] && n.phase.Sending?
           else n.sends == m.sends && n.pending == m.pending && n.phase == Sleeping(m.sends[|m.sends| - 1].at + m.interval)
  {
    RestedSinceLast(m, now);
  }

  /** Awake it sends; and once an update is out the next timer task is there if somebody waits, and none is if nobody does. */
  lemma TimerGoesOn(m: Pacer, now: real)
    requires Timed(m)
    ensures m.phase.Sleeping? ==>
      var n := After(m, Event(now, Wakes));
      && m.pending != [] && n.sends == m.sends + [Sent(now, m.pending[0].key, m.pending[0].id)]
      && n.pending == m.pending[1..] && n.phase.Sending?
    ensures m.phase.Sending? ==>
      var n := After(m, Event(now, Finishes));
      n.sends == m.sends && n.pending == m.pending && n.phase == if m.pending == [] then NoTimer else Created
  {
  }

  // -- nothing is lost ---------------------------------------------------------------------------

  ghost predicate WasSent(m: Pacer, i: nat) {
    exists s :: 0 <= s < |m.sends| && m.sends[s].id == i
  }

  ghost predicate IsPending(m: Pacer, i: nat) {
    exists p :: 0 <= p < |m.pending| && m.pending[p].id == i
  }

  ghost predicate Superseded(m: Pacer, i: nat)
    requires i < |m.submitted|
  {
    exists j :: i < j < |m.submitted| && m.submitted[j] == m.submitted[i]
  }

  /** Each key waits once, with the newest submission there is for it, and that one has not gone out. */
  ghost predicate Newest(m: Pacer, w: Waiting) {
    && w.id < |m.submitted| && m.submitted[w.id] == w.key
    && (forall j :: w.id < j < |m.submitted| ==> m.submitted[j] != w.key)
    && (forall s :: 0 <= s < |m.sends| ==> m.sends[s].id != w.id)
  }

  ghost predicate KeysDiffer(pending: seq<Waiting>) {
    forall p, q :: 0 <= p < q < |pending| ==> pending[p].key != pending[q].key
  }

  ghost predicate AllNewest(m: Pacer) {
    forall p :: 0 <= p < |m.pending| ==> Newest(m, m.pending[p])
  }

  ghost predicate SendsMatch(m: Pacer) {
    && (forall s :: 0 <= s < |m.sends| ==> m.sends[s].id < |m.submitted| && m.submitted[m.sends[s].id] == m.sends[s].key)
    && (forall s, t :: 0 <= s < t < |m.sends| ==> m.sends[s].id != m.sends[t].id)
  }

  ghost predicate NoneLost(m: Pacer) {
    forall i: nat :: i < |m.submitted| ==> WasSent(m, i) || IsPending(m, i) || Superseded(m, i)
  }

  ghost predicate Accounted(m: Pacer) {
    AllNewest(m) && KeysDiffer(m.pending) && SendsMatch(m) && NoneLost(m)
  }

  lemma {:induction false} PutReplaces(pending: seq<Waiting>, key: string, id: nat)
    requires KeysDiffer(pending)
    ensures KeysDiffer(Put(pending, key, id))
    ensures Waiting(key, id) in Put(pending, key, id)
    ensures forall w :: w in Put(pending, key, id) <==> w == Waiting(key, id) || (w in pending && w.key != key)
    decreases pending
  {
    if pending != [] {
      var tail := pending[1..];
      assert pending == [pending[0]] + tail;
      assert KeysDiffer(tail) by {
        assert forall p :: 0 <= p < |tail| ==> tail[p] == pending[p + 1];
      }
      assert forall w :: w in tail ==> w.key != pending[0].key by {
        OthersDiffer(pending);
      }
      if pending[0].key != key {
        PutReplaces(tail, key, id);
        ConsDiffers(pending[0], Put(tail, key, id));
      } else {
        ConsDiffers(Waiting(key, id), tail);
      }
    }
  }

  lemma OthersDiffer(pending: seq<Waiting>)
    requires KeysDiffer(pending) && pending != []
    ensures forall w :: w in pending[1..] ==> w.key != pending[0].key
  {
  }

  lemma ConsDiffers(w: Waiting, tail: seq<Waiting>)
    requires KeysDiffer(tail) && forall v :: v in tail ==> v.key != w.key
    ensures KeysDiffer([w] + tail)
  {
  }

  /** A new submission: what waited for its key is superseded, everything else is as before. */
  lemma AskingMore(m: Pacer, key: string, n: Pacer)
    requires Accounted(m) && n.submitted == m.submitted + [key]
    ensures forall i: nat :: i < |m.submitted| && Superseded(m, i) ==> Superseded(n, i)
    ensures forall i: nat :: i < |m.submitted| && m.submitted[i] == key ==> Superseded(n, i)
    ensures forall i: nat :: i < |m.submitted| ==> n.submitted[i] == m.submitted[i]
  {
    forall i: nat | i < |m.submitted| && Superseded(m, i) ensures Superseded(n, i) {
      var j :| i < j < |m.submitted| && m.submitted[j] == m.submitted[i];
      assert n.submitted[j] == n.submitted[i];
    }
    forall i: nat | i < |m.submitted| && m.submitted[i] == key ensures Superseded(n, i) {
      assert n.submitted[|m.submitted|] == key;
    }
  }

  lemma WaitersAreNewest(m: Pacer, now: real, key: string)
    requires Accounted(m) && !Due(m, now)
    ensures AllNewest(Submit(m, now, key)) && KeysDiffer(Submit(m, now, key).pending)
  {
    hide Put, NoneLost, KeysDiffer, Remaining;
    var n := Submit(m, now, key);
    var newest := Waiting(key, |m.submitted|);
    PutReplaces(m.pending, key, |m.submitted|);
    forall p | 0 <= p < |n.pending| ensures Newest(n, n.pending[p]) {
      assert n.pending[p] in n.pending;
      if n.pending[p] != newest {
        var q :| 0 <= q < |m.pending| && m.pending[q] == n.pending[p];
        assert Newest(m, m.pending[q]);
      }
    }
  }

  lemma WaiterStays(m: Pacer, now: real, key: string, i: nat)
    requires Accounted(m) && !Due(m, now) && i < |m.submitted| && IsPending(m, i) && m.submitted[i] != key
    ensures IsPending(Submit(m, now, key), i)
  {
    hide Put, NoneLost, SendsMatch, KeysDiffer;
    var n := Submit(m, now, key);
    PutReplaces(m.pending, key, |m.submitted|);
    var q :| 0 <= q < |m.pending| && m.pending[q].id == i;
    assert Newest(m, m.pending[q]);
    assert m.pending[q] in n.pending;
    var p :| 0 <= p < |n.pending| && n.pending[p] == m.pending[q];
  }

  lemma SubmitWaits(m: Pacer, now: real, key: string)
    requires Accounted(m) && !Due(m, now)
    ensures Accounted(Submit(m, now, key))
  {
    hide Put, Newest, KeysDiffer;
    var n := Submit(m, now, key);
    var id := |m.submitted|;
    WaitersAreNewest(m, now, key);
    AskingMore(m, key, n);
    forall i: nat | i < |n.submitted| ensures WasSent(n, i) || IsPending(n, i) || Superseded(n, i) {
      if i == id {
        PutReplaces(m.pending, key, id);
        var p :| 0 <= p < |n.pending| && n.pending[p] == Waiting(key, id);
        assert IsPending(n, i);
      } else if WasSent(m, i) {
        var s :| 0 <= s < |m.sends| && m.sends[s].id == i;
        assert n.sends[s].id == i;
      } else if IsPending(m, i) && m.submitted[i] != key {
        WaiterStays(m, now, key, i);
      }
    }
  }

  lemma SubmitGoesOut(m: Pacer, now: real, key: string)
    requires Accounted(m) && Due(m, now)
    ensures Accounted(Submit(m, now, key))
  {
    var n := Submit(m, now, key);
    AskingMore(m, key, n);
    forall i: nat | i < |n.submitted| ensures WasSent(n, i) || IsPending(n, i) || Superseded(n, i) {
      if i == |m.submitted| {
        assert n.sends[|m.sends|].id == i;
      } else if WasSent(m, i) {
        var s :| 0 <= s < |m.sends| && m.sends[s].id == i;
        assert n.sends[s].id == i;
      }
    }
  }

  lemma FiringLosesNone(m: Pacer, now: real, i: nat)
    requires NoneLost(m) && m.pending != [] && i < |m.submitted|
    ensures var n := Fire(m, now); WasSent(n, i) || IsPending(n, i) || Superseded(n, i)
  {
    var n := Fire(m, now);
    if WasSent(m, i) {
      var s :| 0 <= s < |m.sends| && m.sends[s].id == i;
      assert n.sends[s].id == i;
    } else if IsPending(m, i) {
      var q :| 0 <= q < |m.pending| && m.pending[q].id == i;
      if q == 0 {
        assert n.sends[|m.sends|].id == i;
      } else {
        assert n.pending[q - 1].id == i;
      }
    } else {
      assert Superseded(m, i);
    }
  }

  lemma FiringAccounts(m: Pacer, now: real)
    requires Accounted(m)
    ensures Accounted(Fire(m, now))
  {
    if m.pending == [] {
      SameAccounts(m, TimerEnds(m));
    } else {
      var n := Fire(m, now);
      assert Newest(m, m.pending[0]);
      forall p | 0 <= p < |n.pending| ensures Newest(n, n.pending[p]) {
        assert Newest(m, m.pending[p + 1]);
      }
      hide WasSent, IsPending, Superseded;
      forall i: nat | i < |n.submitted| ensures WasSent(n, i) || IsPending(n, i) || Superseded(n, i) {
        FiringLosesNone(m, now, i);
      }
    }
  }

  /** Every submission has gone out, waits, or was superseded by a later one for its key. */
  lemma StepAccounts(m: Pacer, e: Event)
    requires Accounted(m)
    ensures Accounted(After(m, e))
  {
    hide Accounted;
    var n := m.(clock := e.now);
    SameAccounts(m, n);
    match e.step {
      case Submits(key) =>
        if Due(n, e.now) {
          SubmitGoesOut(n, e.now, key);
        } else {
          SubmitWaits(n, e.now, key);
        }
      case Starts =>
        FiringAccounts(n, e.now);
        SameAccounts(n, n.(phase := Sleeping(e.now + Remaining(n, e.now))));
      case Wakes => FiringAccounts(n, e.now);
      case Finishes => SameAccounts(n, TimerEnds(n));
    }
  }

  lemma SameAccounts(m: Pacer, n: Pacer)
    requires Accounted(m) && m.pending == n.pending && m.sends == n.sends && m.submitted == n.submitted
    ensures Accounted(n)
  {
    forall p | 0 <= p < |n.pending| ensures Newest(n, n.pending[p]) {
      assert Newest(m, m.pending[p]);
    }
    forall i: nat | i < |n.submitted| ensures WasSent(n, i) || IsPending(n, i) || Superseded(n, i) {
      assert WasSent(m, i) || IsPending(m, i) || Superseded(m, i);
    }
  }

  // -- every run ------------------------------------------------------------------------------------

  function Opened(interval: real, now: real): Pacer {
    Pacer(interval, now, None, [], NoTimer, 0, [], [])
  }

  lemma OpensWell(interval: real, now: real)
    requires interval > 0.0
    ensures var m := Opened(interval, now); Spaced(m) && Timed(m) && Accounted(m)
  {
  }

  /**
   * Over every interleaving: at most one timer task lives, sends are at least the interval apart,
   * and every submission has gone out once, waits, or was superseded by a later one for its key.
   */
  lemma {:induction false} RunKeepsPace(m: Pacer, es: seq<Event>)
    requires Spaced(m) && Timed(m) && Accounted(m) && Happens(m, es)
    ensures var n := Run(m, es); Spaced(n) && Timed(n) && Accounted(n) && n.interval == m.interval
  {
    hide Spaced, Timed, Accounted, After, MayHappen;
    if es != [] {
      RunKeepsPace(m, es[..|es| - 1]);
      StepKeepsPace(Run(m, es[..|es| - 1]), es[|es| - 1]);
      StepAccounts(Run(m, es[..|es| - 1]), es[|es| - 1]);
    }
  }

  /** While anything waits a timer task is there to send it. */
  lemma {:induction false} WaitingHasATimer(m: Pacer, es: seq<Event>)
    requires Spaced(m) && Timed(m) && Accounted(m) && Happens(m, es)
    ensures Run(m, es).pending != [] ==> Run(m, es).live == 1 && !Run(m, es).phase.NoTimer?
  {
    hide Spaced, Accounted, Run;
    RunKeepsPace(m, es);
  }

  // -- waiting one's turn -------------------------------------------------------------------------------

  lemma {:induction false} PutKeepsPlaces(pending: seq<Waiting>, key: string, id: nat)
    ensures |Put(pending, key, id)| >= |pending|
    ensures forall p :: 0 <= p < |pending| ==> Put(pending, key, id)[p].key == pending[p].key
    decreases pending
  {
    if pending != [] && pending[0].key != key {
      PutKeepsPlaces(pending[1..], key, id);
    }
  }

  /** After `sent` more sends the key stands that much further ahead, or was the one to go out. */
  ghost predicate Advances(m: Pacer, n: Pacer, key: string, j: nat) {
    var sent := |n.sends| - |m.sends|;
    && sent >= 0 && n.sends[..|m.sends|] == m.sends
    && if sent <= j then j - sent < |n.pending| && n.pending[j - sent].key == key
       else n.sends[|m.sends| + j].key == key
  }

  lemma StepAdvances(m: Pacer, e: Event, key: string, j: nat)
    requires j < |m.pending| && m.pending[j].key == key
    ensures Advances(m, After(m, e), key, j)
  {
    if e.step.Submits? {
      PutKeepsPlaces(m.pending, e.step.key, |m.submitted|);
    }
  }

  lemma AfterOnlyAdds(m: Pacer, e: Event)
    ensures |After(m, e).sends| >= |m.sends| && After(m, e).sends[..|m.sends|] == m.sends
  {
  }

  /** A key with j others ahead is the one sent in the j+1st slot at the latest, whatever is submitted meanwhile. */
  lemma {:induction false} TurnComes(m: Pacer, es: seq<Event>, key: string, j: nat)
    requires j < |m.pending| && m.pending[j].key == key
    ensures Advances(m, Run(m, es), key, j)
  {
    hide After;
    if es == [] {
      assert m.sends[..|m.sends|] == m.sends;
    } else {
      var n := Run(m, es[..|es| - 1]);
      var e := es[|es| - 1];
      TurnComes(m, es[..|es| - 1], key, j);
      AfterOnlyAdds(n, e);
      var sent := |n.sends| - |m.sends|;
      if sent <= j {
        StepAdvances(n, e, key, j - sent);
      } else {
        assert After(n, e).sends[|m.sends| + j] == n.sends[|m.sends| + j];
      }
      assert After(n, e).sends[..|m.sends|] == After(n, e).sends[..|n.sends|][..|m.sends|];
    }
  }

  // -- the pacer object ---------------------------------------------------------------------------------

  class UpdatePacer {
    const interval: real
    var lastSent: Option<real>
    var pending: seq<Waiting>
    var timer: Phase
    ghost var clock: real
    ghost var live: nat
    ghost var sends: seq<Sent>
    ghost var submissions: seq<string>
    /** The number of submissions so far: what tells two updates apart. */
    var count: nat

    ghost function State(): Pacer
      reads this
    {
      Pacer(interval, clock, lastSent, pending, timer, live, sends, submissions)
    }

    ghost predicate Valid()
      reads this
    {
      Spaced(State()) && Timed(State()) && Accounted(State()) && count == |submissions|
    }

    constructor (interval: real, ghost now: real)
      requires interval > 0.0
      ensures Valid() && State() == Opened(interval, now)
    {
      this.interval, clock := interval, now;
      lastSent, pending, timer, count := None, [], NoTimer, 0;
      live, sends, submissions := 0, [], [];
      new;
      OpensWell(interval, now);
    }

    /** Sends the update now, or holds it as the next one for its key. */
    method SubmitUpdate(now: real, key: string)
      requires Valid() && now >= clock
      modifies this
      ensures Valid() && State() == After(old(State()), Event(now, Submits(key)))
    {
      ghost var before := State();
      StepKeepsPace(before, Event(now, Submits(key)));
      StepAccounts(before, Event(now, Submits(key)));
      hide Spaced, Timed, Accounted, Put;
      clock, submissions := now, submissions + [key];
      var id := count;
      count := count + 1;
      if pending == [] && timer.NoTimer? && (lastSent.None? || now - lastSent.value >= interval) {
        RunUpdate(now, Waiting(key, id));
      } else {
        pending := Put(pending, key, id);
        EnsureTimer();
      }
    }

    /** The slot is spent whether or not the update succeeds. */
    method RunUpdate(now: real, w: Waiting)
      modifies this`lastSent, this`sends
      ensures lastSent == Some(now) && sends == old(sends) + [Sent(now, w.key, w.id)]
    {
      lastSent := Some(now);
      sends := sends + [Sent(now, w.key, w.id)];
    }

    method EnsureTimer()
      modifies this`timer, this`live
      ensures timer == if old(timer).NoTimer? then Created else old(timer)
      ensures live == if old(timer).NoTimer? then old(live) + 1 else old(live)
    {
      if timer.NoTimer? {
        timer, live := Created, live + 1;
      }
    }

    /** The timer task runs up to its sleep, or straight into sending. */
    method TimerStarts(now: real)
      requires Valid() && MayHappen(State(), Event(now, Starts))
      modifies this
      ensures Valid() && State() == After(old(State()), Event(now, Starts))
    {
      ghost var before := State();
      StepKeepsPace(before, Event(now, Starts));
      StepAccounts(before, Event(now, Starts));
      hide Spaced, Accounted;
      clock := now;
      var remaining := if lastSent.None? then interval else MaxReal(0.0, interval - (now - lastSent.value));
      if remaining > 0.0 {
        timer := Sleeping(now + remaining);
      } else {
        SendNext(now);
      }
    }

    method TimerWakes(now: real)
      requires Valid() && MayHappen(State(), Event(now, Wakes))
      modifies this
      ensures Valid() && State() == After(old(State()), Event(now, Wakes))
    {
      ghost var before := State();
      StepKeepsPace(before, Event(now, Wakes));
      StepAccounts(before, Event(now, Wakes));
      hide Spaced, Accounted;
      clock := now;
      SendNext(now);
    }

    method SendNext(now: real)
      requires Timed(State())
      modifies this
      ensures State() == Fire(old(State()), now) && count == old(count)
    {
      if pending == [] {
        Finish();
        return;
      }
      var next := pending[0];
      pending := pending[1..];
      RunUpdate(now, next);
      timer := Sending;
    }

    /** The update has finished: the timer task ends, and another target still waiting gets the next slot. */
    method TimerFinishes(now: real)
      requires Valid() && MayHappen(State(), Event(now, Finishes))
      modifies this
      ensures Valid() && State() == After(old(State()), Event(now, Finishes))
    {
      ghost var before := State();
      StepKeepsPace(before, Event(now, Finishes));
      StepAccounts(before, Event(now, Finishes));
      hide Spaced, Accounted;
      clock := now;
      Finish();
    }

    method Finish()
      requires live == if timer.NoTimer? then 0 else 1
      requires pending != [] ==> live == 1
      modifies this`timer, this`live
      ensures State() == TimerEnds(old(State()))
    {
      timer, live := NoTimer, if live > 0 then live - 1 else 0;
      if pending != [] {
        EnsureTimer();
      }
    }
  }
}
