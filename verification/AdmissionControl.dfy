/** The controller object itself: each method takes one step of the admission machine. */
module AdmissionControl {
  import opened Common
  import opened Admission

  class AdmissionController {
    var capacity: int
    var reserve: int
    var held: Slots
    var waiting: seq<Waiter>
    var counter: nat
    var fairness: map<string, Fairness>
    /** Resolved futures whose requests have not resumed yet. */
    var granted: map<nat, Waiter>
    /** How many reservations of each kind are marked as held. */
    var holding: Slots

    function State(): Host
      reads this
    {
      Host(capacity, reserve, held, waiting, counter, fairness, granted, holding)
    }

    ghost predicate Valid()
      reads this
    {
      Sound(State()) && Quiet(State())
    }

    constructor (capacity: int, reserve: int, fairness: map<string, Fairness>)
      requires capacity >= 1 && 0 <= reserve < capacity
      ensures Valid() && State() == Opened(capacity, reserve, fairness)
    {
      this.capacity, this.reserve, this.fairness := capacity, reserve, fairness;
      held, holding, waiting, counter, granted := Slots(0, 0, 0), Slots(0, 0, 0), [], 0, map[];
      new;
      OpensSound(capacity, reserve, fairness);
    }

    /** A chat, or a request that finds room and no line, is admitted at once; others get in line. */
    method Acquire(kind: SlotKind, build: string, unblocks: int) returns (place: Option<nat>)
      requires Valid()
      modifies this
      ensures Valid() && State() == Step(old(State()), Request(kind, build, unblocks))
      ensures place.None? <==> holding != old(holding)
      ensures place.Some? ==> StillWaits(State(), place.value) || place.value in granted
    {
      hide Sound, Quiet, Wake, Decisions, StillWaits;
      ghost var before, op := State(), Request(kind, build, unblocks);
      StepKeeps(before, op);
      if kind.ChatSlot? || (waiting == [] && RoomFor(State(), kind)) {
        held, holding := held.Plus(kind, 1), holding.Plus(kind, 1);
        if !kind.ChatSlot? {
          fairness := Admitted(fairness, build);
        }
        return None;
      }
      counter := counter + 1;
      waiting := waiting + [Waiter(kind, build, unblocks, counter, FairnessOf(fairness, build).passedOver, false)];
      ghost var queued := State();
      assert queued == Before(before, op);
      NewestWaits(queued);
      WakeKeepsHolding(queued);
      WakeForgetsNobody(queued, counter);
      WakeKeepsCounter(queued);
      WakeLine();
      place := Some(counter);
    }

    /** The request's task is cancelled while it still waits: its future is, too. */
    method CancelWaiting(order: nat)
      requires Valid()
      modifies this
      ensures Valid() && State() == Step(old(State()), Cancel(order))
    {
      StepKeeps(State(), Cancel(order));
      waiting := Cancelled(waiting, order);
    }

    /** The request runs on with the slot it was given. */
    method Resumed(order: nat)
      requires Valid() && order in granted
      modifies this
      ensures Valid() && State() == Step(old(State()), Resume(order))
    {
      StepKeeps(State(), Resume(order));
      var w := granted[order];
      granted, holding := granted - {order}, holding.Plus(w.kind, 1);
      fairness := Admitted(fairness, w.build);
    }

    /** The request ends by cancellation: it leaves the line, or gives back a slot just given. */
    method Abandoned(order: nat)
      requires Valid()
      modifies this
      ensures Valid() && State() == Step(old(State()), Abandon(order))
    {
      ghost var before := State();
      StepKeeps(before, Abandon(order));
      if InLine(waiting, order) {
        waiting := Without(waiting, order);
      } else if order in granted {
        held, granted := held.Plus(granted[order].kind, -1), granted - {order};
        assert State() == Before(before, Abandon(order));
        WakeLine();
      }
    }

    method Released(kind: SlotKind)
      requires Valid()
      modifies this
      ensures Valid() && State() == Step(old(State()), Release(kind))
      ensures old(holding).Of(kind) > 0 ==> holding == old(holding).Plus(kind, -1)
    {
      hide Sound, Quiet, Wake, Conserves;
      ghost var before := State();
      StepKeeps(before, Release(kind));
      if holding.Of(kind) > 0 {
        holding := holding.Plus(kind, -1);
        held := held.Plus(kind, Max(0, held.Of(kind) - 1) - held.Of(kind));
        assert State() == Before(before, Release(kind));
        WakeKeepsHolding(State());
        WakeLine();
      }
    }

    /** Held slots stay held; the reserve shrinks with the ceiling; an impossible ceiling is refused. */
    method ChangeCapacity(c: int) returns (accepted: bool)
      requires Valid()
      modifies this
      ensures Valid() && State() == Step(old(State()), SetCapacity(c))
      ensures accepted <==> c >= 1
      ensures !accepted ==> State() == old(State())
    {
      ghost var before := State();
      StepKeeps(before, SetCapacity(c));
      accepted := c >= 1;
      if accepted {
        capacity, reserve := c, Min(reserve, c - 1);
        assert State() == Before(before, SetCapacity(c));
        WakeLine();
      }
    }

    /** Admit the best waiter while there is room. */
    method WakeLine()
      requires Sound(State())
      modifies this
      ensures State() == Wake(old(State()))
      ensures Valid()
    {
      WakeKeeps(State());
      hide Sound, Quiet, Choose, RoomFor;
      while waiting != []
        invariant Wake(State()) == Wake(old(State()))
        invariant counter == old(counter)
        decreases |waiting|
      {
        ghost var before := State();
        waiting := Live(waiting);
        assert State() == Swept(before);
        var chosen := Choose(State());
        if chosen.None? || !RoomFor(State(), chosen.value.kind) {
          return;
        }
        GrantShortens(State(), chosen.value);
        GrantTo(chosen.value);
      }
    }

    method GrantTo(chosen: Waiter)
      modifies this
      ensures State() == Grant(old(State()), chosen)
    {
      hide Without, NotePassed;
      waiting := Without(waiting, chosen.order);
      PassOthers(chosen.build);
      held := held.Plus(chosen.kind, 1);
      granted := granted[chosen.order := chosen];
    }

    /** Everyone of another build still in line has been passed over once more, on disk too. */
    method PassOthers(build: string)
      modifies this
      ensures State() == old(State()).(waiting := PassOver(old(waiting), build), fairness := NotePassed(old(fairness), old(waiting), build))
    {
      hide NotePassed, FairnessOf;
      ghost var line, start := waiting, State();
      assert line[0..] == line;
      for i := 0 to |waiting|
        invariant |waiting| == |line|
        invariant forall k :: 0 <= k < i ==> waiting[k] == PassOver(line, build)[k]
        invariant forall k :: i <= k < |line| ==> waiting[k] == line[k]
        invariant NotePassed(fairness, line[i..], build) == NotePassed(start.fairness, line, build)
        invariant State() == start.(waiting := waiting, fairness := fairness)
      {
        NoteNext(fairness, line, i, build);
        var other := waiting[i];
        if other.build != build {
          var passed := other.(passedOver := other.passedOver + 1);
          waiting := waiting[i := passed];
          fairness := fairness[other.build := Fairness(FairnessOf(fairness, other.build).admitted, passed.passedOver)];
        }
      }
      assert line[|line|..] == [];
      NoteNobody(fairness, build);
      assert waiting == PassOver(line, build);
    }
  }

  lemma {:induction false} NoteNext(fairness: map<string, Fairness>, line: seq<Waiter>, i: nat, build: string)
    requires i < |line|
    ensures NotePassed(fairness, line[i..], build) ==
      NotePassed(if line[i].build == build then fairness
                 else fairness[line[i].build := Fairness(FairnessOf(fairness, line[i].build).admitted, line[i].passedOver + 1)],
                 line[i + 1..], build)
  {
  }

  lemma {:induction false} NoteNobody(fairness: map<string, Fairness>, build: string)
    ensures NotePassed(fairness, [], build) == fairness
  {
  }

  lemma NewestWaits(h: Host)
    requires Sound(h) && h.waiting != []
    requires h.waiting[|h.waiting| - 1].order == h.counter && !h.waiting[|h.waiting| - 1].cancelled
    ensures StillWaits(h, h.counter)
  {
  }
}
