/**
 * Slots of one host shared by every build: who waits, who is chosen, and what the
 * counters promise over every interleaving of requests, wake-ups, cancellations,
 * releases and capacity changes.
 */
module Admission {
  import opened Common

  /** Passed over this many times, a build's next request goes first. */
  const AGE_LIMIT: int := 3

  datatype SlotKind = TaskSlot | ReviewSlot | ChatSlot

  datatype Slots = Slots(tasks: int, reviews: int, chats: int) {
    function Of(k: SlotKind): int {
      match k
      case TaskSlot => tasks
      case ReviewSlot => reviews
      case ChatSlot => chats
    }

    function Plus(k: SlotKind, n: int): Slots {
      match k
      case TaskSlot => this.(tasks := tasks + n)
      case ReviewSlot => this.(reviews := reviews + n)
      case ChatSlot => this.(chats := chats + n)
    }

    function Total(): int {
      tasks + reviews + chats
    }
  }

  datatype Fairness = Fairness(admitted: int, passedOver: int)

  /** A request in line. Its place (order) is unique; a cancelled one stays until swept or resumed. */
  datatype Waiter = Waiter(
    kind: SlotKind, build: string, unblocks: int, order: nat, passedOver: int, cancelled: bool)

  /**
   * The controller, the futures it has resolved for requests that have not resumed yet
   * (granted), and how many reservations hold a slot of each kind (holding).
   */
  datatype Host = Host(
    capacity: int, reserve: int, held: Slots, waiting: seq<Waiter>, counter: nat,
    fairness: map<string, Fairness>, granted: map<nat, Waiter>, holding: Slots)

  function FairnessOf(fairness: map<string, Fairness>, build: string): Fairness {
    if build in fairness then fairness[build] else Fairness(0, 0)
  }

  predicate RoomFor(h: Host, kind: SlotKind) {
    match kind
    case ChatSlot => true
    case ReviewSlot => h.held.Total() < h.capacity
    case TaskSlot => h.held.Total() < h.capacity - h.reserve
  }

  // -- choosing -------------------------------------------------------------------

  predicate Starving(w: Waiter) {
    w.passedOver >= AGE_LIMIT
  }

  /** Reviews first, then whatever unblocks the most, then whoever came first. */
  predicate GoesBefore(a: Waiter, b: Waiter) {
    if a.kind.ReviewSlot? != b.kind.ReviewSlot? then a.kind.ReviewSlot?
    else if a.unblocks != b.unblocks then a.unblocks > b.unblocks
    else a.order < b.order
  }

  function Only(line: seq<Waiter>, p: Waiter -> bool): (r: seq<Waiter>)
    ensures |r| <= |line|
    ensures forall w :: w in r <==> w in line && p(w)
  {
    if line == [] then []
    else
      assert line == [line[0]] + line[1..];
      (if p(line[0]) then [line[0]] else []) + Only(line[1..], p)
  }

  function First(pool: seq<Waiter>): (w: Waiter)
    requires pool != []
    ensures w in pool
    ensures forall v :: v in pool ==> !GoesBefore(v, w)
  {
    if |pool| == 1 then pool[0]
    else
      assert pool == [pool[0]] + pool[1..];
      var rest := First(pool[1..]);
      if GoesBefore(rest, pool[0]) then rest else pool[0]
  }

  /** The waiter to admit next, if any of them has room. */
  function Choose(h: Host): (chosen: Option<Waiter>)
    ensures chosen.None? <==> forall w :: w in h.waiting ==> !RoomFor(h, w.kind)
    ensures chosen.Some? ==> chosen.value in h.waiting && RoomFor(h, chosen.value.kind)
  {
    var eligible := Only(h.waiting, (w: Waiter) => RoomFor(h, w.kind));
    if eligible == [] then
      assert forall w :: w in h.waiting && RoomFor(h, w.kind) ==> w in eligible;
      None
    else
      var starving := Only(eligible, Starving);
      assert eligible[0] in eligible;
      Some(First(if starving != [] then starving else eligible))
  }

  /**
   * Nobody with room has a better claim than the chosen waiter: a starving one is beaten
   * only by a starving one, and among equals reviews, unblocked work and age decide.
   */
  ghost predicate FairlyChosen(h: Host, chosen: Waiter) {
    && chosen in h.waiting && RoomFor(h, chosen.kind)
    && forall w :: w in h.waiting && RoomFor(h, w.kind) ==>
      && (Starving(w) ==> Starving(chosen))
      && (Starving(w) == Starving(chosen) ==> !GoesBefore(w, chosen))
  }

  lemma ChooseIsFair(h: Host)
    requires Choose(h).Some?
    ensures FairlyChosen(h, Choose(h).value)
  {
  }

  // -- waking ----------------------------------------------------------------------

  predicate StillLive(w: Waiter) {
    !w.cancelled
  }

  /** The line without the requests cancelled meanwhile. */
  function Live(line: seq<Waiter>): seq<Waiter> {
    Only(line, StillLive)
  }

  function Without(line: seq<Waiter>, order: nat): (r: seq<Waiter>)
    ensures |r| <= |line|
    ensures (exists w :: w in line && w.order == order) ==> |r| < |line|
    ensures forall w :: w in r ==> w in line
  {
    if line == [] then []
    else
      assert line == [line[0]] + line[1..];
      if line[0].order == order then line[1..] else [line[0]] + Without(line[1..], order)
  }

  /** Every waiter of another build is passed over once more. */
  function PassOver(line: seq<Waiter>, build: string): (r: seq<Waiter>)
    ensures |r| == |line|
    ensures forall i :: 0 <= i < |line| ==>
      r[i] == if line[i].build == build then line[i] else line[i].(passedOver := line[i].passedOver + 1)
  {
    seq(|line|, i requires 0 <= i < |line| =>
      if line[i].build == build then line[i] else line[i].(passedOver := line[i].passedOver + 1))
  }

  function NotePassed(fairness: map<string, Fairness>, line: seq<Waiter>, build: string): map<string, Fairness>
    decreases line
  {
    if line == [] then fairness
    else if line[0].build == build then NotePassed(fairness, line[1..], build)
    else
      var noted := Fairness(FairnessOf(fairness, line[0].build).admitted, line[0].passedOver + 1);
      NotePassed(fairness[line[0].build := noted], line[1..], build)
  }

  /** The chosen waiter leaves the line with a slot; the others of other builds have been passed over. */
  function Grant(h: Host, w: Waiter): Host {
    var rest := Without(h.waiting, w.order);
    h.(waiting := PassOver(rest, w.build),
       fairness := NotePassed(h.fairness, rest, w.build),
       held := h.held.Plus(w.kind, 1),
       granted := h.granted[w.order := w])
  }

  function Swept(h: Host): Host {
    h.(waiting := Live(h.waiting))
  }

  function Wake(h: Host): Host
    decreases |h.waiting|
  {
    if h.waiting == [] then h
    else
      var s := Swept(h);
      var chosen := Choose(s);
      if chosen.None? then s else Wake(Grant(s, chosen.value))
  }

  /** One admission from the line: the host as it stood and the waiter it chose. */
  datatype Decision = Decision(at: Host, chosen: Waiter)

  ghost function Decisions(h: Host): seq<Decision>
    decreases |h.waiting|
  {
    if h.waiting == [] then []
    else
      var s := Swept(h);
      var chosen := Choose(s);
      if chosen.None? then [] else [Decision(s, chosen.value)] + Decisions(Grant(s, chosen.value))
  }

  // -- the steps -----------------------------------------------------------------------

  datatype Op =
    | Request(kind: SlotKind, build: string, unblocks: int)
    | Cancel(order: nat)
    | Resume(order: nat)
    | Abandon(order: nat)
    | Release(kind: SlotKind)
    | SetCapacity(capacity: int)

  function Cancelled(line: seq<Waiter>, order: nat): (r: seq<Waiter>)
    ensures |r| == |line|
    ensures forall i :: 0 <= i < |line| ==>
      r[i] == if line[i].order == order then line[i].(cancelled := true) else line[i]
  {
    seq(|line|, i requires 0 <= i < |line| =>
      if line[i].order == order then line[i].(cancelled := true) else line[i])
  }

  predicate InLine(line: seq<Waiter>, order: nat) {
    exists i :: 0 <= i < |line| && line[i].order == order
  }

  /** The host just before a step lets waiters in; only a Wake may follow. */
  function Before(h: Host, op: Op): Host {
    match op
    case Request(kind, build, unblocks) =>
      if kind.ChatSlot? || (h.waiting == [] && RoomFor(h, kind)) then
        h.(held := h.held.Plus(kind, 1), holding := h.holding.Plus(kind, 1),
           fairness := if kind.ChatSlot? then h.fairness else Admitted(h.fairness, build))
      else
        var w := Waiter(kind, build, unblocks, h.counter + 1, FairnessOf(h.fairness, build).passedOver, false);
        h.(counter := h.counter + 1, waiting := h.waiting + [w])
    case Cancel(order) => h.(waiting := Cancelled(h.waiting, order))
    case Resume(order) =>
      if order !in h.granted then h
      else
        var w := h.granted[order];
        h.(granted := h.granted - {order}, holding := h.holding.Plus(w.kind, 1),
           fairness := Admitted(h.fairness, w.build))
    case Abandon(order) =>
      if InLine(h.waiting, order) then h.(waiting := Without(h.waiting, order))
      else if order !in h.granted then h
      else h.(granted := h.granted - {order}, held := h.held.Plus(h.granted[order].kind, -1))
    case Release(kind) =>
      if h.holding.Of(kind) <= 0 then h
      else h.(held := h.held.Plus(kind, Max(0, h.held.Of(kind) - 1) - h.held.Of(kind)),
              holding := h.holding.Plus(kind, -1))
    case SetCapacity(c) =>
      if c < 1 then h else h.(capacity := c, reserve := Min(h.reserve, c - 1))
  }

  function Admitted(fairness: map<string, Fairness>, build: string): map<string, Fairness> {
    fairness[build := Fairness(FairnessOf(fairness, build).admitted + 1, 0)]
  }

  /** Whether the step goes on to examine the line. */
  predicate Wakes(h: Host, op: Op) {
    match op
    case Request(kind, _, _) => !(kind.ChatSlot? || (h.waiting == [] && RoomFor(h, kind)))
    case Cancel(_) => false
    case Resume(_) => false
    case Abandon(order) => !InLine(h.waiting, order) && order in h.granted
    case Release(kind) => h.holding.Of(kind) > 0
    case SetCapacity(c) => c >= 1
  }

  function Step(h: Host, op: Op): Host {
    if Wakes(h, op) then Wake(Before(h, op)) else Before(h, op)
  }

  ghost function StepLog(h: Host, op: Op): seq<Decision> {
    if Wakes(h, op) then Decisions(Before(h, op)) else []
  }

  function Run(h: Host, ops: seq<Op>): Host
    decreases ops
  {
    if ops == [] then h else Run(Step(h, ops[0]), ops[1..])
  }

  ghost function RunLog(h: Host, ops: seq<Op>): seq<Decision>
    decreases ops
  {
    if ops == [] then [] else StepLog(h, ops[0]) + RunLog(Step(h, ops[0]), ops[1..])
  }

  // -- what every step keeps -------------------------------------------------------------

  ghost predicate InOrder(line: seq<Waiter>, last: nat) {
    && (forall i, j :: 0 <= i < j < |line| ==> line[i].order < line[j].order)
    && (forall i :: 0 <= i < |line| ==> line[i].order <= last && !line[i].kind.ChatSlot?)
  }

  ghost function GrantedSet(granted: map<nat, Waiter>, kind: SlotKind): set<nat> {
    set o | o in granted && granted[o].kind == kind
  }

  ghost function GrantedOf(granted: map<nat, Waiter>, kind: SlotKind): nat {
    |GrantedSet(granted, kind)|
  }

  ghost predicate Conserves(h: Host, kind: SlotKind) {
    h.holding.Of(kind) >= 0 && h.held.Of(kind) == h.holding.Of(kind) + GrantedOf(h.granted, kind)
  }

  /** The line is in arrival order, and every held slot is accounted for. */
  ghost predicate Sound(h: Host) {
    && h.capacity >= 1 && 0 <= h.reserve < h.capacity
    && InOrder(h.waiting, h.counter)
    && (forall o :: o in h.granted ==> o <= h.counter && !h.granted[o].kind.ChatSlot?)
    && (forall i :: 0 <= i < |h.waiting| ==> h.waiting[i].order !in h.granted)
    && (forall kind :: Conserves(h, kind))
  }

  /** Nobody who still wants a slot is kept waiting beside room for it. */
  ghost predicate Quiet(h: Host) {
    forall i :: 0 <= i < |h.waiting| && !h.waiting[i].cancelled ==> !RoomFor(h, h.waiting[i].kind)
  }

  lemma GrantedGrows(granted: map<nat, Waiter>, o: nat, w: Waiter, kind: SlotKind)
    requires o !in granted
    ensures GrantedOf(granted[o := w], kind) == GrantedOf(granted, kind) + if w.kind == kind then 1 else 0
  {
    var before := GrantedSet(granted, kind);
    assert GrantedSet(granted[o := w], kind) == if w.kind == kind then before + {o} else before;
  }

  lemma GrantedShrinks(granted: map<nat, Waiter>, o: nat, kind: SlotKind)
    requires o in granted
    ensures GrantedOf(granted - {o}, kind) == GrantedOf(granted, kind) - if granted[o].kind == kind then 1 else 0
  {
    var before := GrantedSet(granted, kind);
    assert GrantedSet(granted - {o}, kind) == before - {o};
    assert o in before <==> granted[o].kind == kind;
  }

  lemma TailInOrder(line: seq<Waiter>, last: nat)
    requires InOrder(line, last) && line != []
    ensures InOrder(line[1..], last)
    ensures forall w :: w in line[1..] ==> w.order > line[0].order
    ensures forall w :: w in line <==> w == line[0] || w in line[1..]
  {
  }

  lemma ConsInOrder(w: Waiter, tail: seq<Waiter>, last: nat)
    requires InOrder(tail, last) && w.order <= last && !w.kind.ChatSlot?
    requires forall v :: v in tail ==> v.order > w.order
    ensures InOrder([w] + tail, last)
  {
  }

  lemma {:induction false} OnlyInOrder(line: seq<Waiter>, p: Waiter -> bool, last: nat)
    requires InOrder(line, last)
    ensures InOrder(Only(line, p), last)
  {
    hide InOrder;
    if line == [] {
    } else {
      TailInOrder(line, last);
      OnlyInOrder(line[1..], p, last);
      HeadInOrder(line, last);
      if p(line[0]) {
        ConsInOrder(line[0], Only(line[1..], p), last);
      } else {
        assert Only(line, p) == Only(line[1..], p);
      }
    }
  }

  lemma HeadInOrder(line: seq<Waiter>, last: nat)
    requires InOrder(line, last)
    ensures line == [] ==> InOrder(line, last)
    ensures line != [] ==> line[0].order <= last && !line[0].kind.ChatSlot?
  {
  }

  lemma {:induction false} WithoutInOrder(line: seq<Waiter>, order: nat, last: nat)
    requires InOrder(line, last)
    ensures InOrder(Without(line, order), last)
    ensures forall w :: w in Without(line, order) <==> w in line && w.order != order
  {
    hide InOrder;
    if line == [] {
    } else {
      TailInOrder(line, last);
      HeadInOrder(line, last);
      if line[0].order != order {
        WithoutInOrder(line[1..], order, last);
        ConsInOrder(line[0], Without(line[1..], order), last);
      }
    }
  }

  // -- one admission from the line ---------------------------------------------------------

  lemma GrantConserves(h: Host, w: Waiter, kind: SlotKind)
    requires Sound(h) && w in h.waiting
    ensures Conserves(Grant(h, w), kind)
  {
    assert Conserves(h, kind);
    GrantedGrows(h.granted, w.order, w, kind);
  }

  lemma PassOverInOrder(line: seq<Waiter>, build: string, last: nat)
    requires InOrder(line, last)
    ensures InOrder(PassOver(line, build), last)
    ensures forall i :: 0 <= i < |line| ==> PassOver(line, build)[i].order == line[i].order
  {
  }

  lemma {:induction false} RestIsOther(line: seq<Waiter>, order: nat, last: nat, taken: set<nat>)
    requires InOrder(line, last)
    requires forall i :: 0 <= i < |line| ==> line[i].order !in taken
    ensures forall i :: 0 <= i < |Without(line, order)| ==>
      Without(line, order)[i].order !in taken && Without(line, order)[i].order != order
  {
    if line != [] && line[0].order != order {
      RestIsOther(line[1..], order, last, taken);
    }
  }

  lemma GrantKeepsSound(h: Host, w: Waiter)
    requires Sound(h) && w in h.waiting
    ensures Sound(Grant(h, w))
  {
    hide Conserves, InOrder, Without, PassOver, NotePassed;
    var g := Grant(h, w);
    WithoutInOrder(h.waiting, w.order, h.counter);
    RestIsOther(h.waiting, w.order, h.counter, h.granted.Keys);
    PassOverInOrder(Without(h.waiting, w.order), w.build, h.counter);
    InLineIsPlaced(h.waiting, h.counter, w);
    forall kind ensures Conserves(g, kind) {
      GrantConserves(h, w, kind);
    }
  }

  lemma InLineIsPlaced(line: seq<Waiter>, last: nat, w: Waiter)
    requires InOrder(line, last) && w in line
    ensures w.order <= last && !w.kind.ChatSlot?
  {
  }

  lemma SweepKeepsSound(h: Host)
    requires Sound(h)
    ensures Sound(Swept(h))
  {
    hide GrantedOf;
    OnlyInOrder(h.waiting, StillLive, h.counter);
    forall i | 0 <= i < |Swept(h).waiting| ensures Swept(h).waiting[i].order !in h.granted {
      assert Live(h.waiting)[i] in h.waiting;
    }
    forall kind ensures Conserves(Swept(h), kind) {
      assert Conserves(h, kind);
    }
  }

  /** Waking conserves every slot and leaves nobody waiting beside room. */
  lemma {:induction false} WakeKeeps(h: Host)
    requires Sound(h)
    ensures Sound(Wake(h)) && Quiet(Wake(h))
    decreases |h.waiting|
  {
    hide Sound, Conserves, RoomFor;
    if h.waiting != [] {
      var s := Swept(h);
      SweepKeepsSound(h);
      if Choose(s).Some? {
        GrantKeepsSound(s, Choose(s).value);
        WakeKeeps(Grant(s, Choose(s).value));
      }
    }
  }

  // -- every step ---------------------------------------------------------------------------

  lemma RequestKeeps(h: Host, op: Op)
    requires Sound(h) && op.Request?
    ensures Sound(Before(h, op))
    ensures Quiet(h) && !Wakes(h, op) ==> Quiet(Before(h, op))
  {
    hide GrantedOf;
    var n := Before(h, op);
    forall kind ensures Conserves(n, kind) {
      assert Conserves(h, kind);
    }
  }

  lemma CancelKeeps(h: Host, op: Op)
    requires Sound(h) && op.Cancel?
    ensures Sound(Before(h, op))
    ensures Quiet(h) ==> Quiet(Before(h, op))
  {
    hide GrantedOf;
    var n := Before(h, op);
    forall kind ensures Conserves(n, kind) {
      assert Conserves(h, kind);
    }
  }

  lemma ResumeKeeps(h: Host, op: Op)
    requires Sound(h) && op.Resume?
    ensures Sound(Before(h, op))
    ensures Quiet(h) ==> Quiet(Before(h, op))
  {
    var n := Before(h, op);
    forall kind ensures Conserves(n, kind) {
      assert Conserves(h, kind);
      if op.order in h.granted {
        GrantedShrinks(h.granted, op.order, kind);
      }
    }
  }

  lemma AbandonKeeps(h: Host, op: Op)
    requires Sound(h) && op.Abandon?
    ensures Sound(Before(h, op))
    ensures Quiet(h) && !Wakes(h, op) ==> Quiet(Before(h, op))
  {
    hide Without;
    var n := Before(h, op);
    WithoutInOrder(h.waiting, op.order, h.counter);
    forall kind ensures Conserves(n, kind) {
      assert Conserves(h, kind);
      if op.order in h.granted {
        GrantedShrinks(h.granted, op.order, kind);
      }
    }
    forall i | 0 <= i < |n.waiting| ensures n.waiting[i] in h.waiting {
      assert n.waiting[i] in n.waiting;
    }
  }

  lemma ReleaseKeeps(h: Host, op: Op)
    requires Sound(h) && op.Release?
    ensures Sound(Before(h, op))
    ensures Quiet(h) && !Wakes(h, op) ==> Quiet(Before(h, op))
  {
    hide GrantedOf;
    var n := Before(h, op);
    assert Conserves(h, op.kind);
    forall kind ensures Conserves(n, kind) {
      assert Conserves(h, kind);
    }
  }

  lemma SetCapacityKeeps(h: Host, op: Op)
    requires Sound(h) && op.SetCapacity?
    ensures Sound(Before(h, op))
    ensures Quiet(h) && !Wakes(h, op) ==> Quiet(Before(h, op))
  {
    hide GrantedOf;
    var n := Before(h, op);
    forall kind ensures Conserves(n, kind) {
      assert Conserves(h, kind);
    }
  }

  /** A resuming request turns the slot it was granted into one it holds: as many slots are out as before. */
  lemma ResumeExchanges(h: Host, op: Op)
    requires Sound(h) && op.Resume?
    ensures var n := Before(h, op);
      && op.order !in n.granted && n.held == h.held && n.waiting == h.waiting
      && forall kind :: GrantedOf(h.granted, kind) - GrantedOf(n.granted, kind) == n.holding.Of(kind) - h.holding.Of(kind)
           == if op.order in h.granted && h.granted[op.order].kind == kind then 1 else 0
  {
    hide GrantedOf;
    forall kind | op.order in h.granted
      ensures GrantedOf(h.granted - {op.order}, kind) == GrantedOf(h.granted, kind) - if h.granted[op.order].kind == kind then 1 else 0
    {
      GrantedShrinks(h.granted, op.order, kind);
    }
  }

  /** An abandoned request is gone from the line, or its slot is back; nobody else's standing changes. */
  lemma AbandonGivesBack(h: Host, op: Op)
    requires Sound(h) && op.Abandon?
    ensures var n := Before(h, op);
      && op.order !in n.granted && (forall w :: w in n.waiting <==> w in h.waiting && w.order != op.order)
      && (forall o :: o in n.granted <==> o in h.granted && o != op.order) && n.holding == h.holding
      && forall kind :: h.held.Of(kind) - n.held.Of(kind)
           == if op.order in h.granted && h.granted[op.order].kind == kind then 1 else 0
  {
    hide Without, Conserves;
    WithoutInOrder(h.waiting, op.order, h.counter);
  }

  /** One held slot of that kind comes back, if there is one, and nothing else moves. */
  lemma ReleaseGivesOneBack(h: Host, op: Op)
    requires Sound(h) && op.Release?
    ensures var n := Before(h, op);
      && n.waiting == h.waiting && n.granted == h.granted
      && forall kind :: h.held.Of(kind) - n.held.Of(kind) == h.holding.Of(kind) - n.holding.Of(kind)
           == if op.kind == kind && h.holding.Of(kind) > 0 then 1 else 0
  {
    assert Conserves(h, op.kind);
    hide Conserves, GrantedOf, InOrder;
  }

  /** Held slots stay held whatever the ceiling; the reserve stays, unless the new ceiling leaves less than that. */
  lemma CapacityLeavesHeld(h: Host, op: Op)
    requires Sound(h) && op.SetCapacity?
    ensures var n := Before(h, op);
      && n.held == h.held && n.holding == h.holding && n.granted == h.granted && n.waiting == h.waiting
      && (op.capacity < 1 ==> n == h) && (op.capacity >= 1 ==> n.capacity == op.capacity)
      && n.reserve <= h.reserve && (n.reserve < h.reserve ==> n.reserve == n.capacity - 1)
  {
    hide Conserves, InOrder;
  }

  /** Slots are conserved and no room stays idle beside a live waiter, whatever the step. */
  lemma StepKeeps(h: Host, op: Op)
    requires Sound(h) && Quiet(h)
    ensures Sound(Before(h, op))
    ensures Sound(Step(h, op)) && Quiet(Step(h, op))
  {
    hide Sound, Quiet, Before;
    match op {
      case Request(_, _, _) => RequestKeeps(h, op);
      case Cancel(_) => CancelKeeps(h, op);
      case Resume(_) => ResumeKeeps(h, op);
      case Abandon(_) => AbandonKeeps(h, op);
      case Release(_) => ReleaseKeeps(h, op);
      case SetCapacity(_) => SetCapacityKeeps(h, op);
    }
    if Wakes(h, op) {
      WakeKeeps(Before(h, op));
    }
  }

  /** Over every interleaving. */
  lemma {:induction false} RunKeeps(h: Host, ops: seq<Op>)
    requires Sound(h) && Quiet(h)
    ensures Sound(Run(h, ops)) && Quiet(Run(h, ops))
    decreases ops
  {
    hide Sound, Quiet, Step;
    if ops != [] {
      StepKeeps(h, ops[0]);
      RunKeeps(Step(h, ops[0]), ops[1..]);
    }
  }

  /** The floor under the release counter is never needed. */
  lemma ReleaseNeverClamps(h: Host, kind: SlotKind)
    requires Sound(h) && h.holding.Of(kind) > 0
    ensures Before(h, Release(kind)).held == h.held.Plus(kind, -1)
    ensures Before(h, Release(kind)).held.Of(kind) == h.held.Of(kind) - 1 >= 0
  {
    assert Conserves(h, kind);
  }

  // -- bounded bypass ---------------------------------------------------------------------------

  function Find(line: seq<Waiter>, order: nat): (w: Option<Waiter>)
    ensures w.Some? ==> w.value in line && w.value.order == order
    ensures w.None? ==> forall v :: v in line ==> v.order != order
  {
    if line == [] then None
    else if line[0].order == order then Some(line[0])
    else Find(line[1..], order)
  }

  /** The request was in line with room for it, and a patient request of another build went instead. */
  ghost predicate BypassedBy(d: Decision, order: nat) {
    var w := Find(d.at.waiting, order);
    && w.Some? && RoomFor(d.at, w.value.kind)
    && d.chosen.order != order && d.chosen.build != w.value.build && !Starving(d.chosen)
  }

  ghost function Bypasses(log: seq<Decision>, order: nat): nat {
    if log == [] then 0
    else (if BypassedBy(log[0], order) then 1 else 0) + Bypasses(log[1..], order)
  }

  /** How often the request may still be bypassed. */
  ghost function Patience(h: Host, order: nat): nat {
    var w := Find(h.waiting, order);
    if w.None? then 0 else Max(0, AGE_LIMIT - w.value.passedOver)
  }

  lemma {:induction false} BypassesJoin(a: seq<Decision>, b: seq<Decision>, order: nat)
    ensures Bypasses(a + b, order) == Bypasses(a, order) + Bypasses(b, order)
  {
    if a == [] {
      assert a + b == b;
    } else {
      assert (a + b)[1..] == a[1..] + b;
      BypassesJoin(a[1..], b, order);
    }
  }

  lemma {:induction false} OnlyOne(line: seq<Waiter>, last: nat, w: Waiter)
    requires InOrder(line, last) && w in line
    ensures Find(line, w.order) == Some(w)
  {
  }

  lemma SweepPatience(h: Host, order: nat)
    requires Sound(h)
    ensures Patience(Swept(h), order) <= Patience(h, order)
  {
  }

  lemma PlaceInRest(line: seq<Waiter>, order: nat, last: nat, w: Waiter) returns (i: nat)
    requires InOrder(line, last) && w in line && w.order != order
    ensures InOrder(Without(line, order), last)
    ensures i < |Without(line, order)| && Without(line, order)[i] == w
  {
    hide Without, InOrder;
    WithoutInOrder(line, order, last);
    i :| 0 <= i < |Without(line, order)| && Without(line, order)[i] == w;
  }

  /** Where a waiter of the line stands after another was admitted. */
  lemma AfterGrant(h: Host, chosen: Waiter, w: Waiter)
    requires Sound(h) && chosen in h.waiting && w in h.waiting && w.order != chosen.order
    ensures Find(Grant(h, chosen).waiting, w.order) ==
      Some(if w.build == chosen.build then w else w.(passedOver := w.passedOver + 1))
  {
    hide Without, Find, InOrder, Conserves, NotePassed;
    var rest := Without(h.waiting, chosen.order);
    var i := PlaceInRest(h.waiting, chosen.order, h.counter, w);
    PassOverInOrder(rest, chosen.build, h.counter);
    var g := PassOver(rest, chosen.build);
    assert g[i] in g && g[i] == if w.build == chosen.build then w else w.(passedOver := w.passedOver + 1);
    OnlyOne(g, h.counter, g[i]);
  }

  lemma {:induction false} GrantGone(h: Host, chosen: Waiter, order: nat)
    requires Sound(h) && chosen in h.waiting
    requires Find(h.waiting, order).None? || order == chosen.order
    ensures Find(Grant(h, chosen).waiting, order).None?
  {
    hide Without, Find, InOrder, Conserves, NotePassed;
    var rest := Without(h.waiting, chosen.order);
    var g := PassOver(rest, chosen.build);
    WithoutInOrder(h.waiting, chosen.order, h.counter);
    forall i | 0 <= i < |g| ensures g[i].order != order {
      assert rest[i] in rest && g[i].order == rest[i].order;
    }
  }

  /** Each bypass uses up one unit of patience, and a waiter without any is never bypassed. */
  lemma GrantUsesPatience(h: Host, order: nat)
    requires Sound(h) && Choose(h).Some?
    ensures (if BypassedBy(Decision(h, Choose(h).value), order) then 1 else 0)
      + Patience(Grant(h, Choose(h).value), order) <= Patience(h, order)
  {
    hide Sound, Choose, Grant, Find;
    var chosen := Choose(h).value;
    ChooseIsFair(h);
    var w := Find(h.waiting, order);
    if w.None? || order == chosen.order {
      GrantGone(h, chosen, order);
    } else {
      AfterGrant(h, chosen, w.value);
    }
  }

  lemma {:induction false} WakeUsesPatience(h: Host, order: nat)
    requires Sound(h)
    ensures Bypasses(Decisions(h), order) + Patience(Wake(h), order) <= Patience(h, order)
    decreases |h.waiting|
  {
    hide Sound, Patience, BypassedBy, Grant, Choose;
    if h.waiting != [] {
      var s := Swept(h);
      SweepKeepsSound(h);
      SweepPatience(h, order);
      if Choose(s).Some? {
        var g := Grant(s, Choose(s).value);
        GrantKeepsSound(s, Choose(s).value);
        GrantUsesPatience(s, order);
        GrantShortens(s, Choose(s).value);
        WakeUsesPatience(g, order);
        assert Decisions(h)[1..] == Decisions(g);
      }
    }
  }

  lemma GrantShortens(h: Host, w: Waiter)
    requires w in h.waiting
    ensures |Grant(h, w).waiting| < |h.waiting|
  {
  }

  /** No step outside the line restores patience to a request already seen. */
  lemma BeforeKeepsPatience(h: Host, op: Op, order: nat)
    requires Sound(h) && order <= h.counter
    ensures Patience(Before(h, op), order) <= Patience(h, order)
    ensures order <= Before(h, op).counter
  {
    hide Conserves, Without, Find;
    var n := Before(h, op);
    var w := Find(n.waiting, order);
    if w.Some? {
      var i :| 0 <= i < |n.waiting| && n.waiting[i] == w.value;
      match op {
        case Cancel(_) => OnlyOne(h.waiting, h.counter, h.waiting[i]);
        case Abandon(_) => OnlyOne(h.waiting, h.counter, w.value);
        case _ => OnlyOne(h.waiting, h.counter, w.value);
      }
    }
  }

  lemma {:induction false} WakeKeepsCounter(h: Host)
    ensures Wake(h).counter == h.counter
    decreases |h.waiting|
  {
    hide Choose;
    if h.waiting != [] && Choose(Swept(h)).Some? {
      GrantShortens(Swept(h), Choose(Swept(h)).value);
      WakeKeepsCounter(Grant(Swept(h), Choose(Swept(h)).value));
    }
  }

  lemma {:induction false} StepUsesPatience(h: Host, op: Op, order: nat)
    requires Sound(h) && Quiet(h) && order <= h.counter
    ensures Bypasses(StepLog(h, op), order) + Patience(Step(h, op), order) <= Patience(h, order)
    ensures order <= Step(h, op).counter
  {
    hide Sound, Quiet, Before, Patience, Decisions, Wake;
    BeforeKeepsPatience(h, op, order);
    StepKeeps(h, op);
    if Wakes(h, op) {
      WakeUsesPatience(Before(h, op), order);
      WakeKeepsCounter(Before(h, op));
    }
  }

  /**
   * However requests, releases, cancellations and capacity changes interleave, a request in
   * line is bypassed at most as often as its build still has to be passed over to starve.
   */
  lemma {:induction false} BoundedBypass(h: Host, ops: seq<Op>, order: nat)
    requires Sound(h) && Quiet(h) && order <= h.counter
    ensures Bypasses(RunLog(h, ops), order) + Patience(Run(h, ops), order) <= Patience(h, order)
    decreases ops
  {
    hide Sound, Quiet, Step, StepLog, Patience;
    if ops != [] {
      StepKeeps(h, ops[0]);
      StepUsesPatience(h, ops[0], order);
      BoundedBypass(Step(h, ops[0]), ops[1..], order);
      BypassesJoin(StepLog(h, ops[0]), RunLog(Step(h, ops[0]), ops[1..]), order);
    }
  }

  // -- the count on disk ------------------------------------------------------------------------

  /** A build with nobody passed over keeps what is noted of it. */
  lemma {:induction false} NothingNoted(fairness: map<string, Fairness>, line: seq<Waiter>, chosen: string, build: string)
    requires build == chosen || forall i :: 0 <= i < |line| ==> line[i].build != build
    ensures FairnessOf(NotePassed(fairness, line, chosen), build) == FairnessOf(fairness, build)
    decreases line
  {
    if line != [] {
      var noted := Fairness(FairnessOf(fairness, line[0].build).admitted, line[0].passedOver + 1);
      NothingNoted(if line[0].build == chosen then fairness else fairness[line[0].build := noted], line[1..], chosen, build);
    }
  }

  /** What is noted of a build that was passed over is the new count of its last request in line. */
  lemma {:induction false} PassingIsNoted(fairness: map<string, Fairness>, line: seq<Waiter>, chosen: string, last: nat)
    requires last < |line| && line[last].build != chosen
    requires forall i :: last < i < |line| ==> line[i].build != line[last].build
    ensures var noted := FairnessOf(NotePassed(fairness, line, chosen), line[last].build);
      && noted.passedOver == PassOver(line, chosen)[last].passedOver
      && noted.admitted == FairnessOf(fairness, line[last].build).admitted
    decreases line
  {
    var build := line[last].build;
    var noted := Fairness(FairnessOf(fairness, line[0].build).admitted, line[0].passedOver + 1);
    var next := if line[0].build == chosen then fairness else fairness[line[0].build := noted];
    if last == 0 {
      NothingNoted(next, line[1..], chosen, build);
    } else {
      PassingIsNoted(next, line[1..], chosen, last - 1);
    }
  }

  /** The build has nobody in line and nobody about to resume. */
  ghost predicate Absent(h: Host, build: string) {
    && (forall i :: 0 <= i < |h.waiting| ==> h.waiting[i].build != build)
    && (forall o :: o in h.granted ==> h.granted[o].build != build)
  }

  lemma GrantKeepsAbsent(h: Host, w: Waiter, build: string)
    requires Absent(h, build) && w in h.waiting
    ensures Absent(Grant(h, w), build) && FairnessOf(Grant(h, w).fairness, build) == FairnessOf(h.fairness, build)
  {
    hide FairnessOf, NotePassed;
    var rest := Without(h.waiting, w.order);
    forall i | 0 <= i < |rest| ensures rest[i].build != build {
      assert rest[i] in h.waiting;
    }
    NothingNoted(h.fairness, rest, w.build, build);
  }

  lemma {:induction false} WakeKeepsAbsent(h: Host, build: string)
    requires Absent(h, build)
    ensures Absent(Wake(h), build) && FairnessOf(Wake(h).fairness, build) == FairnessOf(h.fairness, build)
    decreases |h.waiting|
  {
    hide FairnessOf, Choose, Grant;
    if h.waiting != [] {
      var s := Swept(h);
      forall i | 0 <= i < |s.waiting| ensures s.waiting[i].build != build {
        assert s.waiting[i] in h.waiting;
      }
      if Choose(s).Some? {
        GrantKeepsAbsent(s, Choose(s).value, build);
        GrantShortens(s, Choose(s).value);
        WakeKeepsAbsent(Grant(s, Choose(s).value), build);
      }
    }
  }

  lemma BeforeKeepsAbsent(h: Host, op: Op, build: string)
    requires Absent(h, build) && (op.Request? ==> op.build != build)
    ensures Absent(Before(h, op), build) && FairnessOf(Before(h, op).fairness, build) == FairnessOf(h.fairness, build)
  {
    hide Without;
    var n := Before(h, op);
    if op.Abandon? {
      forall i | 0 <= i < |n.waiting| ensures n.waiting[i].build != build {
        assert n.waiting[i] in n.waiting;
      }
    }
  }

  lemma {:induction false} RunKeepsAbsent(h: Host, ops: seq<Op>, build: string)
    requires Absent(h, build) && NoRequestOf(ops, build)
    ensures FairnessOf(Run(h, ops).fairness, build) == FairnessOf(h.fairness, build)
    decreases ops
  {
    hide FairnessOf, Absent, Before, Wake;
    if ops != [] {
      BeforeKeepsAbsent(h, ops[0], build);
      if Wakes(h, ops[0]) {
        WakeKeepsAbsent(Before(h, ops[0]), build);
      }
      RunKeepsAbsent(Step(h, ops[0]), ops[1..], build);
    }
  }

  ghost predicate NoRequestOf(ops: seq<Op>, build: string) {
    forall i :: 0 <= i < |ops| ==> ops[i].Request? ==> ops[i].build != build
  }

  lemma {:induction false} LogOfFirst(h: Host, op: Op, later: seq<Op>)
    ensures RunLog(h, [op] + later) == StepLog(h, op) + RunLog(Step(h, op), later)
    ensures Run(h, [op] + later) == Run(Step(h, op), later)
  {
    assert ([op] + later)[1..] == later;
  }

  /**
   * The bypasses of a request that gets in line, with those it can still meet, are no more than what is
   * noted of its build leaves to starving.
   */
  lemma {:induction false} QueuedPatience(h: Host, op: Op, later: seq<Op>)
    requires Sound(h) && Quiet(h) && op.Request? && Wakes(h, op)
    ensures Bypasses(RunLog(h, [op] + later), h.counter + 1) + Patience(Run(h, [op] + later), h.counter + 1)
         <= Max(0, AGE_LIMIT - FairnessOf(h.fairness, op.build).passedOver)
  {
    hide FairnessOf, Sound, Quiet, Decisions, Wake, Run, RunLog, Patience;
    var n, order := Before(h, op), h.counter + 1;
    StepKeeps(h, op);
    QueuedLast(h, op);
    WakeUsesPatience(n, order);
    WakeKeepsCounter(n);
    BoundedBypass(Step(h, op), later, order);
    BypassesJoin(StepLog(h, op), RunLog(Step(h, op), later), order);
    LogOfFirst(h, op, later);
  }

  lemma QueuedLast(h: Host, op: Op)
    requires Sound(h) && op.Request? && Wakes(h, op)
    ensures Patience(Before(h, op), h.counter + 1) == Max(0, AGE_LIMIT - FairnessOf(h.fairness, op.build).passedOver)
    ensures Before(h, op).counter == h.counter + 1
  {
    hide FairnessOf, Find, Conserves;
    RequestKeeps(h, op);
    var line := Before(h, op).waiting;
    OnlyOne(line, h.counter + 1, line[|line| - 1]);
  }

  lemma OpensAbsent(capacity: int, reserve: int, fairness: map<string, Fairness>, build: string)
    ensures Absent(Opened(capacity, reserve, fairness), build) && Opened(capacity, reserve, fairness).fairness == fairness
  {
  }

  /**
   * A restart does not reset a build's place. A controller opened with what is on disk bypasses the
   * build's first request in line, whatever other builds do before and anybody afterwards, no oftener
   * than the count noted for that build leaves to starving.
   */
  lemma {:induction false} RestartKeepsThePlace(capacity: int, reserve: int, noted: map<string, Fairness>, others: seq<Op>,
                             h: Host, op: Op, later: seq<Op>)
    requires capacity >= 1 && 0 <= reserve < capacity
    requires h == Run(Opened(capacity, reserve, noted), others)
    requires op.Request? && Wakes(h, op) && NoRequestOf(others, op.build)
    ensures Bypasses(RunLog(h, [op] + later), h.counter + 1)
         <= Max(0, AGE_LIMIT - FairnessOf(noted, op.build).passedOver)
  {
    hide *;
    var host := Opened(capacity, reserve, noted);
    OpensSound(capacity, reserve, noted);
    OpensAbsent(capacity, reserve, noted, op.build);
    RunKeeps(host, others);
    RunKeepsAbsent(host, others, op.build);
    QueuedPatience(h, op, later);
  }

  // -- a build with one request in line ------------------------------------------------------------

  /** The request is its build's only one in line, none is about to resume, and its count is on disk. */
  ghost predicate OnDisk(h: Host, build: string, order: nat) {
    var w := Find(h.waiting, order);
    && w.Some? && w.value.build == build && FairnessOf(h.fairness, build).passedOver == w.value.passedOver
    && (forall i :: 0 <= i < |h.waiting| && h.waiting[i].build == build ==> h.waiting[i].order == order)
    && (forall o :: o in h.granted ==> h.granted[o].build != build)
  }

  /** Its count is on disk for as long as it is in line. */
  ghost predicate OnDiskInLine(h: Host, build: string, order: nat) {
    order <= h.counter && (InLine(h.waiting, order) ==> OnDisk(h, build, order))
  }

  lemma {:induction false} FoundInLine(line: seq<Waiter>, order: nat)
    ensures InLine(line, order) <==> Find(line, order).Some?
  {
    var w := Find(line, order);
    if w.Some? {
      assert w.value in line;
    }
  }

  lemma SweepKeepsOnDisk(h: Host, build: string, order: nat)
    requires Sound(h) && OnDiskInLine(h, build, order)
    ensures OnDiskInLine(Swept(h), build, order)
  {
    hide Conserves, FairnessOf;
    var s := Swept(h);
    FoundInLine(h.waiting, order);
    SweepKeepsSound(h);
    forall i | 0 <= i < |s.waiting| ensures s.waiting[i] in h.waiting {
      assert s.waiting[i] in s.waiting;
    }
    if i :| 0 <= i < |s.waiting| && s.waiting[i].order == order {
      OnlyOne(h.waiting, h.counter, s.waiting[i]);
      OnlyOne(s.waiting, s.counter, s.waiting[i]);
    }
  }

  /** What is on disk of a build after others were let in is the count of its last request in line. */
  lemma LastIsNoted(h: Host, chosen: Waiter, w: Waiter)
    requires Sound(h) && chosen in h.waiting && w in h.waiting && w.build != chosen.build
    requires forall v :: v in h.waiting && v.build == w.build ==> v.order <= w.order
    ensures FairnessOf(Grant(h, chosen).fairness, w.build).passedOver == w.passedOver + 1
  {
    hide Conserves, FairnessOf, NotePassed, Without;
    var rest := Without(h.waiting, chosen.order);
    OnlyOne(h.waiting, h.counter, w);
    OnlyOne(h.waiting, h.counter, chosen);
    var i := PlaceInRest(h.waiting, chosen.order, h.counter, w);
    forall j | i < j < |rest| ensures rest[j].build != w.build {
      assert rest[j] in h.waiting && rest[j].order > w.order;
    }
    PassingIsNoted(h.fairness, rest, chosen.build, i);
  }

  lemma ResumeResets(h: Host, w: Waiter)
    requires w in h.waiting
    ensures forall order :: order in h.granted && h.granted[order].build == w.build ==> var n := Step(h, Resume(order));
      w in n.waiting && FairnessOf(n.fairness, w.build).passedOver == 0
  {
  }

  /**
   * So a build with two requests in line has one note for both: it tells how often the earlier one was
   * passed over if and only if both were passed over equally often. A sibling that resumes with its slot
   * takes the note away from a request still in line.
   */
  lemma SiblingsShareOneNote(h: Host, chosen: Waiter, w: Waiter, last: Waiter)
    requires Sound(h) && chosen in h.waiting && w in h.waiting && last in h.waiting
    requires w.build == last.build != chosen.build && forall v :: v in h.waiting && v.build == w.build ==> v.order <= last.order
    ensures var n := Grant(h, chosen);
      && Find(n.waiting, w.order) == Some(w.(passedOver := w.passedOver + 1))
      && (FairnessOf(n.fairness, w.build).passedOver == w.passedOver + 1 <==> last.passedOver == w.passedOver)
    ensures forall order :: order in h.granted && h.granted[order].build == w.build ==> var n := Step(h, Resume(order));
      w in n.waiting && FairnessOf(n.fairness, w.build).passedOver == 0
  {
    ResumeResets(h, w);
    hide Conserves, FairnessOf, Grant, Find;
    OnlyOne(h.waiting, h.counter, w);
    OnlyOne(h.waiting, h.counter, chosen);
    LastIsNoted(h, chosen, last);
    AfterGrant(h, chosen, w);
  }

  lemma GrantKeepsOnDisk(h: Host, chosen: Waiter, build: string, order: nat)
    requires Sound(h) && chosen in h.waiting && OnDiskInLine(h, build, order)
    ensures OnDiskInLine(Grant(h, chosen), build, order)
  {
    hide Conserves, FairnessOf, Find, NotePassed, Without, InLine;
    FoundInLine(h.waiting, order);
    FoundInLine(Grant(h, chosen).waiting, order);
    if Find(h.waiting, order).None? || order == chosen.order {
      GrantGone(h, chosen, order);
    } else {
      var w := Find(h.waiting, order).value;
      assert chosen.build != build;
      AfterGrant(h, chosen, w);
      LastIsNoted(h, chosen, w);
      GrantAddsNobody(h, chosen, build, order);
    }
  }

  lemma GrantAddsNobody(h: Host, chosen: Waiter, build: string, order: nat)
    requires chosen in h.waiting
    requires forall i :: 0 <= i < |h.waiting| && h.waiting[i].build == build ==> h.waiting[i].order == order
    ensures var line := Grant(h, chosen).waiting;
      forall i :: 0 <= i < |line| && line[i].build == build ==> line[i].order == order
  {
    hide NotePassed;
    var rest := Without(h.waiting, chosen.order);
    forall i | 0 <= i < |rest| ensures rest[i] in h.waiting {
      assert rest[i] in rest;
    }
  }

  lemma {:induction false} WakeKeepsOnDisk(h: Host, build: string, order: nat)
    requires Sound(h) && OnDiskInLine(h, build, order)
    ensures OnDiskInLine(Wake(h), build, order)
    decreases |h.waiting|
  {
    hide Sound, OnDiskInLine, Grant, Choose, Swept;
    if h.waiting != [] {
      var s := Swept(h);
      SweepKeepsSound(h);
      SweepKeepsOnDisk(h, build, order);
      if Choose(s).Some? {
        GrantKeepsSound(s, Choose(s).value);
        GrantKeepsOnDisk(s, Choose(s).value, build, order);
        SweepShortens(h);
        GrantShortens(s, Choose(s).value);
        WakeKeepsOnDisk(Grant(s, Choose(s).value), build, order);
      }
    }
  }

  lemma SweepShortens(h: Host)
    ensures |Swept(h).waiting| <= |h.waiting|
  {
  }

  ghost predicate StoodIn(line: seq<Waiter>, w: Waiter) {
    exists v :: v in line && w == v.(cancelled := w.cancelled)
  }

  /** The line and the grants as far as they concern one build: nothing added, nobody's count changed. */
  ghost predicate NothingAdded(h: Host, n: Host, build: string) {
    && h.counter <= n.counter
    && ((forall o :: o in h.granted ==> h.granted[o].build != build) ==>
      FairnessOf(n.fairness, build).passedOver == FairnessOf(h.fairness, build).passedOver)
    && (forall w :: w in n.waiting ==> (w.order > h.counter && w.build != build) || StoodIn(h.waiting, w))
    && (forall o :: o in n.granted ==> o in h.granted && n.granted[o] == h.granted[o])
  }

  lemma BeforeAddsNothing(h: Host, op: Op, build: string)
    requires op.Request? ==> op.build != build
    ensures NothingAdded(h, Before(h, op), build)
  {
    hide Without;
    var n := Before(h, op);
    forall w | w in n.waiting
      ensures (w.order > h.counter && w.build != build) || StoodIn(h.waiting, w)
    {
      var i :| 0 <= i < |n.waiting| && n.waiting[i] == w;
      if op.Cancel? {
        assert h.waiting[i] in h.waiting;
      } else if w in h.waiting {
        assert w == w.(cancelled := w.cancelled);
      }
    }
  }

  lemma AddedNothing(h: Host, n: Host, build: string, order: nat)
    requires Sound(h) && Sound(n) && OnDiskInLine(h, build, order) && NothingAdded(h, n, build)
    ensures OnDiskInLine(n, build, order)
  {
    hide Conserves, FairnessOf, Find;
    FoundInLine(h.waiting, order);
    forall i | 0 <= i < |n.waiting| ensures n.waiting[i] in n.waiting {
    }
    if i :| 0 <= i < |n.waiting| && n.waiting[i].order == order {
      var w := n.waiting[i];
      var v :| v in h.waiting && w == v.(cancelled := w.cancelled);
      OnlyOne(n.waiting, n.counter, w);
      OnlyOne(h.waiting, h.counter, v);
    }
  }

  lemma BeforeKeepsOnDisk(h: Host, op: Op, build: string, order: nat)
    requires Sound(h) && Sound(Before(h, op)) && OnDiskInLine(h, build, order) && (op.Request? ==> op.build != build)
    ensures OnDiskInLine(Before(h, op), build, order)
  {
    hide *;
    BeforeAddsNothing(h, op, build);
    AddedNothing(h, Before(h, op), build, order);
  }

  /**
   * While a build has this one request in line and makes no other, what is on disk for the build is how
   * often the request has been passed over, after every step.
   */
  lemma {:induction false} OneRequestIsOnDisk(h: Host, ops: seq<Op>, build: string, order: nat)
    requires Sound(h) && Quiet(h) && OnDiskInLine(h, build, order) && NoRequestOf(ops, build)
    ensures OnDiskInLine(Run(h, ops), build, order)
    decreases ops
  {
    hide Sound, Quiet, OnDiskInLine, Before, Wake;
    if ops != [] {
      var n := Before(h, ops[0]);
      StepKeeps(h, ops[0]);
      BeforeKeepsOnDisk(h, ops[0], build, order);
      if Wakes(h, ops[0]) {
        WakeKeepsOnDisk(n, build, order);
      }
      OneRequestIsOnDisk(Step(h, ops[0]), ops[1..], build, order);
    }
  }

  lemma QueuedIsOnDisk(h: Host, op: Op)
    requires Sound(h) && op.Request? && Absent(h, op.build) && Wakes(h, op)
    ensures OnDiskInLine(Before(h, op), op.build, h.counter + 1)
  {
    hide FairnessOf, Find, Conserves;
    RequestKeeps(h, op);
    var line := Before(h, op).waiting;
    OnlyOne(line, h.counter + 1, line[|line| - 1]);
  }

  /** A request that gets in line as its build's only one has its count on disk for as long as it is in line. */
  lemma {:induction false} QueuedStaysOnDisk(h: Host, op: Op, later: seq<Op>)
    requires Sound(h) && Quiet(h) && op.Request? && Absent(h, op.build) && Wakes(h, op) && NoRequestOf(later, op.build)
    ensures OnDiskInLine(Run(h, [op] + later), op.build, h.counter + 1)
  {
    hide Sound, Quiet, OnDiskInLine, Before, Wake, Absent;
    StepKeeps(h, op);
    QueuedIsOnDisk(h, op);
    WakeKeepsOnDisk(Before(h, op), op.build, h.counter + 1);
    OneRequestIsOnDisk(Step(h, op), later, op.build, h.counter + 1);
    LogOfFirst(h, op, later);
  }

  /** Then what is on disk tells how often the request may still be bypassed. */
  lemma PatienceOnDisk(h: Host, build: string, order: nat)
    requires OnDiskInLine(h, build, order) && InLine(h.waiting, order)
    ensures Patience(h, order) == Max(0, AGE_LIMIT - FairnessOf(h.fairness, build).passedOver)
  {
    hide FairnessOf, Find;
  }

  /**
   * Bypasses before and after a restart add up. A build gets in line with a single request and is still
   * there when the controller goes down; asking again in the next one, it is bypassed in both together
   * no oftener than what was noted of it in the beginning left to starving: AGE_LIMIT times at most.
   */
  lemma {:induction false} RestartAddsUp(h: Host, op: Op, before: seq<Op>, capacity: int, reserve: int, others: seq<Op>,
                      next: Host, again: Op, later: seq<Op>)
    requires Sound(h) && Quiet(h) && op.Request? && Absent(h, op.build) && Wakes(h, op) && NoRequestOf(before, op.build)
    requires capacity >= 1 && 0 <= reserve < capacity && again.Request? && again.build == op.build
    requires var down := Run(h, [op] + before);
      InLine(down.waiting, h.counter + 1) && next == Run(Opened(capacity, reserve, down.fairness), others)
    requires Wakes(next, again) && NoRequestOf(others, op.build)
    ensures Bypasses(RunLog(h, [op] + before), h.counter + 1)
          + Bypasses(RunLog(next, [again] + later), next.counter + 1)
         <= Max(0, AGE_LIMIT - FairnessOf(h.fairness, op.build).passedOver)
  {
    hide *;
    var down := Run(h, [op] + before);
    QueuedStaysOnDisk(h, op, before);
    PatienceOnDisk(down, op.build, h.counter + 1);
    QueuedPatience(h, op, before);
    RestartKeepsThePlace(capacity, reserve, down.fairness, others, next, again, later);
  }

  // -- the ceiling, in numbers ----------------------------------------------------------------------

  function HeldInAll(h: Host): int {
    h.held.tasks + h.held.reviews + h.held.chats
  }

  /** Slots that may be held in all when one of that kind goes out: the reserve is for reviews. */
  function CeilingFor(h: Host, kind: SlotKind): int {
    if kind.TaskSlot? then h.capacity - h.reserve else h.capacity
  }

  /**
   * A task or review gets its slot on the spot exactly when nobody waits and one more slot, counted over all
   * kinds, stays within its ceiling; a chat always does.
   */
  lemma AdmittedWithinCeiling(h: Host, op: Op)
    requires op.Request?
    ensures !Wakes(h, op) <==> op.kind.ChatSlot? || (h.waiting == [] && HeldInAll(h) + 1 <= CeilingFor(h, op.kind))
    ensures !Wakes(h, op) ==>
      && HeldInAll(Before(h, op)) == HeldInAll(h) + 1
      && (forall kind :: Before(h, op).held.Of(kind) == h.held.Of(kind) + if kind == op.kind then 1 else 0)
    ensures Wakes(h, op) ==> Before(h, op).held == h.held
  {
  }

  /** The chosen waiter's slot, counted over all kinds, is within its ceiling. */
  ghost predicate WithinCeiling(d: Decision) {
    && HeldInAll(Grant(d.at, d.chosen)) == HeldInAll(d.at) + 1 <= CeilingFor(d.at, d.chosen.kind)
    && d.chosen in d.at.waiting && !d.chosen.kind.ChatSlot?
  }

  lemma ChosenWithinCeiling(h: Host)
    requires Sound(h) && Choose(h).Some?
    ensures WithinCeiling(Decision(h, Choose(h).value))
  {
    hide Choose, Conserves, NotePassed, Without;
  }

  lemma {:induction false} WakeWithinCeiling(h: Host)
    requires Sound(h)
    ensures forall k :: 0 <= k < |Decisions(h)| ==> WithinCeiling(Decisions(h)[k])
    decreases |h.waiting|
  {
    hide Sound, WithinCeiling, Grant, Choose;
    if h.waiting != [] {
      var s := Swept(h);
      SweepKeepsSound(h);
      if Choose(s).Some? {
        ChosenWithinCeiling(s);
        GrantKeepsSound(s, Choose(s).value);
        GrantShortens(s, Choose(s).value);
        WakeWithinCeiling(Grant(s, Choose(s).value));
        assert Decisions(h) == [Decision(s, Choose(s).value)] + Decisions(Grant(s, Choose(s).value));
      }
    }
  }

  /** Over every interleaving, whoever is let in from the line is let in within the ceiling. */
  lemma {:induction false} LineWithinCeiling(h: Host, ops: seq<Op>)
    requires Sound(h) && Quiet(h)
    ensures forall k :: 0 <= k < |RunLog(h, ops)| ==> WithinCeiling(RunLog(h, ops)[k])
    decreases ops
  {
    hide Sound, Quiet, WithinCeiling, Decisions, Before, Wake;
    if ops != [] {
      StepKeeps(h, ops[0]);
      if Wakes(h, ops[0]) {
        WakeWithinCeiling(Before(h, ops[0]));
      }
      LineWithinCeiling(Step(h, ops[0]), ops[1..]);
    }
  }

  /** And whoever still waits, over every interleaving, waits because one more slot would not fit. */
  lemma {:induction false} WaitersDoNotFit(h: Host, ops: seq<Op>, w: Waiter)
    requires Sound(h) && Quiet(h) && w in Run(h, ops).waiting && !w.cancelled
    ensures var n := Run(h, ops); HeldInAll(n) + 1 > CeilingFor(n, w.kind)
  {
    RunKeeps(h, ops);
    hide Run, Conserves;
    var n := Run(h, ops);
    var i :| 0 <= i < |n.waiting| && n.waiting[i] == w;
  }

  // -- who comes first, and what is written down, in numbers --------------------------------------------

  /**
   * Of everybody in line with room, the chosen one has been passed over three times if anybody has; among those
   * alike in that a review comes first, then what unblocks more, then what came earlier.
   */
  lemma ChoiceReads(h: Host, w: Waiter)
    requires Choose(h).Some? && w in h.waiting && HeldInAll(h) + 1 <= CeilingFor(h, w.kind)
    ensures
      var chosen := Choose(h).value;
      && (w.passedOver >= 3 ==> chosen.passedOver >= 3)
      && ((w.passedOver >= 3 <==> chosen.passedOver >= 3) ==>
            && (w.kind.ReviewSlot? ==> chosen.kind.ReviewSlot?)
            && ((w.kind.ReviewSlot? <==> chosen.kind.ReviewSlot?) ==>
                  w.unblocks <= chosen.unblocks && (w.unblocks == chosen.unblocks ==> chosen.order <= w.order)))
  {
    ChooseIsFair(h);
    hide Choose;
  }

  /** A request that has to wait goes to the end of the line as it was made, with its build's noted count. */
  lemma QueuedAsMade(h: Host, op: Op)
    requires op.Request? && Wakes(h, op)
    ensures
      var n := Before(h, op);
      && |n.waiting| == |h.waiting| + 1 && n.waiting[..|h.waiting|] == h.waiting && n.fairness == h.fairness
      && var w := n.waiting[|h.waiting|];
         && w.kind == op.kind && w.build == op.build && w.unblocks == op.unblocks && !w.cancelled
         && w.order == h.counter + 1 == n.counter
         && w.passedOver == if op.build in h.fairness then h.fairness[op.build].passedOver else 0
  {
  }

  /** An admission, on the spot or from the line, counts for its build and clears its count; no other step but waking touches a note. */
  lemma AdmissionIsNoted(h: Host, op: Op, build: string)
    requires Sound(h)
    ensures
      var (was, now) := (FairnessOf(h.fairness, build), FairnessOf(Before(h, op).fairness, build));
      var admits := match op
        case Request(kind, b, _) => !Wakes(h, op) && !kind.ChatSlot? && b == build
        case Resume(order) => order in h.granted && h.granted[order].build == build
        case _ => false;
      if admits then now.admitted == was.admitted + 1 && now.passedOver == 0 else now == was
  {
    hide Conserves, InOrder;
  }

  // -- who gets in, and through which door -----------------------------------------------------

  /** Whoever is let in from the line has a live request there, room, and the best claim. */
  lemma {:induction false} WakeIsFair(h: Host)
    ensures forall k :: 0 <= k < |Decisions(h)| ==>
      FairlyChosen(Decisions(h)[k].at, Decisions(h)[k].chosen) && !Decisions(h)[k].chosen.cancelled
    decreases |h.waiting|
  {
    hide FairlyChosen, Choose, Grant;
    if h.waiting != [] && Choose(Swept(h)).Some? {
      var s := Swept(h);
      var chosen := Choose(s).value;
      ChooseIsFair(s);
      GrantShortens(s, chosen);
      WakeIsFair(Grant(s, chosen));
      assert Decisions(h) == [Decision(s, chosen)] + Decisions(Grant(s, chosen));
    }
  }

  /** A slot that appears while waking went to a waiter chosen from the line. */
  lemma {:induction false} GrantedFromTheLine(h: Host, order: nat) returns (k: nat)
    requires order in Wake(h).granted && order !in h.granted
    ensures k < |Decisions(h)| && Decisions(h)[k].chosen.order == order
    decreases |h.waiting|
  {
    hide Choose;
    var s := Swept(h);
    assert h.waiting != [] && Choose(s).Some?;
    var chosen := Choose(s).value;
    GrantShortens(s, chosen);
    if order == chosen.order {
      k := 0;
    } else {
      var j := GrantedFromTheLine(Grant(s, chosen), order);
      assert Decisions(h) == [Decision(s, chosen)] + Decisions(Grant(s, chosen));
      k := j + 1;
    }
  }

  lemma {:induction false} WakeKeepsHolding(h: Host)
    ensures Wake(h).holding == h.holding && Wake(h).capacity == h.capacity && Wake(h).reserve == h.reserve
    decreases |h.waiting|
  {
    hide Choose;
    if h.waiting != [] && Choose(Swept(h)).Some? {
      GrantShortens(Swept(h), Choose(Swept(h)).value);
      WakeKeepsHolding(Grant(Swept(h), Choose(Swept(h)).value));
    }
  }

  /** Behind a line no task or review request is admitted except by being chosen from the line. */
  lemma NoJumpingTheLine(h: Host, op: Op, order: nat) returns (k: nat)
    requires op.Request? && !op.kind.ChatSlot? && h.waiting != []
    requires order in Step(h, op).granted && order !in h.granted
    ensures Step(h, op).holding == h.holding
    ensures k < |StepLog(h, op)| && StepLog(h, op)[k].chosen.order == order
    ensures FairlyChosen(StepLog(h, op)[k].at, StepLog(h, op)[k].chosen)
  {
    hide Wake, Decisions, FairlyChosen;
    WakeKeepsHolding(Before(h, op));
    WakeIsFair(Before(h, op));
    k := GrantedFromTheLine(Before(h, op), order);
  }

  ghost predicate StillWaits(h: Host, order: nat) {
    var w := Find(h.waiting, order);
    w.Some? && !w.value.cancelled
  }

  lemma SweepKeepsWaiting(h: Host, order: nat)
    requires Sound(h) && StillWaits(h, order)
    ensures StillWaits(Swept(h), order)
  {
  }

  lemma {:induction false} WakeForgetsNobody(h: Host, order: nat)
    requires Sound(h) && (StillWaits(h, order) || order in h.granted)
    ensures StillWaits(Wake(h), order) || order in Wake(h).granted
    decreases |h.waiting|
  {
    hide Sound, Choose, Find;
    if h.waiting != [] {
      var s := Swept(h);
      SweepKeepsSound(h);
      if StillWaits(h, order) {
        SweepKeepsWaiting(h, order);
      }
      if Choose(s).Some? {
        var chosen := Choose(s).value;
        if order !in h.granted && order != chosen.order {
          AfterGrant(s, chosen, Find(s.waiting, order).value);
        }
        GrantKeepsSound(s, chosen);
        GrantShortens(s, chosen);
        WakeForgetsNobody(Grant(s, chosen), order);
      }
    }
  }

  lemma BeforeForgetsNobody(h: Host, op: Op, order: nat)
    requires Sound(h) && StillWaits(h, order) && op != Cancel(order) && op != Abandon(order)
    ensures StillWaits(Before(h, op), order)
  {
    hide Conserves, Without, Find;
    var n := Before(h, op);
    StepOutsideKeepsSound(h, op);
    var w := Find(h.waiting, order).value;
    var i :| 0 <= i < |h.waiting| && h.waiting[i] == w;
    if op.Abandon? {
      WithoutInOrder(h.waiting, op.order, h.counter);
    } else {
      assert n.waiting[i] == w;
    }
    OnlyOne(n.waiting, n.counter, w);
  }

  lemma StepOutsideKeepsSound(h: Host, op: Op)
    requires Sound(h)
    ensures Sound(Before(h, op))
  {
    hide Sound, Quiet, Before;
    match op {
      case Request(_, _, _) => RequestKeeps(h, op);
      case Cancel(_) => CancelKeeps(h, op);
      case Resume(_) => ResumeKeeps(h, op);
      case Abandon(_) => AbandonKeeps(h, op);
      case Release(_) => ReleaseKeeps(h, op);
      case SetCapacity(_) => SetCapacityKeeps(h, op);
    }
  }

  /** A request leaves the line with a slot or by its own cancellation, never otherwise. */
  lemma NobodyIsForgotten(h: Host, op: Op, order: nat)
    requires Sound(h) && StillWaits(h, order) && op != Cancel(order) && op != Abandon(order)
    ensures StillWaits(Step(h, op), order) || order in Step(h, op).granted
  {
    hide Sound, Before, Wake, StillWaits;
    BeforeForgetsNobody(h, op, order);
    StepOutsideKeepsSound(h, op);
    WakeForgetsNobody(Before(h, op), order);
  }

  // -- the review reserve -------------------------------------------------------------------------

  /** Tasks leave the reserve to reviews. */
  predicate WithinShare(h: Host) {
    h.held.tasks <= h.capacity - h.reserve
  }

  predicate Lowers(h: Host, op: Op) {
    op.SetCapacity? && 1 <= op.capacity < h.capacity
  }

  ghost predicate NeverLowers(h: Host, ops: seq<Op>)
    decreases ops
  {
    ops == [] || (!Lowers(h, ops[0]) && NeverLowers(Step(h, ops[0]), ops[1..]))
  }

  lemma NothingNegative(h: Host)
    requires Sound(h)
    ensures h.held.tasks >= 0 && h.held.reviews >= 0 && h.held.chats >= 0
  {
    assert Conserves(h, TaskSlot) && Conserves(h, ReviewSlot) && Conserves(h, ChatSlot);
  }

  lemma {:induction false} WakeKeepsShare(h: Host)
    requires Sound(h) && WithinShare(h)
    ensures WithinShare(Wake(h))
    decreases |h.waiting|
  {
    hide Sound, Choose;
    if h.waiting != [] && Choose(Swept(h)).Some? {
      var s := Swept(h);
      var chosen := Choose(s).value;
      SweepKeepsSound(h);
      NothingNegative(s);
      GrantKeepsSound(s, chosen);
      GrantShortens(s, chosen);
      WakeKeepsShare(Grant(s, chosen));
    }
  }

  lemma BeforeKeepsShare(h: Host, op: Op)
    requires Sound(h) && WithinShare(h) && !Lowers(h, op)
    ensures WithinShare(Before(h, op))
  {
    NothingNegative(h);
    assert op.Release? ==> Conserves(h, op.kind);
    hide Conserves, InOrder, Sound, Without;
  }

  lemma StepKeepsShare(h: Host, op: Op)
    requires Sound(h) && Quiet(h) && WithinShare(h) && !Lowers(h, op)
    ensures WithinShare(Step(h, op))
  {
    hide Sound, Quiet, Before, WithinShare, Lowers;
    BeforeKeepsShare(h, op);
    StepKeeps(h, op);
    if Wakes(h, op) {
      WakeKeepsShare(Before(h, op));
    }
  }

  /** While the ceiling is never lowered, running tasks never eat into the review reserve. */
  lemma {:induction false} TasksLeaveTheReserve(h: Host, ops: seq<Op>)
    requires Sound(h) && Quiet(h) && WithinShare(h) && NeverLowers(h, ops)
    ensures WithinShare(Run(h, ops))
    decreases ops
  {
    hide Sound, Quiet, Step, WithinShare, Lowers;
    if ops != [] {
      StepKeeps(h, ops[0]);
      StepKeepsShare(h, ops[0]);
      TasksLeaveTheReserve(Step(h, ops[0]), ops[1..]);
    }
  }

  /** A review then waits only behind other reviews: with no chat open they fill the reserve. */
  lemma {:induction false} ReviewsWaitForReviews(h: Host, ops: seq<Op>, w: Waiter)
    requires Sound(h) && Quiet(h) && WithinShare(h) && NeverLowers(h, ops)
    requires w in Run(h, ops).waiting && w.kind.ReviewSlot? && !w.cancelled
    requires Run(h, ops).held.chats == 0
    ensures Run(h, ops).held.reviews >= Run(h, ops).reserve
  {
    hide Sound, Run;
    RunKeeps(h, ops);
    TasksLeaveTheReserve(h, ops);
  }

  /** The controller as it opens, with whatever fairness an earlier run left on disk. */
  function Opened(capacity: int, reserve: int, fairness: map<string, Fairness>): Host {
    Host(capacity, reserve, Slots(0, 0, 0), [], 0, fairness, map[], Slots(0, 0, 0))
  }

  lemma OpensSound(capacity: int, reserve: int, fairness: map<string, Fairness>)
    requires capacity >= 1 && 0 <= reserve < capacity
    ensures Sound(Opened(capacity, reserve, fairness)) && Quiet(Opened(capacity, reserve, fairness))
    ensures WithinShare(Opened(capacity, reserve, fairness))
  {
  }

  lemma FreeRoom(h: Host, build: string)
    requires h.waiting == [] && RoomFor(h, TaskSlot)
    ensures Step(h, Request(TaskSlot, build, 0)).(fairness := h.fairness) ==
      h.(held := h.held.Plus(TaskSlot, 1), holding := h.holding.Plus(TaskSlot, 1))
  {
  }

  /** Lowering the ceiling can leave more tasks running than the new share: held slots stay held. */
  lemma LoweringOvershoots(build: string)
    ensures !WithinShare(Run(Opened(2, 0, map[]), [Request(TaskSlot, build, 0), Request(TaskSlot, build, 0), SetCapacity(1)]))
  {
    hide Step, Run;
    var h := Opened(2, 0, map[]);
    var ops := [Request(TaskSlot, build, 0), Request(TaskSlot, build, 0), SetCapacity(1)];
    var a := Step(h, ops[0]);
    FreeRoom(h, build);
    var b := Step(a, ops[1]);
    FreeRoom(a, build);
    RunOnce(h, ops);
    RunOnce(a, ops[1..]);
    RunOnce(b, ops[2..]);
    assert ops[1..][1..] == ops[2..] && ops[2..][1..] == [];
    RunNothing(Step(b, ops[2]));
    LineIsEmpty(b, 1);
  }

  lemma LineIsEmpty(h: Host, c: int)
    requires h.waiting == [] && c >= 1
    ensures Step(h, SetCapacity(c)) == h.(capacity := c, reserve := Min(h.reserve, c - 1))
  {
  }

  lemma {:induction false} RunOnce(h: Host, ops: seq<Op>)
    requires ops != []
    ensures Run(h, ops) == Run(Step(h, ops[0]), ops[1..])
  {
  }

  lemma {:induction false} RunNothing(h: Host)
    ensures Run(h, []) == h
  {
  }
}
