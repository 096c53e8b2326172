/** The per-flow UDP sender (tunnel/connection.go): its queue under concurrent Send, Process and Close, and the
    address mapping that Process fills. */
module PacketSender {
  import opened Options

  const CAPACITY := 128

  // ----- the queue as a state machine -----

  datatype Processor = Waiting | Busy(packet: nat) | Stopped

  /** A packet leaving the queue, taken by Process or thrown away by a Close. */
  datatype Exit = Exit(packet: nat, processed: bool)

  /** Packets are numbered as they arrive at Send. */
  datatype State = State(
    alive: bool,             // the context is not cancelled
    queue: seq<nat>,         // the buffered channel
    sending: set<nat>,       // Send calls that are past their first select
    processor: Processor,
    closers: nat,            // Close calls inside dropAll
    arrived: nat,
    accepted: seq<nat>,      // everything ever put into the queue, in order
    exits: seq<Exit>,        // everything ever taken out, in order
    dropped: multiset<nat>,  // one entry per Drop call
    inFlight: set<nat>,      // the Send calls past their first select when the context was cancelled
    drained: bool)           // some dropAll has found the queue empty

  function Boot(): State {
    State(true, [], {}, Waiting, 0, 0, [], [], multiset{}, {}, false)
  }

  datatype Action =
    | Arrive             // the first select of Send
    | Put(packet: nat)   // the second select puts the packet
    | Refuse(packet: nat) // the second select finds the context cancelled or the queue full
    | Take               // Process receives a packet
    | Finish             // Process is done with it and drops it
    | Stop               // Process sees the cancelled context
    | Cancel             // Close begins
    | Drain              // dropAll receives a packet
    | EndDrain           // dropAll finds the queue empty

  function Exec(s: State, a: Action): State {
    match a
    case Arrive =>
      if s.alive then s.(sending := s.sending + {s.arrived}, arrived := s.arrived + 1)
      else s.(dropped := s.dropped + multiset{s.arrived}, arrived := s.arrived + 1)
    case Put(p) =>
      if p in s.sending && |s.queue| < CAPACITY then
        s.(sending := s.sending - {p}, queue := s.queue + [p], accepted := s.accepted + [p])
      else s
    case Refuse(p) =>
      if p in s.sending && (!s.alive || |s.queue| >= CAPACITY) then
        s.(sending := s.sending - {p}, dropped := s.dropped + multiset{p})
      else s
    case Take =>
      if s.processor.Waiting? && s.queue != [] then
        s.(processor := Busy(s.queue[0]), queue := s.queue[1..], exits := s.exits + [Exit(s.queue[0], true)])
      else s
    case Finish =>
      if s.processor.Busy? then s.(processor := Waiting, dropped := s.dropped + multiset{s.processor.packet}) else s
    case Stop =>
      if s.processor.Waiting? && !s.alive then s.(processor := Stopped) else s
    case Cancel =>
      s.(alive := false, closers := s.closers + 1, inFlight := if s.alive then s.sending else s.inFlight)
    case Drain =>
      if s.closers > 0 && s.queue != [] then
        s.(queue := s.queue[1..], exits := s.exits + [Exit(s.queue[0], false)], dropped := s.dropped + multiset{s.queue[0]})
      else s
    case EndDrain =>
      if s.closers > 0 && s.queue == [] then s.(closers := s.closers - 1, drained := true) else s
  }

  ghost function Run(s: State, actions: seq<Action>): State
    decreases |actions|
  {
    if actions == [] then s else Run(Exec(s, actions[0]), actions[1..])
  }

  ghost predicate Reachable(s: State) {
    exists actions :: s == Run(Boot(), actions)
  }

  // ----- conservation -----

  ghost function Count(queue: seq<nat>, p: nat): nat {
    if queue == [] then 0 else (if queue[0] == p then 1 else 0) + Count(queue[1..], p)
  }

  lemma {:induction false} CountAppend(queue: seq<nat>, q: nat, p: nat)
    ensures Count(queue + [q], p) == Count(queue, p) + if p == q then 1 else 0
  {
    if queue == [] {
      assert [q][1..] == [];
    } else {
      assert (queue + [q])[1..] == queue[1..] + [q];
      CountAppend(queue[1..], q, p);
    }
  }

  /** How many places a packet is in: with its Send, in the queue, being processed, dropped. */
  ghost function Places(s: State, p: nat): nat {
    (if p in s.sending then 1 else 0) + Count(s.queue, p) + (if s.processor == Busy(p) then 1 else 0) + s.dropped[p]
  }

  ghost predicate Accounted(s: State, p: nat) {
    Places(s, p) == if p < s.arrived then 1 else 0
  }

  lemma AccountedKept(s: State, a: Action, p: nat)
    requires Accounted(s, p)
    ensures Accounted(Exec(s, a), p)
  {
    match a
    case Put(q) => CountAppend(s.queue, q, p);
    case _ =>
  }

  // ----- order, bounds, and what happens at a Close -----

  function Packets(exits: seq<Exit>): seq<nat> {
    if exits == [] then [] else Packets(exits[..|exits| - 1]) + [exits[|exits| - 1].packet]
  }

  /** What Process was given, in order. */
  function Processed(exits: seq<Exit>): seq<nat> {
    if exits == [] then []
    else
      var last := exits[|exits| - 1];
      Processed(exits[..|exits| - 1]) + if last.processed then [last.packet] else []
  }

  ghost predicate Inv(s: State) {
    && |s.queue| <= CAPACITY
    && Packets(s.exits) + s.queue == s.accepted
    && (s.alive ==> s.closers == 0 && !s.processor.Stopped? && !s.drained && Processed(s.exits) == Packets(s.exits))
    && (!s.alive ==> s.sending <= s.inFlight && (s.closers > 0 || s.drained))
    && (s.drained ==> forall i | 0 <= i < |s.queue| :: s.queue[i] in s.inFlight)
  }

  lemma PacketsAppend(exits: seq<Exit>, e: Exit)
    ensures Packets(exits + [e]) == Packets(exits) + [e.packet]
    ensures Processed(exits + [e]) == Processed(exits) + if e.processed then [e.packet] else []
  {
    assert (exits + [e])[..|exits|] == exits;
  }

  /** The head of the queue moves to the exits. */
  lemma HeadLeaves(exits: seq<Exit>, queue: seq<nat>, accepted: seq<nat>, e: Exit)
    requires queue != [] && queue[0] == e.packet && Packets(exits) + queue == accepted
    ensures Packets(exits + [e]) + queue[1..] == accepted
  {
    PacketsAppend(exits, e);
    assert queue == [e.packet] + queue[1..];
    assert Packets(exits) + ([e.packet] + queue[1..]) == Packets(exits) + [e.packet] + queue[1..];
  }

  lemma PutOrder(exits: seq<Exit>, queue: seq<nat>, p: nat)
    ensures Packets(exits) + (queue + [p]) == Packets(exits) + queue + [p]
  {
  }

  lemma InvKept(s: State, a: Action)
    requires Inv(s)
    ensures Inv(Exec(s, a))
  {
    match a
    case Put(p) => PutOrder(s.exits, s.queue, p);
    case Take => if s.queue != [] { TakeKeeps(s); }
    case Drain => if s.queue != [] { DrainKeeps(s); }
    case _ =>
  }

  lemma TakeKeeps(s: State)
    requires Inv(s) && s.queue != []
    ensures Inv(Exec(s, Take))
  {
    HeadLeaves(s.exits, s.queue, s.accepted, Exit(s.queue[0], true));
    PacketsAppend(s.exits, Exit(s.queue[0], true));
  }

  lemma DrainKeeps(s: State)
    requires Inv(s) && s.queue != []
    ensures Inv(Exec(s, Drain))
  {
    HeadLeaves(s.exits, s.queue, s.accepted, Exit(s.queue[0], false));
  }

  lemma {:induction false} RunKeeps(s: State, actions: seq<Action>)
    requires Inv(s) && forall p: nat :: Accounted(s, p)
    ensures var r := Run(s, actions); Inv(r) && forall p: nat :: Accounted(r, p)
    decreases |actions|
  {
    if actions != [] {
      InvKept(s, actions[0]);
      forall p: nat ensures Accounted(Exec(s, actions[0]), p) {
        AccountedKept(s, actions[0], p);
      }
      RunKeeps(Exec(s, actions[0]), actions[1..]);
    }
  }

  lemma ReachableInv(s: State)
    requires Reachable(s)
    ensures Inv(s) && forall p: nat :: Accounted(s, p)
  {
    var actions :| s == Run(Boot(), actions);
    RunKeeps(Boot(), actions);
  }

  /** Every packet that arrived is in exactly one place, and is dropped at most once; the queue never exceeds its
      capacity. */
  lemma Conservation(s: State, p: nat)
    requires Reachable(s)
    ensures Places(s, p) == if p < s.arrived then 1 else 0
    ensures |s.queue| <= CAPACITY && s.dropped[p] <= 1
  {
    ReachableInv(s);
    assert Accounted(s, p);
  }

  /** The queue is first in, first out: what left it is what was accepted first, and until Close it all went to
      Process. */
  lemma InOrder(s: State)
    requires Reachable(s)
    ensures s.accepted == Packets(s.exits) + s.queue
    ensures s.alive ==> Processed(s.exits) == s.accepted[..|s.accepted| - |s.queue|]
  {
    ReachableInv(s);
    assert s.accepted[..|Packets(s.exits)|] == Packets(s.exits);
  }

  /** `part` is what `whole` holds at the increasing positions `at`. */
  ghost predicate Picks(whole: seq<nat>, part: seq<nat>, at: seq<nat>) {
    && |at| == |part|
    && (forall i | 0 <= i < |at| :: at[i] < |whole| && whole[at[i]] == part[i])
    && (forall i, j | 0 <= i < j < |at| :: at[i] < at[j])
  }

  /** Even around a Close, Process sees packets in the order in which they were accepted. */
  lemma {:induction false} ProcessedPicks(exits: seq<Exit>) returns (at: seq<nat>)
    ensures Picks(Packets(exits), Processed(exits), at)
    decreases |exits|
  {
    if exits == [] {
      return [];
    }
    var front, last := exits[..|exits| - 1], exits[|exits| - 1];
    at := ProcessedPicks(front);
    if last.processed {
      at := at + [|Packets(front)|];
    }
  }

  lemma ProcessedInOrder(s: State) returns (at: seq<nat>)
    requires Reachable(s)
    ensures Picks(s.accepted, Processed(s.exits), at)
  {
    ReachableInv(s);
    at := ProcessedPicks(s.exits);
  }

  // ----- why a packet is dropped -----

  /** A Send past its first select can put its packet exactly while fewer than 128 are queued, and can refuse it
      exactly if the context is cancelled or 128 are; so it never waits. */
  lemma SendNeverWaits(s: State, p: nat)
    requires p in s.sending
    ensures Exec(s, Put(p)) != s <==> |s.queue| < 128
    ensures Exec(s, Put(p)) != s ==> Exec(s, Put(p)).queue == s.queue + [p]
    ensures Exec(s, Refuse(p)) != s <==> !s.alive || |s.queue| >= 128
  {
    assert p !in s.sending - {p};
  }

  /** A packet is dropped only after it was processed, or because the context was cancelled, or because 128 packets
      were queued when it was sent. */
  lemma DroppedForAReason(s: State, a: Action, p: nat)
    requires Reachable(s) && Exec(s, a).dropped[p] > s.dropped[p]
    ensures s.processor == Busy(p) || !s.alive || (p in s.sending && |s.queue| == 128)
    ensures s.processor == Busy(p) && a == Finish ==> p in Processed(s.exits)
  {
    ReachableInv(s);
    BusyWasTaken(s);
  }

  /** What Process is busy with was taken from the queue. */
  lemma BusyWasTaken(s: State)
    requires Reachable(s)
    ensures s.processor.Busy? ==> s.processor.packet in Processed(s.exits)
  {
    var actions :| s == Run(Boot(), actions);
    RunTakes(Boot(), actions);
  }

  lemma {:induction false} RunTakes(s: State, actions: seq<Action>)
    requires s.processor.Busy? ==> s.processor.packet in Processed(s.exits)
    ensures var r := Run(s, actions); r.processor.Busy? ==> r.processor.packet in Processed(r.exits)
    decreases |actions|
  {
    if actions != [] {
      TakenStays(s, actions[0]);
      RunTakes(Exec(s, actions[0]), actions[1..]);
    }
  }

  lemma TakenStays(s: State, a: Action)
    requires s.processor.Busy? ==> s.processor.packet in Processed(s.exits)
    ensures var r := Exec(s, a); r.processor.Busy? ==> r.processor.packet in Processed(r.exits)
  {
    if s.queue != [] {
      PacketsAppend(s.exits, Exit(s.queue[0], true));
      PacketsAppend(s.exits, Exit(s.queue[0], false));
    }
  }

  /** A packet sent after the context was cancelled is dropped at once. */
  lemma LateSendDropped(s: State)
    requires Reachable(s) && !s.alive
    ensures var r := Exec(s, Arrive); r.dropped[s.arrived] == 1 && r.queue == s.queue && r.sending == s.sending
  {
    ReachableInv(s);
    assert Accounted(s, s.arrived);
  }

  // ----- what a Close may leave behind -----

  /** Process has stopped and every Close has returned, but a packet is still queued. */
  ghost predicate LeftBehind(s: State) {
    !s.alive && s.processor.Stopped? && s.closers == 0 && s.queue != []
  }

  lemma {:induction false} InFlightStays(s: State, actions: seq<Action>)
    requires !s.alive
    ensures !Run(s, actions).alive && Run(s, actions).inFlight == s.inFlight
    decreases |actions|
  {
    if actions != [] {
      InFlightStays(Exec(s, actions[0]), actions[1..]);
    }
  }

  lemma LeftBehindWasInFlight(s: State)
    requires Inv(s)
    ensures LeftBehind(s) ==> s.queue[0] in s.inFlight
  {
  }

  /** If no Send is past its first select when Close cancels the context, nothing is ever left behind. */
  lemma QuietCloseLeavesNothing(s: State, actions: seq<Action>)
    requires Reachable(s) && s.alive && s.sending == {}
    ensures !LeftBehind(Run(Exec(s, Cancel), actions))
  {
    ReachableInv(s);
    InvKept(s, Cancel);
    forall p: nat ensures Accounted(Exec(s, Cancel), p) {
      AccountedKept(s, Cancel, p);
    }
    RunKeeps(Exec(s, Cancel), actions);
    InFlightStays(Exec(s, Cancel), actions);
    LeftBehindWasInFlight(Run(Exec(s, Cancel), actions));
  }

  /** Emptying the queue by draining alone. */
  lemma {:induction false} DrainAll(s: State) returns (actions: seq<Action>)
    requires s.closers > 0
    ensures var r := Run(s, actions);
      r.queue == [] && r.closers == s.closers && r.sending == s.sending && r.processor == s.processor && r.alive == s.alive
    decreases |s.queue|
  {
    if s.queue == [] {
      return [];
    }
    var rest := DrainAll(Exec(s, Drain));
    actions := [Drain] + rest;
    assert actions[1..] == rest;
  }

  lemma {:induction false} RunConcat(s: State, xs: seq<Action>, ys: seq<Action>)
    ensures Run(s, xs + ys) == Run(Run(s, xs), ys)
    decreases |xs|
  {
    if xs == [] {
      assert xs + ys == ys;
    } else {
      assert (xs + ys)[1..] == xs[1..] + ys;
      RunConcat(Exec(s, xs[0]), xs[1..], ys);
    }
  }

  lemma RunTwo(s: State, a: Action, b: Action)
    ensures Run(s, [a, b]) == Exec(Exec(s, a), b)
  {
    assert [a, b][1..] == [b] && [b][1..] == [];
    assert Run(s, [a, b]) == Run(Exec(s, a), [b]);
  }

  /** If a Send is past its first select, it can put its packet after Process has stopped and the one Close has
      returned: the packet is then neither processed nor dropped. */
  lemma RacingCloseLeavesPacket(s: State, p: nat) returns (actions: seq<Action>)
    requires Reachable(s) && s.alive && p in s.sending
    ensures var r := Run(Exec(s, Cancel), actions); LeftBehind(r) && r.queue == [p] && r.dropped[p] == 0
  {
    ReachableInv(s);
    var c := Exec(s, Cancel);
    RunTwo(c, Finish, Stop);
    var stopped := Run(c, [Finish, Stop]);
    var drains := DrainAll(stopped);
    var drained := Run(stopped, drains);
    RunTwo(drained, EndDrain, Put(p));
    RunConcat(c, [Finish, Stop], drains);
    RunConcat(c, [Finish, Stop] + drains, [EndDrain, Put(p)]);
    actions := [Finish, Stop] + drains + [EndDrain, Put(p)];
    var r := Run(c, actions);
    assert r.queue == [p];
    InvKept(s, Cancel);
    forall q: nat ensures Accounted(c, q) {
      AccountedKept(s, Cancel, q);
    }
    RunKeeps(c, actions);
    assert Accounted(r, p) && Count([p], p) == 1;
  }

  /** Close leaves nothing behind in any continuation exactly when no Send is past its first select. */
  lemma CloseIsCleanIff(s: State)
    requires Reachable(s) && s.alive
    ensures (forall actions: seq<Action> :: !LeftBehind(Run(Exec(s, Cancel), actions))) <==> s.sending == {}
  {
    if s.sending == {} {
      forall actions: seq<Action> ensures !LeftBehind(Run(Exec(s, Cancel), actions)) {
        QuietCloseLeavesNothing(s, actions);
      }
    } else {
      var p :| p in s.sending;
      var actions := RacingCloseLeavesPacket(s, p);
      assert LeftBehind(Run(Exec(s, Cancel), actions));
    }
  }

  lemma {:induction false} LeftBehindStays(s: State, actions: seq<Action>)
    requires !s.alive && s.processor.Stopped? && s.closers == 0 && Cancel !in actions
    ensures var r := Run(s, actions); s.queue <= r.queue && r.exits == s.exits
    decreases |actions|
  {
    if actions != [] {
      LeftBehindStays(Exec(s, actions[0]), actions[1..]);
    }
  }

  lemma {:induction false} CountMember(queue: seq<nat>, p: nat)
    requires p in queue
    ensures Count(queue, p) > 0
  {
    if queue[0] != p {
      CountMember(queue[1..], p);
    }
  }

  /** What is left behind is never processed and never dropped, unless the sender is closed once more. */
  lemma LeftBehindForGood(s: State, actions: seq<Action>, p: nat)
    requires Reachable(s) && LeftBehind(s) && p in s.queue && Cancel !in actions
    ensures var r := Run(s, actions); LeftBehind(r) && p in r.queue && r.dropped[p] == 0
    ensures Processed(Run(s, actions).exits) == Processed(s.exits)
  {
    LeftBehindStays(s, actions);
    StoppedStays(s, actions);
    ReachableInv(s);
    RunKeeps(s, actions);
    CountMember(Run(s, actions).queue, p);
    assert Accounted(Run(s, actions), p);
  }

  lemma {:induction false} StoppedStays(s: State, actions: seq<Action>)
    requires !s.alive && s.processor.Stopped? && s.closers == 0 && Cancel !in actions
    ensures var r := Run(s, actions); !r.alive && r.processor.Stopped? && r.closers == 0
    decreases |actions|
  {
    if actions != [] {
      StoppedStays(Exec(s, actions[0]), actions[1..]);
    }
  }

  // ----- the address mapping -----

  /** netip.Addr; the zero value is not valid. */
  type Addr = Option<nat>

  /** One AddMapping call: key and address of the original destination, address it was resolved to. */
  datatype Mapping = Mapping(key: string, origin: Addr, target: Addr)

  /** The first valid target recorded for `key`. */
  function FirstTarget(history: seq<Mapping>, key: string): Addr {
    if history == [] then None
    else if history[0].key == key && history[0].target.Some? then history[0].target
    else FirstTarget(history[1..], key)
  }

  /** The first valid origin recorded for `target`. */
  function FirstOrigin(history: seq<Mapping>, target: Addr): Addr {
    if history == [] then None
    else if history[0].target == target && history[0].origin.Some? then history[0].origin
    else FirstOrigin(history[1..], target)
  }

  lemma {:induction false} FirstTargetAppend(history: seq<Mapping>, m: Mapping, key: string)
    ensures FirstTarget(history + [m], key) ==
      if FirstTarget(history, key).Some? then FirstTarget(history, key)
      else if m.key == key then m.target else None
  {
    if history == [] {
      assert [m][1..] == [];
    } else {
      assert (history + [m])[1..] == history[1..] + [m];
      FirstTargetAppend(history[1..], m, key);
    }
  }

  lemma {:induction false} FirstOriginAppend(history: seq<Mapping>, m: Mapping, target: Addr)
    ensures FirstOrigin(history + [m], target) ==
      if FirstOrigin(history, target).Some? then FirstOrigin(history, target)
      else if m.target == target then m.origin else None
  {
    if history == [] {
      assert [m][1..] == [];
    } else {
      assert (history + [m])[1..] == history[1..] + [m];
      FirstOriginAppend(history[1..], m, target);
    }
  }

  /** A recorded target, and the origin a reply is restored to, never change again. */
  lemma {:induction false} MappingIsStable(history: seq<Mapping>, more: seq<Mapping>, key: string, target: Addr)
    ensures FirstTarget(history, key).Some? ==> FirstTarget(history + more, key) == FirstTarget(history, key)
    ensures FirstOrigin(history, target).Some? ==> FirstOrigin(history + more, target) == FirstOrigin(history, target)
  {
    if history != [] {
      assert (history + more)[1..] == history[1..] + more;
      MappingIsStable(history[1..], more, key, target);
    }
  }

  /** A reply to a flow's packets comes back under the address the flow was opened with, provided every flow that
      shares its target was opened with that address. */
  lemma {:induction false} ReplyReachesOrigin(history: seq<Mapping>, target: Addr, origin: Addr)
    requires forall i | 0 <= i < |history| :: history[i].target == target ==> history[i].origin == origin
    requires exists i | 0 <= i < |history| :: history[i].target == target
    ensures FirstOrigin(history, target) == origin
  {
    var i :| 0 <= i < |history| && history[i].target == target;
    if i > 0 {
      assert history[1..][i - 1].target == target;
      ReplyReachesOrigin(history[1..], target, origin);
    } else if origin.None? {
      NoOrigin(history[1..], target);
    }
  }

  lemma {:induction false} NoOrigin(history: seq<Mapping>, target: Addr)
    requires forall i | 0 <= i < |history| :: history[i].target == target ==> history[i].origin.None?
    ensures FirstOrigin(history, target) == None
  {
    if history != [] {
      NoOrigin(history[1..], target);
    }
  }

  class Mappings {
    var originToTarget: map<string, Addr>
    var targetToOrigin: map<Addr, Addr>
    ghost var history: seq<Mapping>

    ghost predicate Valid()
      reads this
    {
      && (forall key :: Find(originToTarget, key) == FirstTarget(history, key))
      && (forall target :: Find(targetToOrigin, target) == FirstOrigin(history, target))
    }

    constructor ()
      ensures Valid() && history == []
    {
      originToTarget, targetToOrigin, history := map[], map[], [];
    }

    method AddMapping(originKey: string, originAddr: Addr, targetAddr: Addr)
      requires Valid()
      modifies this
      ensures Valid() && history == old(history) + [Mapping(originKey, originAddr, targetAddr)]
    {
      if Find(originToTarget, originKey).None? {
        originToTarget := originToTarget[originKey := targetAddr];
      }
      if Find(targetToOrigin, targetAddr).None? {
        targetToOrigin := targetToOrigin[targetAddr := originAddr];
      }
      ghost var m := Mapping(originKey, originAddr, targetAddr);
      forall key ensures Find(originToTarget, key) == FirstTarget(history + [m], key) {
        FirstTargetAppend(history, m, key);
      }
      forall target ensures Find(targetToOrigin, target) == FirstOrigin(history + [m], target) {
        FirstOriginAppend(history, m, target);
      }
      history := history + [m];
    }

    method RestoreReadFrom(addr: Addr) returns (r: Addr)
      requires Valid()
      ensures r == if FirstOrigin(history, addr).Some? then FirstOrigin(history, addr) else addr
    {
      r := Find(targetToOrigin, addr);
      if r.None? {
        r := addr;
      }
    }

    /** The address a packet is sent to, if any; `resolved` is what resolution would yield. */
    method Destination(key: string, originAddr: Addr, resolved: Addr) returns (addr: Addr)
      requires Valid()
      modifies this
      ensures Valid()
      ensures addr == if FirstTarget(old(history), key).Some? then FirstTarget(old(history), key) else resolved
      ensures addr.Some? ==> FirstTarget(history, key) == addr
      ensures history == if FirstTarget(old(history), key).Some? || resolved.None? then old(history)
                         else old(history) + [Mapping(key, originAddr, resolved)]
    {
      addr := Find(originToTarget, key);
      if addr.None? && resolved.Some? {
        FirstTargetAppend(history, Mapping(key, originAddr, resolved), key);
        AddMapping(key, originAddr, resolved);
        addr := resolved;
      }
    }
  }

  function Find<K>(m: map<K, Addr>, key: K): Addr {
    if key in m then m[key] else None
  }
}
