/**
 The client's outgoing messages: send slots, the outbound queue, the replay backlog that survives
 reconnects, and the loops that hand messages to a transport. One event is one queue, lock or slot
 operation; between two events any other thread may run. The model ends where the client shuts down.
 */
module OutboundDelivery {
  import opened Text

  /** Who made the message: a caller of `SendAsync`, a subscription change, or the heartbeat loop. */
  datatype Kind = Application | Subscription | Heartbeat

  datatype Message = Message(kind: Kind, id: string)

  /** Off: no connection. The replay stages follow `ReplayConnectionStateAsync`. */
  datatype Stage = Off | Starting | Draining | Replaying | Live

  /** Tokens in the slot channel, callers that took one and have not queued yet, tokens about to be returned. */
  datatype Slots = Slots(free: nat, holders: nat, owed: nat)

  /** `carried` is the list the replay holds, `sending` the message the send loop holds. */
  datatype Queues = Queues(
    outbound: seq<Message>, backlog: seq<Message>, carried: seq<Message>, sending: Option<Message>)

  datatype History = History(
    sent: seq<Message>, accepted: seq<Message>, applicationIds: set<string>, heartbeatIds: set<string>)

  /** `beating`: the heartbeat loop runs. `heartbeats`: ids of automatic heartbeats still remembered. */
  datatype State = State(
    stage: Stage, beating: bool, accepting: bool, slots: Slots, queues: Queues, heartbeats: set<string>,
    history: History)

  function Initial(capacity: nat): State {
    State(Off, false, true, Slots(capacity, 0, 0), Queues([], [], [], None), {}, History([], [], {}, {}))
  }

  /**
   The heartbeat loop starts when the client is live and is awaited before the next connection; a
   remembered id is forgotten when it is acknowledged, too old, or was never queued.
   */
  datatype Event =
    | Acquire | Enqueue(message: Message) | GiveUp | Return | StopAccepting
    | RememberHeartbeat(id: string, forgotten: set<string>) | ForgetHeartbeat(id: string) | HeartbeatStops
    | Connect | DrainBacklog | DrainOne | DrainEnd | ReplayOk | ReplayFail | ReplayEnd
    | Take | SendOk | SendFail | Stop

  // ---- Draining -------------------------------------------------------------------------------

  /** A command is rebuilt from the subscription set; an automatic heartbeat is not worth repeating. */
  predicate Dropped(m: Message, heartbeats: set<string>) {
    m.kind == Subscription || m.id in heartbeats
  }

  function Forget(m: Message, heartbeats: set<string>): set<string> {
    if m.kind == Subscription then heartbeats else heartbeats - {m.id}
  }

  /** `AddPendingApplicationMessage` over a list, in order. */
  function Kept(messages: seq<Message>, heartbeats: set<string>): seq<Message> {
    if messages == [] then []
    else
      (if Dropped(messages[0], heartbeats) then [] else [messages[0]])
      + Kept(messages[1..], Forget(messages[0], heartbeats))
  }

  function Remembered(messages: seq<Message>, heartbeats: set<string>): set<string> {
    if messages == [] then heartbeats else Remembered(messages[1..], Forget(messages[0], heartbeats))
  }

  lemma {:induction false} KeptIsShorter(messages: seq<Message>, heartbeats: set<string>)
    ensures |Kept(messages, heartbeats)| <= |messages|
  {
    if messages != [] {
      KeptIsShorter(messages[1..], Forget(messages[0], heartbeats));
    }
  }

  lemma {:induction false} KeptAppend(a: seq<Message>, b: seq<Message>, heartbeats: set<string>)
    ensures Kept(a + b, heartbeats) == Kept(a, heartbeats) + Kept(b, Remembered(a, heartbeats))
    ensures Remembered(a + b, heartbeats) == Remembered(b, Remembered(a, heartbeats))
  {
    if a == [] {
      assert a + b == b;
    } else {
      assert (a + b)[1..] == a[1..] + b;
      KeptAppend(a[1..], b, Forget(a[0], heartbeats));
    }
  }

  /** The messages at the picked positions, in order. */
  function Select(messages: seq<Message>, picks: nat -> bool): seq<Message> {
    if messages == [] then []
    else
      var last := |messages| - 1;
      Select(messages[..last], picks) + (if picks(last) then [messages[last]] else [])
  }

  /** The message is the first of its identifier, commands aside. */
  ghost predicate IsFirstOfId(messages: seq<Message>, i: nat)
    requires i < |messages|
  {
    forall j | 0 <= j < i && messages[j].kind != Subscription :: messages[j].id != messages[i].id
  }

  /**
   What a drain keeps of message `i`: never a command, and any other message unless it is the first
   with the identifier of a remembered heartbeat.
   */
  ghost predicate Survives(messages: seq<Message>, heartbeats: set<string>, i: nat)
    requires i < |messages|
  {
    messages[i].kind != Subscription && !(messages[i].id in heartbeats && IsFirstOfId(messages, i))
  }

  /** A remembered identifier is forgotten by the first message, commands aside, that has it. */
  lemma {:induction false} RememberedExactly(messages: seq<Message>, heartbeats: set<string>, id: string)
    ensures id in Remembered(messages, heartbeats)
            <==> id in heartbeats && forall m | m in messages && m.kind != Subscription :: m.id != id
  {
    if messages != [] {
      RememberedExactly(messages[1..], Forget(messages[0], heartbeats), id);
      assert forall m :: m in messages <==> m == messages[0] || m in messages[1..];
    }
  }

  lemma RememberedBefore(messages: seq<Message>, heartbeats: set<string>, i: nat)
    requires i < |messages|
    ensures messages[i].id in Remembered(messages[..i], heartbeats)
            <==> messages[i].id in heartbeats && IsFirstOfId(messages, i)
  {
    RememberedExactly(messages[..i], heartbeats, messages[i].id);
    assert forall j | 0 <= j < i :: messages[j] in messages[..i];
  }

  lemma {:induction false} KeptUpTo(messages: seq<Message>, heartbeats: set<string>, n: nat, picks: nat -> bool)
    requires n <= |messages| && forall i: nat | i < n :: picks(i) <==> Survives(messages, heartbeats, i)
    ensures Kept(messages[..n], heartbeats) == Select(messages[..n], picks)
  {
    if n > 0 {
      var before, last := messages[..n - 1], messages[n - 1];
      KeptUpTo(messages, heartbeats, n - 1, picks);
      assert messages[..n] == before + [last] && messages[..n][..n - 1] == before;
      KeptAppend(before, [last], heartbeats);
      RememberedBefore(messages, heartbeats, n - 1);
      assert [last][1..] == [];
    }
  }

  /** A drain keeps exactly the messages that survive it, in order. */
  lemma KeptExactly(messages: seq<Message>, heartbeats: set<string>, picks: nat -> bool)
    requires forall i: nat | i < |messages| :: picks(i) <==> Survives(messages, heartbeats, i)
    ensures Kept(messages, heartbeats) == Select(messages, picks)
  {
    KeptUpTo(messages, heartbeats, |messages|, picks);
    assert messages[..|messages|] == messages;
  }

  /** No command is ever replayed from the queues. */
  lemma {:induction false} KeptHasNoCommand(messages: seq<Message>, heartbeats: set<string>)
    ensures forall m | m in Kept(messages, heartbeats) :: m.kind != Subscription
  {
    if messages != [] {
      KeptHasNoCommand(messages[1..], Forget(messages[0], heartbeats));
    }
  }

  /** Only the application messages, in order. */
  function Applications(messages: seq<Message>): seq<Message> {
    if messages == [] then []
    else
      var last := messages[|messages| - 1];
      Applications(messages[..|messages| - 1]) + (if last.kind == Application then [last] else [])
  }

  lemma {:induction false} ApplicationsConcat(a: seq<Message>, b: seq<Message>)
    ensures Applications(a + b) == Applications(a) + Applications(b)
  {
    if b == [] {
      assert a + b == a;
    } else {
      assert (a + b)[..|a + b| - 1] == a + b[..|b| - 1];
      ApplicationsConcat(a, b[..|b| - 1]);
    }
  }

  predicate NoneRemembered(messages: seq<Message>, heartbeats: set<string>) {
    forall i | 0 <= i < |messages| && messages[i].kind == Application :: messages[i].id !in heartbeats
  }

  /** No application message has the id of a heartbeat that is still remembered when its turn comes. */
  predicate NoneShadowed(messages: seq<Message>, heartbeats: set<string>) {
    messages == []
    || ((messages[0].kind == Application ==> messages[0].id !in heartbeats)
        && NoneShadowed(messages[1..], Forget(messages[0], heartbeats)))
  }

  lemma ApplicationsHead(messages: seq<Message>)
    requires messages != []
    ensures Applications(messages)
            == (if messages[0].kind == Application then [messages[0]] else []) + Applications(messages[1..])
  {
    assert messages == messages[..1] + messages[1..];
    ApplicationsConcat(messages[..1], messages[1..]);
  }

  lemma KeptHead(messages: seq<Message>, heartbeats: set<string>)
    requires messages != []
    ensures var rest := Applications(Kept(messages[1..], Forget(messages[0], heartbeats)));
            Applications(Kept(messages, heartbeats))
            == if messages[0].kind == Application && messages[0].id !in heartbeats then [messages[0]] + rest else rest
  {
    var rest := Kept(messages[1..], Forget(messages[0], heartbeats));
    if Dropped(messages[0], heartbeats) {
      assert Kept(messages, heartbeats) == rest;
    } else {
      assert Kept(messages, heartbeats) == [messages[0]] + rest;
      ApplicationsHead([messages[0]] + rest);
    }
  }

  /** Draining keeps the application messages, all of them and in order, exactly when no heartbeat id shadows one. */
  lemma {:induction false} DrainKeepsExactly(messages: seq<Message>, heartbeats: set<string>)
    ensures |Applications(Kept(messages, heartbeats))| <= |Applications(messages)|
    ensures |Applications(Kept(messages, heartbeats))| == |Applications(messages)|
            <==> NoneShadowed(messages, heartbeats)
    ensures Applications(Kept(messages, heartbeats)) == Applications(messages) <==> NoneShadowed(messages, heartbeats)
  {
    if messages != [] {
      DrainKeepsExactly(messages[1..], Forget(messages[0], heartbeats));
      ApplicationsHead(messages);
      KeptHead(messages, heartbeats);
      SameTail([messages[0]], Applications(Kept(messages[1..], Forget(messages[0], heartbeats))),
               Applications(messages[1..]));
    }
  }

  lemma SameTail(head: seq<Message>, a: seq<Message>, b: seq<Message>)
    ensures head + a == head + b <==> a == b
  {
    assert (head + a)[|head|..] == a && (head + b)[|head|..] == b;
  }

  lemma {:induction false} RememberedShrinks(messages: seq<Message>, heartbeats: set<string>)
    requires NoneRemembered(messages, heartbeats)
    ensures NoneShadowed(messages, heartbeats)
  {
    if messages != [] {
      RememberedShrinks(messages[1..], Forget(messages[0], heartbeats));
    }
  }

  /** In particular when none has the id of any remembered heartbeat. */
  lemma DrainKeepsApplications(messages: seq<Message>, heartbeats: set<string>)
    requires NoneRemembered(messages, heartbeats)
    ensures Applications(Kept(messages, heartbeats)) == Applications(messages)
  {
    RememberedShrinks(messages, heartbeats);
    DrainKeepsExactly(messages, heartbeats);
  }

  // ---- Steps ----------------------------------------------------------------------------------

  function Owe(slots: Slots, count: nat): Slots {
    slots.(owed := slots.owed + count)
  }

  function Step(s: State, e: Event): State {
    if IsQuiet(e) then StepQuiet(s, e)
    else if Shifts(e) then StepShift(s, e)
    else
      match e
      case Enqueue(m) => StepEnqueue(s, m)
      case DrainBacklog => StepDrainBacklog(s)
      case DrainOne => StepDrainOne(s)
      case _ => StepHandOver(s, e)
  }

  /** Events that touch no queue. */
  predicate IsQuiet(e: Event) {
    || e.Acquire? || e.GiveUp? || e.Return? || e.StopAccepting? || e.RememberHeartbeat? || e.ForgetHeartbeat?
    || e.HeartbeatStops? || e.Connect? || e.DrainEnd? || e.ReplayEnd? || e.Stop?
  }

  function StepQuiet(s: State, e: Event): State {
    var slots := s.slots;
    match e
    case Acquire =>
      if slots.free == 0 then s
      else s.(slots := slots.(free := slots.free - 1, holders := slots.holders + 1))
    case GiveUp =>
      if slots.holders == 0 then s else s.(slots := Owe(slots.(holders := slots.holders - 1), 1))
    case Return =>
      if slots.owed == 0 then s else s.(slots := slots.(owed := slots.owed - 1, free := slots.free + 1))
    case StopAccepting => s.(accepting := false)
    case RememberHeartbeat(id, forgotten) =>
      if !s.beating then s
      else s.(heartbeats := s.heartbeats - forgotten + {id},
              history := s.history.(heartbeatIds := s.history.heartbeatIds + {id}))
    case ForgetHeartbeat(id) => s.(heartbeats := s.heartbeats - {id})
    case HeartbeatStops => if s.stage == Off then s.(beating := false) else s
    case Connect => if s.stage == Off && !s.beating then s.(stage := Starting) else s
    case DrainEnd =>
      if s.stage == Draining && s.queues.outbound == [] then s.(stage := Replaying, heartbeats := {}) else s
    case ReplayEnd =>
      if s.stage == Replaying && s.queues.carried == [] then s.(stage := Live, beating := true) else s
    case Stop =>
      if s.stage == Starting || (s.stage == Live && s.queues.sending.None?) then s.(stage := Off) else s
    case _ => s
  }

  /** Events that move a message from one place to the next. */
  predicate Shifts(e: Event) {
    e.ReplayFail? || e.Take? || e.SendFail?
  }

  function StepShift(s: State, e: Event): State {
    var q := s.queues;
    match e
    case ReplayFail =>
      if s.stage != Replaying then s
      else s.(queues := q.(backlog := q.backlog + q.carried, carried := []), stage := Off)
    case Take =>
      if s.stage != Live || q.sending.Some? || q.outbound == [] then s
      else s.(queues := q.(sending := Some(q.outbound[0]), outbound := q.outbound[1..]))
    case SendFail =>
      if q.sending.None? then s
      else s.(queues := q.(backlog := q.backlog + [q.sending.value], sending := None), stage := Off)
    case _ => s
  }

  /** The replay or the send loop hands a message to the transport. */
  function StepHandOver(s: State, e: Event): State {
    var q, h := s.queues, s.history;
    match e
    case ReplayOk =>
      if s.stage != Replaying || q.carried == [] then s
      else s.(history := h.(sent := h.sent + [q.carried[0]]), queues := q.(carried := q.carried[1..]),
              slots := Owe(s.slots, 1))
    case SendOk =>
      if q.sending.None? then s
      else s.(history := h.(sent := h.sent + [q.sending.value]), queues := q.(sending := None),
              slots := Owe(s.slots, 1))
    case _ => s
  }

  /** `EnqueueOwnedAsync` after the slot was taken. */
  function StepEnqueue(s: State, m: Message): State {
    var left := s.slots.(holders := if s.slots.holders == 0 then 0 else s.slots.holders - 1);
    if s.slots.holders == 0 then s
    else if !s.accepting then s.(slots := Owe(left, 1))
    else s.(slots := left, queues := s.queues.(outbound := s.queues.outbound + [m]),
            history := if m.kind == Application
                       then s.history.(accepted := s.history.accepted + [m],
                                       applicationIds := s.history.applicationIds + {m.id})
                       else s.history)
  }

  function StepDrainBacklog(s: State): State {
    if s.stage != Starting then s
    else
      var backlog, kept := s.queues.backlog, Kept(s.queues.backlog, s.heartbeats);
      KeptIsShorter(backlog, s.heartbeats);
      s.(stage := Draining, queues := s.queues.(carried := kept, backlog := []),
         slots := Owe(s.slots, |backlog| - |kept|), heartbeats := Remembered(backlog, s.heartbeats))
  }

  function StepDrainOne(s: State): State {
    if s.stage != Draining || s.queues.outbound == [] then s
    else
      var m := s.queues.outbound[0];
      var popped := s.queues.(outbound := s.queues.outbound[1..]);
      var forgot := s.(heartbeats := Forget(m, s.heartbeats));
      if Dropped(m, s.heartbeats) then forgot.(queues := popped, slots := Owe(s.slots, 1))
      else forgot.(queues := popped.(carried := popped.carried + [m]))
  }

  function Run(capacity: nat, events: seq<Event>): State {
    if events == [] then Initial(capacity)
    else Step(Run(capacity, events[..|events| - 1]), events[|events| - 1])
  }

  // ---- What a step does to the unsent messages ------------------------------------------------

  function Held(sending: Option<Message>): seq<Message> {
    if sending.Some? then [sending.value] else []
  }

  function InOrder(
    carried: seq<Message>, held: seq<Message>, backlog: seq<Message>, outbound: seq<Message>): seq<Message>
  {
    carried + held + backlog + outbound
  }

  /** Every message not yet handed over, oldest first. */
  function Unsent(q: Queues): seq<Message> {
    InOrder(q.carried, Held(q.sending), q.backlog, q.outbound)
  }

  predicate Structure(stage: Stage, q: Queues) {
    && (stage != Draining && stage != Replaying ==> q.carried == [])
    && (stage != Live ==> q.sending == None)
    && (stage != Off && stage != Starting ==> q.backlog == [])
  }

  function Total(slots: Slots): nat {
    slots.free + slots.holders + slots.owed
  }

  /** No automatic heartbeat has the id of an application message. */
  predicate SeparateIds(h: History) {
    h.applicationIds !! h.heartbeatIds
  }

  lemma MoveToBacklog(a: seq<Message>, outbound: seq<Message>)
    ensures InOrder(a, [], [], outbound) == a + outbound
    ensures InOrder([], [], [] + a, outbound) == a + outbound
    ensures InOrder([], a, [], outbound) == a + outbound
  {
  }

  lemma TakeFirst(outbound: seq<Message>)
    requires outbound != []
    ensures InOrder([], [], [], outbound) == InOrder([], [outbound[0]], [], outbound[1..])
  {
  }

  lemma QuietStep(s: State, e: Event)
    requires Structure(s.stage, s.queues) && IsQuiet(e)
    ensures var t := StepQuiet(s, e);
            && t.queues == s.queues && Structure(t.stage, t.queues) && Total(t.slots) == Total(s.slots)
            && t.history == s.history.(heartbeatIds := t.history.heartbeatIds)
            && s.history.heartbeatIds <= t.history.heartbeatIds
            && (s.heartbeats <= s.history.heartbeatIds ==> t.heartbeats <= t.history.heartbeatIds)
  {
  }

  /** The same messages are unsent, in the same order, and nothing else has changed. */
  ghost predicate SameUnsent(s: State, t: State) {
    && Unsent(t.queues) == Unsent(s.queues) && Structure(t.stage, t.queues)
    && t.slots == s.slots && t.history == s.history && t.heartbeats == s.heartbeats
  }

  lemma ReplayFailShifts(s: State)
    requires Structure(s.stage, s.queues)
    ensures SameUnsent(s, StepShift(s, ReplayFail))
  {
    MoveToBacklog(s.queues.carried, s.queues.outbound);
  }

  lemma TakeShifts(s: State)
    requires Structure(s.stage, s.queues)
    ensures SameUnsent(s, StepShift(s, Take))
  {
    if s.queues.outbound != [] {
      TakeFirst(s.queues.outbound);
    }
  }

  lemma SendFailShifts(s: State)
    requires Structure(s.stage, s.queues)
    ensures SameUnsent(s, StepShift(s, SendFail))
  {
    MoveToBacklog(Held(s.queues.sending), s.queues.outbound);
  }

  lemma ShiftStep(s: State, e: Event)
    requires Structure(s.stage, s.queues) && Shifts(e)
    ensures SameUnsent(s, StepShift(s, e))
  {
    if e.ReplayFail? {
      ReplayFailShifts(s);
    } else if e.Take? {
      TakeShifts(s);
    } else {
      SendFailShifts(s);
    }
  }

  /** Handing over takes the oldest unsent message, and its slot is owed. */
  lemma HandOverStep(s: State, e: Event)
    requires Structure(s.stage, s.queues) && (e.ReplayOk? || e.SendOk?)
    ensures var t := StepHandOver(s, e);
            && Structure(t.stage, t.queues) && t.heartbeats == s.heartbeats
            && (t == s || (&& Unsent(s.queues) != [] && Unsent(t.queues) == Unsent(s.queues)[1..]
                           && t.history == s.history.(sent := s.history.sent + [Unsent(s.queues)[0]])
                           && Total(t.slots) == Total(s.slots) + 1))
  {
    var q := s.queues;
    if e.ReplayOk? {
      MoveToBacklog(q.carried, q.outbound);
      if q.carried != [] {
        MoveToBacklog(q.carried[1..], q.outbound);
      }
    } else {
      MoveToBacklog(Held(q.sending), q.outbound);
      MoveToBacklog([], q.outbound);
    }
  }

  lemma EnqueueStep(s: State, m: Message)
    requires Structure(s.stage, s.queues)
    ensures var t := StepEnqueue(s, m);
            && Structure(t.stage, t.queues) && t.heartbeats == s.heartbeats
            && Total(t.slots) + |Unsent(t.queues)| == Total(s.slots) + |Unsent(s.queues)|
            && ((Unsent(t.queues) == Unsent(s.queues) && t.history == s.history) ||
                (&& Unsent(t.queues) == Unsent(s.queues) + [m] && t.history.sent == s.history.sent
                 && t.history.heartbeatIds == s.history.heartbeatIds
                 && t.history.accepted == s.history.accepted + (if m.kind == Application then [m] else [])
                 && t.history.applicationIds
                    == s.history.applicationIds + (if m.kind == Application then {m.id} else {})))
  {
  }

  lemma DrainBacklogStep(s: State)
    requires Structure(s.stage, s.queues) && s.stage == Starting
    ensures var t := StepDrainBacklog(s);
            && Structure(t.stage, t.queues) && t.history == s.history
            && t.heartbeats == Remembered(s.queues.backlog, s.heartbeats)
            && Unsent(s.queues) == s.queues.backlog + s.queues.outbound
            && Unsent(t.queues) == Kept(s.queues.backlog, s.heartbeats) + s.queues.outbound
            && Total(t.slots) + |Unsent(t.queues)| == Total(s.slots) + |Unsent(s.queues)|
  {
    MoveToBacklog(s.queues.backlog, s.queues.outbound);
    MoveToBacklog(Kept(s.queues.backlog, s.heartbeats), s.queues.outbound);
  }

  lemma DrainOneStep(s: State)
    requires Structure(s.stage, s.queues) && s.stage == Draining && s.queues.outbound != []
    ensures var t, m := StepDrainOne(s), s.queues.outbound[0];
            && Structure(t.stage, t.queues) && t.history == s.history && t.heartbeats == Forget(m, s.heartbeats)
            && Unsent(s.queues) == s.queues.carried + [m] + s.queues.outbound[1..]
            && Unsent(t.queues) == (if Dropped(m, s.heartbeats) then s.queues.carried + s.queues.outbound[1..]
                                    else Unsent(s.queues))
            && Total(t.slots) + |Unsent(t.queues)| == Total(s.slots) + |Unsent(s.queues)|
  {
    var q := s.queues;
    MoveToBacklog(q.carried, q.outbound);
    MoveToBacklog(q.carried, q.outbound[1..]);
    MoveToBacklog(q.carried + [q.outbound[0]], q.outbound[1..]);
  }

  // ---- Slots ----------------------------------------------------------------------------------

  predicate SlotsConserved(capacity: nat, s: State) {
    Structure(s.stage, s.queues) && Total(s.slots) + |Unsent(s.queues)| == capacity
  }

  lemma SlotStep(capacity: nat, s: State, e: Event)
    requires SlotsConserved(capacity, s)
    ensures SlotsConserved(capacity, Step(s, e))
  {
    if IsQuiet(e) {
      QuietStep(s, e);
    } else if Shifts(e) {
      ShiftStep(s, e);
    } else if e.Enqueue? {
      EnqueueStep(s, e.message);
    } else if e.DrainBacklog? {
      if s.stage == Starting {
        DrainBacklogStep(s);
      }
    } else if e.DrainOne? {
      if s.stage == Draining && s.queues.outbound != [] {
        DrainOneStep(s);
      }
    } else {
      HandOverStep(s, e);
    }
  }

  // ---- Which ids are known --------------------------------------------------------------------

  predicate Known(unsent: seq<Message>, heartbeats: set<string>, h: History) {
    heartbeats <= h.heartbeatIds && forall m | m in unsent && m.kind == Application :: m.id in h.applicationIds
  }

  lemma {:induction false} KeptWithin(messages: seq<Message>, heartbeats: set<string>)
    ensures forall m | m in Kept(messages, heartbeats) :: m in messages
    ensures Remembered(messages, heartbeats) <= heartbeats
  {
    if messages != [] {
      KeptWithin(messages[1..], Forget(messages[0], heartbeats));
    }
  }

  lemma KnownStep(s: State, e: Event)
    requires Structure(s.stage, s.queues) && Known(Unsent(s.queues), s.heartbeats, s.history)
    ensures var t := Step(s, e); Known(Unsent(t.queues), t.heartbeats, t.history)
  {
    if IsQuiet(e) {
      QuietStep(s, e);
    } else if Shifts(e) {
      ShiftStep(s, e);
    } else if e.Enqueue? {
      EnqueueStep(s, e.message);
    } else if e.DrainBacklog? {
      if s.stage == Starting {
        DrainBacklogStep(s);
        KeptWithin(s.queues.backlog, s.heartbeats);
      }
    } else if e.DrainOne? {
      if s.stage == Draining && s.queues.outbound != [] {
        DrainOneStep(s);
      }
    } else {
      HandOverStep(s, e);
    }
  }

  // ---- Nothing lost ---------------------------------------------------------------------------

  /** Sent and unsent application messages together are the accepted ones, in order. */
  ghost predicate Delivers(s: State) {
    Applications(s.history.sent) + Applications(Unsent(s.queues)) == s.history.accepted
  }

  ghost function Found(s: State): nat {
    |Applications(s.history.sent)| + |Applications(Unsent(s.queues))|
  }

  /** This step drains an application message that has the id of a heartbeat remembered at its turn. */
  predicate Shadows(s: State, e: Event) {
    || (e.DrainBacklog? && s.stage == Starting && !NoneShadowed(s.queues.backlog, s.heartbeats))
    || (e.DrainOne? && s.stage == Draining && s.queues.outbound != []
        && s.queues.outbound[0].kind == Application && s.queues.outbound[0].id in s.heartbeats)
  }

  /** A step that shadows nothing loses nothing; one that does loses something. */
  ghost predicate Accounts(s: State, e: Event, t: State) {
    if Shadows(s, e) then Found(t) < Found(s) && t.history.accepted == s.history.accepted
    else && Found(t) - |t.history.accepted| == Found(s) - |s.history.accepted| && (Delivers(s) ==> Delivers(t))
  }

  lemma HandOver(sent: seq<Message>, unsent: seq<Message>)
    requires unsent != []
    ensures Applications(sent + [unsent[0]]) + Applications(unsent[1..]) == Applications(sent) + Applications(unsent)
    ensures |Applications(sent + [unsent[0]])| + |Applications(unsent[1..])|
            == |Applications(sent)| + |Applications(unsent)|
  {
    var head := if unsent[0].kind == Application then [unsent[0]] else [];
    Queued(sent, unsent[0]);
    ApplicationsHead(unsent);
    Regroup(Applications(sent), head, Applications(unsent[1..]));
  }

  lemma Regroup(a: seq<Message>, b: seq<Message>, c: seq<Message>)
    ensures (a + b) + c == a + (b + c)
  {
  }

  lemma AccountsHandOver(s: State, e: Event)
    requires Structure(s.stage, s.queues) && (e.ReplayOk? || e.SendOk?)
    ensures Accounts(s, e, StepHandOver(s, e))
  {
    HandOverStep(s, e);
    if Unsent(s.queues) != [] {
      HandOver(s.history.sent, Unsent(s.queues));
    }
  }

  lemma AccountsEnqueue(s: State, m: Message)
    requires Structure(s.stage, s.queues)
    ensures Accounts(s, Enqueue(m), StepEnqueue(s, m))
  {
    EnqueueStep(s, m);
    Queued(Unsent(s.queues), m);
  }

  lemma Queued(unsent: seq<Message>, m: Message)
    ensures Applications(unsent + [m]) == Applications(unsent) + (if m.kind == Application then [m] else [])
  {
    assert (unsent + [m])[..|unsent|] == unsent;
  }

  lemma AccountsDrainBacklog(s: State)
    requires Structure(s.stage, s.queues)
    ensures Accounts(s, DrainBacklog, StepDrainBacklog(s))
  {
    if s.stage == Starting {
      var backlog := s.queues.backlog;
      DrainBacklogStep(s);
      DrainKeepsExactly(backlog, s.heartbeats);
      ApplicationsConcat(backlog, s.queues.outbound);
      ApplicationsConcat(Kept(backlog, s.heartbeats), s.queues.outbound);
    }
  }

  lemma Without(a: seq<Message>, m: Message, b: seq<Message>)
    ensures |Applications(a + [m] + b)| == |Applications(a + b)| + (if m.kind == Application then 1 else 0)
    ensures m.kind != Application ==> Applications(a + [m] + b) == Applications(a + b)
  {
    ApplicationsConcat(a + [m], b);
    assert (a + [m])[..|a|] == a;
    ApplicationsConcat(a, b);
  }

  lemma AccountsDrainOne(s: State)
    requires Structure(s.stage, s.queues)
    ensures Accounts(s, DrainOne, StepDrainOne(s))
  {
    if s.stage == Draining && s.queues.outbound != [] {
      DrainOneStep(s);
      Without(s.queues.carried, s.queues.outbound[0], s.queues.outbound[1..]);
    }
  }

  lemma AccountsStep(s: State, e: Event)
    requires Structure(s.stage, s.queues)
    ensures Accounts(s, e, Step(s, e))
  {
    if IsQuiet(e) {
      QuietStep(s, e);
    } else if Shifts(e) {
      ShiftStep(s, e);
    } else if e.Enqueue? {
      AccountsEnqueue(s, e.message);
    } else if e.DrainBacklog? {
      AccountsDrainBacklog(s);
    } else if e.DrainOne? {
      AccountsDrainOne(s);
    } else {
      AccountsHandOver(s, e);
    }
  }

  /** No drain of the run meets a shadowed application message. */
  ghost predicate NeverShadows(capacity: nat, events: seq<Event>) {
    forall i | 0 <= i < |events| :: !Shadows(Run(capacity, events[..i]), events[i])
  }

  ghost predicate Exact(capacity: nat, events: seq<Event>) {
    var s := Run(capacity, events);
    && Found(s) <= |s.history.accepted|
    && (Found(s) == |s.history.accepted| <==> Delivers(s))
    && (Delivers(s) <==> NeverShadows(capacity, events))
  }

  lemma NeverShadowsStep(capacity: nat, events: seq<Event>, e: Event)
    ensures NeverShadows(capacity, events + [e])
            <==> NeverShadows(capacity, events) && !Shadows(Run(capacity, events), e)
  {
    var longer := events + [e];
    assert forall i | 0 <= i < |events| :: longer[..i] == events[..i] && longer[i] == events[i];
    assert longer[..|events|] == events && longer[|events|] == e;
  }

  lemma ExactStep(capacity: nat, events: seq<Event>, e: Event)
    requires Exact(capacity, events) && Structure(Run(capacity, events).stage, Run(capacity, events).queues)
    ensures Exact(capacity, events + [e])
  {
    assert (events + [e])[..|events|] == events;
    AccountsStep(Run(capacity, events), e);
    NeverShadowsStep(capacity, events, e);
  }

  ghost predicate Inv(capacity: nat, events: seq<Event>) {
    var s := Run(capacity, events);
    SlotsConserved(capacity, s) && Known(Unsent(s.queues), s.heartbeats, s.history) && Exact(capacity, events)
  }

  lemma InvStep(capacity: nat, events: seq<Event>, e: Event)
    requires Inv(capacity, events)
    ensures Inv(capacity, events + [e])
  {
    assert (events + [e])[..|events|] == events;
    SlotStep(capacity, Run(capacity, events), e);
    KnownStep(Run(capacity, events), e);
    ExactStep(capacity, events, e);
  }

  lemma {:induction false} Invariant(capacity: nat, events: seq<Event>)
    ensures Inv(capacity, events)
  {
    if events == [] {
      InvInitial(capacity);
    } else {
      var past, e := events[..|events| - 1], events[|events| - 1];
      Invariant(capacity, past);
      assert past + [e] == events;
      InvStep(capacity, past, e);
    }
  }

  lemma InvInitial(capacity: nat)
    ensures Inv(capacity, [])
  {
  }

  // ---- Theorems -------------------------------------------------------------------------------

  /**
   Over whole runs: the accepted application messages are, in order, the sent ones followed by those the
   replay, the send loop, the backlog and the queue hold, exactly when no drain met an application
   message with the id of a heartbeat remembered at its turn.
   */
  lemma NothingLostIff(capacity: nat, events: seq<Event>)
    ensures Delivers(Run(capacity, events)) <==> NeverShadows(capacity, events)
  {
    Invariant(capacity, events);
  }

  /** No command is among the messages that a replay holds. */
  ghost predicate NoneCarried(s: State) {
    forall m | m in s.queues.carried :: m.kind != Subscription
  }

  lemma NoneCarriedStep(s: State, e: Event)
    requires NoneCarried(s)
    ensures NoneCarried(Step(s, e))
  {
    if e.DrainBacklog? {
      KeptHasNoCommand(s.queues.backlog, s.heartbeats);
    }
  }

  /**
   In every run a replay never holds a subscription command, so it hands none to the transport: the
   commands of an earlier connection reach the next one only as the subscriptions rebuilt from the
   caller's set.
   */
  lemma {:induction false} CommandsAreNotReplayed(capacity: nat, events: seq<Event>)
    ensures NoneCarried(Run(capacity, events))
    ensures var s, t := Run(capacity, events), Step(Run(capacity, events), ReplayOk);
            s.history.sent <= t.history.sent
            && forall m | m in t.history.sent[|s.history.sent|..] :: m.kind != Subscription
  {
    if events != [] {
      CommandsAreNotReplayed(capacity, events[..|events| - 1]);
      NoneCarriedStep(Run(capacity, events[..|events| - 1]), events[|events| - 1]);
    }
  }

  // ---- Heartbeats over a run ------------------------------------------------------------------

  /** The step remembers this heartbeat. */
  predicate Remembers(s: State, e: Event, id: string) {
    e.RememberHeartbeat? && s.beating && e.id == id
  }

  /** The step forgets it: acknowledged or never queued, pushed out by a newer one, or met or ended by a drain. */
  ghost predicate Forgets(s: State, e: Event, id: string) {
    || e == ForgetHeartbeat(id)
    || (e.RememberHeartbeat? && s.beating && id in e.forgotten)
    || (e.DrainBacklog? && s.stage == Starting && exists m :: m in s.queues.backlog && HasId(m, id))
    || (e.DrainOne? && s.stage == Draining && s.queues.outbound != [] && HasId(s.queues.outbound[0], id))
    || (e.DrainEnd? && s.stage == Draining && s.queues.outbound == [])
  }

  predicate HasId(m: Message, id: string) {
    m.kind != Subscription && m.id == id
  }

  lemma HeartbeatStep(s: State, e: Event, id: string)
    ensures id in Step(s, e).heartbeats <==> Remembers(s, e, id) || (id in s.heartbeats && !Forgets(s, e, id))
  {
    if e.DrainBacklog? {
      RememberedExactly(s.queues.backlog, s.heartbeats, id);
      assert forall m :: HasId(m, id) <==> m.kind != Subscription && m.id == id;
    }
  }

  /** Event `n` remembered the heartbeat and no later one forgot it. */
  ghost predicate IsRememberedSince(capacity: nat, events: seq<Event>, n: nat, id: string) {
    && n < |events| && RemembersAt(capacity, events, n, id)
    && forall k | n < k < |events| :: !ForgetsAt(capacity, events, k, id)
  }

  ghost predicate RemembersAt(capacity: nat, events: seq<Event>, k: nat, id: string)
    requires k < |events|
  {
    Remembers(Run(capacity, events[..k]), events[k], id)
  }

  ghost predicate ForgetsAt(capacity: nat, events: seq<Event>, k: nat, id: string)
    requires k < |events|
  {
    var s := Run(capacity, events[..k]);
    Forgets(s, events[k], id) && !Remembers(s, events[k], id)
  }

  ghost predicate AddedSince(n: nat, k: nat, adds: nat -> bool, drops: nat -> bool) {
    k < n && adds(k) && forall j | k < j < n :: !drops(j)
  }

  /** What moments add and drop, one after the other, is there at the end exactly if added and not dropped since. */
  lemma {:induction false} SinceIff(n: nat, member: nat -> bool, adds: nat -> bool, drops: nat -> bool)
    requires !member(0)
    requires forall k: nat | k < n :: member(k + 1) <==> adds(k) || (member(k) && !drops(k))
    ensures member(n) <==> exists k: nat :: AddedSince(n, k, adds, drops)
  {
    if n > 0 {
      var m := n - 1;
      SinceIff(m, member, adds, drops);
      assert member(m + 1) <==> adds(m) || (member(m) && !drops(m));
      assert adds(m) <==> AddedSince(n, m, adds, drops);
      forall k: nat | k < m
        ensures AddedSince(n, k, adds, drops) <==> AddedSince(m, k, adds, drops) && !drops(m)
      {
      }
      if k: nat :| AddedSince(m, k, adds, drops) {
        assert AddedSince(n, k, adds, drops) <==> !drops(m);
      }
    }
  }

  ghost function HeldAt(capacity: nat, events: seq<Event>, id: string): nat -> bool {
    (k: nat) => k <= |events| && id in Run(capacity, events[..k]).heartbeats
  }

  ghost function AddsAt(capacity: nat, events: seq<Event>, id: string): nat -> bool {
    (k: nat) => k < |events| && RemembersAt(capacity, events, k, id)
  }

  ghost function DropsAt(capacity: nat, events: seq<Event>, id: string): nat -> bool {
    (k: nat) => k < |events| && ForgetsAt(capacity, events, k, id)
  }

  lemma HeartbeatNext(capacity: nat, events: seq<Event>, k: nat, id: string)
    requires k < |events|
    ensures HeldAt(capacity, events, id)(k + 1)
            <==> AddsAt(capacity, events, id)(k)
                 || (HeldAt(capacity, events, id)(k) && !DropsAt(capacity, events, id)(k))
  {
    assert events[..k + 1][..k] == events[..k];
    HeartbeatStep(Run(capacity, events[..k]), events[k], id);
  }

  lemma SinceMeans(capacity: nat, events: seq<Event>, n: nat, id: string)
    ensures IsRememberedSince(capacity, events, n, id)
            <==> AddedSince(|events|, n, AddsAt(capacity, events, id), DropsAt(capacity, events, id))
  {
    forall j: nat | j < |events|
      ensures DropsAt(capacity, events, id)(j) <==> ForgetsAt(capacity, events, j, id)
    {
    }
  }

  lemma HeldIff(capacity: nat, events: seq<Event>, id: string)
    ensures HeldAt(capacity, events, id)(|events|)
            <==> exists k: nat ::
                   AddedSince(|events|, k, AddsAt(capacity, events, id), DropsAt(capacity, events, id))
  {
    assert events[..0] == [];
    forall k: nat | k < |events|
      ensures HeldAt(capacity, events, id)(k + 1)
              <==> AddsAt(capacity, events, id)(k)
                   || (HeldAt(capacity, events, id)(k) && !DropsAt(capacity, events, id)(k))
    {
      HeartbeatNext(capacity, events, k, id);
    }
    SinceIff(|events|, HeldAt(capacity, events, id), AddsAt(capacity, events, id), DropsAt(capacity, events, id));
  }

  /** What is remembered, in terms of the run alone. */
  lemma RememberedIff(capacity: nat, events: seq<Event>, id: string)
    ensures id in Run(capacity, events).heartbeats
            <==> exists n: nat :: IsRememberedSince(capacity, events, n, id)
  {
    HeldIff(capacity, events, id);
    assert events[..|events|] == events;
    forall n: nat
      ensures IsRememberedSince(capacity, events, n, id)
              <==> AddedSince(|events|, n, AddsAt(capacity, events, id), DropsAt(capacity, events, id))
    {
      SinceMeans(capacity, events, n, id);
    }
  }

  /** The heartbeat loop does not run while a connection is being replayed, and a replay remembers none. */
  predicate BeatsInTime(s: State) {
    && (s.stage == Starting || s.stage == Draining || s.stage == Replaying ==> !s.beating)
    && (s.stage == Replaying ==> s.heartbeats == {})
  }

  lemma BeatsStep(s: State, e: Event)
    requires BeatsInTime(s)
    ensures BeatsInTime(Step(s, e))
  {
  }

  lemma {:induction false} HeartbeatsStopForReplay(capacity: nat, events: seq<Event>)
    ensures BeatsInTime(Run(capacity, events))
  {
    if events != [] {
      HeartbeatsStopForReplay(capacity, events[..|events| - 1]);
      BeatsStep(Run(capacity, events[..|events| - 1]), events[|events| - 1]);
    }
  }

  // ---- After the queue is closed --------------------------------------------------------------

  lemma ClosedStep(s: State, e: Event)
    requires Structure(s.stage, s.queues) && !s.accepting
    ensures var t := Step(s, e);
            && !t.accepting && t.history.accepted == s.history.accepted
            && |Unsent(t.queues)| <= |Unsent(s.queues)| && forall m | m in Unsent(t.queues) :: m in Unsent(s.queues)
  {
    if IsQuiet(e) {
      QuietStep(s, e);
    } else if Shifts(e) {
      ShiftStep(s, e);
    } else if e.DrainBacklog? {
      if s.stage == Starting {
        DrainBacklogStep(s);
        KeptWithin(s.queues.backlog, s.heartbeats);
        KeptIsShorter(s.queues.backlog, s.heartbeats);
      }
    } else if e.DrainOne? {
      if s.stage == Draining && s.queues.outbound != [] {
        DrainOneStep(s);
      }
    } else if !e.Enqueue? {
      HandOverStep(s, e);
    }
  }

  /** Once it no longer accepts messages, the client takes on none: only those it holds can still be sent. */
  lemma {:induction false} NothingAcceptedLater(capacity: nat, events: seq<Event>, later: seq<Event>)
    requires StopAccepting in events
    ensures var s, t := Run(capacity, events), Run(capacity, events + later);
            && !t.accepting && t.history.accepted == s.history.accepted
            && |Unsent(t.queues)| <= |Unsent(s.queues)| && forall m | m in Unsent(t.queues) :: m in Unsent(s.queues)
    decreases |later|
  {
    if later == [] {
      assert events + later == events;
      StaysClosed(capacity, events);
    } else {
      var n := |later| - 1;
      NothingAcceptedLater(capacity, events, later[..n]);
      assert (events + later)[..|events + later| - 1] == events + later[..n];
      Invariant(capacity, events + later[..n]);
      ClosedStep(Run(capacity, events + later[..n]), later[n]);
    }
  }

  lemma {:induction false} StaysClosed(capacity: nat, events: seq<Event>)
    requires StopAccepting in events
    ensures !Run(capacity, events).accepting
  {
    var past := events[..|events| - 1];
    if events[|events| - 1] != StopAccepting {
      assert StopAccepting in past;
      StaysClosed(capacity, past);
      Invariant(capacity, past);
      ClosedStep(Run(capacity, past), events[|events| - 1]);
    }
  }

  lemma IdsGrow(s: State, e: Event)
    ensures SeparateIds(Step(s, e).history) ==> SeparateIds(s.history)
  {
  }

  lemma {:induction false} SeparateBefore(capacity: nat, events: seq<Event>, i: nat)
    requires i <= |events| && SeparateIds(Run(capacity, events).history)
    ensures SeparateIds(Run(capacity, events[..i]).history)
    decreases |events| - i
  {
    if i < |events| {
      SeparateBefore(capacity, events, i + 1);
      assert events[..i + 1][..i] == events[..i];
      IdsGrow(Run(capacity, events[..i]), events[i]);
    } else {
      assert events[..i] == events;
    }
  }

  lemma SeparateNeverShadow(s: State, e: Event)
    requires Structure(s.stage, s.queues) && Known(Unsent(s.queues), s.heartbeats, s.history) && SeparateIds(s.history)
    ensures !Shadows(s, e)
  {
    var q := s.queues;
    assert forall m | m in q.backlog :: m in Unsent(q);
    assert forall m | m in q.outbound :: m in Unsent(q);
    RememberedShrinks(q.backlog, s.heartbeats);
  }

  /**
   Nothing is lost or reordered, whatever sends and replays fail over however many connections, as long
   as no heartbeat shares its id with an application message: the application messages handed to
   transports are a prefix of the accepted ones, in acceptance order, and the rest is exactly what the
   replay, the send loop, the backlog and the queue hold, in that order.
   */
  lemma NoLossInOrder(capacity: nat, events: seq<Event>)
    requires SeparateIds(Run(capacity, events).history)
    ensures var h, q := Run(capacity, events).history, Run(capacity, events).queues;
            && Applications(h.sent) <= h.accepted
            && h.accepted[|Applications(h.sent)|..]
               == Applications(q.carried + Held(q.sending) + q.backlog + q.outbound)
  {
    forall i | 0 <= i < |events|
      ensures !Shadows(Run(capacity, events[..i]), events[i])
    {
      Invariant(capacity, events[..i]);
      SeparateBefore(capacity, events, i);
      SeparateNeverShadow(Run(capacity, events[..i]), events[i]);
    }
    NothingLostIff(capacity, events);
  }

  /**
   Every send slot is free, in a caller's hands, about to be returned, or stands for one unsent message.
   So unsent messages never exceed the capacity, and returning a slot never overflows the channel.
   */
  lemma SendSlotsConserved(capacity: nat, events: seq<Event>)
    ensures var slots, q := Run(capacity, events).slots, Run(capacity, events).queues;
            && slots.free + slots.holders + slots.owed
               + |q.carried| + |Held(q.sending)| + |q.backlog| + |q.outbound| == capacity
            && (slots.owed > 0 ==> slots.free < capacity)
  {
    Invariant(capacity, events);
  }

  /**
   An application message with the id of a remembered heartbeat is discarded by the next drain: sent on
   a live connection after the heartbeat, not taken before the connection stops, and gone on the next one.
   */
  lemma SharedHeartbeatIdLoses(capacity: nat, id: string) returns (events: seq<Event>)
    requires capacity > 0
    ensures var s := Run(capacity, events);
            s.history.accepted == [Message(Application, id)] && s.history.sent == [] && Unsent(s.queues) == []
  {
    events := BecomeLive(capacity);
    events := QueueAfterHeartbeat(capacity, events, id);
    events := DrainAgain(capacity, events, Message(Application, id));
  }

  /** The state between the macros of the witness. */
  ghost predicate Stands(
    s: State, stage: Stage, outbound: seq<Message>, accepted: seq<Message>, heartbeats: set<string>)
  {
    && s.stage == stage && s.accepting && s.queues == Queues(outbound, [], [], None) && s.heartbeats == heartbeats
    && s.history.sent == [] && s.history.accepted == accepted
  }

  lemma EmptyBacklogDrained(s: State, outbound: seq<Message>, accepted: seq<Message>, heartbeats: set<string>)
    requires Stands(s, Starting, outbound, accepted, heartbeats)
    ensures Stands(StepDrainBacklog(s), Draining, outbound, accepted, heartbeats)
    ensures StepDrainBacklog(s).slots == s.slots
  {
  }

  lemma ShadowedDrained(s: State, m: Message)
    requires m.kind == Application && Stands(s, Draining, [m], [m], {m.id})
    ensures Stands(StepDrainOne(s), Draining, [], [m], {})
  {
  }

  lemma BecomeLive(capacity: nat) returns (events: seq<Event>)
    requires capacity > 0
    ensures var s := Run(capacity, events); Stands(s, Live, [], [], {}) && s.beating && s.slots.free > 0
  {
    events := ExtendQuiet(capacity, [], Connect);
    EmptyBacklogDrained(Run(capacity, events), [], [], {});
    events := ExtendDrainBacklog(capacity, events);
    LiveSteps(Run(capacity, events));
    events := ExtendQuiet(capacity, events, DrainEnd);
    events := ExtendQuiet(capacity, events, ReplayEnd);
  }

  lemma LiveSteps(s: State)
    requires s.stage == Draining && s.queues.outbound == [] && s.queues.carried == []
    ensures StepQuiet(StepQuiet(s, DrainEnd), ReplayEnd) == s.(stage := Live, beating := true, heartbeats := {})
  {
  }

  lemma QueueAfterHeartbeat(capacity: nat, past: seq<Event>, id: string) returns (events: seq<Event>)
    requires var s := Run(capacity, past); Stands(s, Live, [], [], {}) && s.beating && s.slots.free > 0
    ensures var m := Message(Application, id); Stands(Run(capacity, events), Live, [m], [m], {id})
  {
    events := ExtendQuiet(capacity, past, RememberHeartbeat(id, {}));
    events := ExtendQuiet(capacity, events, Acquire);
    events := Extend(capacity, events, Enqueue(Message(Application, id)));
  }

  lemma Restart(capacity: nat, past: seq<Event>, m: Message) returns (events: seq<Event>)
    requires Stands(Run(capacity, past), Live, [m], [m], {m.id})
    ensures Stands(Run(capacity, events), Starting, [m], [m], {m.id})
  {
    RestartSteps(Run(capacity, past));
    events := ExtendQuiet(capacity, past, Stop);
    events := ExtendQuiet(capacity, events, HeartbeatStops);
    events := ExtendQuiet(capacity, events, Connect);
  }

  lemma RestartSteps(s: State)
    requires s.stage == Live && s.queues.sending.None?
    ensures StepQuiet(StepQuiet(StepQuiet(s, Stop), HeartbeatStops), Connect) == s.(stage := Starting, beating := false)
  {
    assert StepQuiet(s, Stop) == s.(stage := Off);
  }

  lemma DrainAgain(capacity: nat, past: seq<Event>, m: Message) returns (events: seq<Event>)
    requires m.kind == Application && Stands(Run(capacity, past), Live, [m], [m], {m.id})
    ensures Stands(Run(capacity, events), Draining, [], [m], {})
  {
    events := Restart(capacity, past, m);
    EmptyBacklogDrained(Run(capacity, events), [m], [m], {m.id});
    events := ExtendDrainBacklog(capacity, events);
    ShadowedDrained(Run(capacity, events), m);
    events := ExtendDrainOne(capacity, events);
  }

  lemma ExtendQuiet(capacity: nat, past: seq<Event>, e: Event) returns (events: seq<Event>)
    requires IsQuiet(e)
    ensures Run(capacity, events) == StepQuiet(Run(capacity, past), e)
  {
    events := Extend(capacity, past, e);
  }

  lemma ExtendDrainBacklog(capacity: nat, past: seq<Event>) returns (events: seq<Event>)
    ensures Run(capacity, events) == StepDrainBacklog(Run(capacity, past))
  {
    events := Extend(capacity, past, DrainBacklog);
  }

  lemma ExtendDrainOne(capacity: nat, past: seq<Event>) returns (events: seq<Event>)
    ensures Run(capacity, events) == StepDrainOne(Run(capacity, past))
  {
    events := Extend(capacity, past, DrainOne);
  }

  lemma Extend(capacity: nat, past: seq<Event>, e: Event) returns (events: seq<Event>)
    ensures Run(capacity, events) == Step(Run(capacity, past), e)
  {
    events := past + [e];
    assert events[..|events| - 1] == past;
  }

  // ---- The loops ------------------------------------------------------------------------------

  class SendQueues {
    var outbound: seq<Message>
    var backlog: seq<Message>
    var heartbeats: set<string>
    var freeSlots: nat

    method AddPending(pending: seq<Message>, m: Message) returns (extended: seq<Message>)
      modifies this`heartbeats, this`freeSlots
      ensures extended == pending + Kept([m], old(heartbeats)) && heartbeats == Remembered([m], old(heartbeats))
      ensures extended == pending + [m] <==> m.kind != Subscription && m.id !in old(heartbeats)
      ensures extended != pending + [m] ==> extended == pending && freeSlots == old(freeSlots) + 1
      ensures freeSlots == old(freeSlots) + |pending| + 1 - |extended|
    {
      assert Kept([m][1..], Forget(m, heartbeats)) == [];
      if m.kind == Subscription {
        freeSlots := freeSlots + 1;
        return pending;
      }
      if m.id in heartbeats {
        heartbeats := heartbeats - {m.id};
        freeSlots := freeSlots + 1;
        return pending;
      }
      return pending + [m];
    }

    /** Backlog first, then the queue; what is not worth keeping gives its slot back. */
    method DrainPendingApplicationMessages() returns (pending: seq<Message>)
      modifies this
      ensures pending == Kept(old(backlog + outbound), old(heartbeats))
      ensures forall m | m in pending :: m.kind != Subscription
      ensures backlog == [] && outbound == [] && heartbeats == {}
      ensures freeSlots == old(freeSlots) + |old(backlog + outbound)| - |pending|
    {
      pending := [];
      ghost var all, k := backlog + outbound, 0;
      while backlog != []
        invariant 0 <= k <= |old(backlog)| && backlog == old(backlog)[k..] && outbound == old(outbound)
        invariant pending == Kept(all[..k], old(heartbeats)) && heartbeats == Remembered(all[..k], old(heartbeats))
        invariant freeSlots == old(freeSlots) + k - |pending|
        decreases |backlog|
      {
        ghost var before := all[..k];
        KeptAppend(before, [backlog[0]], old(heartbeats));
        assert all[..k + 1] == before + [backlog[0]];
        var m := backlog[0];
        backlog := backlog[1..];
        pending := AddPending(pending, m);
        k := k + 1;
      }
      while outbound != []
        invariant |old(backlog)| <= k <= |all| && outbound == all[k..] && backlog == []
        invariant pending == Kept(all[..k], old(heartbeats)) && heartbeats == Remembered(all[..k], old(heartbeats))
        invariant freeSlots == old(freeSlots) + k - |pending|
        decreases |outbound|
      {
        KeptAppend(all[..k], [outbound[0]], old(heartbeats));
        assert all[..k + 1] == all[..k] + [outbound[0]];
        var m := outbound[0];
        outbound := outbound[1..];
        pending := AddPending(pending, m);
        k := k + 1;
      }
      assert all[..k] == all;
      KeptHasNoCommand(all, old(heartbeats));
      heartbeats := {};
    }

    method RetainPendingMessages(pending: seq<Message>, startIndex: nat)
      requires startIndex <= |pending|
      modifies this`backlog
      ensures backlog == old(backlog) + pending[startIndex..]
    {
      for index := startIndex to |pending|
        invariant backlog == old(backlog) + pending[startIndex..index]
      {
        backlog := backlog + [pending[index]];
      }
    }

    /** `accepts` says which sends the transport accepts; the first refusal puts the rest back. */
    method ReplayPendingApplicationMessages(pending: seq<Message>, accepts: nat -> bool) returns (handed: seq<Message>)
      modifies this`backlog, this`freeSlots
      ensures handed <= pending && (forall i | 0 <= i < |handed| :: accepts(i))
      ensures |handed| < |pending| ==> !accepts(|handed|)
      ensures old(backlog) <= backlog && handed + backlog[|old(backlog)|..] == pending
      ensures freeSlots == old(freeSlots) + |handed|
    {
      handed := [];
      for index := 0 to |pending|
        invariant handed == pending[..index] && (forall i | 0 <= i < index :: accepts(i))
        invariant backlog == old(backlog) && freeSlots == old(freeSlots) + index
      {
        if !accepts(index) {
          RetainPendingMessages(pending, index);
          return;
        }
        handed := handed + [pending[index]];
        freeSlots := freeSlots + 1;
      }
    }
  }
}
