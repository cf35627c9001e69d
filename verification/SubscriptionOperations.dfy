/**
 Whole operations of the subscription protocol: every change and every connection can come to its end by
 its own steps, a change that nobody disturbs gets its answer, and a new connection restores what the
 caller wants.
 */
module SubscriptionOperations {
  import opened Text
  import opened SubscriptionState
  import opened SubscriptionSteps
  import opened SubscriptionInvariants
  import SubscriptionAgreement
  import SubscriptionWitnesses
  import DuplicateWindow
  import Routes

  lemma RunNext(cfg: Config, past: seq<Event>, e: Event)
    ensures Run(cfg, past + [e]) == Step(cfg, Run(cfg, past), e)
  {
    assert (past + [e])[..|past|] == past;
  }

  /** What these operations use of the invariant. */
  lemma Shape(cfg: Config, past: seq<Event>)
    ensures var s := Run(cfg, past);
            && (Active(s.change) ==> s.client.rollback.Some?)
            && (s.session.phase == Live ==> s.replay.stage == ReplaySucceeded)
            && (s.replay.stage.ReplayHolding? || s.replay.stage.ReplayRegistered? ==> s.replay.rest != [])
            && (s.session.connected ==> s.session.phase == Live) && (s.replay.holdsSlot ==> InReplay(s.replay.stage))
            && SlotsConserved(cfg, s)
  {
    SubscriptionAgreement.Invariant(cfg, past);
  }

  lemma NextReplay(cfg: Config, past: seq<Event>, e: Event)
    requires OfReplay(e)
    ensures Run(cfg, past + [e]) == StepReplay(Run(cfg, past), e)
  {
    RunNext(cfg, past, e);
  }

  lemma NextOther(cfg: Config, past: seq<Event>, e: Event)
    requires !OfChange(e) && !OfReplay(e)
    ensures Run(cfg, past + [e]) == StepOther(cfg, Run(cfg, past), e)
  {
    RunNext(cfg, past, e);
  }

  // ---- A change comes to its end --------------------------------------------------------------

  /** Steps of the changing thread alone have brought the change to its end. */
  ghost predicate ChangeEndsBy(cfg: Config, past: seq<Event>, events: seq<Event>) {
    && past <= events && (forall i | |past| <= i < |events| :: OfChange(events[i]))
    && Run(cfg, events).change.stage.Idle? && Run(cfg, events).gate == Free
  }

  lemma OneStepBefore(cfg: Config, past: seq<Event>, e: Event, events: seq<Event>)
    requires OfChange(e) && ChangeEndsBy(cfg, past + [e], events)
    ensures ChangeEndsBy(cfg, past, events)
  {
    assert past <= past + [e];
    assert events[|past|] == (past + [e])[|past|];
  }

  lemma LeavingEnds(cfg: Config, past: seq<Event>) returns (events: seq<Event>)
    requires Run(cfg, past).change.stage.Leaving?
    ensures ChangeEndsBy(cfg, past, events)
  {
    RunNext(cfg, past, ChangeExit);
    events := past + [ChangeExit];
  }

  lemma FailingEnds(cfg: Config, past: seq<Event>) returns (events: seq<Event>)
    requires Run(cfg, past).change.stage.Failing?
    ensures ChangeEndsBy(cfg, past, events)
  {
    Shape(cfg, past);
    RunNext(cfg, past, ChangeRollback);
    events := LeavingEnds(cfg, past + [ChangeRollback]);
    OneStepBefore(cfg, past, ChangeRollback, events);
  }

  /** A change that waits, holds a slot or is about to register its command, and fails there. */
  lemma EarlyFailureEnds(cfg: Config, past: seq<Event>, e: Event) returns (events: seq<Event>)
    requires var stage := Run(cfg, past).change.stage;
             || (stage.Waiting? && e == ChangeAcquire(true)) || (stage.Holding? && e == ChangeCheck(true))
             || (stage.Reasserted? && e == ChangeRegister("", false)) || (stage.Refused? && e == ChangeRemove)
    ensures ChangeEndsBy(cfg, past, events)
  {
    RunNext(cfg, past, e);
    events := FailingEnds(cfg, past + [e]);
    OneStepBefore(cfg, past, e, events);
  }

  lemma CheckedEnds(cfg: Config, past: seq<Event>) returns (events: seq<Event>)
    requires Run(cfg, past).change.stage.Checked?
    ensures ChangeEndsBy(cfg, past, events)
  {
    RunNext(cfg, past, ChangeReassert);
    events := EarlyFailureEnds(cfg, past + [ChangeReassert], ChangeRegister("", false));
    OneStepBefore(cfg, past, ChangeReassert, events);
  }

  lemma EnqueuedEnds(cfg: Config, past: seq<Event>) returns (events: seq<Event>)
    requires Run(cfg, past).change.stage.Enqueued?
    ensures ChangeEndsBy(cfg, past, events)
  {
    RunNext(cfg, past, ChangeClear);
    events := LeavingEnds(cfg, past + [ChangeClear]);
    OneStepBefore(cfg, past, ChangeClear, events);
  }

  lemma RegisteredEnds(cfg: Config, past: seq<Event>) returns (events: seq<Event>)
    requires Run(cfg, past).change.stage.Registered?
    ensures ChangeEndsBy(cfg, past, events)
  {
    RunNext(cfg, past, ChangeEnqueue);
    var more := past + [ChangeEnqueue];
    if Run(cfg, past).session.accepting {
      events := EnqueuedEnds(cfg, more);
    } else {
      events := EarlyFailureEnds(cfg, more, ChangeRemove);
    }
    OneStepBefore(cfg, past, ChangeEnqueue, events);
  }

  lemma EnteredEnds(cfg: Config, past: seq<Event>) returns (events: seq<Event>)
    requires Run(cfg, past).change.stage.Entered?
    ensures ChangeEndsBy(cfg, past, events)
  {
    RunNext(cfg, past, ChangeApply);
    var more := past + [ChangeApply];
    if Run(cfg, more).change.stage.Leaving? {
      events := LeavingEnds(cfg, more);
    } else {
      events := EarlyFailureEnds(cfg, more, ChangeAcquire(true));
    }
    OneStepBefore(cfg, past, ChangeApply, events);
  }

  /** From every reachable state, wherever a change stands, it can end by its own steps and leave the gate. */
  lemma ChangeCanEnd(cfg: Config, past: seq<Event>) returns (events: seq<Event>)
    requires !Run(cfg, past).change.stage.Idle?
    ensures ChangeEndsBy(cfg, past, events)
  {
    match Run(cfg, past).change.stage
    case Entered => events := EnteredEnds(cfg, past);
    case Waiting => events := EarlyFailureEnds(cfg, past, ChangeAcquire(true));
    case Holding => events := EarlyFailureEnds(cfg, past, ChangeCheck(true));
    case Checked => events := CheckedEnds(cfg, past);
    case Reasserted => events := EarlyFailureEnds(cfg, past, ChangeRegister("", false));
    case Registered => events := RegisteredEnds(cfg, past);
    case Enqueued => events := EnqueuedEnds(cfg, past);
    case Refused => events := EarlyFailureEnds(cfg, past, ChangeRemove);
    case Failing => events := FailingEnds(cfg, past);
    case Leaving => events := LeavingEnds(cfg, past);
  }

  // ---- A connection comes to its end ----------------------------------------------------------

  /** The replay has ended; the caller's set, the session and the receive loop are as they were. */
  ghost predicate ReplayEnded(s: State, t: State) {
    && Finished(t.replay.stage) && t.client.desired == s.client.desired && t.session == s.session
    && t.receiverHolds == s.receiverHolds
  }

  lemma ReplayFailingEnds(cfg: Config, past: seq<Event>) returns (events: seq<Event>)
    requires Run(cfg, past).replay.stage.ReplayFailing?
    ensures ReplayEnded(Run(cfg, past), Run(cfg, events))
  {
    events := past;
    if Run(cfg, past).replay.holdsSlot {
      NextReplay(cfg, past, ReplayRelease);
      events := past + [ReplayRelease];
    }
    NextReplay(cfg, events, ReplayExit);
    events := events + [ReplayExit];
  }

  lemma ReplayRefusedEnds(cfg: Config, past: seq<Event>) returns (events: seq<Event>)
    requires Run(cfg, past).replay.stage.ReplayRefused?
    ensures ReplayEnded(Run(cfg, past), Run(cfg, events))
  {
    NextReplay(cfg, past, ReplayRemove);
    events := ReplayFailingEnds(cfg, past + [ReplayRemove]);
  }

  lemma ReplayRegisteredEnds(cfg: Config, past: seq<Event>) returns (events: seq<Event>)
    requires Run(cfg, past).replay.stage.ReplayRegistered?
    ensures ReplayEnded(Run(cfg, past), Run(cfg, events))
  {
    Shape(cfg, past);
    NextReplay(cfg, past, ReplaySend(false, true));
    events := ReplayRefusedEnds(cfg, past + [ReplaySend(false, true)]);
  }

  lemma ReplayHoldingEnds(cfg: Config, past: seq<Event>) returns (events: seq<Event>)
    requires Run(cfg, past).replay.stage.ReplayHolding?
    ensures ReplayEnded(Run(cfg, past), Run(cfg, events))
  {
    Shape(cfg, past);
    NextReplay(cfg, past, ReplayRegister(""));
    var more := past + [ReplayRegister("")];
    if "" in Run(cfg, past).client.pending {
      events := ReplayFailingEnds(cfg, more);
    } else {
      events := ReplayRegisteredEnds(cfg, more);
    }
  }

  lemma ReplaySendingEnds(cfg: Config, past: seq<Event>) returns (events: seq<Event>)
    requires Run(cfg, past).replay.stage.ReplaySending?
    ensures ReplayEnded(Run(cfg, past), Run(cfg, events))
  {
    NextReplay(cfg, past, ReplayAbort);
    events := ReplayFailingEnds(cfg, past + [ReplayAbort]);
  }

  /** A list of the routes. */
  lemma {:induction false} Listing(routes: set<string>) returns (order: seq<string>)
    ensures (forall r :: r in order <==> r in routes) && |order| == |routes|
    ensures forall i, j | 0 <= i < j < |order| :: order[i] != order[j]
  {
    if routes == {} {
      return [];
    }
    var route :| route in routes;
    var rest := Listing(routes - {route});
    order := [route] + rest;
    forall i, j | 0 <= i < j < |order| ensures order[i] != order[j] {
      assert order[j] in rest;
    }
  }

  lemma ReplayDrainedEnds(cfg: Config, past: seq<Event>) returns (events: seq<Event>)
    requires Run(cfg, past).replay.stage.ReplayDrained?
    ensures ReplayEnded(Run(cfg, past), Run(cfg, events))
  {
    var order := Listing(Run(cfg, past).client.desired);
    assert (set r | r in order) == Run(cfg, past).client.desired;
    NextReplay(cfg, past, ReplaySnapshot(order));
    events := ReplaySendingEnds(cfg, past + [ReplaySnapshot(order)]);
  }

  /** Wherever the replay stands, its own steps can end it. */
  lemma ReplayCanEnd(cfg: Config, past: seq<Event>) returns (events: seq<Event>)
    requires Run(cfg, past).session.phase != Down
    ensures ReplayEnded(Run(cfg, past), Run(cfg, events))
  {
    match Run(cfg, past).replay.stage
    case ReplayNotStarted =>
      Shape(cfg, past);
      NextReplay(cfg, past, ReplayAbort);
      events := past + [ReplayAbort];
    case ReplayDrained => events := ReplayDrainedEnds(cfg, past);
    case ReplaySending => events := ReplaySendingEnds(cfg, past);
    case ReplayHolding => events := ReplayHoldingEnds(cfg, past);
    case ReplayRegistered => events := ReplayRegisteredEnds(cfg, past);
    case ReplayRefused => events := ReplayRefusedEnds(cfg, past);
    case ReplayFailing => events := ReplayFailingEnds(cfg, past);
    case _ => events := past;
  }

  lemma CloseBegins(cfg: Config, past: seq<Event>) returns (events: seq<Event>)
    requires Run(cfg, past).session.phase != Down
    ensures var s := Run(cfg, past);
            Run(cfg, events) == s.(session := s.session.(phase := Closing, connected := false))
  {
    Shape(cfg, past);
    events := past;
    var s := Run(cfg, past);
    if s.session.phase == Closing {
      assert s.session == s.session.(phase := Closing, connected := false);
    } else {
      NextOther(cfg, past, BeginClose);
      events := past + [BeginClose];
    }
  }

  lemma ReceiverStops(cfg: Config, past: seq<Event>) returns (events: seq<Event>)
    ensures var s, t := Run(cfg, past), Run(cfg, events);
            !t.receiverHolds && t.client == s.client && t.session == s.session && t.replay == s.replay
  {
    NextOther(cfg, past, ReceiveRelease);
    events := past + [ReceiveRelease];
  }

  /**
   From every reachable state with a connection, whatever its replay and its receive loop are doing, the
   connection can be torn down: no mutation is pending and nothing is confirmed, the wanted set is as it
   was, and all response slots are free but those in the hands of changing callers.
   */
  lemma TeardownCompletes(cfg: Config, past: seq<Event>) returns (events: seq<Event>)
    requires Run(cfg, past).session.phase != Down
    ensures var s, t := Run(cfg, past), Run(cfg, events);
            && t.session.phase == Down && t.client.pending == map[] && t.client.confirmed == {}
            && t.client.desired == s.client.desired
            && t.freeSlots + t.releasing + Count(t.change.holdsSlot) == cfg.capacity
  {
    events := CloseBegins(cfg, past);
    events := ReplayCanEnd(cfg, events);
    events := ReceiverStops(cfg, events);
    NextOther(cfg, events, FinishClose);
    events := events + [FinishClose];
    Shape(cfg, events);
  }

  /** The final clear takes away what was registered after the last connection went down. */
  lemma TerminationClears(cfg: Config, past: seq<Event>) returns (events: seq<Event>)
    requires Run(cfg, past).session.phase == Down
    ensures var s := Run(cfg, past);
            Run(cfg, events) == Cleared(s).(session := s.session.(accepting := false))
  {
    NextOther(cfg, past, StopAccepting);
    events := past + [StopAccepting];
    NextOther(cfg, events, Terminate);
    events := events + [Terminate];
  }

  /**
   From every reachable state the client can be shut down, connected or not, also with mutations registered
   after the last connection: no mutation stays pending, and all response slots are free but those in the
   hands of changing callers.
   */
  lemma ShutdownCompletes(cfg: Config, past: seq<Event>) returns (events: seq<Event>)
    ensures var s, t := Run(cfg, past), Run(cfg, events);
            && t.session.phase == Down && !t.session.accepting
            && t.client.pending == map[] && t.client.confirmed == {} && t.client.desired == s.client.desired
            && t.freeSlots + t.releasing + Count(t.change.holdsSlot) == cfg.capacity
  {
    events := past;
    if Run(cfg, past).session.phase != Down {
      events := TeardownCompletes(cfg, past);
    }
    var down := Run(cfg, events);
    events := TerminationClears(cfg, events);
    StillAfterShutdown(cfg, events, down);
  }

  lemma StillAfterShutdown(cfg: Config, events: seq<Event>, down: State)
    requires down.session.phase == Down
    requires Run(cfg, events) == Cleared(down).(session := down.session.(accepting := false))
    ensures var t := Run(cfg, events);
            && t.client.pending == map[] && t.client.confirmed == {}
            && t.freeSlots + t.releasing + Count(t.change.holdsSlot) == cfg.capacity
  {
    SubscriptionAgreement.Invariant(cfg, events);
  }

  // ---- A change that nobody disturbs ----------------------------------------------------------

  lemma PutTwice(routes: set<string>, route: string, a: bool, b: bool)
    ensures Put(Put(routes, route, a), route, b) == Put(routes, route, b)
  {
  }

  /** The client after a change of this route was answered: the server's word, and the newest command's. */
  ghost function AnsweredClient(c: Client, route: string, subscribe: bool, ack: bool): Client {
    var confirmed := if ack then Put(c.confirmed, route, subscribe) else c.confirmed;
    c.(confirmed := confirmed, nextSequence := c.nextSequence + 1,
       desired := Put(c.desired, route, Target(c.pending, confirmed, route)))
  }

  lemma RegisteredThenAnswered(c: Client, d: Client, id: string, route: string, subscribe: bool, ack: bool)
    requires id !in c.pending && c.rollback.None?
    requires d == Register(c.(desired := Put(c.desired, route, subscribe)), id, route, subscribe).value
    ensures Handle(d, id, ack) == AnsweredClient(c, route, subscribe, ack)
  {
    assert d.pending - {id} == c.pending;
    var confirmed := if ack then Put(c.confirmed, route, subscribe) else c.confirmed;
    PutTwice(c.desired, route, subscribe, Target(c.pending, confirmed, route));
  }

  /** The state of a change that waits for a slot. */
  function Begun(s: State, route: string, subscribe: bool): State {
    s.(client := s.client.(desired := Put(s.client.desired, route, subscribe),
                           rollback := Some(Rollback(route, !subscribe, false))),
       gate := ByChange, change := Change(Waiting, route, subscribe, "", false, !subscribe, false))
  }

  /** The state after a change that has queued its command and left. */
  function Queued(s: State, route: string, subscribe: bool, id: string): State
    requires s.freeSlots > 0 && id !in s.client.pending
  {
    var flipped := s.client.(desired := Put(s.client.desired, route, subscribe));
    s.(client := Register(flipped, id, route, subscribe).value, freeSlots := s.freeSlots - 1,
       change := Change(Idle, route, subscribe, id, false, !subscribe, false),
       link := s.link.(outbound := s.link.outbound + [Command(id, route, subscribe)]))
  }

  lemma QueueEffect(s: State, acquired: State, t: State, route: string, subscribe: bool, id: string)
    requires s.freeSlots > 0 && id !in s.client.pending && s.client.rollback.None? && s.gate == Free
    requires var begun := Begun(s, route, subscribe);
             acquired == begun.(client := SetDesired(begun.client, route, subscribe), freeSlots := s.freeSlots - 1,
                                change := begun.change.(stage := Reasserted, holdsSlot := true))
    requires t == acquired.(client := Register(acquired.client, id, route, subscribe).value.(rollback := None),
                            gate := Free, change := acquired.change.(stage := Idle, id := id, holdsSlot := false),
                            link := s.link.(outbound := s.link.outbound + [Command(id, route, subscribe)]))
    ensures t == Queued(s, route, subscribe, id)
  {
    PutTwice(s.client.desired, route, subscribe, subscribe);
  }

  lemma ChangeQueues(cfg: Config, past: seq<Event>, route: string, subscribe: bool, id: string)
    returns (events: seq<Event>)
    requires var s := Run(cfg, past);
             && SubscriptionWitnesses.Calm(s) && (route in s.client.desired) != subscribe && s.freeSlots > 0
             && (subscribe ==> |s.client.desired| < cfg.clientLimit) && id !in s.client.pending
    ensures Run(cfg, events) == Queued(Run(cfg, past), route, subscribe, id)
  {
    var begun := SubscriptionWitnesses.DoBegin(cfg, past, route, subscribe);
    var acquired := SubscriptionWitnesses.DoAcquire(cfg, begun);
    events := SubscriptionWitnesses.DoFinish(cfg, acquired, id);
    QueueEffect(Run(cfg, past), Run(cfg, acquired), Run(cfg, events), route, subscribe, id);
  }

  /**
   From every reachable calm state, a change that nobody disturbs ends in a calm state again with all its
   slots: the table is what the server's answer says, an acknowledged change is confirmed, a refused one
   is not, and the wanted state of the route is that of its newest pending command, else the confirmed one.
   */
  lemma ChangeIsAnswered(cfg: Config, past: seq<Event>, identity: Routes.Identity, route: string, subscribe: bool,
                         id: string) returns (events: seq<Event>)
    requires var s := Run(cfg, past);
             && SubscriptionWitnesses.Calm(s) && (route in s.client.desired) != subscribe && s.freeSlots > 0
             && (subscribe ==> |s.client.desired| < cfg.clientLimit) && id !in s.client.pending
    ensures var s, t := Run(cfg, past), Run(cfg, events);
            var verdict := Dispatch(cfg, s.link.server, identity, Command(id, route, subscribe));
            && SubscriptionWitnesses.Calm(t) && t.link.server.table == verdict.table && t.freeSlots == s.freeSlots
            && t.client == AnsweredClient(s.client, route, subscribe, verdict.ack)
  {
    var s, m := Run(cfg, past), Command(id, route, subscribe);
    events := ChangeQueues(cfg, past, route, subscribe, id);
    var queued := Run(cfg, events);
    events := SubscriptionWitnesses.DoServe(cfg, events, identity);
    var ack := Dispatch(cfg, s.link.server, identity, m).ack;
    assert Run(cfg, events).link.responses == [Answer(m, ack)];
    events := SubscriptionWitnesses.DoTake(cfg, events);
    RegisteredThenAnswered(s.client, queued.client, id, route, subscribe, ack);
  }

  lemma UndoEffect(s: State, route: string, subscribe: bool)
    requires s.client.rollback.None? && (route in s.client.desired) != subscribe
    ensures var failing := Begun(s, route, subscribe);
            UndoChange(failing.client) == s.client
  {
    PutTwice(s.client.desired, route, subscribe, !subscribe);
    assert Put(s.client.desired, route, !subscribe) == s.client.desired;
  }

  lemma FailingIsUndone(cfg: Config, past: seq<Event>) returns (events: seq<Event>)
    requires Run(cfg, past).change.stage.Failing? && Run(cfg, past).client.rollback.Some?
    requires !Run(cfg, past).change.holdsSlot
    ensures var s := Run(cfg, past);
            Run(cfg, events) == s.(client := UndoChange(s.client), gate := Free, change := s.change.(stage := Idle))
  {
    RunNext(cfg, past, ChangeRollback);
    events := past + [ChangeRollback];
    assert Run(cfg, events) == StepChangeRollback(Run(cfg, past));
    events := SubscriptionWitnesses.DoChangeExit(cfg, events);
  }

  /** Cancelled while it waits for a slot, a change leaves the client as it was. */
  lemma CancelledChangeIsUndone(cfg: Config, past: seq<Event>, route: string, subscribe: bool)
    returns (events: seq<Event>)
    requires var s := Run(cfg, past);
             && SubscriptionWitnesses.Calm(s) && (route in s.client.desired) != subscribe
             && (subscribe ==> |s.client.desired| < cfg.clientLimit)
    ensures var s, t := Run(cfg, past), Run(cfg, events);
            t == s.(change := t.change) && t.change.stage == Idle
  {
    var s := Run(cfg, past);
    events := SubscriptionWitnesses.DoBegin(cfg, past, route, subscribe);
    events := SubscriptionWitnesses.DoChangeAcquire(cfg, events, true);
    UndoEffect(s, route, subscribe);
    events := FailingIsUndone(cfg, events);
  }

  // ---- A new connection restores what is wanted -----------------------------------------------

  /** The gateway takes every wanted route under its own text. */
  ghost predicate IsWelcome(cfg: Config, identity: Routes.Identity, routes: set<string>) {
    && |routes| <= cfg.serverLimit
    && forall route | route in routes ::
         var authorized := Routes.TryAuthorize(cfg.letter, identity, route);
         authorized.Some? && Routes.SubscriptionKey(authorized.value) == route
  }

  ghost predicate AreDistinct(texts: seq<string>) {
    forall i, j | 0 <= i < j < |texts| :: texts[i] != texts[j]
  }

  /** Nothing is on its way and no other thread has anything to do. */
  ghost predicate IsStill(s: State) {
    && s.link.outbound == [] && s.link.wire == [] && s.link.responses == [] && !s.receiverHolds
    && s.change.stage == Idle && s.client.rollback.None? && s.client.pending == map[] && s.freeSlots > 0
  }

  /** The replay has restored some of the wanted routes, and has these identifiers for the rest. */
  ghost predicate Midway(s: State, ids: seq<string>) {
    && IsStill(s) && s.session.phase == Open && s.gate == ByReplay
    && s.replay.stage == ReplaySending && !s.replay.holdsSlot
    && s.link.server.table == s.client.confirmed
    && AreDistinct(s.replay.rest) && AreDistinct(ids) && |ids| == |s.replay.rest|
    && (forall r :: r in s.client.desired <==> r in s.client.confirmed || r in s.replay.rest)
    && (forall r | r in s.replay.rest :: r !in s.client.confirmed)
    && (forall id | id in ids :: id !in s.link.server.window)
  }

  /** The replay has sent its next command. */
  function Sent(s: State, id: string): State
    requires s.freeSlots > 0 && s.replay.rest != []
  {
    var route := s.replay.rest[0];
    s.(client := s.client.(pending := map[id := Mutation(route, true, s.client.nextSequence + 1)],
                           nextSequence := s.client.nextSequence + 1),
       freeSlots := s.freeSlots - 1,
       link := OnWire(s.link, Command(id, route, true)),
       replay := s.replay.(rest := s.replay.rest[1..], id := id))
  }

  lemma SendEffect(s: State, id: string)
    requires s.replay.stage == ReplaySending && !s.replay.holdsSlot && s.replay.rest != []
    requires s.client.pending == map[] && s.freeSlots > 0
    ensures StepReplaySend(StepReplayRegister(StepReplayAcquire(s), id), true, false) == Sent(s, id)
  {
    assert s.client.pending[id := Mutation(s.replay.rest[0], true, s.client.nextSequence + 1)]
        == map[id := Mutation(s.replay.rest[0], true, s.client.nextSequence + 1)];
  }

  lemma DoReplayAcquire(cfg: Config, past: seq<Event>) returns (events: seq<Event>)
    ensures Run(cfg, events) == StepReplayAcquire(Run(cfg, past))
  {
    NextReplay(cfg, past, ReplayAcquire);
    events := past + [ReplayAcquire];
  }

  lemma DoReplayRegister(cfg: Config, past: seq<Event>, id: string) returns (events: seq<Event>)
    ensures Run(cfg, events) == StepReplayRegister(Run(cfg, past), id)
  {
    NextReplay(cfg, past, ReplayRegister(id));
    events := past + [ReplayRegister(id)];
  }

  lemma DoReplaySend(cfg: Config, past: seq<Event>) returns (events: seq<Event>)
    ensures Run(cfg, events) == StepReplaySend(Run(cfg, past), true, false)
  {
    NextReplay(cfg, past, ReplaySend(true, false));
    events := past + [ReplaySend(true, false)];
  }

  lemma ReplaySendsOne(cfg: Config, past: seq<Event>, id: string) returns (events: seq<Event>)
    requires var s := Run(cfg, past);
             && s.replay.stage == ReplaySending && !s.replay.holdsSlot && s.replay.rest != []
             && s.client.pending == map[] && s.freeSlots > 0
    ensures Run(cfg, events) == Sent(Run(cfg, past), id)
  {
    events := DoReplayAcquire(cfg, past);
    events := DoReplayRegister(cfg, events, id);
    events := DoReplaySend(cfg, events);
    SendEffect(Run(cfg, past), id);
  }

  lemma WelcomeIsAcknowledged(cfg: Config, identity: Routes.Identity, server: Server, m: Command, routes: set<string>)
    requires IsWelcome(cfg, identity, routes) && m.route in routes && m.route !in server.table
    requires server.table <= routes && m.subscribe && m.id !in server.window
    ensures Dispatch(cfg, server, identity, m) == Verdict(server.table + {m.route}, true)
  {
    assert server.table + {m.route} <= routes;
    Fewer(server.table + {m.route}, routes);
    assert |server.table + {m.route}| == |server.table| + 1;
  }

  lemma {:induction false} Fewer(a: set<string>, b: set<string>)
    requires a <= b
    ensures |a| <= |b|
  {
    if a != {} {
      var x :| x in a;
      Fewer(a - {x}, b - {x});
    }
  }

  /** The server has taken the only command on the wire and answered it. */
  function Taken(cfg: Config, s: State): State
    requires |s.link.wire| == 1
  {
    var m := s.link.wire[0];
    var window := DuplicateWindow.Track(s.link.server.window, cfg.windowLimit, m.id);
    s.(link := s.link.(wire := [], responses := s.link.responses + [Answer(m, true)],
                       server := Server(s.link.server.table + {m.route}, window)))
  }

  lemma TakeEffect(cfg: Config, s: State, identity: Routes.Identity)
    requires |s.link.wire| == 1
    requires var m := s.link.wire[0];
             Dispatch(cfg, s.link.server, identity, m) == Verdict(s.link.server.table + {m.route}, true)
    ensures StepServerHandle(cfg, s, identity, false) == Taken(cfg, s)
  {
  }

  lemma ServerTakesOne(cfg: Config, past: seq<Event>, identity: Routes.Identity, routes: set<string>)
    returns (events: seq<Event>)
    requires var s := Run(cfg, past);
             && IsWelcome(cfg, identity, routes) && s.link.server.table <= routes && |s.link.wire| == 1
             && s.link.wire[0].route in routes && s.link.wire[0].route !in s.link.server.table
             && s.link.wire[0].subscribe && s.link.wire[0].id !in s.link.server.window
    ensures Run(cfg, events) == Taken(cfg, Run(cfg, past))
  {
    var s := Run(cfg, past);
    WelcomeIsAcknowledged(cfg, identity, s.link.server, s.link.wire[0], routes);
    TakeEffect(cfg, s, identity);
    events := SubscriptionWitnesses.DoServerHandle(cfg, past, identity);
  }

  /** The only pending mutation has its answer on the way to a client with nothing else to do. */
  ghost predicate IsAnswered(s: State, id: string, route: string) {
    && s.session.phase != Down && !s.receiverHolds && s.change.stage == Idle && s.client.rollback.None?
    && s.link.responses == [Answer(Command(id, route, true), true)] && s.client.pending.Keys == {id}
    && s.client.pending[id].route == route && s.client.pending[id].subscribe && route in s.client.desired
  }

  lemma ConfirmEffect(s: State, id: string, route: string)
    requires IsAnswered(s, id, route)
    ensures Handle(s.client, id, true) == s.client.(pending := map[], confirmed := s.client.confirmed + {route})
  {
    assert s.client.pending - {id} == map[];
    assert Put(s.client.desired, route, true) == s.client.desired;
  }

  lemma ReceiveEffect(s: State, id: string, route: string)
    requires IsAnswered(s, id, route)
    ensures StepReceive(s)
            == s.(client := Handle(s.client, id, true), receiverHolds := true, link := s.link.(responses := []))
  {
    assert s.link.responses[1..] == [];
  }

  /** The client takes the answer and gives the slot back. */
  lemma ClientConfirmsOne(cfg: Config, past: seq<Event>, id: string, route: string) returns (events: seq<Event>)
    requires IsAnswered(Run(cfg, past), id, route)
    ensures var s := Run(cfg, past);
            Run(cfg, events) == s.(client := s.client.(pending := map[], confirmed := s.client.confirmed + {route}),
                                   freeSlots := s.freeSlots + 1, link := s.link.(responses := []))
  {
    ConfirmEffect(Run(cfg, past), id, route);
    ReceiveEffect(Run(cfg, past), id, route);
    events := SubscriptionWitnesses.DoReceive(cfg, past);
    events := SubscriptionWitnesses.DoReceiveRelease(cfg, events);
  }

  lemma TrackAddsOne(window: seq<string>, limit: nat, id: string, other: string)
    requires other !in window && other != id
    ensures other !in DuplicateWindow.Track(window, limit, id)
  {
  }

  lemma MidwayOne(cfg: Config, s: State, t: State, ids: seq<string>)
    requires Midway(s, ids) && s.replay.rest != []
    requires var route := s.replay.rest[0];
             && t.client == s.client.(confirmed := s.client.confirmed + {route}, nextSequence := t.client.nextSequence)
             && t.replay == s.replay.(rest := s.replay.rest[1..], id := ids[0]) && t.session == s.session
             && t.gate == s.gate && t.change == s.change && t.freeSlots == s.freeSlots && !t.receiverHolds
             && t.link.outbound == [] && t.link.wire == [] && t.link.responses == []
             && t.link.server == Server(s.link.server.table + {route},
                                        DuplicateWindow.Track(s.link.server.window, cfg.windowLimit, ids[0]))
    ensures Midway(t, ids[1..])
  {
    forall id | id in ids[1..] ensures id !in t.link.server.window {
      TrackAddsOne(s.link.server.window, cfg.windowLimit, ids[0], id);
    }
    assert forall r :: r in s.replay.rest <==> r == s.replay.rest[0] || r in s.replay.rest[1..];
  }

  /** One wanted route is sent, taken, answered and confirmed. */
  lemma ReplayRestoresOne(cfg: Config, past: seq<Event>, identity: Routes.Identity, ids: seq<string>)
    returns (events: seq<Event>)
    requires Midway(Run(cfg, past), ids) && Run(cfg, past).replay.rest != []
    requires IsWelcome(cfg, identity, Run(cfg, past).client.desired)
    ensures var s, t := Run(cfg, past), Run(cfg, events);
            && Midway(t, ids[1..]) && t.client.desired == s.client.desired && t.freeSlots == s.freeSlots
            && t.replay.rest == s.replay.rest[1..] && t.session == s.session
  {
    var s := Run(cfg, past);
    var route := s.replay.rest[0];
    events := ReplaySendsOne(cfg, past, ids[0]);
    assert s.link.server.table <= s.client.desired;
    events := ServerTakesOne(cfg, events, identity, s.client.desired);
    events := ClientConfirmsOne(cfg, events, ids[0], route);
    MidwayOne(cfg, s, Run(cfg, events), ids);
  }

  lemma {:induction false} ReplayRestoresAll(cfg: Config, past: seq<Event>, identity: Routes.Identity, ids: seq<string>)
    returns (events: seq<Event>)
    requires Midway(Run(cfg, past), ids) && IsWelcome(cfg, identity, Run(cfg, past).client.desired)
    ensures var s, t := Run(cfg, past), Run(cfg, events);
            && Midway(t, []) && t.client.desired == s.client.desired && t.freeSlots == s.freeSlots
            && t.session == s.session
    decreases |ids|
  {
    if ids == [] {
      return past;
    }
    events := ReplayRestoresOne(cfg, past, identity, ids);
    events := ReplayRestoresAll(cfg, events, identity, ids[1..]);
  }

  /** A still client without a connection opens one and takes the list of what it wants. */
  lemma ReplayBegins(cfg: Config, past: seq<Event>, ids: seq<string>) returns (events: seq<Event>)
    requires var s := Run(cfg, past);
             && s.session.phase == Down && !s.receiverHolds && s.gate == Free && s.change.stage == Idle
             && s.client.rollback.None? && s.client.pending == map[] && s.client.confirmed == {} && s.freeSlots > 0
             && AreDistinct(ids) && |ids| == |s.client.desired|
    ensures var s, t := Run(cfg, past), Run(cfg, events);
            && Midway(t, ids) && t.client == s.client && t.freeSlots == s.freeSlots
            && t.session == s.session.(phase := Open)
  {
    var s := Run(cfg, past);
    var order := Listing(s.client.desired);
    assert (set r | r in order) == s.client.desired;
    events := SubscriptionWitnesses.DoOpenConnection(cfg, past);
    events := SubscriptionWitnesses.DoReplayEnter(cfg, events);
    NextReplay(cfg, events, ReplaySnapshot(order));
    events := events + [ReplaySnapshot(order)];
  }

  /**
   From every reachable still state without a connection: a connection on which nothing fails, to a gateway
   that takes every wanted route, goes live with exactly the wanted routes confirmed and in the server's
   table, nothing pending and every slot back.
   */
  lemma ReconnectRestores(cfg: Config, past: seq<Event>, identity: Routes.Identity, ids: seq<string>)
    returns (events: seq<Event>)
    requires var s := Run(cfg, past);
             && s.session.phase == Down && s.gate == Free && s.change.stage == Idle
             && s.client.pending == map[] && s.freeSlots > 0
             && AreDistinct(ids) && |ids| == |s.client.desired| && IsWelcome(cfg, identity, s.client.desired)
    ensures var s, t := Run(cfg, past), Run(cfg, events);
            && t.session == s.session.(phase := Live, connected := true) && t.gate == Free
            && t.client.desired == t.client.confirmed == t.link.server.table == s.client.desired
            && t.client.pending == map[] && t.freeSlots == s.freeSlots
  {
    SubscriptionAgreement.Invariant(cfg, past);
    events := ReplayBegins(cfg, past, ids);
    events := ReplayRestoresAll(cfg, events, identity, ids);
    assert Run(cfg, events).replay.rest == [];
    events := SubscriptionWitnesses.DoReplayExit(cfg, events);
    events := SubscriptionWitnesses.DoGoLive(cfg, events);
  }
}
