/** Runs that show the conditions of the agreement theorems are needed. */
module SubscriptionWitnesses {
  import opened Text
  import opened SubscriptionState
  import opened SubscriptionSteps
  import Routes

  lemma Do(cfg: Config, past: seq<Event>, e: Event) returns (events: seq<Event>)
    ensures Run(cfg, events) == Step(cfg, Run(cfg, past), e)
  {
    events := past + [e];
    assert events[..|events| - 1] == past;
  }

  // ---- One step each, by its step function ----------------------------------------------------

  lemma DoOpenConnection(cfg: Config, past: seq<Event>) returns (events: seq<Event>)
    ensures Run(cfg, events) == StepConnect(Run(cfg, past))
  {
    events := Do(cfg, past, Connect);
  }

  lemma DoReplayEnter(cfg: Config, past: seq<Event>) returns (events: seq<Event>)
    ensures Run(cfg, events) == StepReplayEnter(Run(cfg, past))
  {
    events := Do(cfg, past, ReplayEnter);
  }

  lemma DoReplaySnapshot(cfg: Config, past: seq<Event>) returns (events: seq<Event>)
    ensures Run(cfg, events) == StepReplaySnapshot(Run(cfg, past), [])
  {
    events := Do(cfg, past, ReplaySnapshot([]));
  }

  lemma DoReplayExit(cfg: Config, past: seq<Event>) returns (events: seq<Event>)
    ensures Run(cfg, events) == StepReplayExit(Run(cfg, past))
  {
    events := Do(cfg, past, ReplayExit);
  }

  lemma DoGoLive(cfg: Config, past: seq<Event>) returns (events: seq<Event>)
    ensures Run(cfg, events) == StepGoLive(Run(cfg, past))
  {
    events := Do(cfg, past, GoLive);
  }

  lemma DoChangeEnter(cfg: Config, past: seq<Event>, route: string, subscribe: bool) returns (events: seq<Event>)
    ensures Run(cfg, events) == StepChangeEnter(Run(cfg, past), route, subscribe)
  {
    events := Do(cfg, past, ChangeEnter(route, subscribe));
  }

  lemma DoChangeApply(cfg: Config, past: seq<Event>) returns (events: seq<Event>)
    ensures Run(cfg, events) == StepChangeApply(cfg, Run(cfg, past))
  {
    events := Do(cfg, past, ChangeApply);
  }

  lemma DoChangeAcquire(cfg: Config, past: seq<Event>, cancelled: bool) returns (events: seq<Event>)
    ensures Run(cfg, events) == StepChangeAcquire(Run(cfg, past), cancelled)
  {
    events := Do(cfg, past, ChangeAcquire(cancelled));
  }

  lemma DoChangeCheck(cfg: Config, past: seq<Event>) returns (events: seq<Event>)
    ensures Run(cfg, events) == StepChangeCheck(Run(cfg, past), false)
  {
    events := Do(cfg, past, ChangeCheck(false));
  }

  lemma DoChangeReassert(cfg: Config, past: seq<Event>) returns (events: seq<Event>)
    ensures Run(cfg, events) == StepChangeReassert(Run(cfg, past))
  {
    events := Do(cfg, past, ChangeReassert);
  }

  lemma DoChangeRegister(cfg: Config, past: seq<Event>, id: string) returns (events: seq<Event>)
    ensures Run(cfg, events) == StepChangeRegister(Run(cfg, past), id, true)
  {
    events := Do(cfg, past, ChangeRegister(id, true));
  }

  lemma DoChangeEnqueue(cfg: Config, past: seq<Event>) returns (events: seq<Event>)
    ensures Run(cfg, events) == StepChangeEnqueue(Run(cfg, past))
  {
    events := Do(cfg, past, ChangeEnqueue);
  }

  lemma DoChangeClear(cfg: Config, past: seq<Event>) returns (events: seq<Event>)
    ensures Run(cfg, events) == StepChangeClear(Run(cfg, past))
  {
    events := Do(cfg, past, ChangeClear);
  }

  lemma DoChangeExit(cfg: Config, past: seq<Event>) returns (events: seq<Event>)
    ensures Run(cfg, events) == StepChangeExit(Run(cfg, past))
  {
    events := Do(cfg, past, ChangeExit);
  }

  lemma DoSendHead(cfg: Config, past: seq<Event>) returns (events: seq<Event>)
    ensures Run(cfg, events) == StepSendHead(Run(cfg, past), true, false)
  {
    events := Do(cfg, past, SendHead(true, false));
  }

  lemma DoServerHandle(cfg: Config, past: seq<Event>, identity: Routes.Identity) returns (events: seq<Event>)
    ensures Run(cfg, events) == StepServerHandle(cfg, Run(cfg, past), identity, false)
  {
    events := Do(cfg, past, ServerHandle(identity, false));
  }

  lemma DoServerHandleOther(cfg: Config, past: seq<Event>, id: string) returns (events: seq<Event>)
    ensures Run(cfg, events) == StepServerHandleOther(cfg, Run(cfg, past), id, true, false)
  {
    events := Do(cfg, past, ServerHandleOther(id, true, false));
  }

  lemma DoBeginClose(cfg: Config, past: seq<Event>) returns (events: seq<Event>)
    ensures Run(cfg, events) == StepBeginClose(Run(cfg, past))
  {
    events := Do(cfg, past, BeginClose);
  }

  lemma DoFinishClose(cfg: Config, past: seq<Event>) returns (events: seq<Event>)
    ensures Run(cfg, events) == StepFinishClose(Run(cfg, past))
  {
    events := Do(cfg, past, FinishClose);
  }

  lemma DoReceive(cfg: Config, past: seq<Event>) returns (events: seq<Event>)
    ensures Run(cfg, events) == StepReceive(Run(cfg, past))
  {
    events := Do(cfg, past, Receive);
  }

  lemma DoReceiveRelease(cfg: Config, past: seq<Event>) returns (events: seq<Event>)
    ensures Run(cfg, events) == StepReceiveRelease(Run(cfg, past))
  {
    events := Do(cfg, past, ReceiveRelease);
  }

  // ---- Macros ---------------------------------------------------------------------------------

  const Replayed := Replay(ReplaySucceeded, [], "", false)

  /** A connected client with nothing in progress and nothing on its way. */
  ghost predicate Calm(s: State) {
    && s.session == Session(Live, true, true) && s.gate == Free && s.change.stage == Idle && !s.receiverHolds
    && s.replay == Replayed && s.link.outbound == [] && s.link.wire == [] && s.link.responses == []
    && s.client.rollback == None
  }

  /** A client that wants nothing connects. */
  lemma DoConnect(cfg: Config, past: seq<Event>) returns (events: seq<Event>)
    requires var s := Run(cfg, past);
             && s.session == Session(Down, false, true) && s.gate == Free && s.change.stage == Idle && !s.receiverHolds
             && s.client.desired == {} && s.client.rollback == None
    ensures var s, t := Run(cfg, past), Run(cfg, events);
            && Calm(t) && t.client == s.client && t.freeSlots == s.freeSlots && t.mistaken == s.mistaken
            && t.change == s.change && t.link == NewLink.(stale := s.client.pending.Keys)
  {
    events := DoOpenConnection(cfg, past);
    events := DoReplayEnter(cfg, events);
    events := DoReplaySnapshot(cfg, events);
    events := DoReplayExit(cfg, events);
    events := DoGoLive(cfg, events);
  }

  /** A change runs up to the point where it waits for a response slot. */
  lemma DoBegin(cfg: Config, past: seq<Event>, route: string, subscribe: bool) returns (events: seq<Event>)
    requires var s := Run(cfg, past);
             && Calm(s.(link := NewLink)) && (route in s.client.desired) != subscribe
             && (subscribe ==> |s.client.desired| < cfg.clientLimit)
    ensures var s, t := Run(cfg, past), Run(cfg, events);
            t == s.(client := s.client.(desired := Put(s.client.desired, route, subscribe),
                                        rollback := Some(Rollback(route, !subscribe, false))),
                    gate := ByChange,
                    change := Change(Waiting, route, subscribe, "", false, !subscribe, false))
  {
    events := DoChangeEnter(cfg, past, route, subscribe);
    events := DoChangeApply(cfg, events);
  }

  /** ... and up to the point where it is about to register its command. */
  lemma DoAcquire(cfg: Config, past: seq<Event>) returns (events: seq<Event>)
    requires var s := Run(cfg, past); s.change.stage == Waiting && s.freeSlots > 0 && s.session.connected
    ensures var s, t := Run(cfg, past), Run(cfg, events);
            t == s.(client := SetDesired(s.client, s.change.route, s.change.subscribe),
                    freeSlots := s.freeSlots - 1,
                    change := s.change.(stage := Reasserted, holdsSlot := true))
  {
    events := DoChangeAcquire(cfg, past, false);
    events := DoChangeCheck(cfg, events);
    events := DoChangeReassert(cfg, events);
  }

  /** The change registers and queues its command and leaves. */
  lemma DoFinish(cfg: Config, past: seq<Event>, id: string) returns (events: seq<Event>)
    requires var s := Run(cfg, past); s.change.stage == Reasserted && s.session.accepting && id !in s.client.pending
    ensures var s, t := Run(cfg, past), Run(cfg, events);
            t == s.(client := Register(s.client, id, s.change.route, s.change.subscribe).value.(rollback := None),
                    gate := Free,
                    change := s.change.(stage := Idle, id := id, holdsSlot := false),
                    link := s.link.(outbound := s.link.outbound + [Command(id, s.change.route, s.change.subscribe)]))
  {
    events := DoQueue(cfg, past, id);
    events := DoChangeClear(cfg, events);
    events := DoChangeExit(cfg, events);
  }

  lemma DoQueue(cfg: Config, past: seq<Event>, id: string) returns (events: seq<Event>)
    ensures Run(cfg, events) == StepChangeEnqueue(StepChangeRegister(Run(cfg, past), id, true))
  {
    events := DoChangeRegister(cfg, past, id);
    events := DoChangeEnqueue(cfg, events);
  }

  /** `t` is `s` after the one queued command has reached the server and was answered. */
  ghost predicate Served(cfg: Config, identity: Routes.Identity, s: State, t: State)
    requires s.link.outbound != []
  {
    var m := s.link.outbound[0];
    && t == s.(link := t.link)
    && t.link.outbound == [] && t.link.wire == []
    && t.link.server.table == Dispatch(cfg, s.link.server, identity, m).table
    && t.link.responses == s.link.responses + [Answer(m, Dispatch(cfg, s.link.server, identity, m).ack)]
    && t.link.lost == s.link.lost && t.link.stale == s.link.stale
    && t.link.sentRoutes == s.link.sentRoutes + {m.route}
  }

  lemma DoServe(cfg: Config, past: seq<Event>, identity: Routes.Identity) returns (events: seq<Event>)
    requires var s := Run(cfg, past);
             && s.session.phase == Live && s.replay == Replayed && |s.link.outbound| == 1 && s.link.wire == []
    ensures Served(cfg, identity, Run(cfg, past), Run(cfg, events))
  {
    events := DoSendHead(cfg, past);
    assert Run(cfg, events).link.wire == [Run(cfg, past).link.outbound[0]];
    events := DoServerHandle(cfg, events, identity);
  }

  /** The client takes an answer to a pending mutation and gives the slot back. */
  lemma DoTake(cfg: Config, past: seq<Event>) returns (events: seq<Event>)
    requires var s := Run(cfg, past);
             && s.session.phase == Live && !s.receiverHolds && s.link.responses != []
             && IdOf(s.link.responses[0]) in s.client.pending
    ensures var s, t := Run(cfg, past), Run(cfg, events);
            var id, ack := IdOf(s.link.responses[0]), s.link.responses[0].ack;
            var client := Handle(s.client, id, ack);
            var route := s.client.pending[id].route;
            t == s.(client := client, freeSlots := s.freeSlots + 1,
                    link := s.link.(responses := s.link.responses[1..]),
                    mistaken := s.mistaken || s.link.responses[0].Other?,
                    change := if Active(s.change) && s.change.route == route
                              then s.change.(
                                baseline := Target(client.pending - OwnIds(s.change), client.confirmed, route))
                              else s.change)
  {
    events := DoReceive(cfg, past);
    events := DoReceiveRelease(cfg, events);
  }

  ghost predicate Accepts(cfg: Config, identity: Routes.Identity, route: string) {
    cfg.capacity > 0 && cfg.clientLimit > 0 && cfg.serverLimit > 0 &&
    Routes.TryAuthorize(cfg.letter, identity, route).Some?
  }

  lemma DispatchAccepts(cfg: Config, identity: Routes.Identity, m: Command)
    requires Accepts(cfg, identity, m.route) && m.subscribe
    ensures var verdict := Dispatch(cfg, Server({}, []), identity, m);
            && verdict.ack
            && verdict.table == {Routes.SubscriptionKey(Routes.TryAuthorize(cfg.letter, identity, m.route).value)}
  {
  }

  /** `t` is `s` after a client that wants nothing has queued one subscription command. */
  ghost predicate Commanded(s: State, t: State, route: string, id: string) {
    && t.client == s.client.(desired := {route}, nextSequence := s.client.nextSequence + 1,
                             pending := s.client.pending[id := Mutation(route, true, s.client.nextSequence + 1)])
    && t.link == s.link.(outbound := s.link.outbound + [Command(id, route, true)])
    && t.freeSlots == s.freeSlots - 1 && t.session == s.session && t.gate == Free && t.replay == s.replay
    && t.change.stage == Idle && !t.change.holdsSlot && t.receiverHolds == s.receiverHolds
    && t.mistaken == s.mistaken
  }

  lemma CommandEffect(s: State, begun: State, acquired: State, t: State, route: string, id: string)
    requires s.client.desired == {} && s.client.rollback == None && id !in s.client.pending && s.freeSlots > 0
    requires begun == s.(client := s.client.(desired := Put(s.client.desired, route, true),
                                             rollback := Some(Rollback(route, false, false))),
                         gate := ByChange, change := Change(Waiting, route, true, "", false, false, false))
    requires acquired == begun.(client := SetDesired(begun.client, route, true), freeSlots := begun.freeSlots - 1,
                                change := begun.change.(stage := Reasserted, holdsSlot := true))
    requires Register(acquired.client, id, route, true).Some?
    requires t == acquired.(client := Register(acquired.client, id, route, true).value.(rollback := None),
                            gate := Free,
                            change := acquired.change.(stage := Idle, id := id, holdsSlot := false),
                            link := acquired.link.(outbound := acquired.link.outbound + [Command(id, route, true)]))
    ensures Commanded(s, t, route, id)
  {
    ClientSubscribes(s.client, route, id);
  }

  /** A connected client that wants nothing queues one subscription command; answers may be on their way. */
  lemma DoCommand(cfg: Config, past: seq<Event>, route: string, id: string) returns (events: seq<Event>)
    requires cfg.clientLimit > 0
    requires var s := Run(cfg, past);
             && Calm(s.(link := NewLink)) && s.freeSlots > 0 && s.client.desired == {} && id !in s.client.pending
    ensures Commanded(Run(cfg, past), Run(cfg, events), route, id)
  {
    var begun := DoBegin(cfg, past, route, true);
    var acquired := DoAcquire(cfg, begun);
    events := DoFinish(cfg, acquired, id);
    CommandEffect(Run(cfg, past), Run(cfg, begun), Run(cfg, acquired), Run(cfg, events), route, id);
  }

  lemma ClientSubscribes(c: Client, route: string, id: string)
    requires c.desired == {} && c.rollback == None && id !in c.pending
    ensures var begun := c.(desired := Put(c.desired, route, true), rollback := Some(Rollback(route, false, false)));
            var registered := Register(SetDesired(begun, route, true), id, route, true);
            && registered.Some?
            && registered.value.(rollback := None)
               == c.(desired := {route}, nextSequence := c.nextSequence + 1,
                     pending := c.pending[id := Mutation(route, true, c.nextSequence + 1)])
  {
  }

  /** `t` is `s` after a subscription whose answer is on its way. */
  ghost predicate Subscribed(cfg: Config, identity: Routes.Identity, s: State, t: State, route: string, id: string)
    requires Accepts(cfg, identity, route)
  {
    && t.client == s.client.(desired := {route}, nextSequence := s.client.nextSequence + 1,
                             pending := s.client.pending[id := Mutation(route, true, s.client.nextSequence + 1)])
    && t.link.responses == [Answer(Command(id, route, true), true)]
    && t.link.server.table == {Routes.SubscriptionKey(Routes.TryAuthorize(cfg.letter, identity, route).value)}
    && t.link.outbound == [] && t.link.wire == [] && t.link.lost == s.link.lost && t.link.stale == s.link.stale
    && t.link.sentRoutes == s.link.sentRoutes + {route}
    && t.freeSlots == s.freeSlots - 1 && t.session == s.session && t.gate == Free && t.replay == s.replay
    && t.change.stage == Idle && !t.change.holdsSlot && !t.receiverHolds
    && t.mistaken == s.mistaken
  }

  lemma SubscribeEffect(
    cfg: Config, identity: Routes.Identity, s: State, queued: State, t: State, route: string, id: string)
    requires Accepts(cfg, identity, route) && Calm(s) && s.link.server == Server({}, [])
    requires Commanded(s, queued, route, id) && Served(cfg, identity, queued, t)
    ensures Subscribed(cfg, identity, s, t, route, id)
  {
    DispatchAccepts(cfg, identity, Command(id, route, true));
  }

  /** A connected client subscribes to one route and the answer is on its way. */
  lemma DoSubscribe(cfg: Config, past: seq<Event>, identity: Routes.Identity, route: string, id: string)
    returns (events: seq<Event>)
    requires Accepts(cfg, identity, route)
    requires var s := Run(cfg, past);
             && Calm(s) && s.freeSlots > 0 && s.client.desired == {} && id !in s.client.pending
             && s.link.server == Server({}, [])
    ensures Subscribed(cfg, identity, Run(cfg, past), Run(cfg, events), route, id)
  {
    var queued := DoCommand(cfg, past, route, id);
    events := DoServe(cfg, queued, identity);
    SubscribeEffect(cfg, identity, Run(cfg, past), Run(cfg, queued), Run(cfg, events), route, id);
  }

  // ---- The witnesses --------------------------------------------------------------------------

  /**
   Two spellings of one route: the client subscribed to "topics//t", so the server holds "topics/t",
   a canonical route that is at rest and that the client never confirmed.
   */
  lemma AliasBreaksAgreement(cfg: Config, identity: Routes.Identity, topic: string, id: string)
    returns (events: seq<Event>)
    requires Routes.Letters(cfg.letter) && Routes.IsValidSegment(cfg.letter, topic)
    requires Routes.TopicAllowed(identity, topic) && cfg.capacity > 0 && cfg.clientLimit > 0 && cfg.serverLimit > 0
    ensures var s, route := Run(cfg, events), Routes.TopicText(topic);
            && s.session.phase == Live && !s.mistaken && AtRest(s, route) && s.link.responses == []
            && Routes.Canonical(cfg.letter, route)
            && route !in s.client.confirmed && OnServer(cfg, s, route)
  {
    var alias := Routes.TopicText("/" + topic);
    Routes.AliasedSpelling(cfg.letter, topic);
    assert alias != Routes.TopicText(topic) by { assert |alias| == 8 + |topic|; }
    events := DoConnect(cfg, []);
    events := DoSubscribe(cfg, events, identity, alias, id);
    events := DoTake(cfg, events);
  }

  /**
   A correlation id shared with an application message: the client takes the answer to that message
   for the answer to its subscription. Nothing is on its way, and the server holds nothing.
   */
  lemma SharedIdBreaksAgreement(cfg: Config, identity: Routes.Identity, route: string, id: string)
    returns (events: seq<Event>)
    requires cfg.capacity > 0 && cfg.clientLimit > 0 && cfg.windowLimit > 0
    ensures var s := Run(cfg, events);
            && s.session.phase == Live && AtRest(s, route)
            && s.link.outbound == [] && s.link.wire == [] && s.link.responses == []
            && s.mistaken && SoleSpelling(cfg, s, route)
            && route in s.client.desired && route in s.client.confirmed && !OnServer(cfg, s, route)
  {
    events := DoShareId(cfg, route, id);
    events := DoTake(cfg, events);
    events := DoServe(cfg, events, identity);
    events := DoReceive(cfg, events);
  }

  lemma DoOther(cfg: Config, past: seq<Event>, id: string) returns (events: seq<Event>)
    requires cfg.windowLimit > 0
    requires var s := Run(cfg, past); s.session.phase == Live && s.link == NewLink
    ensures var s, t := Run(cfg, past), Run(cfg, events);
            t == s.(link := NewLink.(server := Server({}, [id]), responses := [Other(id, true)]))
  {
    events := DoServerHandleOther(cfg, past, id);
  }

  /** The answer to an application message is on its way to a client that wants nothing. */
  lemma DoOtherFirst(cfg: Config, id: string) returns (events: seq<Event>)
    requires cfg.windowLimit > 0
    ensures var s := Run(cfg, events);
            && Calm(s.(link := NewLink)) && s.client == Fresh && s.freeSlots == cfg.capacity
            && s.link == NewLink.(server := Server({}, [id]), responses := [Other(id, true)])
  {
    events := DoConnect(cfg, []);
    events := DoOther(cfg, events, id);
  }

  /** ... and meets a subscription command with the same identifier, still queued. */
  ghost predicate SharesId(s: State, route: string, id: string) {
    && s.session.phase == Live && s.replay == Replayed && !s.receiverHolds && s.change.stage == Idle
    && s.client == Client({route}, {}, map[id := Mutation(route, true, 1)], 1, None)
    && s.link.outbound == [Command(id, route, true)] && s.link.wire == []
    && s.link.responses == [Other(id, true)] && s.link.server == Server({}, [id]) && s.link.sentRoutes == {}
  }

  lemma CommandShares(s: State, t: State, route: string, id: string)
    requires Calm(s.(link := NewLink)) && s.client == Fresh
    requires s.link == NewLink.(server := Server({}, [id]), responses := [Other(id, true)])
    requires Commanded(s, t, route, id)
    ensures SharesId(t, route, id)
  {
  }

  lemma DoShareId(cfg: Config, route: string, id: string) returns (events: seq<Event>)
    requires cfg.capacity > 0 && cfg.clientLimit > 0 && cfg.windowLimit > 0
    ensures SharesId(Run(cfg, events), route, id)
  {
    var past := DoOtherFirst(cfg, id);
    events := DoCommand(cfg, past, route, id);
    CommandShares(Run(cfg, past), Run(cfg, events), route, id);
  }

  /**
   A failed unsubscribe that loses the subscription: an answer on the route arrives during the change,
   the connection is torn down, and the undo reconciles against confirmations that were cleared.
   */
  lemma FailedUnsubscribeDropsRoute(cfg: Config, identity: Routes.Identity, route: string, id: string)
    returns (events: seq<Event>)
    requires Accepts(cfg, identity, route)
    ensures var s := Run(cfg, events);
            && !s.mistaken && s.change.stage == Failing && s.change.route == route && !s.change.subscribe
            && s.change.baseline && route !in Step(cfg, s, ChangeRollback).client.desired
  {
    events := DoFailAfterTeardown(cfg, identity, route, id);
    UndoForgets(cfg, Run(cfg, events));
  }

  lemma UndoForgets(cfg: Config, s: State)
    requires s.change.stage == Failing && s.client.rollback.Some? && s.client.rollback.value.observed
    requires s.client.pending == map[] && s.client.confirmed == {}
    ensures s.client.rollback.value.route !in Step(cfg, s, ChangeRollback).client.desired
  {
    assert !Target(s.client.pending, s.client.confirmed, s.client.rollback.value.route);
  }

  lemma DoFailAfterTeardown(cfg: Config, identity: Routes.Identity, route: string, id: string)
    returns (events: seq<Event>)
    requires Accepts(cfg, identity, route)
    ensures var s := Run(cfg, events);
            && !s.mistaken && s.client.pending == map[] && s.client.confirmed == {}
            && s.client.rollback == Some(Rollback(route, true, true))
            && s.change == Change(Failing, route, false, "", false, true, true)
  {
    events := DoAnswerDuringChange(cfg, identity, route, id);
    events := DoTeardown(cfg, events);
    events := DoChangeAcquire(cfg, events, true);
  }

  lemma DoAnswerDuringChange(cfg: Config, identity: Routes.Identity, route: string, id: string)
    returns (events: seq<Event>)
    requires Accepts(cfg, identity, route)
    ensures var s := Run(cfg, events);
            && s.session.phase == Live && s.replay == Replayed && !s.receiverHolds && !s.mistaken
            && s.client.pending == map[] && s.client.rollback == Some(Rollback(route, true, true))
            && s.change == Change(Waiting, route, false, "", false, true, false)
  {
    events := DoConnect(cfg, []);
    events := DoSubscribe(cfg, events, identity, route, id);
    events := DoBegin(cfg, events, route, false);
    events := DoTake(cfg, events);
    assert Run(cfg, events).client.pending == map[];
  }

  lemma DoTeardown(cfg: Config, past: seq<Event>) returns (events: seq<Event>)
    requires var s := Run(cfg, past); s.session.phase == Live && s.replay == Replayed && !s.receiverHolds
    ensures var s := Run(cfg, past);
            Run(cfg, events) == Cleared(s).(session := s.session.(phase := Down, connected := false))
  {
    events := DoBeginClose(cfg, past);
    events := DoFinishClose(cfg, events);
  }

  /**
   A mutation registered after its connection was cleared stays pending on the next connection, where
   its command is never sent. A later subscription of the same route is confirmed and held by the
   server, nothing is on its way, and still the client does not want the route.
   */
  lemma StaleMutationHidesSubscription(
    cfg: Config, identity: Routes.Identity, route: string, a: string, b: string, c: string)
    returns (events: seq<Event>)
    requires Accepts(cfg, identity, route) && cfg.capacity > 1 && b != c
    ensures var s := Run(cfg, events);
            && s.session.phase == Live && !s.mistaken && s.change.stage == Idle
            && s.link.outbound == [] && s.link.wire == [] && s.link.responses == []
            && s.client.pending.Keys == s.link.stale == {b}
            && route in s.client.confirmed && OnServer(cfg, s, route) && route !in s.client.desired
  {
    events := DoRegisterLate(cfg, identity, route, a, b);
    events := DoConnect(cfg, events);
    events := DoSubscribe(cfg, events, identity, route, c);
    events := DoTake(cfg, events);
    assert Run(cfg, events).client.pending == map[b := Mutation(route, false, 2)];
    assert IsLatest(Run(cfg, events).client.pending, route, b);
  }

  lemma DoSettle(cfg: Config, identity: Routes.Identity, route: string, id: string) returns (events: seq<Event>)
    requires Accepts(cfg, identity, route)
    ensures var s := Run(cfg, events);
            && Calm(s) && s.freeSlots == cfg.capacity && s.client == Client({route}, {route}, map[], 1, None)
            && !s.mistaken
  {
    events := DoConnect(cfg, []);
    events := DoSubscribe(cfg, events, identity, route, id);
    SubscriptionConfirmed(route, id);
    events := DoTake(cfg, events);
  }

  lemma SubscriptionConfirmed(route: string, id: string)
    ensures Handle(Client({route}, {}, map[id := Mutation(route, true, 1)], 1, None), id, true)
            == Client({route}, {route}, map[], 1, None)
  {
    assert map[id := Mutation(route, true, 1)] - {id} == map[];
  }

  /** The connection goes down between the last check of a change and its registration. */
  lemma DoRegisterLate(cfg: Config, identity: Routes.Identity, route: string, a: string, b: string)
    returns (events: seq<Event>)
    requires Accepts(cfg, identity, route)
    ensures var s := Run(cfg, events);
            && s.session == Session(Down, false, true) && s.gate == Free && s.change.stage == Idle && !s.receiverHolds
            && s.client == Client({}, {}, map[b := Mutation(route, false, 2)], 2, None)
            && s.freeSlots == cfg.capacity - 1 && !s.mistaken
  {
    events := DoSettle(cfg, identity, route, a);
    events := DoBegin(cfg, events, route, false);
    events := DoAcquire(cfg, events);
    events := DoTeardown(cfg, events);
    events := DoFinish(cfg, events, b);
  }
}
