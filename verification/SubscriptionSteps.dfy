/**
 The subscription protocol between one client and the gateway, as a step system.

 One event is one lock body, one semaphore operation or one queue operation of the source, or one
 message handled by the server; between two events any other thread may run. An event that is not
 enabled leaves the state as it is, so every sequence of events is a run.

 Commands travel client queue -> wire -> server, answers travel back in order; the server may drop
 an answer (its outbound queue is full). Every connection starts with an empty server table.
 */
module SubscriptionSteps {
  import opened Text
  import opened SubscriptionState
  import Routes
  import DuplicateWindow

  datatype Config = Config(
    letter: char -> bool,      // char.IsLetterOrDigit
    capacity: nat,             // SendQueueCapacity: the number of response slots
    clientLimit: nat,          // MaximumSubscriptions of the client
    serverLimit: nat,          // MaximumSubscriptions of the gateway
    windowLimit: nat)          // MaximumTrackedCorrelations of the gateway

  datatype Command = Command(id: string, route: string, subscribe: bool)

  /** What the server sends back, for a subscription command or for any other message. */
  datatype Response = Answer(command: Command, ack: bool) | Other(id: string, ack: bool)

  /** The client recognises an answer by its correlation id alone. */
  function IdOf(r: Response): string {
    match r
    case Answer(command, _) => command.id
    case Other(id, _) => id
  }

  datatype Server = Server(table: set<string>, window: seq<string>)

  /** Down: no transport. Open: transport up, replay not finished. Live: state was set to connected. */
  datatype Phase = Down | Open | Live | Closing

  datatype Gate = Free | ByChange | ByReplay

  /** Where `ChangeSubscriptionAsync` stands. */
  datatype ChangeStage =
    | Idle | Entered | Waiting | Holding | Checked | Reasserted | Registered | Refused | Enqueued
    | Failing | Leaving

  /**
   The change in progress. `baseline` is what the caller's set would say about the route had this
   change never begun; `cleared` tells whether the connection was torn down meanwhile. Both are history.
   */
  datatype Change = Change(
    stage: ChangeStage, route: string, subscribe: bool, id: string, holdsSlot: bool,
    baseline: bool, cleared: bool)

  /** Where `ReplayConnectionStateAsync` stands. */
  datatype ReplayStage =
    | ReplayNotStarted | ReplayDrained | ReplaySending | ReplayHolding | ReplayRegistered
    | ReplayRefused | ReplayFailing | ReplaySucceeded | ReplayFailed | ReplaySkipped

  datatype Replay = Replay(stage: ReplayStage, rest: seq<string>, id: string, holdsSlot: bool)

  datatype Session = Session(phase: Phase, connected: bool, accepting: bool)

  /**
   Everything between client and server on the current connection. `lost`: commands whose answer
   will never come. `stale`: mutations registered before this connection's replay. `sentRoutes`: every
   route named on the wire.
   */
  datatype Link = Link(
    outbound: seq<Command>, wire: seq<Command>, responses: seq<Response>, server: Server,
    lost: set<string>, stale: set<string>, sentRoutes: set<string>)

  /**
   `releasing` counts the callers that left the gate and have yet to return their slot. `mistaken` is
   history: some answer to another message was taken for the answer to a subscription command.
   */
  datatype State = State(
    client: Client,
    freeSlots: nat,
    releasing: nat,
    session: Session,
    gate: Gate,
    change: Change,
    replay: Replay,
    receiverHolds: bool,
    link: Link,
    mistaken: bool)

  const NoChange := Change(Idle, "", false, "", false, false, false)
  const NoReplay := Replay(ReplayNotStarted, [], "", false)
  const NewLink := Link([], [], [], Server({}, []), {}, {}, {})

  function Initial(cfg: Config): State {
    State(Fresh, cfg.capacity, 0, Session(Down, false, true), Free, NoChange, NoReplay, false, NewLink, false)
  }

  datatype Event =
    | Connect | GoLive | LoseState | BeginClose | FinishClose | StopAccepting | Terminate
    | ChangeEnter(route: string, subscribe: bool) | ChangeApply | ChangeAcquire(cancelled: bool)
    | ChangeCheck(disposed: bool)
    | ChangeReassert | ChangeRegister(id: string, prepared: bool) | ChangeEnqueue | ChangeRemove
    | ChangeRollback | ChangeClear | ChangeExit | ChangeRelease
    | ReplayEnter | ReplaySnapshot(order: seq<string>) | ReplayAcquire | ReplayRegister(id: string)
    | ReplaySend(delivered: bool, failed: bool) | ReplayAbort | ReplayRemove | ReplayRelease | ReplayExit
    | SendHead(delivered: bool, failed: bool)
    | ServerHandle(identity: Routes.Identity, dropped: bool) | ServerHandleOther(id: string, ack: bool, dropped: bool)
    | Receive | ReceiveRelease

  /** Steps of the thread that changes a subscription. */
  predicate OfChange(e: Event) {
    e.ChangeEnter? || e.ChangeApply? || e.ChangeAcquire? || e.ChangeCheck? || e.ChangeReassert?
    || e.ChangeRegister? || e.ChangeEnqueue? || e.ChangeRemove? || e.ChangeRollback? || e.ChangeClear?
    || e.ChangeExit? || e.ChangeRelease?
  }

  /** Steps of the thread that replays subscriptions. */
  predicate OfReplay(e: Event) {
    e.ReplayEnter? || e.ReplaySnapshot? || e.ReplayAcquire? || e.ReplayRegister? || e.ReplaySend?
    || e.ReplayAbort? || e.ReplayRemove? || e.ReplayRelease? || e.ReplayExit?
  }

  ghost function Step(cfg: Config, s: State, e: Event): State {
    if OfChange(e) then StepChange(cfg, s, e) else if OfReplay(e) then StepReplay(s, e) else StepOther(cfg, s, e)
  }

  ghost function StepChange(cfg: Config, s: State, e: Event): State {
    match e
    case ChangeEnter(route, subscribe) => StepChangeEnter(s, route, subscribe)
    case ChangeApply => StepChangeApply(cfg, s)
    case ChangeAcquire(cancelled) => StepChangeAcquire(s, cancelled)
    case ChangeCheck(disposed) => StepChangeCheck(s, disposed)
    case ChangeReassert => StepChangeReassert(s)
    case ChangeRegister(id, prepared) => StepChangeRegister(s, id, prepared)
    case ChangeEnqueue => StepChangeEnqueue(s)
    case ChangeRemove => StepChangeRemove(s)
    case ChangeRollback => StepChangeRollback(s)
    case ChangeClear => StepChangeClear(s)
    case ChangeExit => StepChangeExit(s)
    case ChangeRelease => StepChangeRelease(s)
    case _ => s
  }

  ghost function StepReplay(s: State, e: Event): State {
    match e
    case ReplayEnter => StepReplayEnter(s)
    case ReplaySnapshot(order) => StepReplaySnapshot(s, order)
    case ReplayAcquire => StepReplayAcquire(s)
    case ReplayRegister(id) => StepReplayRegister(s, id)
    case ReplaySend(delivered, failed) => StepReplaySend(s, delivered, failed)
    case ReplayAbort => StepReplayAbort(s)
    case ReplayRemove => StepReplayRemove(s)
    case ReplayRelease => StepReplayRelease(s)
    case ReplayExit => StepReplayExit(s)
    case _ => s
  }

  /** The connection, the send loop, the server and the receive loop. */
  ghost function StepOther(cfg: Config, s: State, e: Event): State {
    match e
    case Connect => StepConnect(s)
    case GoLive => StepGoLive(s)
    case LoseState => s.(session := s.session.(connected := false))
    case BeginClose => StepBeginClose(s)
    case FinishClose => StepFinishClose(s)
    case StopAccepting => s.(session := s.session.(accepting := false))
    case Terminate => StepTerminate(s)
    case SendHead(delivered, failed) => StepSendHead(s, delivered, failed)
    case ServerHandle(identity, dropped) => StepServerHandle(cfg, s, identity, dropped)
    case ServerHandleOther(id, ack, dropped) => StepServerHandleOther(cfg, s, id, ack, dropped)
    case Receive => StepReceive(s)
    case ReceiveRelease => StepReceiveRelease(s)
    case _ => s
  }

  ghost function Run(cfg: Config, events: seq<Event>): State {
    if events == [] then Initial(cfg)
    else Step(cfg, Run(cfg, events[..|events| - 1]), events[|events| - 1])
  }

  // ---- The connection loop (RunAsync) ---------------------------------------------------------

  function StepConnect(s: State): State {
    if s.session.phase != Down then s
    else s.(session := s.session.(phase := Open), replay := NoReplay, link := NewLink.(outbound := s.link.outbound))
  }

  function StepGoLive(s: State): State {
    if s.session.phase == Open && s.replay.stage == ReplaySucceeded
    then s.(session := s.session.(phase := Live, connected := true)) else s
  }

  function StepBeginClose(s: State): State {
    if s.session.phase.Open? || s.session.phase.Live?
    then s.(session := s.session.(phase := Closing, connected := false)) else s
  }

  /** `ClearPendingSubscriptionMutations`, once replay, receiver and sender have been awaited. */
  function StepFinishClose(s: State): State {
    if s.session.phase == Closing && Finished(s.replay.stage) && !s.receiverHolds
    then Cleared(s).(session := s.session.(phase := Down)) else s
  }

  /** The final clear of `CompleteChannels`. */
  function StepTerminate(s: State): State {
    if s.session.phase == Down && !s.session.accepting then Cleared(s) else s
  }

  predicate Finished(stage: ReplayStage) {
    stage.ReplaySucceeded? || stage.ReplayFailed? || stage.ReplaySkipped?
  }

  function Cleared(s: State): State {
    s.(client := ClearPending(s.client),
       freeSlots := s.freeSlots + |s.client.pending|,
       change := s.change.(cleared := true))
  }

  // ---- ChangeSubscriptionAsync ----------------------------------------------------------------

  function StepChangeEnter(s: State, route: string, subscribe: bool): State {
    if s.change.stage == Idle && s.gate == Free && s.session.connected
    then s.(gate := ByChange, change := Change(Entered, route, subscribe, "", false, false, false)) else s
  }

  function StepChangeApply(cfg: Config, s: State): State {
    if s.change.stage != Entered then s
    else
      var begun := BeginChange(s.client, s.change.route, s.change.subscribe, cfg.clientLimit);
      if !begun.Begun? then s.(change := s.change.(stage := Leaving))
      else s.(client := begun.client,
              change := s.change.(stage := Waiting, baseline := s.change.route in s.client.desired, cleared := false))
  }

  function StepChangeAcquire(s: State, cancelled: bool): State {
    if s.change.stage != Waiting then s
    else if cancelled then s.(change := s.change.(stage := Failing))
    else if s.freeSlots == 0 then s
    else s.(freeSlots := s.freeSlots - 1, change := s.change.(stage := Holding, holdsSlot := true))
  }

  function StepChangeCheck(s: State, disposed: bool): State {
    if s.change.stage != Holding then s
    else s.(change := s.change.(stage := if s.session.connected && !disposed then Checked else Failing))
  }

  function StepChangeReassert(s: State): State {
    if s.change.stage != Checked then s
    else s.(client := SetDesired(s.client, s.change.route, s.change.subscribe),
            change := s.change.(stage := Reasserted))
  }

  /** `prepared` is false when the message fails validation. */
  function StepChangeRegister(s: State, id: string, prepared: bool): State {
    if s.change.stage != Reasserted then s
    else
      var registered := Register(s.client, id, s.change.route, s.change.subscribe);
      if !prepared || registered.None? then s.(change := s.change.(stage := Failing))
      else s.(client := registered.value,
              change := s.change.(stage := Registered, id := id, holdsSlot := false))
  }

  function StepChangeEnqueue(s: State): State {
    if s.change.stage != Registered then s
    else if s.session.accepting then
      s.(link := s.link.(outbound := s.link.outbound + [Command(s.change.id, s.change.route, s.change.subscribe)]),
         change := s.change.(stage := Enqueued))
    else s.(change := s.change.(stage := Refused))
  }

  function StepChangeRemove(s: State): State {
    if s.change.stage != Refused then s
    else s.(client := Remove(s.client, s.change.id),
            change := s.change.(stage := Failing, holdsSlot := s.change.id in s.client.pending))
  }

  ghost function StepChangeRollback(s: State): State {
    if s.change.stage != Failing || s.client.rollback.None? then s
    else s.(client := UndoChange(s.client), change := s.change.(stage := Leaving))
  }

  function StepChangeClear(s: State): State {
    if s.change.stage != Enqueued then s
    else s.(client := s.client.(rollback := None), change := s.change.(stage := Leaving))
  }

  function StepChangeExit(s: State): State {
    if s.change.stage != Leaving then s
    else s.(gate := Free, releasing := if s.change.holdsSlot then s.releasing + 1 else s.releasing,
            change := s.change.(stage := Idle, holdsSlot := false))
  }

  function StepChangeRelease(s: State): State {
    if s.releasing == 0 then s else s.(freeSlots := s.freeSlots + 1, releasing := s.releasing - 1)
  }

  // ---- ReplayConnectionStateAsync -------------------------------------------------------------

  /** Takes the gate and drops every queued subscription command. */
  function StepReplayEnter(s: State): State {
    if (s.session.phase.Open? || s.session.phase.Closing?) && s.replay.stage == ReplayNotStarted && s.gate == Free
    then s.(gate := ByReplay, link := s.link.(outbound := [], stale := s.client.pending.Keys),
            replay := s.replay.(stage := ReplayDrained)) else s
  }

  /** `order` lists the caller's routes. */
  function StepReplaySnapshot(s: State, order: seq<string>): State {
    if s.replay.stage == ReplayDrained && (set r | r in order) == s.client.desired
    then s.(replay := s.replay.(stage := ReplaySending, rest := order)) else s
  }

  function StepReplayAcquire(s: State): State {
    if s.replay.stage == ReplaySending && s.replay.rest != [] && s.freeSlots > 0
    then s.(freeSlots := s.freeSlots - 1, replay := s.replay.(stage := ReplayHolding, holdsSlot := true)) else s
  }

  function StepReplayRegister(s: State, id: string): State {
    if s.replay.stage != ReplayHolding || s.replay.rest == [] then s
    else
      var registered := Register(s.client, id, s.replay.rest[0], true);
      if registered.None? then s.(replay := s.replay.(stage := ReplayFailing))
      else s.(client := registered.value,
              replay := s.replay.(stage := ReplayRegistered, id := id, holdsSlot := false))
  }

  /** A failed send may still have reached the server. */
  function StepReplaySend(s: State, delivered: bool, failed: bool): State {
    if s.replay.stage != ReplayRegistered || s.replay.rest == [] then s
    else
      var route := s.replay.rest[0];
      s.(link := if delivered || !failed then OnWire(s.link, Command(s.replay.id, route, true)) else s.link,
         replay := if failed then s.replay.(stage := ReplayRefused)
                   else s.replay.(stage := ReplaySending, rest := s.replay.rest[1..]))
  }

  function OnWire(link: Link, m: Command): Link {
    link.(wire := link.wire + [m], sentRoutes := link.sentRoutes + {m.route})
  }

  /** Cancellation, or a failed replay of the application messages. */
  function StepReplayAbort(s: State): State {
    match s.replay.stage
    case ReplayNotStarted =>
      if s.session.phase.Open? || s.session.phase.Closing? then s.(replay := s.replay.(stage := ReplaySkipped)) else s
    case ReplaySending => s.(replay := s.replay.(stage := ReplayFailing))
    case _ => s
  }

  function StepReplayRemove(s: State): State {
    if s.replay.stage != ReplayRefused then s
    else s.(client := Remove(s.client, s.replay.id),
            replay := s.replay.(stage := ReplayFailing, holdsSlot := s.replay.id in s.client.pending))
  }

  function StepReplayRelease(s: State): State {
    if s.replay.stage == ReplayFailing && s.replay.holdsSlot
    then s.(freeSlots := s.freeSlots + 1, replay := s.replay.(holdsSlot := false)) else s
  }

  function StepReplayExit(s: State): State {
    if s.replay.stage == ReplayFailing && !s.replay.holdsSlot
    then s.(gate := Free, replay := s.replay.(stage := ReplayFailed))
    else if s.replay.stage == ReplaySending && s.replay.rest == []
    then s.(gate := Free, replay := s.replay.(stage := ReplaySucceeded))
    else s
  }

  // ---- Sending, the server, receiving ---------------------------------------------------------

  /** `SendLoopAsync`; a failed send may still have reached the server and ends the connection. */
  function StepSendHead(s: State, delivered: bool, failed: bool): State {
    if !(s.session.phase.Live? || s.session.phase.Closing?) || !s.replay.stage.ReplaySucceeded?
       || s.link.outbound == []
    then s
    else
      var m := s.link.outbound[0];
      var popped := s.link.(outbound := s.link.outbound[1..]);
      var link := if delivered || !failed then OnWire(popped, m) else popped.(lost := s.link.lost + {m.id});
      s.(link := link,
         session := if failed then s.session.(phase := Closing, connected := false) else s.session)
  }

  datatype Verdict = Verdict(table: set<string>, ack: bool)

  /** The subscribe and unsubscribe branches of the dispatcher, behind the duplicate check. */
  function Dispatch(cfg: Config, server: Server, identity: Routes.Identity, m: Command): Verdict {
    var route := Routes.TryAuthorize(cfg.letter, identity, m.route);
    if m.id in server.window || route.None? then Verdict(server.table, false)
    else
      var key := Routes.SubscriptionKey(route.value);
      if !m.subscribe then Verdict(server.table - {key}, true)
      else if |server.table| >= cfg.serverLimit || key in server.table then Verdict(server.table, false)
      else Verdict(server.table + {key}, true)
  }

  function StepServerHandle(cfg: Config, s: State, identity: Routes.Identity, dropped: bool): State {
    if s.link.wire == [] then s
    else
      var m := s.link.wire[0];
      var verdict := Dispatch(cfg, s.link.server, identity, m);
      var window := DuplicateWindow.Track(s.link.server.window, cfg.windowLimit, m.id);
      var link := s.link.(wire := s.link.wire[1..], server := Server(verdict.table, window));
      s.(link := if dropped then link.(lost := s.link.lost + {m.id})
                 else link.(responses := s.link.responses + [Answer(m, verdict.ack)]))
  }

  /** Any message that is not a subscription command: publish, ping, heartbeat. */
  function StepServerHandleOther(cfg: Config, s: State, id: string, ack: bool, dropped: bool): State {
    if s.session.phase == Down then s
    else
      var window := DuplicateWindow.Track(s.link.server.window, cfg.windowLimit, id);
      var link := s.link.(server := s.link.server.(window := window));
      s.(link := if dropped then link else link.(responses := s.link.responses + [Other(id, ack)]))
  }

  /** The receive loop takes one answer; a matched one leaves it holding the freed response slot. */
  ghost function StepReceive(s: State): State {
    if s.session.phase == Down || s.receiverHolds || s.link.responses == [] then s
    else
      var r := s.link.responses[0];
      var popped := s.(link := s.link.(responses := s.link.responses[1..]));
      if IdOf(r) !in s.client.pending then popped
      else
        var route := s.client.pending[IdOf(r)].route;
        var client := Handle(s.client, IdOf(r), r.ack);
        popped.(client := client, receiverHolds := true, mistaken := s.mistaken || r.Other?,
                change := if Active(s.change) && s.change.route == route
                          then s.change.(baseline := Target(client.pending - OwnIds(s.change), client.confirmed, route))
                          else s.change)
  }

  function StepReceiveRelease(s: State): State {
    if s.receiverHolds then s.(receiverHolds := false, freeSlots := s.freeSlots + 1) else s
  }

  // ---- Vocabulary -----------------------------------------------------------------------------

  /** The change has touched the caller's set and not yet settled. */
  predicate Active(c: Change) {
    || c.stage.Waiting? || c.stage.Holding? || c.stage.Checked? || c.stage.Reasserted?
    || c.stage.Registered? || c.stage.Refused? || c.stage.Enqueued? || c.stage.Failing?
  }

  /** A mutation that is registered but not (or never to be) queued. */
  function OwnIds(c: Change): set<string> {
    if (c.stage.Registered? || c.stage.Refused?) then {c.id} else {}
  }

  /** Neither pending at the client nor being changed. */
  ghost predicate AtRest(s: State, route: string) {
    !HasPending(s.client.pending, route) && !(Active(s.change) && s.change.route == route)
  }

  predicate SameKey(cfg: Config, a: string, b: string) {
    && Routes.Resolve(cfg.letter, a).Some? && Routes.Resolve(cfg.letter, b).Some?
    && Routes.SubscriptionKey(Routes.Resolve(cfg.letter, a).value)
       == Routes.SubscriptionKey(Routes.Resolve(cfg.letter, b).value)
  }

  /** No other spelling of this route was sent on the current connection. */
  ghost predicate SoleSpelling(cfg: Config, s: State, route: string) {
    forall sent | sent in s.link.sentRoutes && SameKey(cfg, sent, route) :: sent == route
  }

  predicate InTable(cfg: Config, table: set<string>, route: string) {
    && Routes.Resolve(cfg.letter, route).Some?
    && Routes.SubscriptionKey(Routes.Resolve(cfg.letter, route).value) in table
  }

  predicate OnServer(cfg: Config, s: State, route: string) {
    InTable(cfg, s.link.server.table, route)
  }

  /** This event takes the answer to another message, because its id is pending, for that of a command. */
  predicate Mistakes(s: State, e: Event) {
    && e.Receive? && s.session.phase != Down && !s.receiverHolds && s.link.responses != []
    && s.link.responses[0].Other? && s.link.responses[0].id in s.client.pending
  }
}
