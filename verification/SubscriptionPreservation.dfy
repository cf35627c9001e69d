/** Every event of the subscription protocol that misreads no answer keeps client and server in step. */
module SubscriptionPreservation {
  import opened Text
  import opened SubscriptionState
  import opened SubscriptionSteps
  import opened SubscriptionInvariants
  import Routes

  /** The parts of the state that tie the client to the server are the same. */
  ghost predicate SameWire(s: State, t: State) {
    && t.client.pending == s.client.pending && t.client.confirmed == s.client.confirmed
    && t.link == s.link
    && (t.session.phase == Down <==> s.session.phase == Down)
    && (t.replay.stage == s.replay.stage || (Replayed(s) && Replayed(t)))
    && Unsent(t) == Unsent(s)
  }

  lemma WireFrame(cfg: Config, s: State, t: State)
    requires SameWire(s, t) && WireSync(cfg, s)
    ensures WireSync(cfg, t)
  {
    SimulationFrame(cfg, s, t);
  }

  /** The table, the answers on their way and the confirmations are the same; less is claimed. */
  lemma SimulationFrame(cfg: Config, s: State, t: State)
    requires Simulates(cfg, s) && (Intact(t) ==> Intact(s))
    requires t.client.confirmed == s.client.confirmed && t.link.responses == s.link.responses
    requires t.link.server.table == s.link.server.table && t.link.sentRoutes >= s.link.sentRoutes
    requires forall id | id in s.link.lost && id in s.client.pending ::
               id in t.link.lost && id in t.client.pending && t.client.pending[id] == s.client.pending[id]
    ensures Simulates(cfg, t)
  {
    forall route | SoleSpelling(cfg, t, route) && NoneLost(t, route)
      ensures SoleSpelling(cfg, s, route) && NoneLost(s, route)
    {
    }
    assert forall route :: OnServer(cfg, t, route) == OnServer(cfg, s, route);
  }

  /** Nothing that the undo of a change depends on differs. */
  ghost predicate SameChange(s: State, t: State) {
    && t.client == s.client
    && (t.session.phase == Down <==> s.session.phase == Down)
    && t.replay.rest == s.replay.rest
    && (t.replay.stage == s.replay.stage || (s.replay.stage.ReplaySending? && t.replay.stage.ReplayHolding?))
    && t.change.route == s.change.route && t.change.baseline == s.change.baseline
    && t.change.cleared == s.change.cleared
    && Active(t.change) == Active(s.change) && OwnIds(t.change) == OwnIds(s.change)
    && t.change.stage.Enqueued? == s.change.stage.Enqueued?
  }

  lemma ChangeFrame(s: State, t: State)
    requires SameChange(s, t) && BaselineKept(s)
    ensures BaselineKept(t)
  {
  }

  lemma SyncSession(cfg: Config, s: State, e: Event)
    requires Structure(s) && Sync(cfg, s)
    requires e.GoLive? || e.LoseState? || e.BeginClose? || e.StopAccepting?
    ensures Sync(cfg, StepOther(cfg, s, e))
  {
    var t := StepOther(cfg, s, e);
    assert t == s.(session := t.session);
    WireFrame(cfg, s, t);
    ChangeFrame(s, t);
  }

  lemma SyncReplayAcquire(cfg: Config, s: State)
    requires Structure(s) && Sync(cfg, s)
    ensures Sync(cfg, StepReplayAcquire(s))
  {
    WireFrame(cfg, s, StepReplayAcquire(s));
    ChangeFrame(s, StepReplayAcquire(s));
  }

  lemma SyncReleases(cfg: Config, s: State, e: Event)
    requires Structure(s) && Sync(cfg, s) && (e.ReceiveRelease? || e.ReplayRelease?)
    ensures Sync(cfg, if e.ReceiveRelease? then StepReceiveRelease(s) else StepReplayRelease(s))
  {
    var t := if e.ReceiveRelease? then StepReceiveRelease(s) else StepReplayRelease(s);
    WireFrame(cfg, s, t);
    ChangeFrame(s, t);
  }

  lemma SyncChangeAcquire(cfg: Config, s: State, cancelled: bool)
    requires Structure(s) && Sync(cfg, s)
    ensures Sync(cfg, StepChangeAcquire(s, cancelled))
  {
    WireFrame(cfg, s, StepChangeAcquire(s, cancelled));
    ChangeFrame(s, StepChangeAcquire(s, cancelled));
  }

  lemma SyncChangeCheck(cfg: Config, s: State, disposed: bool)
    requires Structure(s) && Sync(cfg, s)
    ensures Sync(cfg, StepChangeCheck(s, disposed))
  {
    WireFrame(cfg, s, StepChangeCheck(s, disposed));
    ChangeFrame(s, StepChangeCheck(s, disposed));
  }

  lemma SyncConnect(cfg: Config, s: State)
    requires Structure(s) && Sync(cfg, s)
    ensures Sync(cfg, StepConnect(s))
  {
  }

  lemma SyncClear(cfg: Config, s: State, e: Event)
    requires Structure(s) && Sync(cfg, s) && (e.FinishClose? || e.Terminate?)
    ensures Sync(cfg, StepOther(cfg, s, e))
  {
    if e.FinishClose? {
      SyncFinishClose(cfg, s);
    } else {
      SyncTerminate(cfg, s);
    }
  }

  lemma SyncFinishClose(cfg: Config, s: State)
    requires Structure(s) && Sync(cfg, s)
    ensures Sync(cfg, StepFinishClose(s))
  {
  }

  lemma SyncTerminate(cfg: Config, s: State)
    requires Structure(s) && Sync(cfg, s)
    ensures Sync(cfg, StepTerminate(s))
  {
  }

  lemma SyncChangeEnter(cfg: Config, s: State, route: string, subscribe: bool)
    requires Structure(s) && Sync(cfg, s)
    ensures Sync(cfg, StepChangeEnter(s, route, subscribe))
  {
    WireFrame(cfg, s, StepChangeEnter(s, route, subscribe));
  }

  lemma SyncChangeApply(cfg: Config, s: State)
    requires Structure(s) && Sync(cfg, s)
    ensures Sync(cfg, StepChangeApply(cfg, s))
  {
    WireFrame(cfg, s, StepChangeApply(cfg, s));
    ApplyBaseline(cfg, s);
  }

  lemma ApplyBaseline(cfg: Config, s: State)
    requires Structure(s) && BaselineKept(s)
    ensures BaselineKept(StepChangeApply(cfg, s))
  {
  }

  lemma SyncChangeReassert(cfg: Config, s: State)
    requires Structure(s) && Sync(cfg, s)
    ensures Sync(cfg, StepChangeReassert(s))
  {
    WireFrame(cfg, s, StepChangeReassert(s));
  }

  // ---- Registering, queueing and withdrawing a mutation ---------------------------------------

  lemma SyncChangeRegister(cfg: Config, s: State, id: string, prepared: bool)
    requires Structure(s) && Sync(cfg, s)
    ensures Sync(cfg, StepChangeRegister(s, id, prepared))
  {
    var t := StepChangeRegister(s, id, prepared);
    if t.change.stage == Registered && s.change.stage == Reasserted {
      RegisterWire(cfg, s, t, id, s.change.route, s.change.subscribe);
      RegisterChange(s, t, id);
    } else {
      WireFrame(cfg, s, t);
      ChangeFrame(s, t);
    }
  }

  /** A registered mutation is not sent yet, so nothing between client and server moves. */
  lemma RegisterWire(cfg: Config, s: State, t: State, id: string, route: string, subscribe: bool)
    requires WireSync(cfg, s) && id !in s.client.pending
    requires t.client == s.client.(
               pending := s.client.pending[id := Mutation(route, subscribe, s.client.nextSequence + 1)],
               nextSequence := s.client.nextSequence + 1)
    requires t.link == s.link && (t.session.phase == Down <==> s.session.phase == Down)
    requires t.replay.stage == s.replay.stage || (Replayed(s) && Replayed(t))
    requires Unsent(t) == Unsent(s) + {id}
    ensures WireSync(cfg, t)
  {
    if Drained(t) {
      TrackedMore(Flight(s), s.client.pending, t.client.pending);
    }
    SimulationFrame(cfg, s, t);
  }

  lemma RegisterChange(s: State, t: State, id: string)
    requires Structure(s) && BaselineKept(s) && id !in s.client.pending && s.change.stage == Reasserted
    requires t.client == s.client.(
               pending := s.client.pending[
                 id := Mutation(s.change.route, s.change.subscribe, s.client.nextSequence + 1)],
               nextSequence := s.client.nextSequence + 1)
    requires t.change == s.change.(stage := Registered, id := id, holdsSlot := false)
    requires t.replay == s.replay && t.session == s.session
    ensures BaselineKept(t)
  {
    assert t.client.pending - OwnIds(t.change) == s.client.pending == s.client.pending - OwnIds(s.change);
  }

  lemma SyncChangeEnqueue(cfg: Config, s: State)
    requires Structure(s) && OwnMatches(s) && Sync(cfg, s)
    ensures Sync(cfg, StepChangeEnqueue(s))
  {
    EnqueueWire(cfg, s);
    if s.change.stage == Registered && !s.session.accepting {
      ChangeFrame(s, StepChangeEnqueue(s));
    }
  }

  lemma EnqueueWire(cfg: Config, s: State)
    requires Structure(s) && WireSync(cfg, s) && OwnMatches(s)
    ensures WireSync(cfg, StepChangeEnqueue(s))
  {
    var t := StepChangeEnqueue(s);
    if s.change.stage == Registered && s.session.accepting {
      if Drained(s) {
        Append(Flight(s), Command(s.change.id, s.change.route, s.change.subscribe), s.client.pending);
        assert Flight(t) == Flight(s) + [Command(s.change.id, s.change.route, s.change.subscribe)];
      }
      SimulationFrame(cfg, s, t);
    } else {
      WireFrame(cfg, s, t);
    }
  }

  lemma SyncChangeRemove(cfg: Config, s: State)
    requires Structure(s) && OwnMatches(s) && Sync(cfg, s)
    ensures Sync(cfg, StepChangeRemove(s))
  {
    var t := StepChangeRemove(s);
    if s.change.stage == Refused {
      RemovedWire(cfg, s, t);
      RemovedChange(s, t);
    }
  }

  lemma RemovedWire(cfg: Config, s: State, t: State)
    requires Structure(s) && OwnMatches(s) && Sync(cfg, s) && s.change.stage == Refused && t == StepChangeRemove(s)
    ensures WireSync(cfg, t)
  {
    if Drained(s) {
      forall i | 0 <= i < |Flight(s)| ensures Flight(s)[i].id != s.change.id {
        assert Flight(s)[i].id in Ids(Flight(s));
      }
      assert Tracked(Flight(t), t.client.pending);
      SimulationFrame(cfg, s, t);
    } else if Intact(s) {
      SimulationFrame(cfg, s, t);
    }
  }

  lemma RemovedChange(s: State, t: State)
    requires Structure(s) && BaselineKept(s) && s.change.stage == Refused && t == StepChangeRemove(s)
    ensures BaselineKept(t)
  {
    assert t.client.pending - OwnIds(t.change) == s.client.pending - OwnIds(s.change);
  }

  // ---- The end of a change --------------------------------------------------------------------

  lemma SyncChangeRollback(cfg: Config, s: State)
    requires Structure(s) && Sync(cfg, s)
    ensures Sync(cfg, StepChangeRollback(s))
  {
    WireFrame(cfg, s, StepChangeRollback(s));
  }

  lemma SyncChangeClear(cfg: Config, s: State)
    requires Structure(s) && Sync(cfg, s)
    ensures Sync(cfg, StepChangeClear(s))
  {
    WireFrame(cfg, s, StepChangeClear(s));
  }

  lemma SyncChangeExit(cfg: Config, s: State)
    requires Structure(s) && Sync(cfg, s)
    ensures Sync(cfg, StepChangeExit(s))
  {
    WireFrame(cfg, s, StepChangeExit(s));
    ChangeFrame(s, StepChangeExit(s));
  }

  lemma SyncChangeRelease(cfg: Config, s: State)
    requires Structure(s) && Sync(cfg, s)
    ensures Sync(cfg, StepChangeRelease(s))
  {
    WireFrame(cfg, s, StepChangeRelease(s));
    ChangeFrame(s, StepChangeRelease(s));
  }

  // ---- Replay ---------------------------------------------------------------------------------

  lemma SyncReplayEnter(cfg: Config, s: State)
    requires Structure(s) && Sync(cfg, s)
    ensures Sync(cfg, StepReplayEnter(s))
  {
    var t := StepReplayEnter(s);
    if t.replay.stage.ReplayDrained? && s.replay.stage.ReplayNotStarted? {
      assert Flight(t) == [];
      SimulationFrame(cfg, s, t);
    }
  }

  lemma SyncReplaySnapshot(cfg: Config, s: State, order: seq<string>)
    requires Structure(s) && Sync(cfg, s)
    ensures Sync(cfg, StepReplaySnapshot(s, order))
  {
    var t := StepReplaySnapshot(s, order);
    if t.replay.stage.ReplaySending? && s.replay.stage.ReplayDrained? {
      SimulationFrame(cfg, s, t);
    }
  }

  lemma SyncReplayRegister(cfg: Config, s: State, id: string)
    requires Structure(s) && Sync(cfg, s)
    ensures Sync(cfg, StepReplayRegister(s, id))
  {
    var t := StepReplayRegister(s, id);
    if s.replay.stage.ReplayHolding? && t.replay.stage.ReplayRegistered? {
      RegisterWire(cfg, s, t, id, s.replay.rest[0], true);
    }
  }

  lemma SyncReplaySend(cfg: Config, s: State, delivered: bool, failed: bool)
    requires Structure(s) && OwnMatches(s) && Sync(cfg, s)
    ensures Sync(cfg, StepReplaySend(s, delivered, failed))
  {
    ReplaySendWire(cfg, s, delivered, failed);
  }

  lemma ReplaySendWire(cfg: Config, s: State, delivered: bool, failed: bool)
    requires Structure(s) && WireSync(cfg, s) && OwnMatches(s)
    ensures WireSync(cfg, StepReplaySend(s, delivered, failed))
  {
    var t := StepReplaySend(s, delivered, failed);
    if s.replay.stage.ReplayRegistered? && s.replay.rest != [] && !failed {
      var m := Command(s.replay.id, s.replay.rest[0], true);
      Append(Flight(s), m, s.client.pending);
      assert Flight(t) == Flight(s) + [m];
      SimulationFrame(cfg, s, t);
    }
  }

  lemma SyncReplayAbort(cfg: Config, s: State)
    requires Structure(s) && Sync(cfg, s)
    ensures Sync(cfg, StepReplayAbort(s))
  {
  }

  lemma SyncReplayRemove(cfg: Config, s: State)
    requires Structure(s) && Sync(cfg, s)
    ensures Sync(cfg, StepReplayRemove(s))
  {
  }

  lemma SyncReplayExit(cfg: Config, s: State)
    requires Structure(s) && Sync(cfg, s)
    ensures Sync(cfg, StepReplayExit(s))
  {
    if s.replay.stage.ReplaySending? {
      WireFrame(cfg, s, StepReplayExit(s));
    }
  }

  // ---- Traffic --------------------------------------------------------------------------------

  lemma SyncSendHead(cfg: Config, s: State, delivered: bool, failed: bool)
    requires Structure(s) && Sync(cfg, s)
    ensures Sync(cfg, StepSendHead(s, delivered, failed))
  {
    ChangeFrame(s, StepSendHead(s, delivered, failed));
    SendHeadWire(cfg, s, delivered, failed);
  }

  lemma SendHeadWire(cfg: Config, s: State, delivered: bool, failed: bool)
    requires Structure(s) && WireSync(cfg, s)
    ensures WireSync(cfg, StepSendHead(s, delivered, failed))
  {
    var t := StepSendHead(s, delivered, failed);
    if t.link.outbound != s.link.outbound {
      SentFlight(s, t, delivered || !failed);
      SimulationFrame(cfg, s, t);
    } else {
      WireFrame(cfg, s, t);
    }
  }

  /** The head of the queue goes on the wire, or is lost. */
  lemma SentFlight(s: State, t: State, sent: bool)
    requires Accounted(s) && Drained(s) && s.link.outbound != []
    requires t.client == s.client && t.replay == s.replay && t.change == s.change && t.session.phase != Down
    requires t.link.outbound == s.link.outbound[1..] && t.link.responses == s.link.responses
    requires t.link.stale == s.link.stale
    requires sent ==> t.link.wire == s.link.wire + [s.link.outbound[0]] && t.link.lost == s.link.lost
    requires !sent ==> t.link.wire == s.link.wire && t.link.lost == s.link.lost + {s.link.outbound[0].id}
    ensures Accounted(t)
  {
    var f, k := Flight(s), |Answered(s.link.responses)| + |s.link.wire|;
    assert f[k] == s.link.outbound[0];
    if sent {
      assert Flight(t) == f;
    } else {
      assert Flight(t) == f[..k] + f[k + 1..];
      RemoveAt(f, k, s.client.pending);
      assert f[k].id in Ids(f);
    }
  }

  /** One dispatched command changes the table exactly as its answer says, and for its own route only. */
  lemma DispatchEffect(cfg: Config, s: State, identity: Routes.Identity, m: Command, route: string)
    requires SoleSpelling(cfg, s, route) && m.route in s.link.sentRoutes
    ensures var verdict := Dispatch(cfg, s.link.server, identity, m);
            InTable(cfg, verdict.table, route) ==
            if verdict.ack && m.route == route then m.subscribe else InTable(cfg, s.link.server.table, route)
  {
    if m.route != route {
      assert !SameKey(cfg, m.route, route);
    }
  }

  lemma SyncServerHandle(cfg: Config, s: State, identity: Routes.Identity, dropped: bool)
    requires Structure(s) && Sync(cfg, s)
    ensures Sync(cfg, StepServerHandle(cfg, s, identity, dropped))
  {
    var t := StepServerHandle(cfg, s, identity, dropped);
    if s.link.wire != [] {
      if Drained(s) {
        HandledFlight(cfg, s, t, dropped);
        HandledTable(cfg, s, identity, dropped);
      }
      ChangeFrame(s, t);
    }
  }

  lemma HandledFlight(cfg: Config, s: State, t: State, dropped: bool)
    requires Accounted(s) && Drained(s) && s.link.wire != []
    requires t.client == s.client && t.session == s.session && t.replay == s.replay && t.change == s.change
    requires t.link.wire == s.link.wire[1..] && t.link.outbound == s.link.outbound && t.link.stale == s.link.stale
    requires dropped ==> t.link.responses == s.link.responses && t.link.lost == s.link.lost + {s.link.wire[0].id}
    requires !dropped ==>
               && t.link.lost == s.link.lost && t.link.responses != []
               && t.link.responses[|t.link.responses| - 1].Answer?
                          && t.link.responses[|t.link.responses| - 1].command == s.link.wire[0]
                          && t.link.responses[..|t.link.responses| - 1] == s.link.responses
    ensures Accounted(t)
  {
    var k := |Answered(s.link.responses)|;
    var f := Flight(s);
    assert f[k] == s.link.wire[0];
    if dropped {
      assert Flight(t) == f[..k] + f[k + 1..];
      RemoveAt(f, k, s.client.pending);
      assert f[k].id in Ids(f);
    } else {
      assert Flight(t) == f;
    }
  }

  lemma HandledTable(cfg: Config, s: State, identity: Routes.Identity, dropped: bool)
    requires Structure(s) && Accounted(s) && Simulates(cfg, s) && Recorded(s) && Drained(s) && s.link.wire != []
    ensures Simulates(cfg, StepServerHandle(cfg, s, identity, dropped))
  {
    var t := StepServerHandle(cfg, s, identity, dropped);
    var m := s.link.wire[0];
    var k := |Answered(s.link.responses)|;
    assert Flight(s)[k] == m;
    forall route | SoleSpelling(cfg, t, route) && NoneLost(t, route)
      ensures Expect(t.link.responses, route, route in t.client.confirmed) == OnServer(cfg, t, route)
    {
      assert SoleSpelling(cfg, s, route) && NoneLost(s, route);
      DispatchEffect(cfg, s, identity, m, route);
      if dropped {
        assert m.id in t.link.lost && m.id in t.client.pending;
      } else {
        assert t.link.responses[..|t.link.responses| - 1] == s.link.responses;
      }
    }
  }

  /** An answer to another message changes nothing about the answers to commands. */
  lemma OtherUnseen(responses: seq<Response>, r: Response)
    requires r.Other?
    ensures Answered(responses + [r]) == Answered(responses)
    ensures forall route, now :: Expect(responses + [r], route, now) == Expect(responses, route, now)
  {
    assert (responses + [r])[..|responses|] == responses;
  }

  lemma OtherTable(cfg: Config, s: State, t: State, r: Response)
    requires Simulates(cfg, s) && r.Other? && t.client == s.client && (Intact(t) ==> Intact(s))
    requires t.link.responses == s.link.responses + [r] && t.link.server.table == s.link.server.table
    requires t.link.sentRoutes == s.link.sentRoutes && t.link.lost == s.link.lost
    ensures Simulates(cfg, t)
  {
    OtherUnseen(s.link.responses, r);
    forall route | SoleSpelling(cfg, t, route) && NoneLost(t, route)
      ensures SoleSpelling(cfg, s, route) && NoneLost(s, route) && OnServer(cfg, t, route) == OnServer(cfg, s, route)
    {
    }
  }

  lemma SyncServerHandleOther(cfg: Config, s: State, id: string, ack: bool, dropped: bool)
    requires Structure(s) && Sync(cfg, s)
    ensures Sync(cfg, StepServerHandleOther(cfg, s, id, ack, dropped))
  {
    var t := StepServerHandleOther(cfg, s, id, ack, dropped);
    ChangeFrame(s, t);
    if s.session.phase != Down && !dropped {
      OtherUnseen(s.link.responses, Other(id, ack));
      assert Flight(t) == Flight(s);
      OtherTable(cfg, s, t, Other(id, ack));
    } else {
      assert Flight(t) == Flight(s);
      SimulationFrame(cfg, s, t);
    }
  }

  // ---- Answers --------------------------------------------------------------------------------

  lemma SyncReceive(cfg: Config, s: State)
    requires Structure(s) && Sync(cfg, s) && !Mistakes(s, Receive)
    ensures Sync(cfg, StepReceive(s))
  {
    if s.session.phase != Down && !s.receiverHolds && s.link.responses != [] {
      if s.link.responses[0].Other? {
        ReceiveOther(cfg, s, StepReceive(s));
        ChangeFrame(s, StepReceive(s));
      } else {
        ReceiveAnswer(cfg, s);
      }
    }
  }

  lemma ReceiveAnswer(cfg: Config, s: State)
    requires Structure(s) && Sync(cfg, s) && s.session.phase != Down && !s.receiverHolds
    requires s.link.responses != [] && s.link.responses[0].Answer?
    ensures Sync(cfg, StepReceive(s))
  {
    if Drained(s) {
      ReceiveTaken(cfg, s);
    } else {
      AnsweredTail(s.link.responses);
    }
  }

  lemma ReceiveTaken(cfg: Config, s: State)
    requires Structure(s) && Sync(cfg, s) && s.session.phase != Down && !s.receiverHolds && Drained(s)
    requires s.link.responses != [] && s.link.responses[0].Answer?
    ensures Sync(cfg, StepReceive(s))
  {
    var t, c := StepReceive(s), s.link.responses[0].command;
    AnswerIsTaken(s, t, c);
    ReceiveFlight(s, t, c);
    ReceiveTable(cfg, s, t, c);
    ReceiveChange(s, t, c);
  }

  lemma AnswerIsTaken(s: State, t: State, c: Command)
    requires Structure(s) && Accounted(s) && s.session.phase != Down && !s.receiverHolds && Drained(s)
    requires s.link.responses != [] && s.link.responses[0].Answer? && s.link.responses[0].command == c
    requires t == StepReceive(s)
    ensures Taken(s, t, c) && Unsent(t) == Unsent(s)
  {
    AnsweredTail(s.link.responses);
    assert Flight(s)[0] == c;
  }

  /** What taking the answer to `c` does to the client. */
  ghost predicate Taken(s: State, t: State, c: Command) {
    && t.session == s.session && t.replay == s.replay
    && s.link.responses != [] && s.link.responses[0].Answer? && s.link.responses[0].command == c
    && t.link == s.link.(responses := s.link.responses[1..])
    && c.id in s.client.pending && s.client.pending[c.id].route == c.route
    && t.client.pending == s.client.pending - {c.id}
    && t.client.confirmed ==
       (if s.link.responses[0].ack then Put(s.client.confirmed, c.route, s.client.pending[c.id].subscribe)
        else s.client.confirmed)
    && t.client.desired == Put(s.client.desired, c.route, Target(t.client.pending, t.client.confirmed, c.route))
    && t.client.rollback ==
       (if s.client.rollback.Some? && s.client.rollback.value.route == c.route
        then Some(s.client.rollback.value.(observed := true)) else s.client.rollback)
    && t.change ==
       (if Active(s.change) && s.change.route == c.route
        then s.change.(baseline := Target(t.client.pending - OwnIds(s.change), t.client.confirmed, c.route))
        else s.change)
  }

  lemma ReceiveOther(cfg: Config, s: State, t: State)
    requires Structure(s) && WireSync(cfg, s) && !Mistakes(s, Receive) && t == StepReceive(s)
    requires s.session.phase != Down && !s.receiverHolds && s.link.responses != [] && s.link.responses[0].Other?
    ensures WireSync(cfg, t) && t.client == s.client && t.change == s.change
  {
    AnsweredTail(s.link.responses);
    assert Flight(t) == Flight(s);
    forall route | SoleSpelling(cfg, t, route) && NoneLost(t, route) && Intact(t)
      ensures Expect(t.link.responses, route, route in t.client.confirmed) == OnServer(cfg, t, route)
    {
      assert SoleSpelling(cfg, s, route) && NoneLost(s, route);
      ExpectTail(s.link.responses, route, route in s.client.confirmed);
    }
  }

  lemma ReceiveFlight(s: State, t: State, c: Command)
    requires Accounted(s) && Drained(s) && Unsent(t) == Unsent(s)
    requires s.link.responses != [] && s.link.responses[0].Answer? && s.link.responses[0].command == c
    requires t.link == s.link.(responses := s.link.responses[1..]) && t.client.pending == s.client.pending - {c.id}
    ensures Accounted(t)
  {
    AnsweredTail(s.link.responses);
    var f := Flight(s);
    assert f[0] == c && Flight(t) == f[1..];
    AnsweredHead(f, s.client.pending, s.link.lost, s.link.stale, Unsent(s));
  }

  lemma AnsweredHead(
    f: seq<Command>, pending: map<string, Mutation>, lost: set<string>, stale: set<string>, unsent: set<string>)
    requires f != [] && Tracked(f, pending) && Unique(f)
    requires pending.Keys == Ids(f) + lost + stale + unsent && Ids(f) !! lost !! stale !! unsent
    ensures Tracked(f[1..], pending - {f[0].id}) && Unique(f[1..])
    ensures (pending - {f[0].id}).Keys == Ids(f[1..]) + lost + stale + unsent && Ids(f[1..]) !! lost !! stale !! unsent
  {
    assert f[0].id in Ids(f);
    RemoveHead(f, pending);
    Partition(pending.Keys, Ids(f), lost, stale, unsent, f[0].id);
  }

  lemma RemoveHead(f: seq<Command>, pending: map<string, Mutation>)
    requires f != [] && Unique(f) && Tracked(f, pending)
    ensures Unique(f[1..]) && Tracked(f[1..], pending - {f[0].id}) && Ids(f[1..]) == Ids(f) - {f[0].id}
  {
    assert f[1..] == f[..0] + f[1..];
    RemoveAt(f, 0, pending);
  }

  lemma Partition(
    all: set<string>, flight: set<string>, lost: set<string>, stale: set<string>, unsent: set<string>, id: string)
    requires all == flight + lost + stale + unsent && flight !! lost !! stale !! unsent && id in flight
    ensures all - {id} == (flight - {id}) + lost + stale + unsent && flight - {id} !! lost !! stale !! unsent
  {
  }

  lemma ReceiveTable(cfg: Config, s: State, t: State, c: Command)
    requires Accounted(s) && Drained(s) && Simulates(cfg, s) && Taken(s, t, c)
    ensures Simulates(cfg, t)
  {
    AnsweredTail(s.link.responses);
    assert Flight(s)[0] == c && c.id in Ids(Flight(s));
    forall route | SoleSpelling(cfg, t, route) && NoneLost(t, route)
      ensures Expect(t.link.responses, route, route in t.client.confirmed) == OnServer(cfg, t, route)
    {
      assert SoleSpelling(cfg, s, route);
      assert NoneLost(s, route) by {
        assert forall id | id in s.link.lost && id in s.client.pending :: id != c.id;
      }
      ExpectTail(s.link.responses, route, route in s.client.confirmed);
      assert Expect([s.link.responses[0]], route, route in s.client.confirmed) == (route in t.client.confirmed);
    }
  }

  lemma ReceiveChange(s: State, t: State, c: Command)
    requires Structure(s) && Accounted(s) && Drained(s) && BaselineKept(s) && Taken(s, t, c)
    ensures BaselineKept(t)
  {
    AnsweredTail(s.link.responses);
    assert Flight(s)[0] == c && c.id in Ids(Flight(s));
    if s.change.route != c.route {
      TargetFrame(s.client.pending - OwnIds(s.change), t.client.pending - OwnIds(s.change),
                  s.client.confirmed, t.client.confirmed, s.change.route);
    }
  }
}
