/**
 Every event of the subscription protocol, also one that misreads an answer, keeps the client's own
 bookkeeping coherent. Nothing here looks at what is between client and server.
 */
module SubscriptionCoherence {
  import opened Text
  import opened SubscriptionState
  import opened SubscriptionSteps
  import opened SubscriptionInvariants
  import Routes

  /** The client and everything its coherence depends on are the same. */
  ghost predicate SameOwn(s: State, t: State) {
    && t.client == s.client && Replayed(t) == Replayed(s) && Early(t) == Early(s)
    && t.change.route == s.change.route && t.change.id == s.change.id && t.change.subscribe == s.change.subscribe
    && Active(t.change) == Active(s.change) && t.change.stage.Enqueued? == s.change.stage.Enqueued?
    && t.change.stage.Registered? == s.change.stage.Registered? && t.change.stage.Refused? == s.change.stage.Refused?
    && t.replay.rest == s.replay.rest && t.replay.id == s.replay.id
    && t.replay.stage.ReplaySucceeded? == s.replay.stage.ReplaySucceeded?
    && t.replay.stage.ReplayRegistered? == s.replay.stage.ReplayRegistered?
  }

  lemma CoherentFrame(s: State, t: State)
    requires SameOwn(s, t) && Coherent(s)
    ensures Coherent(t)
  {
    assert OwnIds(t.change) == OwnIds(s.change);
    assert forall route :: Fits(t, route) == Fits(s, route);
  }

  // ---- Steps that only move a thread along or touch what is between client and server ------------

  lemma CoherentChangeAcquire(s: State, cancelled: bool)
    requires Coherent(s)
    ensures Coherent(StepChangeAcquire(s, cancelled))
  {
    CoherentFrame(s, StepChangeAcquire(s, cancelled));
  }

  lemma CoherentChangeCheck(s: State, disposed: bool)
    requires Coherent(s)
    ensures Coherent(StepChangeCheck(s, disposed))
  {
    CoherentFrame(s, StepChangeCheck(s, disposed));
  }

  lemma CoherentChangeExit(s: State)
    requires Coherent(s)
    ensures Coherent(StepChangeExit(s))
  {
    CoherentFrame(s, StepChangeExit(s));
  }

  lemma CoherentChangeRelease(s: State)
    requires Coherent(s)
    ensures Coherent(StepChangeRelease(s))
  {
    CoherentFrame(s, StepChangeRelease(s));
  }

  lemma CoherentReplayRelease(s: State)
    requires Coherent(s)
    ensures Coherent(StepReplayRelease(s))
  {
    CoherentFrame(s, StepReplayRelease(s));
  }

  lemma CoherentReceiveRelease(s: State)
    requires Coherent(s)
    ensures Coherent(StepReceiveRelease(s))
  {
    CoherentFrame(s, StepReceiveRelease(s));
  }

  lemma CoherentReplayAcquire(s: State)
    requires Coherent(s)
    ensures Coherent(StepReplayAcquire(s))
  {
    CoherentFrame(s, StepReplayAcquire(s));
  }

  lemma CoherentSession(cfg: Config, s: State, e: Event)
    requires Coherent(s) && (e.GoLive? || e.LoseState? || e.BeginClose? || e.StopAccepting?)
    ensures Coherent(StepOther(cfg, s, e))
  {
    CoherentFrame(s, StepOther(cfg, s, e));
  }

  lemma CoherentSendHead(s: State, delivered: bool, failed: bool)
    requires Coherent(s)
    ensures Coherent(StepSendHead(s, delivered, failed))
  {
    CoherentFrame(s, StepSendHead(s, delivered, failed));
  }

  lemma CoherentServer(cfg: Config, s: State, e: Event)
    requires Coherent(s) && (e.ServerHandle? || e.ServerHandleOther?)
    ensures Coherent(StepOther(cfg, s, e))
  {
    var link := StepOther(cfg, s, e).link;
    CoherentFrame(s, s.(link := link));
  }

  // ---- The connection -------------------------------------------------------------------------

  lemma CoherentConnect(s: State)
    requires Structure(s) && Coherent(s)
    ensures Coherent(StepConnect(s))
  {
  }

  lemma CoherentFinishClose(s: State)
    requires Structure(s) && Coherent(s)
    ensures Coherent(StepFinishClose(s))
  {
  }

  lemma CoherentTerminate(s: State)
    requires Structure(s) && Coherent(s)
    ensures Coherent(StepTerminate(s))
  {
  }

  // ---- Changes --------------------------------------------------------------------------------

  lemma CoherentChangeEnter(s: State, route: string, subscribe: bool)
    requires Structure(s) && Coherent(s)
    ensures Coherent(StepChangeEnter(s, route, subscribe))
  {
    var t := StepChangeEnter(s, route, subscribe);
    assert forall r :: Fits(t, r) == Fits(s, r);
  }

  /** The change flips its route and remembers what it was. */
  lemma CoherentBegun(s: State, t: State)
    requires Structure(s) && Coherent(s) && s.change.stage == Entered && t.change.stage == Waiting
    requires t.session == s.session && t.replay == s.replay && t.change.route == s.change.route
    requires t.client.pending == s.client.pending && t.client.confirmed == s.client.confirmed
    requires t.client.rollback == Some(Rollback(s.change.route, s.change.route in s.client.desired, false))
    requires forall r | r != s.change.route :: r in t.client.desired <==> r in s.client.desired
    ensures Coherent(t)
  {
    var route := s.change.route;
    assert forall r | r != route :: Fits(t, r) == Fits(s, r);
    if HasPending(s.client.pending, route) {
      var id :| id in s.client.pending && s.client.pending[id].route == route;
      assert id !in OwnIds(t.change);
    } else {
      assert Fits(s, route);
    }
  }

  lemma CoherentChangeApply(cfg: Config, s: State)
    requires Structure(s) && Coherent(s)
    ensures Coherent(StepChangeApply(cfg, s))
  {
    var t := StepChangeApply(cfg, s);
    if s.change.stage == Entered && t.change.stage == Waiting {
      CoherentBegun(s, t);
    } else {
      CoherentFrame(s, t);
    }
  }

  lemma CoherentChangeReassert(s: State)
    requires Structure(s) && Coherent(s)
    ensures Coherent(StepChangeReassert(s))
  {
    var t := StepChangeReassert(s);
    assert forall r | r != s.change.route :: Fits(t, r) == Fits(s, r);
  }

  /** A new pending mutation leaves the routes of the others pending. */
  lemma PendingGrows(s: State, t: State)
    requires forall id | id in s.client.pending ::
               id in t.client.pending && t.client.pending[id] == s.client.pending[id]
    ensures forall r | HasPending(s.client.pending, r) :: HasPending(t.client.pending, r)
  {
    forall r | HasPending(s.client.pending, r)
      ensures HasPending(t.client.pending, r)
    {
      var id :| id in s.client.pending && s.client.pending[id].route == r;
      assert id in t.client.pending && t.client.pending[id].route == r;
    }
  }

  lemma CoherentChangeRegister(s: State, id: string, prepared: bool)
    requires Structure(s) && Coherent(s)
    ensures Coherent(StepChangeRegister(s, id, prepared))
  {
    var t := StepChangeRegister(s, id, prepared);
    if s.change.stage == Reasserted && t.change.stage == Registered {
      PendingGrows(s, t);
      assert forall r :: Fits(t, r) == Fits(s, r);
      assert id in t.client.pending && t.client.pending[id].route == s.change.route;
      if HasOther(s.client.pending, OwnIds(s.change), s.change.route) {
        var other :| other in s.client.pending && s.client.pending[other].route == s.change.route;
        assert other in t.client.pending && other !in OwnIds(t.change);
      }
    } else {
      CoherentFrame(s, t);
    }
  }

  lemma CoherentQueued(s: State, t: State, stage: ChangeStage)
    requires Coherent(s) && s.change.stage == Registered && (stage == Enqueued || stage == Refused)
    requires t.client == s.client && t.session == s.session && t.replay == s.replay
    requires t.change == s.change.(stage := stage)
    ensures Coherent(t)
  {
    assert forall r :: Fits(t, r) == Fits(s, r);
  }

  lemma CoherentChangeEnqueue(s: State)
    requires Coherent(s)
    ensures Coherent(StepChangeEnqueue(s))
  {
    if s.change.stage == Registered {
      CoherentQueued(s, StepChangeEnqueue(s), if s.session.accepting then Enqueued else Refused);
    }
  }

  lemma CoherentChangeRemove(s: State)
    requires Structure(s) && Coherent(s)
    ensures Coherent(StepChangeRemove(s))
  {
    var t := StepChangeRemove(s);
    if s.change.stage == Refused {
      forall r | r != s.change.route && HasPending(s.client.pending, r)
        ensures HasPending(t.client.pending, r)
      {
        var id :| id in s.client.pending && s.client.pending[id].route == r;
        assert id in t.client.pending && t.client.pending[id].route == r;
      }
      if HasOther(s.client.pending, OwnIds(s.change), s.change.route) {
        var id :| id in s.client.pending && id !in OwnIds(s.change) && s.client.pending[id].route == s.change.route;
        assert id in t.client.pending && id !in OwnIds(t.change) && t.client.pending[id].route == s.change.route;
      }
      assert forall r :: Fits(t, r) == Fits(s, r);
    }
  }

  lemma CoherentChangeRollback(s: State)
    requires Structure(s) && Coherent(s)
    ensures Coherent(StepChangeRollback(s))
  {
    var t := StepChangeRollback(s);
    if s.change.stage == Failing {
      if HasOther(s.client.pending, OwnIds(s.change), s.change.route) {
        assert HasPending(t.client.pending, s.change.route);
      }
      assert forall r | r != s.change.route :: Fits(t, r) == Fits(s, r);
    }
  }

  lemma CoherentChangeClear(s: State)
    requires Structure(s) && Coherent(s)
    ensures Coherent(StepChangeClear(s))
  {
    assert forall r :: Fits(StepChangeClear(s), r) == Fits(s, r);
  }

  // ---- Replay ---------------------------------------------------------------------------------

  lemma CoherentReplayEnter(s: State)
    requires Structure(s) && Coherent(s)
    ensures Coherent(StepReplayEnter(s))
  {
    var t := StepReplayEnter(s);
    assert s.session.phase != Closing ==> forall r :: Fits(t, r) == Fits(s, r);
  }

  lemma CoherentReplaySnapshot(s: State, order: seq<string>)
    requires Structure(s) && Coherent(s)
    ensures Coherent(StepReplaySnapshot(s, order))
  {
    var t := StepReplaySnapshot(s, order);
    if s.replay.stage.ReplayDrained? && t.replay.stage.ReplaySending? {
      forall route
        ensures HasPending(t.client.pending, route) || Fits(t, route) || route in t.replay.rest
      {
        assert route in order <==> route in (set r | r in order);
      }
    }
  }

  lemma CoherentReplayRegister(s: State, id: string)
    requires Structure(s) && Coherent(s)
    ensures Coherent(StepReplayRegister(s, id))
  {
    var t := StepReplayRegister(s, id);
    if s.replay.stage.ReplayHolding? && t.replay.stage.ReplayRegistered? {
      PendingGrows(s, t);
      assert id in t.client.pending && t.client.pending[id].route == s.replay.rest[0];
      assert forall r :: Fits(t, r) == Fits(s, r);
    }
  }

  lemma CoherentReplaySend(s: State, delivered: bool, failed: bool)
    requires Structure(s) && Coherent(s)
    ensures Coherent(StepReplaySend(s, delivered, failed))
  {
    var t := StepReplaySend(s, delivered, failed);
    if s.replay.stage.ReplayRegistered? && s.replay.rest != [] && !failed {
      assert forall r :: Fits(t, r) == Fits(s, r);
      assert forall r | r in s.replay.rest :: r == s.replay.rest[0] || r in s.replay.rest[1..];
    }
  }

  lemma CoherentReplayAbort(s: State)
    requires Structure(s) && Coherent(s)
    ensures Coherent(StepReplayAbort(s))
  {
  }

  lemma CoherentReplayRemove(s: State)
    requires Structure(s) && Coherent(s)
    ensures Coherent(StepReplayRemove(s))
  {
  }

  lemma CoherentReplayExit(s: State)
    requires Structure(s) && Coherent(s)
    ensures Coherent(StepReplayExit(s))
  {
  }

  // ---- Answers --------------------------------------------------------------------------------

  lemma CoherentReceive(s: State)
    requires Structure(s) && Coherent(s)
    ensures Coherent(StepReceive(s))
  {
    var t := StepReceive(s);
    if s.session.phase != Down && !s.receiverHolds && s.link.responses != []
       && IdOf(s.link.responses[0]) in s.client.pending {
      CoherentHandled(s, t, IdOf(s.link.responses[0]), s.link.responses[0].ack);
    } else {
      CoherentFrame(s, t);
    }
  }

  /** Whatever message the answer was for: its route is reconciled, and the others are as they were. */
  lemma CoherentHandled(s: State, t: State, id: string, ack: bool)
    requires Structure(s) && Coherent(s) && id in s.client.pending && t.client == Handle(s.client, id, ack)
    requires t.session == s.session && t.replay == s.replay
    requires t.change == s.change.(baseline := t.change.baseline)
    ensures Coherent(t)
  {
    var route := s.client.pending[id].route;
    HandledRoute(s.client, t.client, id, ack, route);
    forall r | r != route
      ensures HasPending(s.client.pending, r) ==> HasPending(t.client.pending, r)
      ensures HasOther(s.client.pending, OwnIds(s.change), r) ==> HasOther(t.client.pending, OwnIds(s.change), r)
      ensures Fits(t, r) == Fits(s, r)
    {
      if HasPending(s.client.pending, r) {
        var other :| other in s.client.pending && s.client.pending[other].route == r;
        assert other in t.client.pending && t.client.pending[other].route == r;
      }
      if HasOther(s.client.pending, OwnIds(s.change), r) {
        var other :| other in s.client.pending && other !in OwnIds(s.change) && s.client.pending[other].route == r;
        assert other in t.client.pending && t.client.pending[other].route == r;
      }
    }
  }

  lemma HandledRoute(c: Client, d: Client, id: string, ack: bool, route: string)
    requires id in c.pending && d == Handle(c, id, ack) && route == c.pending[id].route
    ensures HasPending(d.pending, route) || Agrees(d, route)
  {
  }

  // ---- Every event ----------------------------------------------------------------------------

  lemma CoherentStepChange(cfg: Config, s: State, e: Event)
    requires Structure(s) && Coherent(s) && OfChange(e)
    ensures Coherent(StepChange(cfg, s, e))
  {
    match e
    case ChangeEnter(route, subscribe) => CoherentChangeEnter(s, route, subscribe);
    case ChangeApply => CoherentChangeApply(cfg, s);
    case ChangeAcquire(cancelled) => CoherentChangeAcquire(s, cancelled);
    case ChangeCheck(disposed) => CoherentChangeCheck(s, disposed);
    case ChangeReassert => CoherentChangeReassert(s);
    case ChangeRegister(id, prepared) => CoherentChangeRegister(s, id, prepared);
    case ChangeEnqueue => CoherentChangeEnqueue(s);
    case ChangeRemove => CoherentChangeRemove(s);
    case ChangeRollback => CoherentChangeRollback(s);
    case ChangeClear => CoherentChangeClear(s);
    case ChangeExit => CoherentChangeExit(s);
    case ChangeRelease => CoherentChangeRelease(s);
  }

  lemma CoherentStepReplay(s: State, e: Event)
    requires Structure(s) && Coherent(s) && OfReplay(e)
    ensures Coherent(StepReplay(s, e))
  {
    match e
    case ReplayEnter => CoherentReplayEnter(s);
    case ReplaySnapshot(order) => CoherentReplaySnapshot(s, order);
    case ReplayAcquire => CoherentReplayAcquire(s);
    case ReplayRegister(id) => CoherentReplayRegister(s, id);
    case ReplaySend(delivered, failed) => CoherentReplaySend(s, delivered, failed);
    case ReplayAbort => CoherentReplayAbort(s);
    case ReplayRemove => CoherentReplayRemove(s);
    case ReplayRelease => CoherentReplayRelease(s);
    case ReplayExit => CoherentReplayExit(s);
  }

  lemma CoherentStepOther(cfg: Config, s: State, e: Event)
    requires Structure(s) && Coherent(s) && !OfChange(e) && !OfReplay(e)
    ensures Coherent(StepOther(cfg, s, e))
  {
    match e
    case Connect => CoherentConnect(s);
    case GoLive => CoherentSession(cfg, s, e);
    case LoseState => CoherentSession(cfg, s, e);
    case BeginClose => CoherentSession(cfg, s, e);
    case StopAccepting => CoherentSession(cfg, s, e);
    case FinishClose => CoherentFinishClose(s);
    case Terminate => CoherentTerminate(s);
    case SendHead(delivered, failed) => CoherentSendHead(s, delivered, failed);
    case ServerHandle(identity, dropped) => CoherentServer(cfg, s, e);
    case ServerHandleOther(id, ack, dropped) => CoherentServer(cfg, s, e);
    case Receive => CoherentReceive(s);
    case ReceiveRelease => CoherentReceiveRelease(s);
  }

  lemma CoherentStep(cfg: Config, s: State, e: Event)
    requires Structure(s) && Coherent(s)
    ensures Coherent(Step(cfg, s, e))
  {
    if OfChange(e) {
      CoherentStepChange(cfg, s, e);
    } else if OfReplay(e) {
      CoherentStepReplay(s, e);
    } else {
      CoherentStepOther(cfg, s, e);
    }
  }
}
