/** The theorems of the subscription protocol, over every run, and the runs that bound them. */
module SubscriptionAgreement {
  import opened Text
  import opened SubscriptionState
  import opened SubscriptionSteps
  import opened SubscriptionInvariants
  import opened SubscriptionPreservation
  import SubscriptionCoherence
  import SubscriptionSoundness
  import Routes

  lemma SyncStepChange(cfg: Config, s: State, e: Event)
    requires Structure(s) && OwnMatches(s) && Sync(cfg, s) && OfChange(e)
    ensures Sync(cfg, StepChange(cfg, s, e))
  {
    match e
    case ChangeEnter(route, subscribe) => SyncChangeEnter(cfg, s, route, subscribe);
    case ChangeApply => SyncChangeApply(cfg, s);
    case ChangeAcquire(cancelled) => SyncChangeAcquire(cfg, s, cancelled);
    case ChangeCheck(disposed) => SyncChangeCheck(cfg, s, disposed);
    case ChangeReassert => SyncChangeReassert(cfg, s);
    case ChangeRegister(id, prepared) => SyncChangeRegister(cfg, s, id, prepared);
    case ChangeEnqueue => SyncChangeEnqueue(cfg, s);
    case ChangeRemove => SyncChangeRemove(cfg, s);
    case ChangeRollback => SyncChangeRollback(cfg, s);
    case ChangeClear => SyncChangeClear(cfg, s);
    case ChangeExit => SyncChangeExit(cfg, s);
    case ChangeRelease => SyncChangeRelease(cfg, s);
  }

  lemma SyncStepReplay(cfg: Config, s: State, e: Event)
    requires Structure(s) && OwnMatches(s) && Sync(cfg, s) && OfReplay(e)
    ensures Sync(cfg, StepReplay(s, e))
  {
    match e
    case ReplayEnter => SyncReplayEnter(cfg, s);
    case ReplaySnapshot(order) => SyncReplaySnapshot(cfg, s, order);
    case ReplayAcquire => SyncReplayAcquire(cfg, s);
    case ReplayRegister(id) => SyncReplayRegister(cfg, s, id);
    case ReplaySend(delivered, failed) => SyncReplaySend(cfg, s, delivered, failed);
    case ReplayAbort => SyncReplayAbort(cfg, s);
    case ReplayRemove => SyncReplayRemove(cfg, s);
    case ReplayRelease => SyncReleases(cfg, s, e);
    case ReplayExit => SyncReplayExit(cfg, s);
  }

  lemma SyncStepOther(cfg: Config, s: State, e: Event)
    requires Structure(s) && Sync(cfg, s) && !Mistakes(s, e) && !OfChange(e) && !OfReplay(e)
    ensures Sync(cfg, StepOther(cfg, s, e))
  {
    match e
    case Connect => SyncConnect(cfg, s);
    case GoLive => SyncSession(cfg, s, e);
    case LoseState => SyncSession(cfg, s, e);
    case BeginClose => SyncSession(cfg, s, e);
    case StopAccepting => SyncSession(cfg, s, e);
    case FinishClose => SyncClear(cfg, s, e);
    case Terminate => SyncClear(cfg, s, e);
    case SendHead(delivered, failed) => SyncSendHead(cfg, s, delivered, failed);
    case ServerHandle(identity, dropped) => SyncServerHandle(cfg, s, identity, dropped);
    case ServerHandleOther(id, ack, dropped) => SyncServerHandleOther(cfg, s, id, ack, dropped);
    case Receive => SyncReceive(cfg, s);
    case ReceiveRelease => SyncReleases(cfg, s, e);
  }

  lemma SyncStep(cfg: Config, s: State, e: Event)
    requires Structure(s) && OwnMatches(s) && Sync(cfg, s) && !Mistakes(s, e)
    ensures Sync(cfg, Step(cfg, s, e))
  {
    if OfChange(e) {
      SyncStepChange(cfg, s, e);
    } else if OfReplay(e) {
      SyncStepReplay(cfg, s, e);
    } else {
      SyncStepOther(cfg, s, e);
    }
  }

  lemma MistakeStepChange(cfg: Config, s: State, e: Event)
    ensures StepChange(cfg, s, e).mistaken == s.mistaken
  {
  }

  lemma MistakeStepReplay(s: State, e: Event)
    ensures StepReplay(s, e).mistaken == s.mistaken
  {
  }

  lemma MistakeStepOther(cfg: Config, s: State, e: Event)
    ensures StepOther(cfg, s, e).mistaken <==> s.mistaken || Mistakes(s, e)
  {
  }

  /** The history flag is set by the events it stands for, and stays set. */
  lemma MistakeStep(cfg: Config, s: State, e: Event)
    ensures Step(cfg, s, e).mistaken <==> s.mistaken || Mistakes(s, e)
  {
    if OfChange(e) {
      MistakeStepChange(cfg, s, e);
    } else if OfReplay(e) {
      MistakeStepReplay(s, e);
    } else {
      MistakeStepOther(cfg, s, e);
    }
  }

  lemma {:induction false} Invariant(cfg: Config, events: seq<Event>)
    ensures Inv(cfg, Run(cfg, events))
  {
    if events == [] {
    } else {
      var s, e := Run(cfg, events[..|events| - 1]), events[|events| - 1];
      Invariant(cfg, events[..|events| - 1]);
      SubscriptionSoundness.SoundStep(cfg, s, e);
      SubscriptionCoherence.CoherentStep(cfg, s, e);
      MistakeStep(cfg, s, e);
      if !Step(cfg, s, e).mistaken {
        SyncStep(cfg, s, e);
      }
    }
  }

  // ---- Theorems -------------------------------------------------------------------------------

  /**
   In every run no response slot is leaked or released twice: the free slots, the pending mutations,
   the callers yet to return their slot and the slots in a thread's hands add up to the capacity, so a
   release never exceeds it.
   */
  lemma ResponseSlotsConserved(cfg: Config, events: seq<Event>)
    ensures var s := Run(cfg, events);
            s.freeSlots + s.releasing + |s.client.pending| + Count(s.change.holdsSlot)
            + Count(s.replay.holdsSlot) + Count(s.receiverHolds) == cfg.capacity
  {
    Invariant(cfg, events);
  }

  lemma {:induction false} AnswersAreAnswered(responses: seq<Response>, i: nat)
    requires i < |responses| && responses[i].Answer?
    ensures responses[i].command in Answered(responses)
  {
    if i < |responses| - 1 {
      AnswersAreAnswered(responses[..|responses| - 1], i);
    }
  }

  lemma {:induction false} ExpectUntouched(responses: seq<Response>, route: string, now: bool)
    requires forall i | 0 <= i < |responses| && responses[i].Answer? :: responses[i].command.route != route
    ensures Expect(responses, route, now) == now
  {
    if responses != [] {
      ExpectUntouched(responses[..|responses| - 1], route, now);
    }
  }

  /** Event `n` of the run takes another message's answer for a command's. */
  ghost predicate MistakesAt(cfg: Config, events: seq<Event>, n: nat)
    requires n < |events|
  {
    Mistakes(Run(cfg, events[..n]), events[n])
  }

  lemma PrefixMistakes(cfg: Config, events: seq<Event>, m: nat, n: nat)
    requires n < m <= |events|
    ensures MistakesAt(cfg, events[..m], n) == MistakesAt(cfg, events, n)
  {
    assert events[..m][..n] == events[..n];
  }

  /** What `mistaken` means: some event of the run was such a mistake. */
  lemma {:induction false} MistakenRuns(cfg: Config, events: seq<Event>)
    ensures Run(cfg, events).mistaken <==> exists n | 0 <= n < |events| :: MistakesAt(cfg, events, n)
  {
    if events == [] {
    } else {
      var last := |events| - 1;
      MistakenRuns(cfg, events[..last]);
      MistakeStep(cfg, Run(cfg, events[..last]), events[last]);
      forall n | 0 <= n < last ensures MistakesAt(cfg, events[..last], n) == MistakesAt(cfg, events, n) {
        PrefixMistakes(cfg, events, last, n);
      }
      assert Run(cfg, events).mistaken == (Run(cfg, events[..last]).mistaken || MistakesAt(cfg, events, last));
    }
  }

  /**
   Client and server agree. On a live connection, a route with no pending mutation and no change in
   progress is wanted iff it is confirmed, for every interleaving, every dropped or misread answer,
   every failed change and every earlier reconnect. It is confirmed iff the server holds it, unless an
   answer was misread or the connection has seen another spelling of the route.
   */
  lemma Agreement(cfg: Config, events: seq<Event>, route: string)
    requires var s := Run(cfg, events); s.session.phase == Live && AtRest(s, route)
    ensures var s := Run(cfg, events); route in s.client.desired <==> route in s.client.confirmed
    ensures var s := Run(cfg, events);
            !s.mistaken && SoleSpelling(cfg, s, route) ==>
              (route in s.client.confirmed <==> OnServer(cfg, s, route))
  {
    Invariant(cfg, events);
    SettledAgrees(Run(cfg, events), route);
    if !Run(cfg, events).mistaken && SoleSpelling(cfg, Run(cfg, events), route) {
      SimulatedAgrees(cfg, Run(cfg, events), route);
    }
  }

  lemma SettledAgrees(s: State, route: string)
    requires Structure(s) && Settled(s) && s.session.phase == Live && AtRest(s, route)
    ensures route in s.client.desired <==> route in s.client.confirmed
  {
    assert Agrees(s.client, route);
  }

  /** A route with nothing pending has no answer on its way. */
  lemma NoAnswerUnderWay(s: State, route: string, i: nat)
    requires Drained(s) && Tracked(Flight(s), s.client.pending) && !HasPending(s.client.pending, route)
    requires i < |s.link.responses| && s.link.responses[i].Answer?
    ensures s.link.responses[i].command.route != route
  {
    AnswersAreAnswered(s.link.responses, i);
    var command := s.link.responses[i].command;
    var k :| 0 <= k < |Answered(s.link.responses)| && Answered(s.link.responses)[k] == command;
    assert Flight(s)[k] == command;
  }

  lemma SimulatedAgrees(cfg: Config, s: State, route: string)
    requires Structure(s) && Accounted(s) && Simulates(cfg, s) && s.session.phase == Live && AtRest(s, route)
    requires SoleSpelling(cfg, s, route)
    ensures route in s.client.confirmed <==> OnServer(cfg, s, route)
  {
    forall i | 0 <= i < |s.link.responses| && s.link.responses[i].Answer?
      ensures s.link.responses[i].command.route != route
    {
      NoAnswerUnderWay(s, route, i);
    }
    ExpectUntouched(s.link.responses, route, route in s.client.confirmed);
  }

  /** When every route sent on the connection is canonical, a canonical route has one spelling. */
  lemma CanonicalRoutesAgree(cfg: Config, events: seq<Event>, route: string)
    requires Routes.Letters(cfg.letter) && Routes.Canonical(cfg.letter, route)
    requires var s := Run(cfg, events);
             && s.session.phase == Live && !s.mistaken && AtRest(s, route)
             && forall sent | sent in s.link.sentRoutes :: Routes.Canonical(cfg.letter, sent)
    ensures var s := Run(cfg, events);
            && (route in s.client.desired <==> route in s.client.confirmed)
            && (route in s.client.confirmed <==> route in s.link.server.table)
  {
    var s := Run(cfg, events);
    Routes.CanonicalRouteIsItsKey(cfg.letter, route);
    forall sent | sent in s.link.sentRoutes && SameKey(cfg, sent, route) ensures sent == route {
      Routes.CanonicalRouteIsItsKey(cfg.letter, sent);
    }
    Agreement(cfg, events, route);
  }

  /**
   On a live connection every pending mutation is exactly one of: in flight (once), lost, left over
   from before the replay, or registered by a thread that has not queued it yet.
   */
  lemma PendingMutationsAccounted(cfg: Config, events: seq<Event>)
    requires var s := Run(cfg, events); s.session.phase == Live && !s.mistaken
    ensures var s := Run(cfg, events);
            && s.client.pending.Keys == Ids(Flight(s)) + s.link.lost + s.link.stale + OwnIds(s.change)
            && Ids(Flight(s)) !! s.link.lost !! s.link.stale !! OwnIds(s.change)
            && Unique(Flight(s)) && Tracked(Flight(s), s.client.pending)
  {
    Invariant(cfg, events);
  }

  /**
   A failed change leaves the caller's set as if it had never begun, with one exception: an answer on
   the route arrived during the change, the connection was then torn down, and the route was wanted.
   */
  lemma FailedChangeRestores(cfg: Config, events: seq<Event>)
    requires var s := Run(cfg, events); !s.mistaken && s.change.stage == Failing
    ensures var s := Run(cfg, events);
            var t := Step(cfg, s, ChangeRollback);
            && s.client.rollback.Some?
            && ((s.change.route in t.client.desired) == s.change.baseline
                <==> !(s.client.rollback.value.observed && s.change.cleared && s.change.baseline))
  {
    BaselineInvariant(cfg, events);
    FailingRestores(cfg, Run(cfg, events));
  }

  lemma BaselineInvariant(cfg: Config, events: seq<Event>)
    requires !Run(cfg, events).mistaken
    ensures Structure(Run(cfg, events)) && BaselineKept(Run(cfg, events))
  {
    Invariant(cfg, events);
  }

  lemma FailingRestores(cfg: Config, s: State)
    requires Structure(s) && BaselineKept(s) && s.change.stage == Failing
    ensures var t := Step(cfg, s, ChangeRollback);
            && s.client.rollback.Some?
            && ((s.change.route in t.client.desired) == s.change.baseline
                <==> !(s.client.rollback.value.observed && s.change.cleared && s.change.baseline))
  {
    assert Step(cfg, s, ChangeRollback) == StepChangeRollback(s);
    assert s.client.pending - OwnIds(s.change) == s.client.pending;
    if s.change.cleared {
      assert !HasPending(s.client.pending, s.change.route);
    }
  }
}
