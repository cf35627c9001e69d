/** Every event of the subscription protocol keeps its control structure and its response slots. */
module SubscriptionSoundness {
  import opened Text
  import opened SubscriptionState
  import opened SubscriptionSteps
  import opened SubscriptionInvariants
  import Routes

  lemma SoundConnect(cfg: Config, s: State)
    requires Sound(cfg, s) ensures Sound(cfg, StepConnect(s)) {}

  lemma SoundGoLive(cfg: Config, s: State)
    requires Sound(cfg, s) ensures Sound(cfg, StepGoLive(s)) {}

  lemma SoundBeginClose(cfg: Config, s: State)
    requires Sound(cfg, s) ensures Sound(cfg, StepBeginClose(s)) {}

  lemma SoundFinishClose(cfg: Config, s: State)
    requires Sound(cfg, s) ensures Sound(cfg, StepFinishClose(s)) {}

  lemma SoundTerminate(cfg: Config, s: State)
    requires Sound(cfg, s) ensures Sound(cfg, StepTerminate(s)) {}

  lemma SoundChangeEnter(cfg: Config, s: State, route: string, subscribe: bool)
    requires Sound(cfg, s) ensures Sound(cfg, StepChangeEnter(s, route, subscribe)) {}

  lemma StructureChangeApply(cfg: Config, s: State)
    requires Structure(s) ensures Structure(StepChangeApply(cfg, s)) {}

  lemma SlotsChangeApply(cfg: Config, s: State)
    requires Sound(cfg, s) ensures SlotsConserved(cfg, StepChangeApply(cfg, s)) {}

  lemma SoundChangeApply(cfg: Config, s: State)
    requires Sound(cfg, s) ensures Sound(cfg, StepChangeApply(cfg, s))
  {
    StructureChangeApply(cfg, s);
    SlotsChangeApply(cfg, s);
  }

  lemma SoundChangeAcquire(cfg: Config, s: State, flag: bool)
    requires Sound(cfg, s) ensures Sound(cfg, StepChangeAcquire(s, flag)) {}

  lemma SoundChangeCheck(cfg: Config, s: State, flag: bool)
    requires Sound(cfg, s) ensures Sound(cfg, StepChangeCheck(s, flag)) {}

  lemma SoundChangeReassert(cfg: Config, s: State)
    requires Sound(cfg, s) ensures Sound(cfg, StepChangeReassert(s)) {}

  lemma SoundChangeRegister(cfg: Config, s: State, id: string, flag: bool)
    requires Sound(cfg, s) ensures Sound(cfg, StepChangeRegister(s, id, flag)) {}

  lemma StructureChangeEnqueue(cfg: Config, s: State)
    requires Structure(s) ensures Structure(StepChangeEnqueue(s)) {}

  lemma SlotsChangeEnqueue(cfg: Config, s: State)
    requires Sound(cfg, s) ensures SlotsConserved(cfg, StepChangeEnqueue(s)) {}

  lemma SoundChangeEnqueue(cfg: Config, s: State)
    requires Sound(cfg, s) ensures Sound(cfg, StepChangeEnqueue(s))
  {
    StructureChangeEnqueue(cfg, s);
    SlotsChangeEnqueue(cfg, s);
  }

  lemma SoundChangeRemove(cfg: Config, s: State)
    requires Sound(cfg, s) ensures Sound(cfg, StepChangeRemove(s)) {}

  lemma SoundChangeRollback(cfg: Config, s: State)
    requires Sound(cfg, s) ensures Sound(cfg, StepChangeRollback(s)) {}

  lemma SoundChangeClear(cfg: Config, s: State)
    requires Sound(cfg, s) ensures Sound(cfg, StepChangeClear(s)) {}

  lemma SoundChangeExit(cfg: Config, s: State)
    requires Sound(cfg, s) ensures Sound(cfg, StepChangeExit(s)) {}

  lemma SoundChangeRelease(cfg: Config, s: State)
    requires Sound(cfg, s) ensures Sound(cfg, StepChangeRelease(s)) {}

  lemma SoundReplayEnter(cfg: Config, s: State)
    requires Sound(cfg, s) ensures Sound(cfg, StepReplayEnter(s)) {}

  lemma SoundReplaySnapshot(cfg: Config, s: State, order: seq<string>)
    requires Sound(cfg, s) ensures Sound(cfg, StepReplaySnapshot(s, order)) {}

  lemma SoundReplayAcquire(cfg: Config, s: State)
    requires Sound(cfg, s) ensures Sound(cfg, StepReplayAcquire(s)) {}

  lemma StructureReplayRegister(cfg: Config, s: State, id: string)
    requires Structure(s) ensures Structure(StepReplayRegister(s, id)) {}

  lemma SlotsReplayRegister(cfg: Config, s: State, id: string)
    requires Sound(cfg, s) ensures SlotsConserved(cfg, StepReplayRegister(s, id)) {}

  lemma SoundReplayRegister(cfg: Config, s: State, id: string)
    requires Sound(cfg, s) ensures Sound(cfg, StepReplayRegister(s, id))
  {
    StructureReplayRegister(cfg, s, id);
    SlotsReplayRegister(cfg, s, id);
  }

  lemma SoundReplaySend(cfg: Config, s: State, flag: bool, other: bool)
    requires Sound(cfg, s) ensures Sound(cfg, StepReplaySend(s, flag, other)) {}

  lemma SoundReplayAbort(cfg: Config, s: State)
    requires Sound(cfg, s) ensures Sound(cfg, StepReplayAbort(s)) {}

  lemma SoundReplayRemove(cfg: Config, s: State)
    requires Sound(cfg, s) ensures Sound(cfg, StepReplayRemove(s)) {}

  lemma SoundReplayRelease(cfg: Config, s: State)
    requires Sound(cfg, s) ensures Sound(cfg, StepReplayRelease(s)) {}

  lemma SoundReplayExit(cfg: Config, s: State)
    requires Sound(cfg, s) ensures Sound(cfg, StepReplayExit(s)) {}

  lemma SoundSendHead(cfg: Config, s: State, flag: bool, other: bool)
    requires Sound(cfg, s) ensures Sound(cfg, StepSendHead(s, flag, other)) {}

  lemma SoundServerHandle(cfg: Config, s: State, identity: Routes.Identity, flag: bool)
    requires Sound(cfg, s) ensures Sound(cfg, StepServerHandle(cfg, s, identity, flag)) {}

  lemma SoundServerHandleOther(cfg: Config, s: State, id: string, flag: bool, other: bool)
    requires Sound(cfg, s) ensures Sound(cfg, StepServerHandleOther(cfg, s, id, flag, other)) {}

  lemma StructureReceive(cfg: Config, s: State)
    requires Structure(s) ensures Structure(StepReceive(s)) {}

  lemma SlotsReceive(cfg: Config, s: State)
    requires Sound(cfg, s) ensures SlotsConserved(cfg, StepReceive(s)) {}

  lemma SoundReceive(cfg: Config, s: State)
    requires Sound(cfg, s) ensures Sound(cfg, StepReceive(s))
  {
    StructureReceive(cfg, s);
    SlotsReceive(cfg, s);
  }

  lemma SoundReceiveRelease(cfg: Config, s: State)
    requires Sound(cfg, s) ensures Sound(cfg, StepReceiveRelease(s)) {}

  lemma SoundStepChange(cfg: Config, s: State, e: Event)
    requires Sound(cfg, s) && OfChange(e)
    ensures Sound(cfg, StepChange(cfg, s, e))
  {
    match e
    case ChangeEnter(route, subscribe) => SoundChangeEnter(cfg, s, route, subscribe);
    case ChangeApply => SoundChangeApply(cfg, s);
    case ChangeAcquire(cancelled) => SoundChangeAcquire(cfg, s, cancelled);
    case ChangeCheck(disposed) => SoundChangeCheck(cfg, s, disposed);
    case ChangeReassert => SoundChangeReassert(cfg, s);
    case ChangeRegister(id, prepared) => SoundChangeRegister(cfg, s, id, prepared);
    case ChangeEnqueue => SoundChangeEnqueue(cfg, s);
    case ChangeRemove => SoundChangeRemove(cfg, s);
    case ChangeRollback => SoundChangeRollback(cfg, s);
    case ChangeClear => SoundChangeClear(cfg, s);
    case ChangeExit => SoundChangeExit(cfg, s);
    case ChangeRelease => SoundChangeRelease(cfg, s);
  }

  lemma SoundStepReplay(cfg: Config, s: State, e: Event)
    requires Sound(cfg, s) && OfReplay(e)
    ensures Sound(cfg, StepReplay(s, e))
  {
    match e
    case ReplayEnter => SoundReplayEnter(cfg, s);
    case ReplaySnapshot(order) => SoundReplaySnapshot(cfg, s, order);
    case ReplayAcquire => SoundReplayAcquire(cfg, s);
    case ReplayRegister(id) => SoundReplayRegister(cfg, s, id);
    case ReplaySend(delivered, failed) => SoundReplaySend(cfg, s, delivered, failed);
    case ReplayAbort => SoundReplayAbort(cfg, s);
    case ReplayRemove => SoundReplayRemove(cfg, s);
    case ReplayRelease => SoundReplayRelease(cfg, s);
    case ReplayExit => SoundReplayExit(cfg, s);
  }

  lemma SoundStepOther(cfg: Config, s: State, e: Event)
    requires Sound(cfg, s) && !OfChange(e) && !OfReplay(e)
    ensures Sound(cfg, StepOther(cfg, s, e))
  {
    match e
    case Connect => SoundConnect(cfg, s);
    case GoLive => SoundGoLive(cfg, s);
    case BeginClose => SoundBeginClose(cfg, s);
    case FinishClose => SoundFinishClose(cfg, s);
    case Terminate => SoundTerminate(cfg, s);
    case SendHead(delivered, failed) => SoundSendHead(cfg, s, delivered, failed);
    case ServerHandle(identity, dropped) => SoundServerHandle(cfg, s, identity, dropped);
    case ServerHandleOther(id, ack, dropped) => SoundServerHandleOther(cfg, s, id, ack, dropped);
    case Receive => SoundReceive(cfg, s);
    case ReceiveRelease => SoundReceiveRelease(cfg, s);
    case LoseState =>
    case StopAccepting =>
  }

  lemma SoundStep(cfg: Config, s: State, e: Event)
    requires Sound(cfg, s)
    ensures Sound(cfg, Step(cfg, s, e))
  {
    if OfChange(e) {
      SoundStepChange(cfg, s, e);
    } else if OfReplay(e) {
      SoundStepReplay(cfg, s, e);
    } else {
      SoundStepOther(cfg, s, e);
    }
  }
}
