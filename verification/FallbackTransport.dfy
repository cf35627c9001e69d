/**
 The HTTP fallback transport as a step system: one sender in `SendAsync`, any number of concurrent
 `CancelPendingSend` and `Close` calls split at their shared-memory accesses, and one reader.
 Payloads are numbered in the order their sends begin. The sender's volatile write of the payload goes
 into a store buffer, which becomes visible at any later time, at the latest when the sender takes the
 channel's lock or performs an interlocked access.
 */
module FallbackTransport {
  import opened Text

  /** Where `SendAsync` stands; `Stopped` is an exception out of it, which ends the sending loop. */
  datatype Sender =
    | Idle
    | Checking(p: nat)
    | Publishing(p: nat)
    | Rechecking(p: nat)
    | Writing(p: nat)
    | Waiting(p: nat)
    | Clearing(p: nat, ok: bool)
    | Stopped

  /** `open`, the completed channel, and a `Close` call between its steps. */
  datatype Closing = Closing(open: bool, completed: bool, mustComplete: bool, mustCancel: bool)

  /** The cancel flag, the calls that have set it but not yet taken the payload, and the payloads taken. */
  datatype Cancelling = Cancelling(flag: bool, flagged: nat, holding: set<nat>)

  /** Payloads written to the channel, taken by the reader, and sent with success. */
  datatype Traffic = Traffic(next: nat, written: seq<nat>, taken: seq<nat>, sent: seq<nat>)

  /**
   `buffer` holds a payload published but not yet visible in `pending`. `done` says how each payload's
   `Consumed` ended: true for completed, false for cancelled. `missed` is history: the payloads that a
   cancellation looked for in vain.
   */
  datatype State = State(
    sender: Sender, buffer: Option<nat>, pending: Option<nat>, channel: seq<nat>, done: map<nat, bool>,
    closing: Closing, cancelling: Cancelling, traffic: Traffic, missed: set<nat>)

  datatype Event =
    | Advance
    | Drain
    | TokenCancelled
    | CancelSetsFlag
    | CancelTakesPending
    | CancelHeld(p: nat)
    | CloseOpen
    | CloseChannel
    | CloseCancels
    | Take
    | Complete(p: nat)

  function Initial(): State {
    State(Idle, None, None, [], map[], Closing(true, false, false, false), Cancelling(false, 0, {}),
          Traffic(0, [], [], []), {})
  }

  function Settle(done: map<nat, bool>, p: nat, completed: bool): map<nat, bool> {
    if p in done then done else done[p := completed]
  }

  /** The store buffer becomes visible. */
  function Drained(s: State): State {
    if s.buffer.Some? then s.(buffer := None, pending := s.buffer) else s
  }

  /** The next step of the sender; a step that has to wait changes nothing. */
  function AdvanceStep(s: State): State {
    var flag := s.cancelling.flag;
    match s.sender
    case Idle =>
      s.(sender := if s.closing.open then Checking(s.traffic.next) else Stopped,
         traffic := s.traffic.(next := s.traffic.next + 1))
    case Checking(p) => s.(sender := if flag then Stopped else Publishing(p))
    case Publishing(p) => s.(buffer := Some(p), sender := Rechecking(p))
    case Rechecking(p) => s.(sender := Writing(p), done := if flag then Settle(s.done, p, false) else s.done)
    case Writing(p) => Write(Drained(s), p)
    case Waiting(p) => if p in s.done then s.(sender := Clearing(p, s.done[p])) else s
    case Clearing(p, ok) => Clear(Drained(s), p, ok)
    case Stopped => s
  }

  function Write(s: State, p: nat): State {
    if s.closing.completed then s.(sender := Clearing(p, false))
    else if s.channel != [] then s
    else s.(sender := Waiting(p), channel := [p], traffic := s.traffic.(written := s.traffic.written + [p]))
  }

  function Clear(s: State, p: nat, ok: bool): State {
    s.(pending := if s.pending == Some(p) then None else s.pending,
       sender := if ok then Idle else Stopped,
       traffic := if ok then s.traffic.(sent := s.traffic.sent + [p]) else s.traffic)
  }

  function SetFlag(s: State): State {
    s.(cancelling := s.cancelling.(flag := true, flagged := s.cancelling.flagged + 1))
  }

  /**
   A cancellation that takes the pending payload now finds none, although the sender has published one
   and already rechecked the flag: the publication is still buffered.
   */
  predicate Misses(s: State) {
    && s.cancelling.flagged > 0 && s.sender.Writing? && s.buffer.Some?
    && s.sender.p !in s.done && !s.closing.completed
  }

  function TakePending(s: State): State {
    if s.cancelling.flagged == 0 then s
    else
      s.(pending := None,
         missed := if Misses(s) then s.missed + {s.sender.p} else s.missed,
         cancelling := s.cancelling.(flagged := s.cancelling.flagged - 1,
           holding := if s.pending.Some? then s.cancelling.holding + {s.pending.value} else s.cancelling.holding))
  }

  function Step(s: State, e: Event): State {
    match e
    case Advance => AdvanceStep(s)
    case Drain => Drained(s)
    case TokenCancelled =>
      if s.sender.Writing? || s.sender.Waiting? then s.(sender := Clearing(s.sender.p, false)) else s
    case CancelSetsFlag => SetFlag(s)
    case CancelTakesPending => TakePending(s)
    case CancelHeld(p) =>
      if p !in s.cancelling.holding then s
      else
        s.(done := Settle(s.done, p, false), cancelling := s.cancelling.(holding := s.cancelling.holding - {p}))
    case CloseOpen =>
      if s.closing.open then s.(closing := s.closing.(open := false, mustComplete := true)) else s
    case CloseChannel =>
      if s.closing.mustComplete
      then s.(closing := s.closing.(completed := true, mustComplete := false, mustCancel := true)) else s
    case CloseCancels =>
      if s.closing.mustCancel then SetFlag(s.(closing := s.closing.(mustCancel := false))) else s
    case Take =>
      if s.channel == [] then s
      else s.(channel := s.channel[1..], traffic := s.traffic.(taken := s.traffic.taken + [s.channel[0]]))
    case Complete(p) => if p in s.traffic.taken then s.(done := Settle(s.done, p, true)) else s
  }

  function Run(events: seq<Event>): State {
    if events == [] then Initial() else Step(Run(events[..|events| - 1]), events[|events| - 1])
  }

  // ---- Invariants -----------------------------------------------------------------------------

  /** Where the payload under way can be found. */
  ghost predicate Placed(s: State) {
    var sender, c := s.sender, s.cancelling;
    && (s.pending.Some? ==>
          (sender.Rechecking? || sender.Writing? || sender.Waiting? || sender.Clearing?) && sender.p == s.pending.value)
    && (s.buffer.Some? ==>
          s.pending.None? && (sender.Rechecking? || sender.Writing? || sender.Clearing?) && sender.p == s.buffer.value)
    && (sender.Rechecking? || sender.Writing? || sender.Waiting? ==>
          || s.pending == Some(sender.p) || s.buffer == Some(sender.p)
          || (c.flag && (sender.p in c.holding || sender.p in s.done)))
    && (c.flagged > 0 || c.holding != {} ==> c.flag)
  }

  /** Who will answer the payload under way once the flag is set. */
  ghost predicate Answered(s: State) {
    var sender, c := s.sender, s.cancelling;
    && ((sender.Writing? || sender.Waiting?) && c.flag && sender.p !in s.done ==>
          || sender.p in c.holding || c.flagged > 0 || sender.p in s.missed
          || (sender.Writing? && s.closing.completed))
    && (sender.Waiting? && s.closing.completed && sender.p !in s.done ==>
          sender.p in c.holding || c.flagged > 0 || s.closing.mustCancel)
  }

  /** The channel against the histories. */
  ghost predicate Flows(sender: Sender, channel: seq<nat>, done: map<nat, bool>, t: Traffic) {
    && t.written == t.taken + channel && t.sent <= t.taken
    && (forall p | p in t.written :: p < t.next)
    && (forall p | p in done && done[p] :: p in t.taken)
    && (forall p | p in t.sent :: p in done && done[p])
    && (match sender
        case Idle => t.written == t.sent
        case Waiting(p) => t.written == t.sent + [p] && p !in t.sent && p < t.next
        case Clearing(p, ok) => p < t.next && p !in t.sent &&
          (ok ==> t.written == t.taken == t.sent + [p] && p in done && done[p]) && |t.written| <= |t.sent| + 1
        case Stopped => |t.written| <= |t.sent| + 1
        case _ => t.written == t.sent && sender.p < t.next && sender.p !in t.sent)
  }

  ghost predicate Good(s: State) {
    Placed(s) && Answered(s) && Flows(s.sender, s.channel, s.done, s.traffic)
  }

  lemma AdvanceAnswered(s: State)
    requires Placed(s) && Answered(s)
    ensures Placed(AdvanceStep(s)) && Answered(AdvanceStep(s))
  {
  }

  lemma FlowsBeforeWriting(s: State)
    requires Flows(s.sender, s.channel, s.done, s.traffic)
    requires !s.sender.Writing? && !s.sender.Waiting? && !s.sender.Clearing?
    ensures var t := AdvanceStep(s); Flows(t.sender, t.channel, t.done, t.traffic)
  {
  }

  lemma FlowsWriting(s: State)
    requires Flows(s.sender, s.channel, s.done, s.traffic) && s.sender.Writing?
    ensures var t := AdvanceStep(s); Flows(t.sender, t.channel, t.done, t.traffic)
  {
  }

  lemma FlowsWaiting(s: State)
    requires Flows(s.sender, s.channel, s.done, s.traffic) && s.sender.Waiting?
    ensures var t := AdvanceStep(s); Flows(t.sender, t.channel, t.done, t.traffic)
  {
    if s.sender.p in s.done && s.done[s.sender.p] {
      assert s.traffic.taken == s.traffic.written;
    }
  }

  lemma FlowsClearing(s: State)
    requires Flows(s.sender, s.channel, s.done, s.traffic) && s.sender.Clearing?
    ensures var t := AdvanceStep(s); Flows(t.sender, t.channel, t.done, t.traffic)
  {
  }

  lemma AdvanceFlows(s: State)
    requires Flows(s.sender, s.channel, s.done, s.traffic)
    ensures var t := AdvanceStep(s); Flows(t.sender, t.channel, t.done, t.traffic)
  {
    if s.sender.Writing? {
      FlowsWriting(s);
    } else if s.sender.Waiting? {
      FlowsWaiting(s);
    } else if s.sender.Clearing? {
      FlowsClearing(s);
    } else {
      FlowsBeforeWriting(s);
    }
  }

  lemma StepKeeps(s: State, e: Event)
    requires Good(s)
    ensures Good(Step(s, e))
  {
    match e {
      case Advance =>
        AdvanceAnswered(s);
        AdvanceFlows(s);
      case _ =>
    }
  }

  lemma {:induction false} Invariant(events: seq<Event>)
    ensures Good(Run(events))
  {
    if events != [] {
      Invariant(events[..|events| - 1]);
      StepKeeps(Run(events[..|events| - 1]), events[|events| - 1]);
    }
  }

  // ---- Results --------------------------------------------------------------------------------

  /** The flag is set and every `CancelPendingSend` and `Close` call has returned. */
  ghost predicate CancelReturned(s: State) {
    && s.cancelling.flag && s.cancelling.flagged == 0 && s.cancelling.holding == {}
    && !s.closing.mustComplete && !s.closing.mustCancel
  }

  /** The step the sender takes next depends on another party. */
  ghost predicate Blocked(s: State) {
    || (s.sender.Writing? && !s.closing.completed && s.channel != [])
    || (s.sender.Waiting? && s.sender.p !in s.done)
  }

  /** A cancellation missed the payload under way, nobody has answered it, and the channel is open. */
  predicate Overlooked(s: State) {
    && (s.sender.Writing? || s.sender.Waiting?)
    && s.sender.p in s.missed && s.sender.p !in s.done && !s.closing.completed
  }

  /**
   In every run, writing to the channel never waits for space, and once cancellation has returned the
   sender is stuck exactly if its payload was overlooked.
   */
  lemma NoStuckSender(events: seq<Event>)
    ensures var s := Run(events);
            && (s.sender.Writing? ==> s.channel == [])
            && (CancelReturned(s) ==> (Blocked(s) <==> s.sender.Waiting? && Overlooked(s)))
  {
    Invariant(events);
    var s := Run(events);
    if s.sender.Writing? {
      assert |s.traffic.written| == |s.traffic.sent|;
    }
  }

  /** Event `n` of the run is a cancellation that misses `p`. */
  ghost predicate MissesAt(events: seq<Event>, n: nat, p: nat)
    requires n < |events|
  {
    var s := Run(events[..n]); events[n] == CancelTakesPending && Misses(s) && s.sender.p == p
  }

  lemma MissStep(s: State, e: Event)
    ensures Step(s, e).missed == if e == CancelTakesPending && Misses(s) then s.missed + {s.sender.p} else s.missed
  {
  }

  lemma PrefixMisses(events: seq<Event>, last: nat, n: nat, p: nat)
    requires n < last <= |events|
    ensures MissesAt(events[..last], n, p) == MissesAt(events, n, p)
  {
    assert events[..last][..n] == events[..n];
  }

  /** What `missed` means. */
  lemma {:induction false} MissedIff(events: seq<Event>, p: nat)
    ensures p in Run(events).missed <==> exists n | 0 <= n < |events| :: MissesAt(events, n, p)
  {
    if events == [] {
    } else {
      var last := |events| - 1;
      MissedIff(events[..last], p);
      MissStep(Run(events[..last]), events[last]);
      forall n | 0 <= n < last ensures MissesAt(events[..last], n, p) == MissesAt(events, n, p) {
        PrefixMisses(events, last, n, p);
      }
      assert p in Run(events).missed <==> p in Run(events[..last]).missed || MissesAt(events, last, p);
    }
  }

  /** The publication is visible before the sender reads the flag again, as without a store buffer. */
  ghost predicate Prompt(events: seq<Event>) {
    forall n | 0 <= n < |events| :: events[n].Advance? && Run(events[..n]).sender.Rechecking? ==>
      Run(events[..n]).buffer.None?
  }

  lemma {:induction false} PromptRun(events: seq<Event>)
    requires Prompt(events)
    ensures var s := Run(events); s.missed == {} && (s.buffer.Some? ==> s.sender.Rechecking?)
  {
    if events == [] {
    } else {
      var last := |events| - 1;
      var past := events[..last];
      assert Prompt(past) by {
        forall n | 0 <= n < |past| ensures events[n] == past[n] && events[..n] == past[..n] {}
      }
      PromptRun(past);
      Invariant(past);
      assert events[last].Advance? && Run(past).sender.Rechecking? ==> Run(past).buffer.None?;
      PromptStep(Run(past), events[last]);
    }
  }

  lemma PromptStep(s: State, e: Event)
    requires Good(s) && s.missed == {} && (s.buffer.Some? ==> s.sender.Rechecking?)
    requires e.Advance? && s.sender.Rechecking? ==> s.buffer.None?
    ensures var t := Step(s, e); t.missed == {} && (t.buffer.Some? ==> t.sender.Rechecking?)
  {
  }

  /** Without a store buffer cancellation leaves no sender behind. */
  lemma PromptNeverStuck(events: seq<Event>)
    requires Prompt(events) && CancelReturned(Run(events))
    ensures !Blocked(Run(events))
  {
    NoStuckSender(events);
    PromptRun(events);
  }

  lemma Do(past: seq<Event>, e: Event) returns (events: seq<Event>)
    ensures Run(events) == Step(Run(past), e)
  {
    events := past + [e];
    assert events[..|events| - 1] == past;
  }

  /** With it one can be left: cancellation has returned and the sender waits for a payload nobody answers. */
  lemma MissedSenderIsStuck() returns (events: seq<Event>)
    ensures CancelReturned(Run(events)) && Blocked(Run(events)) && Run(events).pending == Some(0)
  {
    events := Do([], Advance);
    events := Do(events, Advance);
    events := Do(events, Advance);
    events := Do(events, Advance);
    events := Do(events, CancelSetsFlag);
    events := Do(events, CancelTakesPending);
    events := Do(events, Advance);
  }

  function Remaining(sender: Sender): nat {
    match sender
    case Publishing(_) => 7
    case Rechecking(_) => 6
    case Writing(_) => 5
    case Waiting(_) => 4
    case Clearing(_, _) => 3
    case Idle => 2
    case Checking(_) => 1
    case Stopped => 0
  }

  function Advances(events: seq<Event>): nat {
    if events == [] then 0
    else Advances(events[..|events| - 1]) + (if events[|events| - 1].Advance? then 1 else 0)
  }

  /** The flag is up and the payload under way, if it was written or is about to be, is answered. */
  ghost predicate Doomed(s: State) {
    && s.cancelling.flag
    && (s.sender.Writing? || s.sender.Waiting? ==> s.sender.p in s.done || (s.sender.Writing? && s.closing.completed))
  }

  lemma DoomedStep(s: State, e: Event)
    requires Good(s) && Doomed(s)
    ensures var t := Step(s, e);
            && Doomed(t) && Remaining(t.sender) <= Remaining(s.sender)
            && (e.Advance? && s.sender != Stopped ==> Remaining(t.sender) < Remaining(s.sender))
  {
    if s.sender.Writing? {
      assert |s.traffic.written| == |s.traffic.sent|;
    }
  }

  lemma {:induction false} DoomedRun(events: seq<Event>, later: seq<Event>)
    requires Doomed(Run(events))
    ensures Doomed(Run(events + later))
    ensures Remaining(Run(events + later).sender) + Advances(later) <= Remaining(Run(events).sender)
            || Run(events + later).sender == Stopped
    decreases |later|
  {
    if later == [] {
      assert events + later == events;
    } else {
      var n := |later| - 1;
      DoomedRun(events, later[..n]);
      assert (events + later)[..|events + later| - 1] == events + later[..n];
      Invariant(events + later[..n]);
      DoomedStep(Run(events + later[..n]), later[n]);
    }
  }

  /**
   Once cancellation has returned and did not overlook the payload under way, whatever the reader, further
   cancellations and closes do in between, the sender's own steps end its loop: at most seven of them,
   and no more than the stage it is in needs.
   */
  lemma SenderStops(events: seq<Event>, later: seq<Event>)
    requires CancelReturned(Run(events)) && !Overlooked(Run(events))
    requires Advances(later) >= Remaining(Run(events).sender)
    ensures Run(events + later).sender == Stopped
  {
    DoomedAfterCancel(events);
    DoomedRun(events, later);
  }

  lemma DoomedAfterCancel(events: seq<Event>)
    requires CancelReturned(Run(events)) && !Overlooked(Run(events))
    ensures Doomed(Run(events))
  {
    Invariant(events);
  }

  lemma OverlookedStep(s: State, e: Event)
    requires Overlooked(s) && (e.Advance? || e.Drain? || e.Take?)
    ensures Overlooked(Step(s, e))
  {
  }

  /** An overlooked sender never ends by its own steps, even if the reader takes the payload. */
  lemma {:induction false} OverlookedSenderWaits(events: seq<Event>, later: seq<Event>)
    requires Overlooked(Run(events)) && forall e | e in later :: e.Advance? || e.Drain? || e.Take?
    ensures Overlooked(Run(events + later))
    decreases |later|
  {
    if later == [] {
      assert events + later == events;
    } else {
      var n := |later| - 1;
      OverlookedSenderWaits(events, later[..n]);
      assert (events + later)[..|events + later| - 1] == events + later[..n];
      OverlookedStep(Run(events + later[..n]), later[n]);
    }
  }

  /**
   In every run, payloads reach the reader in sending order, a successful send means the reader
   took the payload and completed it, and at most the one payload under way is not yet acknowledged.
   */
  lemma Rendezvous(events: seq<Event>)
    ensures var t := Run(events).traffic;
            && t.sent <= t.taken <= t.written && |t.written| <= |t.sent| + 1
            && t.written == t.taken + Run(events).channel
            && forall p | p in t.sent :: p in Run(events).done && Run(events).done[p]
  {
    Invariant(events);
  }

  // ---- After Close ------------------------------------------------------------------------------

  /** Closed, and no send that began before is under way. */
  predicate IsClosed(s: State) {
    !s.closing.open && (s.sender.Idle? || s.sender.Stopped?)
  }

  lemma ClosedStep(s: State, e: Event)
    requires IsClosed(s)
    ensures var t := Step(s, e);
            IsClosed(t) && t.traffic.written == s.traffic.written && t.traffic.sent == s.traffic.sent
  {
  }

  /** Every send that begins after `Close` fails: nothing more is written, and nothing more is sent. */
  lemma {:induction false} ClosedSendsNothing(events: seq<Event>, later: seq<Event>)
    requires IsClosed(Run(events))
    ensures IsClosed(Run(events + later))
    ensures Run(events + later).traffic.written == Run(events).traffic.written
    ensures Run(events + later).traffic.sent == Run(events).traffic.sent
    decreases |later|
  {
    if later == [] {
      assert events + later == events;
    } else {
      var n := |later| - 1;
      ClosedSendsNothing(events, later[..n]);
      assert (events + later)[..|events + later| - 1] == events + later[..n];
      ClosedStep(Run(events + later[..n]), later[n]);
    }
  }

  /** `Close` acts once and in its order, and only a cancellation cancels a payload. */
  ghost predicate InTurn(s: State) {
    && (s.closing.open ==> !s.closing.completed && !s.closing.mustComplete && !s.closing.mustCancel)
    && (s.closing.mustComplete ==> !s.closing.completed) && (s.closing.mustCancel ==> s.closing.completed)
    && (s.closing.completed ==> s.closing.mustCancel || s.cancelling.flag)
    && (s.cancelling.flagged > 0 || s.cancelling.holding != {} ==> s.cancelling.flag)
    && (forall p | p in s.done && !s.done[p] :: s.cancelling.flag)
  }

  lemma InTurnStep(s: State, e: Event)
    requires InTurn(s)
    ensures InTurn(Step(s, e))
  {
  }

  /**
   In every run an open transport has no completed channel, a completed channel means that the flag is up
   or about to be, and no payload is cancelled unless the flag is up.
   */
  lemma {:induction false} ClosesInTurn(events: seq<Event>)
    ensures InTurn(Run(events))
  {
    if events != [] {
      ClosesInTurn(events[..|events| - 1]);
      InTurnStep(Run(events[..|events| - 1]), events[|events| - 1]);
    }
  }

  /** The flag is up only after a cancellation was called or the transport was closed. */
  lemma {:induction false} FlagHasCause(events: seq<Event>)
    ensures Run(events).cancelling.flag ==> CancelSetsFlag in events || !Run(events).closing.open
  {
    if events == [] {
    } else {
      var past := events[..|events| - 1];
      FlagHasCause(past);
      ClosesInTurn(past);
      FlagStep(Run(past), events[|events| - 1]);
    }
  }

  lemma FlagStep(s: State, e: Event)
    requires InTurn(s)
    ensures var t := Step(s, e);
            && (t.cancelling.flag ==> s.cancelling.flag || e == CancelSetsFlag || !s.closing.open)
            && (!s.closing.open ==> !t.closing.open)
  {
  }

  /** A payload that a cancellation has taken can be found by no other. */
  ghost predicate IsTakenOnce(s: State) {
    && (s.pending.Some? ==> s.pending.value !in s.cancelling.holding)
    && (s.buffer.Some? ==> s.buffer.value !in s.cancelling.holding)
    && (s.sender.Checking? || s.sender.Publishing? ==> s.sender.p !in s.cancelling.holding)
  }

  lemma TakenOnceStep(s: State, e: Event)
    requires Good(s) && IsBehind(s) && IsTakenOnce(s)
    ensures IsTakenOnce(Step(s, e))
  {
  }

  lemma {:induction false} TakenOnce(events: seq<Event>)
    ensures IsTakenOnce(Run(events))
  {
    if events != [] {
      var past := events[..|events| - 1];
      TakenOnce(past);
      Invariant(past);
      NothingDoneAhead(past);
      TakenOnceStep(Run(past), events[|events| - 1]);
    }
  }

  // ---- Whole operations -------------------------------------------------------------------------

  /** An open transport between two sends, which nobody has cancelled. */
  predicate IsReady(s: State) {
    s.sender.Idle? && s.closing.open && !s.closing.completed && !s.cancelling.flag
  }

  lemma ReadyIsEmpty(events: seq<Event>)
    requires IsReady(Run(events))
    ensures var s := Run(events);
            s.channel == [] && s.buffer.None? && s.pending.None? && s.traffic.next !in s.done
            && s.traffic.written == s.traffic.taken == s.traffic.sent
  {
    Invariant(events);
    NothingDoneAhead(events);
  }

  /** Nobody answers a payload before it is sent. */
  ghost predicate IsBehind(s: State) {
    && (forall p | p in s.done :: p < s.traffic.next)
    && (forall p | p in s.cancelling.holding :: p < s.traffic.next)
  }

  lemma BehindStep(s: State, e: Event)
    requires Good(s) && IsBehind(s)
    ensures IsBehind(Step(s, e))
  {
    if e.Complete? && e.p in s.traffic.taken {
      assert e.p in s.traffic.written;
    }
  }

  lemma {:induction false} NothingDoneAhead(events: seq<Event>)
    ensures IsBehind(Run(events))
  {
    if events != [] {
      var past := events[..|events| - 1];
      NothingDoneAhead(past);
      Invariant(past);
      BehindStep(Run(past), events[|events| - 1]);
    }
  }

  /** A send begins: the payload is published and checked. */
  lemma SendPublishes(past: seq<Event>) returns (events: seq<Event>)
    requires IsReady(Run(past))
    ensures var s := Run(past); var p := s.traffic.next;
            Run(events) == s.(sender := Writing(p), buffer := Some(p), traffic := s.traffic.(next := p + 1))
  {
    events := Do(past, Advance);
    events := Do(events, Advance);
    events := Do(events, Advance);
    events := Do(events, Advance);
  }

  /** ... and written. */
  lemma SendBegins(past: seq<Event>) returns (events: seq<Event>)
    requires IsReady(Run(past))
    ensures var s := Run(past); var p := s.traffic.next;
            Run(events) == s.(sender := Waiting(p), pending := Some(p), channel := [p],
                              traffic := s.traffic.(next := p + 1, written := s.traffic.written + [p]))
  {
    ReadyIsEmpty(past);
    events := SendPublishes(past);
    events := Do(events, Advance);
  }

  /** The sender waits for the payload, which is in the channel and can be found. */
  predicate IsUnderWay(s: State, p: nat) {
    s.sender == Waiting(p) && s.pending == Some(p) && s.buffer.None? && s.channel == [p] && p !in s.done
  }

  lemma ReaderAnswers(past: seq<Event>, p: nat) returns (events: seq<Event>)
    requires IsUnderWay(Run(past), p)
    ensures var s := Run(past);
            Run(events) == s.(sender := Idle, pending := None, channel := [], done := s.done[p := true],
                              traffic := s.traffic.(taken := s.traffic.taken + [p], sent := s.traffic.sent + [p]))
  {
    events := Do(past, Take);
    var taken := Run(past).(channel := [], traffic := Run(past).traffic.(taken := Run(past).traffic.taken + [p]));
    assert Run(events) == taken;
    events := Do(events, Complete(p));
    var completed := taken.(done := Run(past).done[p := true]);
    assert Run(events) == completed;
    events := Do(events, Advance);
    assert Run(events) == completed.(sender := Clearing(p, true));
    events := Do(events, Advance);
  }

  lemma CancellationAnswers(past: seq<Event>, p: nat) returns (events: seq<Event>)
    requires IsUnderWay(Run(past), p) && Run(past).cancelling == Cancelling(true, 1, {})
    ensures var s := Run(past);
            Run(events) == s.(sender := Stopped, pending := None, done := s.done[p := false],
                              cancelling := Cancelling(true, 0, {}))
  {
    events := Do(past, CancelTakesPending);
    assert Run(events).cancelling == Cancelling(true, 0, {p});
    events := Do(events, CancelHeld(p));
    assert Run(events).cancelling == Cancelling(true, 0, {});
    events := Do(events, Advance);
    events := Do(events, Advance);
  }

  /** From every reachable state of a ready transport, a send that the reader takes and completes succeeds. */
  lemma SendIsExact(past: seq<Event>) returns (events: seq<Event>)
    requires IsReady(Run(past))
    ensures var s, p := Run(past), Run(past).traffic.next;
            Run(events) == s.(done := s.done[p := true],
                              traffic := Traffic(p + 1, s.traffic.written + [p], s.traffic.taken + [p],
                                                 s.traffic.sent + [p]))
  {
    ReadyIsEmpty(past);
    events := SendBegins(past);
    events := ReaderAnswers(events, Run(past).traffic.next);
  }

  /** The state after a send that was begun, written and not completed. */
  function Failed(s: State, done: map<nat, bool>, closing: Closing, cancelling: Cancelling): State {
    var p := s.traffic.next;
    s.(sender := Stopped, channel := [p], done := done, closing := closing, cancelling := cancelling,
       traffic := s.traffic.(next := p + 1, written := s.traffic.written + [p]))
  }

  /** If the payload under way is cancelled instead, the send fails and no other can begin. */
  lemma CancelIsExact(past: seq<Event>) returns (events: seq<Event>)
    requires IsReady(Run(past)) && Run(past).cancelling == Cancelling(false, 0, {})
    ensures var s := Run(past);
            Run(events) == Failed(s, s.done[s.traffic.next := false], s.closing, Cancelling(true, 0, {}))
  {
    ReadyIsEmpty(past);
    events := SendBegins(past);
    events := Do(events, CancelSetsFlag);
    events := CancellationAnswers(events, Run(past).traffic.next);
  }

  /** The caller's token ends a send that waits, and clears its publication. */
  lemma TokenIsExact(past: seq<Event>) returns (events: seq<Event>)
    requires IsReady(Run(past))
    ensures var s := Run(past); Run(events) == Failed(s, s.done, s.closing, s.cancelling)
  {
    ReadyIsEmpty(past);
    events := SendBegins(past);
    events := Do(events, TokenCancelled);
    events := Do(events, Advance);
  }

  /** It also ends a send that waits to write, and then nothing was written. */
  lemma EarlyTokenIsExact(past: seq<Event>) returns (events: seq<Event>)
    requires IsReady(Run(past))
    ensures var s := Run(past); Run(events) == s.(sender := Stopped, traffic := s.traffic.(next := s.traffic.next + 1))
  {
    ReadyIsEmpty(past);
    events := SendPublishes(past);
    events := Do(events, TokenCancelled);
    events := Do(events, Advance);
  }

  /** `Close` closes the transport, completes the channel and cancels the payload under way. */
  lemma CloseIsExact(past: seq<Event>) returns (events: seq<Event>)
    requires IsReady(Run(past)) && Run(past).cancelling == Cancelling(false, 0, {})
    requires Run(past).closing == Closing(true, false, false, false)
    ensures var s := Run(past);
            Run(events) == Failed(s, s.done[s.traffic.next := false], Closing(false, true, false, false),
                                  Cancelling(true, 0, {}))
  {
    ReadyIsEmpty(past);
    events := SendBegins(past);
    events := Do(events, CloseOpen);
    events := Do(events, CloseChannel);
    events := Do(events, CloseCancels);
    events := CancellationAnswers(events, Run(past).traffic.next);
  }
}
