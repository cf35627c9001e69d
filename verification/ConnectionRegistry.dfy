/**
 Admission against draining. An `Add` call is split at its accesses to the flag, the dictionary and
 the gauge; the drain service raises the flag and then sweeps two snapshots of the dictionary. When
 its closing sweep is cancelled it starts over with a new snapshot.
 */
module ConnectionRegistry {

  /** Where a connection stands between its `Add` and its `Remove`. */
  datatype Stage =
    | Checked
    | Inserted
    | Confirmed
    | Withdrawing
    | Rejected
    | Accepted
    | Removing
    | Removed

  datatype Sweep = NotStarted | Sweeping(remaining: set<nat>)

  datatype State = State(
    draining: bool, connections: set<nat>, stages: map<nat, Stage>, active: int, notify: Sweep, close: Sweep,
    notified: set<nat>, closed: set<nat>)

  datatype Event =
    | AddChecks(id: nat)
    | AddAdvances(id: nat)
    | RemoveTakes(id: nat)
    | RemoveRecords(id: nat)
    | BeginDrain
    | NotifyBegins
    | Notifies(id: nat)
    | CloseBegins
    | CloseRestarts
    | Closes(id: nat)

  function Put(s: State, id: nat, stage: Stage): State {
    s.(stages := s.stages[id := stage])
  }

  function Advance(s: State, id: nat): State {
    if id !in s.stages then s
    else
      match s.stages[id]
      case Checked => Put(s.(connections := s.connections + {id}), id, Inserted)
      case Inserted => Put(s, id, if s.draining then Withdrawing else Confirmed)
      case Confirmed => Put(s.(active := s.active + 1), id, Accepted)
      case Withdrawing => Put(s.(connections := s.connections - {id}), id, Rejected)
      case _ => s
  }

  function Step(s: State, e: Event): State {
    match e
    case AddChecks(id) => if id in s.stages then s else Put(s, id, if s.draining then Rejected else Checked)
    case AddAdvances(id) => Advance(s, id)
    case RemoveTakes(id) =>
      if id in s.stages && s.stages[id].Accepted? && id in s.connections
      then Put(s.(connections := s.connections - {id}), id, Removing) else s
    case RemoveRecords(id) =>
      if id in s.stages && s.stages[id].Removing?
      then Put(s.(active := if s.active - 1 < 0 then 0 else s.active - 1), id, Removed) else s
    case BeginDrain => s.(draining := true)
    case NotifyBegins => if s.draining && s.notify.NotStarted? then s.(notify := Sweeping(s.connections)) else s
    case Notifies(id) =>
      if s.notify.Sweeping? && id in s.notify.remaining
      then s.(notify := Sweeping(s.notify.remaining - {id}), notified := s.notified + {id}) else s
    case CloseBegins =>
      if s.notify == Sweeping({}) && s.close.NotStarted? then s.(close := Sweeping(s.connections)) else s
    case CloseRestarts => if s.close.Sweeping? then s.(close := Sweeping(s.connections)) else s
    case Closes(id) =>
      if s.close.Sweeping? && id in s.close.remaining
      then s.(close := Sweeping(s.close.remaining - {id}), closed := s.closed + {id}) else s
  }

  function Run(events: seq<Event>): State {
    if events == [] then State(false, {}, map[], 0, NotStarted, NotStarted, {}, {})
    else Step(Run(events[..|events| - 1]), events[|events| - 1])
  }

  // ---- Invariant ------------------------------------------------------------------------------

  /** Connections whose `Add` has decided to return true and that were not removed yet. */
  function Admitted(s: State): set<nat> {
    set id | id in s.stages && (s.stages[id].Confirmed? || s.stages[id].Accepted?)
  }

  /** Connections the gauge counts. */
  function Counted(stages: map<nat, Stage>): set<nat> {
    set id | id in stages && IsCounted(stages[id])
  }

  predicate IsCounted(stage: Stage) {
    stage.Accepted? || stage.Removing?
  }

  predicate InDictionary(stage: Stage) {
    stage.Inserted? || stage.Confirmed? || stage.Withdrawing? || stage.Accepted?
  }

  ghost predicate Listed(s: State) {
    forall id :: id in s.connections <==> id in s.stages && InDictionary(s.stages[id])
  }

  ghost predicate Swept(sweep: Sweep, done: set<nat>, s: State) {
    sweep.Sweeping? ==> s.draining && Admitted(s) <= sweep.remaining + done
  }

  ghost predicate Good(s: State) {
    && Listed(s) && s.active == |Counted(s.stages)|
    && Swept(s.notify, s.notified, s) && Swept(s.close, s.closed, s)
  }

  lemma ListedFollows(s: State, e: Event)
    requires Listed(s)
    ensures Listed(Step(s, e))
  {
  }

  lemma CountedPut(stages: map<nat, Stage>, id: nat, stage: Stage)
    ensures Counted(stages[id := stage]) == if IsCounted(stage) then Counted(stages) + {id} else Counted(stages) - {id}
  {
  }

  lemma CountedMoves(s: State, t: State, id: nat)
    requires s.active == |Counted(s.stages)|
    requires t.stages == s.stages || (id in t.stages && t.stages == s.stages[id := t.stages[id]])
    requires var before, after := id in s.stages && IsCounted(s.stages[id]), id in t.stages && IsCounted(t.stages[id]);
             t.active == if before == after then s.active else if after then s.active + 1
                         else if s.active - 1 < 0 then 0 else s.active - 1
    ensures t.active == |Counted(t.stages)|
  {
    if t.stages != s.stages {
      CountedPut(s.stages, id, t.stages[id]);
    }
    assert id in Counted(s.stages) <==> id in s.stages && IsCounted(s.stages[id]);
  }

  lemma CountedFollows(s: State, e: Event)
    requires s.active == |Counted(s.stages)|
    ensures Step(s, e).active == |Counted(Step(s, e).stages)|
  {
    if (e.AddChecks? && e.id !in s.stages) || (e.AddAdvances? && e.id in s.stages)
       || e.RemoveTakes? || e.RemoveRecords? {
      CountedMoves(s, Step(s, e), e.id);
    }
  }

  /** Once the flag is up, nobody is admitted any more. */
  lemma NoAdmissionWhileDraining(s: State, e: Event)
    requires s.draining
    ensures Step(s, e).draining && Admitted(Step(s, e)) <= Admitted(s)
  {
  }

  lemma SweepsFollow(s: State, e: Event)
    requires Good(s)
    ensures var t := Step(s, e); Swept(t.notify, t.notified, t) && Swept(t.close, t.closed, t)
  {
    if s.draining {
      NoAdmissionWhileDraining(s, e);
      assert Admitted(s) <= s.connections;
    }
  }

  lemma {:induction false} Invariant(events: seq<Event>)
    ensures Good(Run(events))
  {
    if events != [] {
      var s, e := Run(events[..|events| - 1]), events[|events| - 1];
      Invariant(events[..|events| - 1]);
      ListedFollows(s, e);
      CountedFollows(s, e);
      SweepsFollow(s, e);
    }
  }

  // ---- Results --------------------------------------------------------------------------------

  /**
   In every run: when the closing sweep is over, every connection whose `Add` returned true and that
   its owner has not removed was told to restart and was closed.
   */
  lemma DrainReachesEveryAdmitted(events: seq<Event>)
    ensures var s := Run(events);
            && (s.notify == Sweeping({}) ==> Admitted(s) <= s.notified)
            && (s.close == Sweeping({}) ==> Admitted(s) <= s.closed)
  {
    Invariant(events);
  }

  /**
   In every run a rejected or removed connection is not in the dictionary, and whenever no `Add` call is
   under way the dictionary holds exactly the accepted connections.
   */
  lemma DictionaryIsExact(events: seq<Event>)
    ensures var s := Run(events);
            && (forall id | id in s.stages
                            && (s.stages[id].Rejected? || s.stages[id].Removing? || s.stages[id].Removed?) ::
                  id !in s.connections)
            && ((forall id | id in s.stages :: !IsAdding(s.stages[id])) ==>
                  s.connections == set id | id in s.stages && s.stages[id].Accepted?)
  {
    Invariant(events);
  }

  predicate IsAdding(stage: Stage) {
    stage.Checked? || stage.Inserted? || stage.Confirmed? || stage.Withdrawing?
  }

  /** From the moment the flag is up, later events admit no connection. */
  lemma {:induction false} DrainingIsFinal(events: seq<Event>, later: seq<Event>)
    requires Run(events).draining
    ensures Run(events + later).draining && Admitted(Run(events + later)) <= Admitted(Run(events))
    decreases |later|
  {
    if later == [] {
      assert events + later == events;
    } else {
      var n := |later| - 1;
      DrainingIsFinal(events, later[..n]);
      assert (events + later)[..|events + later| - 1] == events + later[..n];
      NoAdmissionWhileDraining(Run(events + later[..n]), later[n]);
    }
  }

  /** The gauge counts exactly the accepted connections whose removal it has not seen, and its guard never acts. */
  lemma ActiveGaugeIsExact(events: seq<Event>)
    ensures var s := Run(events);
            && s.active == |Counted(s.stages)|
            && (forall id | id in s.stages && s.stages[id].Removing? :: s.active >= 1)
  {
    Invariant(events);
    var s := Run(events);
    forall id | id in s.stages && s.stages[id].Removing?
      ensures s.active >= 1
    {
      assert id in Counted(s.stages);
    }
  }

  // ---- What the drain does and what it spares ----------------------------------------------------

  ghost predicate Orderly(s: State) {
    && (forall id | id in s.stages && (s.stages[id].Withdrawing? || s.stages[id].Rejected?) :: s.draining)
    && (s.notify.Sweeping? ==> s.draining && s.notify.remaining <= s.stages.Keys)
    && (s.close.Sweeping? ==> s.notify == Sweeping({}) && s.close.remaining <= s.stages.Keys)
    && (s.close.NotStarted? ==> s.closed == {})
    && s.notified + s.closed <= s.stages.Keys
  }

  lemma StepOrderly(s: State, e: Event)
    requires Listed(s) && Orderly(s)
    ensures Orderly(Step(s, e))
  {
    assert s.connections <= s.stages.Keys;
  }

  lemma {:induction false} RunOrderly(events: seq<Event>)
    ensures Orderly(Run(events))
  {
    if events != [] {
      RunOrderly(events[..|events| - 1]);
      Invariant(events[..|events| - 1]);
      StepOrderly(Run(events[..|events| - 1]), events[|events| - 1]);
    }
  }

  /**
   In every run: without a drain no connection is refused, told to restart or closed; and before the drain
   closes any, it has told everyone who was admitted and is still there to restart.
   */
  lemma RestartComesFirst(events: seq<Event>)
    ensures var s := Run(events);
            && (!s.draining ==> s.notified == s.closed == {} && forall id | id in s.stages :: !s.stages[id].Rejected?)
            && (s.closed != {} ==> Admitted(s) <= s.notified)
  {
    RunOrderly(events);
    Invariant(events);
    NothingBeforeDrain(events);
  }

  lemma {:induction false} NothingBeforeDrain(events: seq<Event>)
    ensures Run(events).notify.NotStarted? ==> Run(events).notified == {}
  {
    if events != [] {
      NothingBeforeDrain(events[..|events| - 1]);
    }
  }

  lemma RefusedStep(s: State, e: Event, id: nat)
    requires s.draining && id !in s.connections && (id in s.stages ==> s.stages[id].Rejected?)
    ensures var t := Step(s, e); t.draining && id !in t.connections && (id in t.stages ==> t.stages[id].Rejected?)
  {
  }

  lemma AcceptedStep(s: State, e: Event, id: nat)
    requires id in s.stages && s.stages[id].Accepted? && e != RemoveTakes(id)
    ensures var t := Step(s, e); id in t.stages && t.stages[id].Accepted?
  {
  }

  /** An `Add` that begins after the flag is up is refused and never gets into the dictionary. */
  lemma {:induction false} LateAddIsRefused(events: seq<Event>, later: seq<Event>, id: nat)
    requires Run(events).draining && id !in Run(events).stages
    ensures var s := Run(events + later);
            s.draining && id !in s.connections && (id in s.stages ==> s.stages[id].Rejected?)
    decreases |later|
  {
    if later == [] {
      assert events + later == events;
      Invariant(events);
    } else {
      var n := |later| - 1;
      LateAddIsRefused(events, later[..n], id);
      assert (events + later)[..|events + later| - 1] == events + later[..n];
      RefusedStep(Run(events + later[..n]), later[n], id);
    }
  }

  /** An accepted connection stays in the dictionary until its owner removes it, drain or no drain. */
  lemma {:induction false} AcceptedStays(events: seq<Event>, later: seq<Event>, id: nat)
    requires id in Run(events).stages && Run(events).stages[id].Accepted? && RemoveTakes(id) !in later
    ensures var s := Run(events + later); id in s.stages && s.stages[id].Accepted? && id in s.connections
    decreases |later|
  {
    Invariant(events + later);
    if later == [] {
      assert events + later == events;
    } else {
      var n := |later| - 1;
      AcceptedStays(events, later[..n], id);
      assert (events + later)[..|events + later| - 1] == events + later[..n];
      AcceptedStep(Run(events + later[..n]), later[n], id);
    }
  }

  // ---- Whole operations -------------------------------------------------------------------------

  lemma Do(past: seq<Event>, e: Event) returns (events: seq<Event>)
    ensures events == past + [e] && Run(events) == Step(Run(past), e)
  {
    events := past + [e];
    assert events[..|events| - 1] == past;
  }

  /** From every reachable state, an `Add` that nobody interrupts is accepted exactly if no drain has begun. */
  lemma AddIsExact(past: seq<Event>, id: nat) returns (events: seq<Event>)
    requires id !in Run(past).stages
    ensures var s := Run(past);
            Run(events) == if s.draining then s.(stages := s.stages[id := Rejected])
                           else s.(stages := s.stages[id := Accepted], connections := s.connections + {id},
                                   active := s.active + 1)
  {
    events := Do(past, AddChecks(id));
    events := Do(events, AddAdvances(id));
    events := Do(events, AddAdvances(id));
    events := Do(events, AddAdvances(id));
    var s := Run(past);
    assert s.stages[id := Checked][id := Inserted][id := Confirmed][id := Accepted] == s.stages[id := Accepted];
  }

  lemma RemoveIsExact(past: seq<Event>, id: nat) returns (events: seq<Event>)
    requires id in Run(past).stages && Run(past).stages[id].Accepted?
    ensures var s := Run(past);
            Run(events) == s.(stages := s.stages[id := Removed], connections := s.connections - {id},
                              active := s.active - 1)
  {
    Invariant(past);
    assert id in Counted(Run(past).stages);
    events := Do(past, RemoveTakes(id));
    events := Do(events, RemoveRecords(id));
    assert Run(past).stages[id := Removing][id := Removed] == Run(past).stages[id := Removed];
  }

  lemma {:induction false} NotifyAll(past: seq<Event>) returns (events: seq<Event>)
    requires Run(past).notify.Sweeping?
    ensures var s := Run(past);
            Run(events) == s.(notify := Sweeping({}), notified := s.notified + s.notify.remaining)
    decreases |Run(past).notify.remaining|
  {
    var s := Run(past);
    if s.notify.remaining == {} {
      assert s.notified + s.notify.remaining == s.notified;
      return past;
    }
    var id :| id in s.notify.remaining;
    events := Do(past, Notifies(id));
    events := NotifyAll(events);
    assert s.notified + {id} + (s.notify.remaining - {id}) == s.notified + s.notify.remaining;
  }

  lemma {:induction false} CloseAll(past: seq<Event>) returns (events: seq<Event>)
    requires Run(past).close.Sweeping?
    ensures var s := Run(past); Run(events) == s.(close := Sweeping({}), closed := s.closed + s.close.remaining)
    decreases |Run(past).close.remaining|
  {
    var s := Run(past);
    if s.close.remaining == {} {
      assert s.closed + s.close.remaining == s.closed;
      return past;
    }
    var id :| id in s.close.remaining;
    events := Do(past, Closes(id));
    events := CloseAll(events);
    assert s.closed + {id} + (s.close.remaining - {id}) == s.closed + s.close.remaining;
  }

  lemma NotifyCompletes(past: seq<Event>) returns (events: seq<Event>)
    ensures var s, t := Run(past), Run(events);
            && t == s.(draining := true, notify := Sweeping({}), notified := t.notified)
            && (s.notify.NotStarted? ==> t.notified == s.notified + s.connections)
  {
    events := Do(past, BeginDrain);
    events := Do(events, NotifyBegins);
    RunOrderly(past);
    events := NotifyAll(events);
  }

  lemma CloseCompletes(past: seq<Event>) returns (events: seq<Event>)
    requires Run(past).draining && Run(past).notify == Sweeping({})
    ensures var s := Run(past); Run(events) == s.(close := Sweeping({}), closed := s.closed + s.connections)
  {
    events := Do(past, CloseBegins);
    events := Do(events, CloseRestarts);
    events := CloseAll(events);
  }

  /**
   From every reachable state the drain can run to its end by its own steps alone, begun or not, cancelled
   or not: everyone in the dictionary is closed, and everyone admitted was told to restart before.
   */
  lemma DrainCompletes(past: seq<Event>) returns (events: seq<Event>)
    ensures var s, t := Run(past), Run(events);
            && t.draining && t.notify == t.close == Sweeping({})
            && t.connections == s.connections && t.stages == s.stages && t.active == s.active
            && t.closed == s.closed + s.connections && Admitted(s) <= t.notified
            && (s.notify.NotStarted? ==> t.notified == s.notified + s.connections)
  {
    events := NotifyCompletes(past);
    events := CloseCompletes(events);
    Invariant(events);
    assert Admitted(Run(events)) == Admitted(Run(past));
  }
}
