/**
 The client's subscription bookkeeping: what the caller wants, what the server confirmed, and the
 commands still waiting for an answer. Each function is one lock body of the client.
 */
module SubscriptionState {
  import opened Text

  datatype Mutation = Mutation(route: string, subscribe: bool, sequence: nat)

  /** The undo record of the subscription change in progress. */
  datatype Rollback = Rollback(route: string, previous: bool, observed: bool)

  datatype Client = Client(
    desired: set<string>,
    confirmed: set<string>,
    pending: map<string, Mutation>,
    nextSequence: nat,
    rollback: Option<Rollback>)

  const Fresh := Client({}, {}, map[], 0, None)

  function Put(routes: set<string>, route: string, present: bool): set<string> {
    if present then routes + {route} else routes - {route}
  }

  /** Sequence numbers order the pending mutations. */
  ghost predicate Valid(c: Client) {
    && (forall id | id in c.pending :: c.pending[id].sequence <= c.nextSequence)
    && Ordered(c.pending)
  }

  ghost predicate Ordered(pending: map<string, Mutation>) {
    forall a, b | a in pending && b in pending && a != b :: pending[a].sequence != pending[b].sequence
  }

  ghost predicate HasPending(pending: map<string, Mutation>, route: string) {
    exists id :: id in pending && pending[id].route == route
  }

  ghost predicate HasOther(pending: map<string, Mutation>, except: set<string>, route: string) {
    exists id :: id in pending && id !in except && pending[id].route == route
  }

  ghost predicate IsLatest(pending: map<string, Mutation>, route: string, id: string) {
    && id in pending && pending[id].route == route
    && forall other | other in pending && pending[other].route == route ::
         pending[other].sequence <= pending[id].sequence
  }

  /** What the caller's set should say about a route: its latest unanswered command, else the server's word. */
  ghost function Target(pending: map<string, Mutation>, confirmed: set<string>, route: string): bool {
    if exists id :: IsLatest(pending, route, id) then
      var id :| IsLatest(pending, route, id);
      pending[id].subscribe
    else route in confirmed
  }

  /** A pending command decides; there is only one latest one. */
  lemma TargetOfLatest(pending: map<string, Mutation>, confirmed: set<string>, route: string, id: string)
    requires Ordered(pending) && IsLatest(pending, route, id)
    ensures Target(pending, confirmed, route) == pending[id].subscribe
  {
  }

  lemma LatestExists(pending: map<string, Mutation>, route: string) returns (latest: string)
    requires HasPending(pending, route)
    ensures IsLatest(pending, route, latest)
  {
    var ids := set id | id in pending && pending[id].route == route;
    latest :| latest in pending && pending[latest].route == route;
    var seen := {latest};
    while seen != ids
      invariant latest in seen && seen <= ids
      invariant forall id | id in seen :: pending[id].sequence <= pending[latest].sequence
      decreases ids - seen
    {
      assert ids == seen + (ids - seen);
      var id :| id in ids - seen;
      if pending[id].sequence > pending[latest].sequence {
        latest := id;
      }
      seen := seen + {id};
    }
    assert forall id | id in pending && pending[id].route == route :: id in ids;
  }

  /** The target of a route depends only on that route's pending mutations and confirmation. */
  lemma TargetFrame(p: map<string, Mutation>, q: map<string, Mutation>,
                    confirmedP: set<string>, confirmedQ: set<string>, route: string)
    requires Ordered(p) && Ordered(q)
    requires forall id | id in p && p[id].route == route :: id in q && q[id] == p[id]
    requires forall id | id in q && q[id].route == route :: id in p && p[id] == q[id]
    requires route in confirmedP <==> route in confirmedQ
    ensures Target(p, confirmedP, route) == Target(q, confirmedQ, route)
  {
    if HasPending(p, route) {
      var latest := LatestExists(p, route);
      TargetOfLatest(p, confirmedP, route, latest);
      TargetOfLatest(q, confirmedQ, route, latest);
    }
  }

  /** Taking away a mutation that is not the newest of its route changes no target. */
  lemma RemoveKeepsTargets(pending: map<string, Mutation>, confirmed: set<string>, id: string, route: string)
    requires Ordered(pending) && !IsLatest(pending, route, id)
    ensures Target(pending - {id}, confirmed, route) == Target(pending, confirmed, route)
  {
    if HasPending(pending, route) {
      var latest := LatestExists(pending, route);
      TargetOfLatest(pending, confirmed, route, latest);
      assert IsLatest(pending - {id}, route, latest);
      TargetOfLatest(pending - {id}, confirmed, route, latest);
    }
  }

  lemma RemoveCounts(pending: map<string, Mutation>, id: string)
    ensures |pending - {id}| + (if id in pending then 1 else 0) == |pending|
    ensures id !in pending ==> pending - {id} == pending
  {
    if id in pending {
      assert pending.Keys == (pending - {id}).Keys + {id};
    } else {
      assert pending - {id} == pending;
    }
    assert |pending| == |pending.Keys| && |pending - {id}| == |(pending - {id}).Keys|;
  }

  datatype Begin = AlreadySo | LimitReached | Begun(client: Client)

  /** The lock body of `ChangeSubscriptionAsync`: flip the route optimistically and remember how to undo it. */
  function BeginChange(c: Client, route: string, subscribe: bool, maximum: nat): Begin {
    var previous := route in c.desired;
    if previous == subscribe then AlreadySo
    else if subscribe && |c.desired| >= maximum then LimitReached
    else Begun(c.(desired := Put(c.desired, route, subscribe), rollback := Some(Rollback(route, previous, false))))
  }

  function SetDesired(c: Client, route: string, subscribe: bool): Client {
    c.(desired := Put(c.desired, route, subscribe))
  }

  /** `RegisterSubscriptionMutation`; `None` when the id is already pending. */
  function Register(c: Client, id: string, route: string, subscribe: bool): Option<Client> {
    if id in c.pending then None
    else Some(c.(pending := c.pending[id := Mutation(route, subscribe, c.nextSequence + 1)],
                 nextSequence := c.nextSequence + 1))
  }

  function Remove(c: Client, id: string): Client {
    c.(pending := c.pending - {id})
  }

  ghost function Reconcile(c: Client, route: string): Client {
    c.(desired := Put(c.desired, route, Target(c.pending, c.confirmed, route)))
  }

  /** `HandleSubscriptionResponse` for a response whose id is pending. */
  ghost function Handle(c: Client, id: string, ack: bool): Client
    requires id in c.pending
  {
    var mutation := c.pending[id];
    var observed := if c.rollback.Some? && c.rollback.value.route == mutation.route
                    then Some(c.rollback.value.(observed := true)) else c.rollback;
    var confirmed := if ack then Put(c.confirmed, mutation.route, mutation.subscribe) else c.confirmed;
    Reconcile(c.(pending := c.pending - {id}, rollback := observed, confirmed := confirmed), mutation.route)
  }

  /** `RollbackSubscriptionChange` of the active undo record. */
  ghost function UndoChange(c: Client): Client
    requires c.rollback.Some?
  {
    var undo := c.rollback.value;
    var restored := if undo.observed then Reconcile(c, undo.route) else SetDesired(c, undo.route, undo.previous);
    restored.(rollback := None)
  }

  function ClearPending(c: Client): Client {
    c.(pending := map[], confirmed := {})
  }

  /** The client's own fields; one method per lock body. */
  class SubscriptionTable {
    var desired: set<string>
    var confirmed: set<string>
    var pending: map<string, Mutation>
    var nextSequence: nat
    var rollback: Option<Rollback>

    ghost function View(): Client
      reads this
    {
      Client(desired, confirmed, pending, nextSequence, rollback)
    }

    constructor ()
      ensures View() == Fresh && Valid(View())
    {
      desired, confirmed, pending, nextSequence, rollback := {}, {}, map[], 0, None;
    }

    /**
     A begun change flips its own route and no other, stays within the limit, and can be undone: until
     something else happens, `RollbackChange` brings back the set it started from.
     */
    method ApplyChange(route: string, subscribe: bool, maximum: nat) returns (begun: Begin)
      requires Valid(View())
      modifies this
      ensures Valid(View())
      ensures begun.AlreadySo? <==> (route in old(desired) <==> subscribe)
      ensures begun.LimitReached? <==> subscribe && route !in old(desired) && |old(desired)| >= maximum
      ensures !begun.Begun? ==> View() == old(View())
      ensures begun.Begun? ==> begun.client == View() && (route in desired <==> subscribe)
      ensures forall other | other != route :: other in desired <==> other in old(desired)
      ensures |old(desired)| <= maximum ==> |desired| <= maximum
      ensures begun.Begun? ==> rollback.Some? && UndoChange(View()) == old(View()).(rollback := None)
      ensures begun == BeginChange(old(View()), route, subscribe, maximum)
    {
      var previous := route in desired;
      if previous == subscribe {
        return AlreadySo;
      }
      if subscribe {
        if |desired| >= maximum {
          return LimitReached;
        }
        desired := desired + {route};
      } else {
        desired := desired - {route};
      }
      rollback := Some(Rollback(route, previous, false));
      assert Put(desired, route, previous) == old(desired);
      return Begun(Client(desired, confirmed, pending, nextSequence, rollback));
    }

    method RegisterMutation(id: string, route: string, subscribe: bool) returns (registered: bool)
      requires Valid(View())
      modifies this
      ensures Valid(View())
      ensures registered <==> Register(old(View()), id, route, subscribe).Some?
      ensures registered ==> Target(pending, confirmed, route) == subscribe
      ensures registered ==> Remove(View(), id) == old(View()).(nextSequence := nextSequence)
      ensures View() == if registered then Register(old(View()), id, route, subscribe).value else old(View())
    {
      if id in pending {
        return false;
      }
      nextSequence := nextSequence + 1;
      pending := pending[id := Mutation(route, subscribe, nextSequence)];
      assert IsLatest(pending, route, id);
      assert pending - {id} == old(pending);
      return true;
    }

    /**
     The answer says whose slot it is: a removed mutation frees one, a missing one was settled by its
     answer. Only the target of a route whose newest mutation went can change.
     */
    method RemoveMutation(id: string) returns (removed: bool)
      requires Valid(View())
      modifies this`pending
      ensures Valid(View()) && View() == Remove(old(View()), id)
      ensures |pending| + (if removed then 1 else 0) == |old(pending)|
      ensures !removed ==> pending == old(pending)
      ensures forall route | !IsLatest(old(pending), route, id) ::
        Target(pending, confirmed, route) == old(Target(pending, confirmed, route))
    {
      removed := id in pending;
      RemoveCounts(pending, id);
      pending := pending - {id};
      forall route | !IsLatest(old(pending), route, id)
        ensures Target(pending, confirmed, route) == old(Target(pending, confirmed, route))
      {
        RemoveKeepsTargets(old(pending), confirmed, id, route);
      }
    }

    /** Searches the pending mutations of the route for the one with the highest sequence number. */
    method ReconcileDesired(route: string)
      requires Valid(View())
      modifies this`desired
      ensures View() == Reconcile(old(View()), route)
    {
      var latest: Option<string> := None;
      var remaining := pending.Keys;
      while remaining != {}
        invariant remaining <= pending.Keys
        invariant latest.Some? ==> latest.value in pending && pending[latest.value].route == route
        invariant forall id | id in pending.Keys - remaining && pending[id].route == route ::
                    latest.Some? && pending[id].sequence <= pending[latest.value].sequence
        decreases remaining
      {
        var id :| id in remaining;
        if pending[id].route == route && (latest.None? || pending[id].sequence > pending[latest.value].sequence) {
          latest := Some(id);
        }
        remaining := remaining - {id};
      }
      assert forall id | id in pending :: id in pending.Keys - remaining;
      if latest.Some? {
        TargetOfLatest(pending, confirmed, route, latest.value);
        desired := Put(desired, route, pending[latest.value].subscribe);
      } else {
        desired := Put(desired, route, route in confirmed);
      }
    }

    method HandleResponse(id: string, ack: bool) returns (matched: bool)
      requires Valid(View())
      modifies this
      ensures Valid(View())
      ensures matched <==> id in old(pending)
      ensures View() == if matched then Handle(old(View()), id, ack) else old(View())
    {
      if id !in pending {
        return false;
      }
      var mutation := pending[id];
      pending := pending - {id};
      if rollback.Some? && rollback.value.route == mutation.route {
        rollback := Some(rollback.value.(observed := true));
      }
      if ack {
        confirmed := Put(confirmed, mutation.route, mutation.subscribe);
      }
      ReconcileDesired(mutation.route);
      return true;
    }

    method RollbackChange()
      requires Valid(View()) && rollback.Some?
      modifies this
      ensures View() == UndoChange(old(View()))
    {
      var undo := rollback.value;
      if undo.observed {
        ReconcileDesired(undo.route);
      } else {
        desired := Put(desired, undo.route, undo.previous);
      }
      rollback := None;
    }

    /**
     Every slot of a pending mutation is released once. Afterwards nothing is believed of the server,
     while what the caller wants, and the undo record, are kept for the next connection.
     */
    method ClearPendingMutations() returns (released: nat)
      modifies this`pending, this`confirmed
      ensures Valid(View()) && View() == ClearPending(old(View()))
      ensures released + |pending| == |old(pending)|
      ensures forall route :: !HasPending(pending, route) && !Target(pending, confirmed, route)
    {
      released := |pending|;
      pending, confirmed := map[], {};
    }
  }
}
