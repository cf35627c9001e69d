/**
 Outbound queues and gauges of a gateway. Every connection has a queue-accounting lock; the steps
 taken under it are separate here because the channel (taking and completing) and the process-wide
 gauges are shared with other threads that do not hold it.
 */
module ConnectionQueue {
  import opened Text
  import opened Sums

  datatype Config = Config(capacity: nat, maximumSubscriptions: nat)

  /** The holder of the accounting lock, by the step it takes next. */
  datatype Lock =
    | Free
    | Incremented(message: nat)
    | Recorded(message: nat)
    | Decremented
    | Emptied(count: nat)
    | CountsSubscriptions
    | ClearsSubscriptions

  /** `held` is the message the sender took and has not accounted for; the rest are histories. */
  datatype Queue = Queue(channel: seq<nat>, held: Option<nat>, queued: int, completed: bool, disposed: bool)

  datatype Traffic = Traffic(accepted: seq<nat>, taken: seq<nat>)

  /** A subscription change that the gauge has not seen yet. */
  datatype Change = Settled | Added | Removed

  datatype Subscriptions = Subscriptions(keys: set<string>, change: Change)

  datatype Connection = Connection(lock: Lock, queue: Queue, traffic: Traffic, subscriptions: Subscriptions)

  datatype State = State(connections: seq<Connection>, depth: int, activeSubscriptions: int)

  datatype Event =
    | Open
    | EnqueueBegins(id: nat, message: nat, isOpen: bool)
    | LockHolderAdvances(id: nat)
    | SenderTakes(id: nat)
    | SenderAccounts(id: nat)
    | ChannelCompletes(id: nat)
    | DisposeBegins(id: nat)
    | Subscribes(id: nat, key: string)
    | Unsubscribes(id: nat, key: string)
    | GaugeSeesChange(id: nat)

  function Fresh(): Connection {
    Connection(Free, Queue([], None, 0, false, false), Traffic([], []), Subscriptions({}, Settled))
  }

  /** The gauges' guard against negative values. */
  function Clamped(value: int): int {
    if value < 0 then 0 else value
  }

  // ---- Steps ----------------------------------------------------------------------------------

  /** `TryEnqueue` up to the increment; it refuses when the connection is closed or the counter is full. */
  function BeginEnqueue(cfg: Config, c: Connection, message: nat, isOpen: bool): Connection {
    if !c.lock.Free? || !isOpen || c.queue.disposed || c.queue.queued >= cfg.capacity then c
    else c.(lock := Incremented(message), queue := c.queue.(queued := c.queue.queued + 1))
  }

  /** `RemoveQueuedMessage` up to the exchange. */
  function Decrement(c: Connection): Connection {
    if c.queue.queued <= 0 then c.(lock := Free)
    else c.(lock := Decremented, queue := c.queue.(queued := c.queue.queued - 1))
  }

  /** `TryWrite` fails when the channel is completed or full. */
  function Write(cfg: Config, c: Connection, message: nat): Connection {
    if c.queue.completed || |c.queue.channel| >= cfg.capacity then Decrement(c)
    else
      c.(lock := Free, queue := c.queue.(channel := c.queue.channel + [message]),
         traffic := c.traffic.(accepted := c.traffic.accepted + [message]))
  }

  /** A connection after a step, and what the step adds to the two gauges. */
  datatype Effect = Effect(connection: Connection, depth: int, active: int)

  /** The next step under the lock. */
  function Advance(cfg: Config, c: Connection): Effect {
    match c.lock
    case Free => Effect(c, 0, 0)
    case Incremented(m) => Effect(c.(lock := Recorded(m)), 1, 0)
    case Recorded(m) => Effect(Write(cfg, c, m), 0, 0)
    case Decremented => Effect(c.(lock := Free), -1, 0)
    case Emptied(count) => Effect(c.(lock := CountsSubscriptions), 0 - count, 0)
    case CountsSubscriptions => Effect(c.(lock := ClearsSubscriptions), 0, 0 - |c.subscriptions.keys|)
    case ClearsSubscriptions => Effect(c.(lock := Free, subscriptions := c.subscriptions.(keys := {})), 0, 0)
  }

  function TakeMessage(c: Connection): Connection {
    if c.queue.channel == [] || c.queue.held.Some? then c
    else
      c.(queue := c.queue.(channel := c.queue.channel[1..], held := Some(c.queue.channel[0])),
         traffic := c.traffic.(taken := c.traffic.taken + [c.queue.channel[0]]))
  }

  function Account(c: Connection): Connection {
    if !c.lock.Free? || c.queue.held.None? then c else Decrement(c.(queue := c.queue.(held := None)))
  }

  /** Disposal waits for the dispatcher: no subscription change is under way. */
  function Dispose(c: Connection): Connection {
    if !c.lock.Free? || !c.subscriptions.change.Settled? then c
    else
      c.(lock := Emptied(if c.queue.queued < 0 then 0 else c.queue.queued),
         queue := c.queue.(queued := 0, completed := true, disposed := true))
  }

  function Subscribe(cfg: Config, c: Connection, key: string): Connection {
    var s := c.subscriptions;
    if !s.change.Settled? || c.queue.disposed || |s.keys| >= cfg.maximumSubscriptions || key in s.keys then c
    else c.(subscriptions := Subscriptions(s.keys + {key}, Added))
  }

  function Unsubscribe(c: Connection, key: string): Connection {
    var s := c.subscriptions;
    if !s.change.Settled? || c.queue.disposed || key !in s.keys then c
    else c.(subscriptions := Subscriptions(s.keys - {key}, Removed))
  }

  /** One connection's part of an event. */
  function Local(cfg: Config, c: Connection, e: Event): Effect {
    match e
    case EnqueueBegins(_, message, isOpen) => Effect(BeginEnqueue(cfg, c, message, isOpen), 0, 0)
    case LockHolderAdvances(_) => Advance(cfg, c)
    case SenderTakes(_) => Effect(TakeMessage(c), 0, 0)
    case SenderAccounts(_) => Effect(Account(c), 0, 0)
    case ChannelCompletes(_) => Effect(c.(queue := c.queue.(completed := true)), 0, 0)
    case DisposeBegins(_) => Effect(Dispose(c), 0, 0)
    case Subscribes(_, key) => Effect(Subscribe(cfg, c, key), 0, 0)
    case Unsubscribes(_, key) => Effect(Unsubscribe(c, key), 0, 0)
    case GaugeSeesChange(_) =>
      Effect(c.(subscriptions := c.subscriptions.(change := Settled)), 0,
             match c.subscriptions.change case Settled => 0 case Added => 1 case Removed => -1)
    case Open => Effect(c, 0, 0)
  }

  function Step(cfg: Config, s: State, e: Event): State {
    if e.Open? then s.(connections := s.connections + [Fresh()])
    else if e.id >= |s.connections| then s
    else
      var effect := Local(cfg, s.connections[e.id], e);
      State(s.connections[e.id := effect.connection], Clamped(s.depth + effect.depth),
            Clamped(s.activeSubscriptions + effect.active))
  }

  function Run(cfg: Config, events: seq<Event>): State {
    if events == [] then State([], 0, 0)
    else Step(cfg, Run(cfg, events[..|events| - 1]), events[|events| - 1])
  }

  // ---- Invariant ------------------------------------------------------------------------------

  function Held(c: Connection): nat {
    if c.queue.held.Some? then 1 else 0
  }

  ghost predicate Accounted(cfg: Config, c: Connection) {
    var entering := if c.lock.Incremented? || c.lock.Recorded? then 1 else 0;
    && 0 <= c.queue.queued <= cfg.capacity
    && (c.queue.disposed ==> c.queue.queued == 0 && c.queue.completed && entering == 0)
    && (!c.queue.disposed ==> c.queue.queued == |c.queue.channel| + Held(c) + entering)
    && (c.lock.Emptied? || c.lock.CountsSubscriptions? || c.lock.ClearsSubscriptions? ==>
          c.queue.disposed && c.subscriptions.change.Settled?)
    && c.traffic.accepted == c.traffic.taken + c.queue.channel
    && |c.subscriptions.keys| <= cfg.maximumSubscriptions
    && (c.subscriptions.change.Added? ==> c.subscriptions.keys != {})
  }

  /** What this connection contributes to the depth gauge. */
  function DepthShare(c: Connection): int {
    c.queue.queued + match c.lock
                     case Incremented(_) => -1
                     case Decremented => 1
                     case Emptied(count) => count
                     case _ => 0
  }

  function SubscriptionShare(c: Connection): int {
    if c.lock.ClearsSubscriptions? then 0
    else |c.subscriptions.keys| + match c.subscriptions.change case Settled => 0 case Added => -1 case Removed => 1
  }

  ghost predicate Good(cfg: Config, s: State) {
    && AllAccounted(cfg, s.connections)
    && s.depth == Sum(DepthShare, s.connections)
    && s.activeSubscriptions == Sum(SubscriptionShare, s.connections)
  }

  /** The connection stays accounted and the gauges move by exactly the change of its shares. */
  ghost predicate Keeps(cfg: Config, c: Connection, effect: Effect) {
    && Accounted(cfg, effect.connection)
    && DepthShare(effect.connection) == DepthShare(c) + effect.depth
    && SubscriptionShare(effect.connection) == SubscriptionShare(c) + effect.active
  }

  lemma AdvanceKeeps(cfg: Config, c: Connection)
    requires Accounted(cfg, c)
    ensures Keeps(cfg, c, Advance(cfg, c))
  {
  }

  lemma QueueKeeps(cfg: Config, c: Connection, message: nat, isOpen: bool)
    requires Accounted(cfg, c)
    ensures Keeps(cfg, c, Effect(BeginEnqueue(cfg, c, message, isOpen), 0, 0))
    ensures Keeps(cfg, c, Effect(TakeMessage(c), 0, 0)) && Keeps(cfg, c, Effect(Account(c), 0, 0))
  {
  }

  lemma DisposeKeeps(cfg: Config, c: Connection)
    requires Accounted(cfg, c)
    ensures Keeps(cfg, c, Effect(Dispose(c), 0, 0))
    ensures Keeps(cfg, c, Effect(c.(queue := c.queue.(completed := true)), 0, 0))
  {
  }

  lemma SubscriptionsKeep(cfg: Config, c: Connection, e: Event)
    requires Accounted(cfg, c) && (e.Subscribes? || e.Unsubscribes? || e.GaugeSeesChange?)
    ensures Keeps(cfg, c, Local(cfg, c, e))
  {
  }

  lemma LocalKeeps(cfg: Config, c: Connection, e: Event)
    requires Accounted(cfg, c) && !e.Open?
    ensures Keeps(cfg, c, Local(cfg, c, e))
  {
    if e.LockHolderAdvances? {
      AdvanceKeeps(cfg, c);
    } else if e.EnqueueBegins? {
      QueueKeeps(cfg, c, e.message, e.isOpen);
    } else if e.SenderTakes? || e.SenderAccounts? {
      QueueKeeps(cfg, c, 0, false);
    } else if e.DisposeBegins? || e.ChannelCompletes? {
      DisposeKeeps(cfg, c);
    } else {
      SubscriptionsKeep(cfg, c, e);
    }
  }

  lemma SharesAreNatural(cfg: Config, c: Connection)
    requires Accounted(cfg, c)
    ensures DepthShare(c) >= 0 && SubscriptionShare(c) >= 0
  {
  }

  ghost predicate AllAccounted(cfg: Config, connections: seq<Connection>) {
    forall c | c in connections :: Accounted(cfg, c)
  }

  lemma UpdateAccounted(cfg: Config, connections: seq<Connection>, i: nat, c: Connection)
    requires AllAccounted(cfg, connections) && i < |connections| && Accounted(cfg, c)
    ensures AllAccounted(cfg, connections[i := c])
  {
  }

  lemma SumsAreNatural(cfg: Config, connections: seq<Connection>, i: nat)
    requires AllAccounted(cfg, connections) && i < |connections|
    ensures Sum(DepthShare, connections) >= 0 && Sum(SubscriptionShare, connections) >= 0
  {
    forall c | c in connections
      ensures DepthShare(c) >= 0 && SubscriptionShare(c) >= 0
    {
      SharesAreNatural(cfg, c);
    }
    SumAtLeast(DepthShare, connections, i);
    SumAtLeast(SubscriptionShare, connections, i);
  }

  /** Replacing one connection by its successor moves both sums by what the step adds to the gauges. */
  lemma SumsFollow(cfg: Config, connections: seq<Connection>, e: Event)
    requires AllAccounted(cfg, connections) && !e.Open? && e.id < |connections|
    ensures var effect := Local(cfg, connections[e.id], e);
            var after := connections[e.id := effect.connection];
            && AllAccounted(cfg, after)
            && Sum(DepthShare, after) == Sum(DepthShare, connections) + effect.depth >= 0
            && Sum(SubscriptionShare, after) == Sum(SubscriptionShare, connections) + effect.active >= 0
  {
    var effect := Local(cfg, connections[e.id], e);
    assert connections[e.id] in connections;
    LocalKeeps(cfg, connections[e.id], e);
    UpdateAccounted(cfg, connections, e.id, effect.connection);
    SumUpdate(DepthShare, connections, e.id, effect.connection);
    SumUpdate(SubscriptionShare, connections, e.id, effect.connection);
    SumsAreNatural(cfg, connections[e.id := effect.connection], e.id);
  }

  lemma StepKeeps(cfg: Config, s: State, e: Event)
    requires Good(cfg, s)
    ensures Good(cfg, Step(cfg, s, e))
  {
    if e.Open? {
      OpenKeeps(cfg, s.connections);
    } else if e.id < |s.connections| {
      SumsFollow(cfg, s.connections, e);
    }
  }

  lemma OpenKeeps(cfg: Config, connections: seq<Connection>)
    requires AllAccounted(cfg, connections)
    ensures AllAccounted(cfg, connections + [Fresh()])
    ensures Sum(DepthShare, connections + [Fresh()]) == Sum(DepthShare, connections)
    ensures Sum(SubscriptionShare, connections + [Fresh()]) == Sum(SubscriptionShare, connections)
  {
    SumAppend(DepthShare, connections, Fresh());
    SumAppend(SubscriptionShare, connections, Fresh());
  }

  lemma {:induction false} Invariant(cfg: Config, events: seq<Event>)
    ensures Good(cfg, Run(cfg, events))
  {
    if events != [] {
      Invariant(cfg, events[..|events| - 1]);
      StepKeeps(cfg, Run(cfg, events[..|events| - 1]), events[|events| - 1]);
    }
  }

  // ---- Results --------------------------------------------------------------------------------

  /** Messages a connection still answers for: none once it is disposed. */
  function Outstanding(c: Connection): int {
    if c.queue.disposed then 0 else |c.queue.channel| + Held(c)
  }

  function Subscribed(c: Connection): int {
    |c.subscriptions.keys|
  }

  ghost predicate AtRest(s: State) {
    forall c | c in s.connections :: c.lock.Free? && c.subscriptions.change.Settled?
  }

  /**
   In every run the gauges are exact: no step takes them below zero, so their guards never act, and
   whenever no step is half done they equal the messages and subscriptions the connections hold.
   */
  lemma GaugesAreExact(cfg: Config, events: seq<Event>, e: Event)
    ensures var s := Run(cfg, events);
            && (!e.Open? && e.id < |s.connections| ==>
                  var effect := Local(cfg, s.connections[e.id], e);
                  s.depth + effect.depth >= 0 && s.activeSubscriptions + effect.active >= 0)
            && (AtRest(s) ==>
                  s.depth == Sum(Outstanding, s.connections) && s.activeSubscriptions == Sum(Subscribed, s.connections))
  {
    var s := Run(cfg, events);
    Invariant(cfg, events);
    if !e.Open? && e.id < |s.connections| {
      SumsFollow(cfg, s.connections, e);
    }
    if AtRest(s) {
      SumSame(DepthShare, Outstanding, s.connections);
      SumSame(SubscriptionShare, Subscribed, s.connections);
    }
  }

  /**
   In every run a connection's counter is its unaccounted messages, within the capacity; the sender
   takes exactly the accepted messages in order; and a write fails only on a completed channel.
   */
  lemma QueueIsExact(cfg: Config, events: seq<Event>, id: nat)
    requires id < |Run(cfg, events).connections|
    ensures var c := Run(cfg, events).connections[id];
            && 0 <= c.queue.queued <= cfg.capacity && |c.subscriptions.keys| <= cfg.maximumSubscriptions
            && c.traffic.accepted == c.traffic.taken + c.queue.channel
            && (c.lock.Free? ==> c.queue.queued == Outstanding(c))
            && (c.lock.Recorded? && !c.queue.completed ==>
                  Write(cfg, c, c.lock.message).traffic.accepted == c.traffic.accepted + [c.lock.message])
  {
    Invariant(cfg, events);
    assert Run(cfg, events).connections[id] in Run(cfg, events).connections;
  }

  // ---- Whole operations -------------------------------------------------------------------------

  lemma Do(cfg: Config, past: seq<Event>, e: Event) returns (events: seq<Event>)
    requires !e.Open? && e.id < |Run(cfg, past).connections|
    ensures events == past + [e]
    ensures var c := Run(cfg, past).connections[e.id];
            Run(cfg, events).connections == Run(cfg, past).connections[e.id := Local(cfg, c, e).connection]
  {
    events := past + [e];
    assert events[..|events| - 1] == past;
  }

  /** Nobody works on the connection. */
  predicate IsIdle(c: Connection) {
    c.lock.Free? && c.subscriptions.change.Settled?
  }

  /** Only this connection has changed, and it is idle again. */
  ghost predicate Leads(cfg: Config, past: seq<Event>, events: seq<Event>, id: nat, d: Connection) {
    && id < |Run(cfg, past).connections| && IsIdle(d)
    && Run(cfg, events).connections == Run(cfg, past).connections[id := d]
  }

  /**
   In every state of every run, an enqueue that nobody interrupts takes its message exactly if the
   connection is open, not disposed or completed, and holds fewer messages than its capacity; the message
   then stands last. Otherwise it changes nothing.
   */
  lemma EnqueueIsExact(cfg: Config, past: seq<Event>, id: nat, message: nat, isOpen: bool)
    returns (events: seq<Event>, d: Connection)
    requires id < |Run(cfg, past).connections| && IsIdle(Run(cfg, past).connections[id])
    ensures Leads(cfg, past, events, id, d)
    ensures var c := Run(cfg, past).connections[id];
            var fits := isOpen && !c.queue.disposed && !c.queue.completed && |c.queue.channel| + Held(c) < cfg.capacity;
            && (!fits ==> d == c)
            && (fits ==> d == c.(queue := c.queue.(channel := c.queue.channel + [message],
                                                   queued := c.queue.queued + 1),
                                 traffic := c.traffic.(accepted := c.traffic.accepted + [message])))
  {
    Invariant(cfg, past);
    var c := Run(cfg, past).connections[id];
    assert Accounted(cfg, c);
    events := Do(cfg, past, EnqueueBegins(id, message, isOpen));
    events := Do(cfg, events, LockHolderAdvances(id));
    events := Do(cfg, events, LockHolderAdvances(id));
    events := Do(cfg, events, LockHolderAdvances(id));
    d := Run(cfg, events).connections[id];
  }

  /** The sender takes the oldest message and gives its place back. */
  lemma SendIsExact(cfg: Config, past: seq<Event>, id: nat) returns (events: seq<Event>, d: Connection)
    requires id < |Run(cfg, past).connections| && IsIdle(Run(cfg, past).connections[id])
    requires Run(cfg, past).connections[id].queue.held.None?
    ensures Leads(cfg, past, events, id, d)
    ensures var c := Run(cfg, past).connections[id];
            if c.queue.channel == [] then d == c
            else d == c.(queue := c.queue.(channel := c.queue.channel[1..],
                                           queued := if c.queue.disposed then 0 else c.queue.queued - 1),
                         traffic := c.traffic.(taken := c.traffic.taken + [c.queue.channel[0]]))
  {
    Invariant(cfg, past);
    assert Accounted(cfg, Run(cfg, past).connections[id]);
    events := Do(cfg, past, SenderTakes(id));
    events := Do(cfg, events, SenderAccounts(id));
    events := Do(cfg, events, LockHolderAdvances(id));
    d := Run(cfg, events).connections[id];
  }

  /** Disposal empties the counter and the table and completes the channel. */
  lemma DisposeIsExact(cfg: Config, past: seq<Event>, id: nat) returns (events: seq<Event>, d: Connection)
    requires id < |Run(cfg, past).connections| && IsIdle(Run(cfg, past).connections[id])
    ensures Leads(cfg, past, events, id, d)
    ensures var c := Run(cfg, past).connections[id];
            d == c.(queue := c.queue.(queued := 0, completed := true, disposed := true),
                    subscriptions := Subscriptions({}, Settled))
  {
    events := Do(cfg, past, DisposeBegins(id));
    events := Do(cfg, events, LockHolderAdvances(id));
    events := Do(cfg, events, LockHolderAdvances(id));
    events := Do(cfg, events, LockHolderAdvances(id));
    d := Run(cfg, events).connections[id];
  }

  /**
   A subscription is new, fits the limit and comes to a connection not disposed, or changes nothing; an
   unsubscription takes the key away from a connection not disposed.
   */
  lemma SubscriptionIsExact(cfg: Config, past: seq<Event>, id: nat, key: string, subscribe: bool)
    returns (events: seq<Event>, d: Connection)
    requires id < |Run(cfg, past).connections| && IsIdle(Run(cfg, past).connections[id])
    ensures Leads(cfg, past, events, id, d)
    ensures var c := Run(cfg, past).connections[id];
            var keys := if c.queue.disposed then c.subscriptions.keys
                        else if !subscribe then c.subscriptions.keys - {key}
                        else if |c.subscriptions.keys| < cfg.maximumSubscriptions then c.subscriptions.keys + {key}
                        else c.subscriptions.keys;
            d == c.(subscriptions := Subscriptions(keys, Settled))
  {
    var c := Run(cfg, past).connections[id];
    assert key in c.subscriptions.keys ==> c.subscriptions.keys + {key} == c.subscriptions.keys;
    assert key !in c.subscriptions.keys ==> c.subscriptions.keys - {key} == c.subscriptions.keys;
    events := Do(cfg, past, if subscribe then Subscribes(id, key) else Unsubscribes(id, key));
    events := Do(cfg, events, GaugeSeesChange(id));
    d := Run(cfg, events).connections[id];
  }

  /** A new connection starts empty. */
  lemma OpenIsExact(cfg: Config, past: seq<Event>)
    ensures Run(cfg, past + [Open]).connections == Run(cfg, past).connections + [Fresh()]
    ensures IsIdle(Fresh()) && Outstanding(Fresh()) == Subscribed(Fresh()) == 0
  {
    assert (past + [Open])[..|past|] == past;
  }

  // ---- What is accepted -------------------------------------------------------------------------

  /** What a connection took, or is about to, was offered to it while it was open. */
  ghost predicate IsOffered(events: seq<Event>, id: nat, c: Connection) {
    && (forall m | m in c.traffic.accepted :: EnqueueBegins(id, m, true) in events)
    && (c.lock.Incremented? || c.lock.Recorded? ==> EnqueueBegins(id, c.lock.message, true) in events)
  }

  lemma LocalOffered(cfg: Config, events: seq<Event>, e: Event, c: Connection)
    requires !e.Open? && IsOffered(events, e.id, c) && e in events
    ensures IsOffered(events, e.id, Local(cfg, c, e).connection)
  {
  }

  lemma OfferedLater(past: seq<Event>, e: Event, id: nat, c: Connection)
    requires IsOffered(past, id, c)
    ensures IsOffered(past + [e], id, c)
  {
  }

  /** In every run, every message a connection accepted was offered to it while it was open. */
  lemma {:induction false} AcceptedWhileOpen(cfg: Config, events: seq<Event>, id: nat)
    requires id < |Run(cfg, events).connections|
    ensures IsOffered(events, id, Run(cfg, events).connections[id])
  {
    if events == [] {
    } else {
      var past, e := events[..|events| - 1], events[|events| - 1];
      var s := Run(cfg, past);
      assert events == past + [e];
      if id < |s.connections| {
        AcceptedWhileOpen(cfg, past, id);
        OfferedLater(past, e, id, s.connections[id]);
        if !e.Open? && e.id == id {
          LocalOffered(cfg, events, e, s.connections[id]);
        }
      }
    }
  }

  /** Once its channel is completed, a connection accepts nothing more, whatever happens later. */
  lemma {:induction false} CompletedAcceptsNothing(cfg: Config, past: seq<Event>, id: nat, later: seq<Event>)
    requires id < |Run(cfg, past).connections|
    ensures var s, t := Run(cfg, past), Run(cfg, past + [ChannelCompletes(id)] + later);
            && id < |t.connections| && t.connections[id].queue.completed
            && t.connections[id].traffic.accepted == s.connections[id].traffic.accepted
    decreases |later|
  {
    var events := past + [ChannelCompletes(id)];
    if later == [] {
      assert events + later == events && events[..|past|] == past;
    } else {
      var n := |later| - 1;
      CompletedAcceptsNothing(cfg, past, id, later[..n]);
      assert (events + later)[..|events + later| - 1] == events + later[..n];
      CompletedStep(cfg, Run(cfg, events + later[..n]), later[n], id);
    }
  }

  lemma CompletedStep(cfg: Config, s: State, e: Event, id: nat)
    requires id < |s.connections| && s.connections[id].queue.completed
    ensures var t := Step(cfg, s, e);
            && id < |t.connections| && t.connections[id].queue.completed
            && t.connections[id].traffic.accepted == s.connections[id].traffic.accepted
  {
  }
}
