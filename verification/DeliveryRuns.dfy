/**
 The life of one connection: subscriptions, identity refreshes, and any number of deliveries at once.
 A delivery awaits the session store between its two checks and queues in a third step, so a
 subscription or an identity may change in between.
 */
module DeliveryRuns {
  import opened Text
  import opened Routes
  import opened Delivery

  /** `handshake` is the principal the connection was accepted with. */
  datatype Config = Config(
    letter: char -> bool, limits: Limits, maximumSubscriptions: nat, handshake: Principal, bySession: bool)

  /** A delivery that passed its first check as `held`, or its second one. */
  datatype Task = Asked(message: BusMessage, held: Principal) | Checked(message: BusMessage)

  /** `texts`: what the client subscribed with. `log`: everything ever queued, of which `sent` were sent. */
  datatype State = State(
    connection: Connection, texts: set<string>, tasks: map<nat, Task>, log: seq<BusMessage>, sent: nat)

  datatype Event =
    | Subscribe(text: string)
    | Unsubscribe(text: string)
    | Refresh(answer: Answer, now: int)
    | DeliveryAsks(task: nat, message: BusMessage)
    | DeliveryChecks(task: nat, answer: Answer, now: int)
    | DeliveryQueues(task: nat)
    | SenderTakes

  function Initial(cfg: Config): State {
    State(Connection(cfg.handshake, cfg.bySession, {}, true, [], 0, false, None), {}, map[], [], 0)
  }

  // ---- Steps ----------------------------------------------------------------------------------

  function StepSubscribe(cfg: Config, s: State, text: string): State {
    var c := s.connection;
    var route := TryAuthorize(cfg.letter, c.principal.identity, text);
    if route.None? || |c.keys| >= cfg.maximumSubscriptions || SubscriptionKey(route.value) in c.keys then s
    else s.(connection := c.(keys := c.keys + {SubscriptionKey(route.value)}), texts := s.texts + {text})
  }

  function StepUnsubscribe(cfg: Config, s: State, text: string): State {
    var c := s.connection;
    var route := TryAuthorize(cfg.letter, c.principal.identity, text);
    if route.None? then s
    else s.(connection := c.(keys := c.keys - {SubscriptionKey(route.value)}),
            texts := set t | t in s.texts && Resolve(cfg.letter, t) != route)
  }

  /** The revalidation before a command and at every heartbeat. */
  function StepRefresh(s: State, answer: Answer, now: int): State {
    var c := s.connection;
    var inForce := InForce(c, answer);
    if inForce.None? then s.(connection := Closed(c, if answer.Unavailable? then AuthenticationUnavailable
                                                     else AuthenticationExpired))
    else if now >= inForce.value.expiresAt then
      s.(connection := Closed(c.(principal := inForce.value), AuthenticationExpired))
    else s.(connection := c.(principal := inForce.value))
  }

  function StepAsk(s: State, task: nat, m: BusMessage): State {
    if task in s.tasks || !IsPotentialRecipient(s.connection.keys, s.connection.principal.identity, m) then s
    else s.(tasks := s.tasks[task := Asked(m, s.connection.principal)])
  }

  /** Everything between the answer of the session store and the second check, under the principal read first. */
  function Check(c: Connection, held: Principal, answer: Answer, now: int): Connection {
    var inForce := Revalidated(c.bySession, held, answer);
    if inForce.None? then Closed(c, if answer.Unavailable? then AuthenticationUnavailable else AuthenticationExpired)
    else
      var refreshed := if c.bySession then c.(principal := inForce.value) else c;
      if now >= inForce.value.expiresAt then Closed(refreshed, AuthenticationExpired) else refreshed
  }

  predicate Passes(c: Connection, held: Principal, m: BusMessage, answer: Answer, now: int) {
    var inForce := Revalidated(c.bySession, held, answer);
    inForce.Some? && now < inForce.value.expiresAt && IsPotentialRecipient(c.keys, inForce.value.identity, m)
  }

  function StepCheck(s: State, task: nat, answer: Answer, now: int): State {
    if task !in s.tasks || !s.tasks[task].Asked? then s
    else
      var held, m := s.tasks[task].held, s.tasks[task].message;
      s.(connection := Check(s.connection, held, answer, now),
         tasks := if Passes(s.connection, held, m, answer, now) then s.tasks[task := Checked(m)] else s.tasks - {task})
  }

  predicate Accepts(limits: Limits, c: Connection) {
    c.isOpen && |c.queue| < limits.capacity
  }

  /** `TryEnqueue`, and the slow-consumer decision when it fails. */
  function Offer(limits: Limits, c: Connection, m: BusMessage): Connection {
    var d := Enqueued(limits, c, RouteText(m));
    if !Accepts(limits, c) && d.strikes >= limits.strikeLimit && !d.slowRecorded
    then Closed(d.(slowRecorded := true), SlowConsumer) else d
  }

  function StepQueue(cfg: Config, s: State, task: nat): State {
    if task !in s.tasks || !s.tasks[task].Checked? then s
    else
      var m := s.tasks[task].message;
      s.(connection := Offer(cfg.limits, s.connection, m), tasks := s.tasks - {task},
         log := if Accepts(cfg.limits, s.connection) then s.log + [m] else s.log)
  }

  function StepTake(s: State): State {
    if s.connection.queue == [] then s
    else s.(connection := s.connection.(queue := s.connection.queue[1..]), sent := s.sent + 1)
  }

  function Step(cfg: Config, s: State, e: Event): State {
    match e
    case Subscribe(text) => StepSubscribe(cfg, s, text)
    case Unsubscribe(text) => StepUnsubscribe(cfg, s, text)
    case Refresh(answer, now) => StepRefresh(s, answer, now)
    case DeliveryAsks(task, message) => StepAsk(s, task, message)
    case DeliveryChecks(task, answer, now) => StepCheck(s, task, answer, now)
    case DeliveryQueues(task) => StepQueue(cfg, s, task)
    case SenderTakes => StepTake(s)
  }

  function Run(cfg: Config, events: seq<Event>): State {
    if events == [] then Initial(cfg)
    else Step(cfg, Run(cfg, events[..|events| - 1]), events[|events| - 1])
  }

  /** Without interleaving the three steps of a delivery are the loop body of `DeliverAsync`. */
  lemma UninterruptedDelivery(limits: Limits, c: Connection, m: BusMessage, answer: Answer, now: int)
    ensures var checked := Check(c, c.principal, answer, now);
            Served(limits, c,
                   if !IsPotentialRecipient(c.keys, c.principal.identity, m) then c
                   else if !Passes(c, c.principal, m, answer, now) then checked
                   else Offer(limits, checked, m),
                   m, answer, now)
  {
  }

  // ---- Invariants -----------------------------------------------------------------------------

  ghost predicate SamePerson(cfg: Config, p: Principal) {
    && p.identity.tenantId == cfg.handshake.identity.tenantId && p.identity.userId == cfg.handshake.identity.userId
    && (!cfg.bySession ==> p == cfg.handshake)
  }

  /** Tenant, user and session kind are those of the handshake, for the connection and every delivery under way. */
  ghost predicate Steady(cfg: Config, s: State) {
    && s.connection.bySession == cfg.bySession && SamePerson(cfg, s.connection.principal)
    && forall k | k in s.tasks && s.tasks[k].Asked? :: SamePerson(cfg, s.tasks[k].held)
  }

  lemma SteadyStep(cfg: Config, s: State, e: Event)
    requires Steady(cfg, s)
    ensures Steady(cfg, Step(cfg, s, e))
  {
  }

  ghost predicate Holds(cfg: Config, s: State) {
    SubscribedTo(cfg.letter, cfg.handshake.identity.userId, s.connection.keys, s.texts)
  }

  lemma HoldsSubscribe(cfg: Config, s: State, text: string)
    requires Steady(cfg, s) && Holds(cfg, s)
    ensures Holds(cfg, StepSubscribe(cfg, s, text))
  {
    var t := StepSubscribe(cfg, s, text);
    forall key | key in t.connection.keys
      ensures exists x :: x in t.texts && SubscriptionKey(Resolve(cfg.letter, x).value) == key
    {
      if key in s.connection.keys {
        var x :| x in s.texts && SubscriptionKey(Resolve(cfg.letter, x).value) == key;
        assert x in t.texts;
      } else {
        assert text in t.texts;
      }
    }
  }

  lemma HoldsUnsubscribe(cfg: Config, s: State, text: string)
    requires Letters(cfg.letter) && Holds(cfg, s)
    ensures Holds(cfg, StepUnsubscribe(cfg, s, text))
  {
    var t := StepUnsubscribe(cfg, s, text);
    if TryAuthorize(cfg.letter, s.connection.principal.identity, text).Some? {
      var removed := SubscriptionKey(Resolve(cfg.letter, text).value);
      forall x | x in s.texts
        ensures SubscriptionKey(Resolve(cfg.letter, x).value) == removed
                <==> Resolve(cfg.letter, x) == Resolve(cfg.letter, text)
      {
        KeysAreInjective(cfg.letter, x, text);
      }
      forall key | key in t.connection.keys
        ensures exists x :: x in t.texts && SubscriptionKey(Resolve(cfg.letter, x).value) == key
      {
        var x :| x in s.texts && SubscriptionKey(Resolve(cfg.letter, x).value) == key;
        assert x in t.texts;
      }
    }
  }

  /** No other step touches the table or the texts. */
  lemma TableKept(cfg: Config, s: State, e: Event)
    requires !e.Subscribe? && !e.Unsubscribe?
    ensures Step(cfg, s, e).connection.keys == s.connection.keys && Step(cfg, s, e).texts == s.texts
  {
  }

  function Texts(messages: seq<BusMessage>): seq<string> {
    seq(|messages|, i requires 0 <= i < |messages| => RouteText(messages[i]))
  }

  ghost predicate Queued(s: State) {
    s.sent <= |s.log| && s.connection.queue == Texts(s.log[s.sent..])
  }

  lemma QueuedStep(cfg: Config, s: State, e: Event)
    requires Queued(s)
    ensures Queued(Step(cfg, s, e))
  {
    var t := Step(cfg, s, e);
    if e.DeliveryQueues? && t.log != s.log {
      assert t.log[t.sent..] == s.log[s.sent..] + [t.log[|s.log|]];
    } else if e.SenderTakes? {
    } else {
      assert t.connection.queue == s.connection.queue && t.log == s.log && t.sent == s.sent;
    }
  }

  ghost predicate Inv(cfg: Config, s: State) {
    Steady(cfg, s) && Holds(cfg, s) && Queued(s)
  }

  lemma InvStep(cfg: Config, s: State, e: Event)
    requires Letters(cfg.letter) && Inv(cfg, s)
    ensures Inv(cfg, Step(cfg, s, e))
  {
    SteadyStep(cfg, s, e);
    QueuedStep(cfg, s, e);
    if e.Subscribe? {
      HoldsSubscribe(cfg, s, e.text);
    } else if e.Unsubscribe? {
      HoldsUnsubscribe(cfg, s, e.text);
    } else {
      TableKept(cfg, s, e);
    }
  }

  lemma {:induction false} Invariant(cfg: Config, events: seq<Event>)
    requires Letters(cfg.letter)
    ensures Inv(cfg, Run(cfg, events))
  {
    if events == [] {
    } else {
      Invariant(cfg, events[..|events| - 1]);
      InvStep(cfg, Run(cfg, events[..|events| - 1]), events[|events| - 1]);
    }
  }

  // ---- One delivery through the run -----------------------------------------------------------

  /** The state before event `n`. */
  ghost function Before(cfg: Config, events: seq<Event>, n: nat): State
    requires n <= |events|
  {
    Run(cfg, events[..n])
  }

  lemma BeforeNext(cfg: Config, events: seq<Event>, n: nat)
    requires n < |events|
    ensures Before(cfg, events, n + 1) == Step(cfg, Before(cfg, events, n), events[n])
  {
    assert events[..n + 1][..n] == events[..n];
  }

  lemma BeforeFirst(cfg: Config, events: seq<Event>)
    ensures Before(cfg, events, 0) == Initial(cfg)
  {
    assert events[..0] == [];
  }

  /** Tenant, user, topic and subscription, as they are now. */
  predicate Recipient(s: State, m: BusMessage) {
    IsPotentialRecipient(s.connection.keys, s.connection.principal.identity, m)
  }

  /** Event `a` starts a delivery of `m`: its first check finds the connection a recipient. */
  ghost predicate BeginsAt(cfg: Config, events: seq<Event>, a: nat, task: nat, m: BusMessage)
    requires a < |events|
  {
    && events[a] == DeliveryAsks(task, m) && task !in Before(cfg, events, a).tasks
    && Recipient(Before(cfg, events, a), m)
  }

  /** Event `b` is the second check of that delivery, and leaves the connection a recipient. */
  ghost predicate PassesAt(cfg: Config, events: seq<Event>, b: nat, task: nat, m: BusMessage)
    requires b < |events|
  {
    var s, e := Before(cfg, events, b), events[b];
    && e.DeliveryChecks? && e.task == task && task in s.tasks && s.tasks[task].Asked? && s.tasks[task].message == m
    && Passes(s.connection, s.tasks[task].held, m, e.answer, e.now)
    && Recipient(Before(cfg, events, b + 1), m)
  }

  /** Between `a` and `n` the delivery has queued nothing. */
  ghost predicate Waits(cfg: Config, events: seq<Event>, a: nat, n: nat, task: nat)
    requires n <= |events|
  {
    forall k | a < k < n && events[k] == DeliveryQueues(task) ::
      Before(cfg, events, k + 1) == Before(cfg, events, k)
  }

  ghost predicate AskedSince(cfg: Config, events: seq<Event>, a: nat, n: nat, task: nat, m: BusMessage)
    requires n <= |events|
  {
    a < n && BeginsAt(cfg, events, a, task, m) && Waits(cfg, events, a, n, task)
  }

  ghost predicate CheckedSince(cfg: Config, events: seq<Event>, a: nat, b: nat, n: nat, task: nat, m: BusMessage)
    requires n <= |events|
  {
    a < b < n && AskedSince(cfg, events, a, n, task, m) && PassesAt(cfg, events, b, task, m)
  }

  /** Every delivery under way has its beginning, and its check if it passed one. */
  ghost predicate Traced(cfg: Config, events: seq<Event>, n: nat, task: nat)
    requires n <= |events| && task in Before(cfg, events, n).tasks
  {
    match Before(cfg, events, n).tasks[task]
    case Asked(m, _) => exists a :: AskedSince(cfg, events, a, n, task, m)
    case Checked(m) => exists a, b :: CheckedSince(cfg, events, a, b, n, task, m)
  }

  /** A check that passes shows the connection itself, as it then is, to be a recipient. */
  lemma PassedIsRecipient(cfg: Config, s: State, task: nat, answer: Answer, now: int)
    requires Steady(cfg, s) && task in s.tasks && s.tasks[task].Asked?
    requires Passes(s.connection, s.tasks[task].held, s.tasks[task].message, answer, now)
    ensures Recipient(StepCheck(s, task, answer, now), s.tasks[task].message)
  {
  }

  /** Where a task comes from: it was there, it was just started, or it just passed its check. */
  lemma TaskOrigin(cfg: Config, s: State, e: Event, task: nat)
    requires task in Step(cfg, s, e).tasks
    ensures var t := Step(cfg, s, e);
            || (task in s.tasks && s.tasks[task] == t.tasks[task] && (e == DeliveryQueues(task) ==> t == s))
            || (task !in s.tasks && t.tasks[task].Asked? && e == DeliveryAsks(task, t.tasks[task].message)
                && Recipient(s, t.tasks[task].message))
            || (task in s.tasks && s.tasks[task].Asked? && t.tasks[task] == Checked(s.tasks[task].message)
                && e.DeliveryChecks? && e.task == task
                && Passes(s.connection, s.tasks[task].held, s.tasks[task].message, e.answer, e.now))
  {
  }

  /** What a step queues: the message of a delivery that passed its check. */
  lemma LogOrigin(cfg: Config, s: State, e: Event)
    ensures var t := Step(cfg, s, e);
            || t.log == s.log
            || (e.DeliveryQueues? && e.task in s.tasks && s.tasks[e.task].Checked?
                && t.log == s.log + [s.tasks[e.task].message])
  {
  }

  lemma WaitsOn(cfg: Config, events: seq<Event>, a: nat, n: nat, task: nat)
    requires n < |events| && Waits(cfg, events, a, n, task)
    requires events[n] == DeliveryQueues(task) ==> Before(cfg, events, n + 1) == Before(cfg, events, n)
    ensures Waits(cfg, events, a, n + 1, task)
  {
  }

  lemma TracedKept(cfg: Config, events: seq<Event>, n: nat, task: nat)
    requires n < |events| && task in Before(cfg, events, n).tasks && task in Before(cfg, events, n + 1).tasks
    requires Before(cfg, events, n + 1).tasks[task] == Before(cfg, events, n).tasks[task]
    requires Traced(cfg, events, n, task)
    requires events[n] == DeliveryQueues(task) ==> Before(cfg, events, n + 1) == Before(cfg, events, n)
    ensures Traced(cfg, events, n + 1, task)
  {
    match Before(cfg, events, n).tasks[task]
    case Asked(m, _) =>
      var a :| AskedSince(cfg, events, a, n, task, m);
      WaitsOn(cfg, events, a, n, task);
      assert AskedSince(cfg, events, a, n + 1, task, m);
    case Checked(m) =>
      var a, b :| CheckedSince(cfg, events, a, b, n, task, m);
      WaitsOn(cfg, events, a, n, task);
      assert CheckedSince(cfg, events, a, b, n + 1, task, m);
  }

  lemma TracedCheck(cfg: Config, events: seq<Event>, n: nat, task: nat)
    requires n < |events| && task in Before(cfg, events, n).tasks && task in Before(cfg, events, n + 1).tasks
    requires Steady(cfg, Before(cfg, events, n)) && Traced(cfg, events, n, task)
    requires Before(cfg, events, n).tasks[task].Asked?
    requires Before(cfg, events, n + 1).tasks[task] == Checked(Before(cfg, events, n).tasks[task].message)
    requires events[n].DeliveryChecks? && events[n].task == task
    requires var s := Before(cfg, events, n);
             Passes(s.connection, s.tasks[task].held, s.tasks[task].message, events[n].answer, events[n].now)
    ensures Traced(cfg, events, n + 1, task)
  {
    var s := Before(cfg, events, n);
    var m := s.tasks[task].message;
    var a :| AskedSince(cfg, events, a, n, task, m);
    WaitsOn(cfg, events, a, n, task);
    BeforeNext(cfg, events, n);
    PassedIsRecipient(cfg, s, task, events[n].answer, events[n].now);
    assert PassesAt(cfg, events, n, task, m);
    assert CheckedSince(cfg, events, a, n, n + 1, task, m);
  }

  lemma {:induction false} EveryTaskTraced(cfg: Config, events: seq<Event>, n: nat, task: nat)
    requires Letters(cfg.letter) && n <= |events| && task in Before(cfg, events, n).tasks
    ensures Traced(cfg, events, n, task)
    decreases n
  {
    BeforeFirst(cfg, events);
    if n > 0 {
      var s, e, t := Before(cfg, events, n - 1), events[n - 1], Before(cfg, events, n);
      BeforeNext(cfg, events, n - 1);
      Invariant(cfg, events[..n - 1]);
      TaskOrigin(cfg, s, e, task);
      if task !in s.tasks {
        assert AskedSince(cfg, events, n - 1, n, task, t.tasks[task].message);
      } else {
        EveryTaskTraced(cfg, events, n - 1, task);
        if s.tasks[task] == t.tasks[task] {
          TracedKept(cfg, events, n - 1, task);
        } else {
          TracedCheck(cfg, events, n - 1, task);
        }
      }
    }
  }

  // ---- The subscription table through the run ---------------------------------------------------

  predicate Drops(cfg: Config, s: State, e: Event, key: string) {
    && e.Unsubscribe? && TryAuthorize(cfg.letter, s.connection.principal.identity, e.text).Some?
    && SubscriptionKey(TryAuthorize(cfg.letter, s.connection.principal.identity, e.text).value) == key
  }

  predicate Adds(cfg: Config, s: State, e: Event, key: string) {
    && e.Subscribe? && TryAuthorize(cfg.letter, s.connection.principal.identity, e.text).Some?
    && SubscriptionKey(TryAuthorize(cfg.letter, s.connection.principal.identity, e.text).value) == key
    && |s.connection.keys| < cfg.maximumSubscriptions
  }

  lemma KeyStep(cfg: Config, s: State, e: Event, key: string)
    ensures key in Step(cfg, s, e).connection.keys
            <==> (key in s.connection.keys || Adds(cfg, s, e, key)) && !Drops(cfg, s, e, key)
  {
    if !e.Subscribe? && !e.Unsubscribe? {
      TableKept(cfg, s, e);
    }
  }

  // The same by event number.

  ghost function Held(cfg: Config, events: seq<Event>, key: string): nat -> bool {
    (n: nat) => n <= |events| && key in Before(cfg, events, n).connection.keys
  }

  ghost function Adding(cfg: Config, events: seq<Event>, key: string): nat -> bool {
    (n: nat) => n < |events| && Adds(cfg, Before(cfg, events, n), events[n], key)
  }

  ghost function Dropping(cfg: Config, events: seq<Event>, key: string): nat -> bool {
    (n: nat) => n < |events| && Drops(cfg, Before(cfg, events, n), events[n], key)
  }

  /** Event `u` takes something out, and no event up to `n` puts it back. */
  ghost predicate TakenOut(adds: nat -> bool, drops: nat -> bool, u: nat, n: nat) {
    drops(u) && forall v | u < v < n :: !adds(v)
  }

  ghost predicate Changes(k: nat, member: nat -> bool, adds: nat -> bool, drops: nat -> bool) {
    member(k + 1) <==> (member(k) || adds(k)) && !drops(k)
  }

  /** What was in after event `b` is out before event `n` exactly if an event between took it out for good. */
  lemma {:induction false} OutIff(b: nat, n: nat, member: nat -> bool, adds: nat -> bool, drops: nat -> bool)
    requires b < n && member(b + 1)
    requires forall k: nat | b < k < n :: Changes(k, member, adds, drops)
    ensures !member(n) <==> exists u | b < u < n :: TakenOut(adds, drops, u, n)
    decreases n
  {
    if b + 1 == n {
    } else {
      var last := n - 1;
      OutIff(b, last, member, adds, drops);
      assert Changes(last, member, adds, drops);
      forall u | b < u < last
        ensures TakenOut(adds, drops, u, n) <==> TakenOut(adds, drops, u, last) && !adds(last)
      {
      }
      assert TakenOut(adds, drops, last, n) <==> drops(last);
    }
  }

  lemma KeyNext(cfg: Config, events: seq<Event>, n: nat, key: string)
    requires n < |events|
    ensures Changes(n, Held(cfg, events, key), Adding(cfg, events, key), Dropping(cfg, events, key))
  {
    BeforeNext(cfg, events, n);
    KeyStep(cfg, Before(cfg, events, n), events[n], key);
  }

  /** A key leaves the table exactly by an unsubscribe from its route that no subscribe follows. */
  lemma KeyGoneIff(cfg: Config, events: seq<Event>, b: nat, n: nat, key: string)
    requires b < n <= |events| && key in Before(cfg, events, b + 1).connection.keys
    ensures key !in Before(cfg, events, n).connection.keys
            <==> exists u | b < u < n :: TakenOut(Adding(cfg, events, key), Dropping(cfg, events, key), u, n)
  {
    var member, adds, drops := Held(cfg, events, key), Adding(cfg, events, key), Dropping(cfg, events, key);
    forall k: nat | b < k < n ensures Changes(k, member, adds, drops) {
      KeyNext(cfg, events, k, key);
    }
    OutIff(b, n, member, adds, drops);
  }

  // ---- Results --------------------------------------------------------------------------------

  /**
   Entry `i` of the log came about like this: event `a` started the delivery, event `b` was its second
   check, which the connection as it then was passed, event `n` queued the message, and the delivery
   had queued nothing before.
   */
  ghost predicate QueuedBy(cfg: Config, events: seq<Event>, i: nat, task: nat, a: nat, b: nat, n: nat)
    requires i < |Run(cfg, events).log|
  {
    && a < b < n < |events|
    && events[n] == DeliveryQueues(task)
    && |Before(cfg, events, n).log| == i < |Before(cfg, events, n + 1).log|
    && CheckedSince(cfg, events, a, b, n, task, Run(cfg, events).log[i])
  }

  ghost function Log(cfg: Config, events: seq<Event>): nat -> seq<BusMessage> {
    (n: nat) => if n <= |events| then Before(cfg, events, n).log else []
  }

  ghost predicate Grows(log: nat -> seq<BusMessage>, k: nat) {
    log(k) <= log(k + 1) && |log(k + 1)| <= |log(k)| + 1
  }

  /** A log that grows one message at a time got each message at one moment. */
  lemma {:induction false} GrownAt(log: nat -> seq<BusMessage>, n: nat, i: nat) returns (k: nat)
    requires log(0) == [] && (forall k: nat | k < n :: Grows(log, k)) && i < |log(n)|
    ensures k < n && |log(k)| == i < |log(k + 1)| && log(k + 1)[i] == log(n)[i]
    decreases n
  {
    k := n - 1;
    assert Grows(log, k);
    if i < |log(k)| {
      k := GrownAt(log, n - 1, i);
    }
  }

  lemma LogGrows(cfg: Config, events: seq<Event>, n: nat)
    requires n < |events|
    ensures Grows(Log(cfg, events), n)
  {
    BeforeNext(cfg, events, n);
    LogOrigin(cfg, Before(cfg, events, n), events[n]);
  }

  lemma LogEnds(cfg: Config, events: seq<Event>)
    ensures Log(cfg, events)(0) == [] && Log(cfg, events)(|events|) == Run(cfg, events).log
  {
    BeforeFirst(cfg, events);
    assert events[..|events|] == events;
  }

  lemma LoggedAt(cfg: Config, events: seq<Event>, i: nat) returns (k: nat)
    requires i < |Run(cfg, events).log|
    ensures k < |events| && |Before(cfg, events, k).log| == i < |Before(cfg, events, k + 1).log|
    ensures Before(cfg, events, k + 1).log[i] == Run(cfg, events).log[i]
  {
    var log := Log(cfg, events);
    LogEnds(cfg, events);
    forall n: nat | n < |events| ensures Grows(log, n) {
      LogGrows(cfg, events, n);
    }
    k := GrownAt(log, |events|, i);
    assert log(k) == Before(cfg, events, k).log && log(k + 1) == Before(cfg, events, k + 1).log;
  }

  /** What a step that lengthens the log has appended. */
  lemma AppendedBy(cfg: Config, s: State, e: Event)
    requires |s.log| < |Step(cfg, s, e).log|
    ensures e.DeliveryQueues? && e.task in s.tasks
    ensures s.tasks[e.task] == Checked(Step(cfg, s, e).log[|s.log|])
  {
    LogOrigin(cfg, s, e);
  }

  /** The moment at which a message was queued, and the delivery that did it. */
  lemma AppendedAt(cfg: Config, events: seq<Event>, i: nat) returns (n: nat)
    requires i < |Run(cfg, events).log|
    ensures n < |events| && events[n].DeliveryQueues? && events[n].task in Before(cfg, events, n).tasks
    ensures Before(cfg, events, n).tasks[events[n].task] == Checked(Run(cfg, events).log[i])
    ensures |Before(cfg, events, n).log| == i < |Before(cfg, events, n + 1).log|
  {
    n := LoggedAt(cfg, events, i);
    BeforeNext(cfg, events, n);
    AppendedBy(cfg, Before(cfg, events, n), events[n]);
  }

  /** Every message ever queued was queued by a delivery of its own, which had just checked the connection. */
  lemma QueuedByItsDelivery(cfg: Config, events: seq<Event>, i: nat)
    returns (task: nat, a: nat, b: nat, n: nat)
    requires Letters(cfg.letter) && i < |Run(cfg, events).log|
    ensures QueuedBy(cfg, events, i, task, a, b, n)
  {
    n := AppendedAt(cfg, events, i);
    task := events[n].task;
    EveryTaskTraced(cfg, events, n, task);
    a, b :| CheckedSince(cfg, events, a, b, n, task, Before(cfg, events, n).tasks[task].message);
  }

  lemma QueueingEndsWait(cfg: Config, events: seq<Event>, a: nat, n: nat, later: nat, task: nat)
    requires a < n < |events| && later < |events| && events[n] == DeliveryQueues(task)
    requires |Before(cfg, events, n).log| < |Before(cfg, events, n + 1).log|
    ensures n < later ==> !Waits(cfg, events, a, later, task)
  {
  }

  /** A delivery queues at most once. */
  lemma DeliveryQueuesOnce(
    cfg: Config, events: seq<Event>, i: nat, j: nat, task: nat, a: nat, b: nat, n: nat, b': nat, n': nat)
    requires i < |Run(cfg, events).log| && j < |Run(cfg, events).log|
    requires QueuedBy(cfg, events, i, task, a, b, n) && QueuedBy(cfg, events, j, task, a, b', n')
    ensures i == j && n == n'
  {
    QueueingEndsWait(cfg, events, a, n, n', task);
    QueueingEndsWait(cfg, events, a, n', n, task);
  }

  /**
   In every run, however subscriptions, refreshes and deliveries interleave: tenant and user stay those
   of the handshake, whatever was queued is of that tenant and addressed to nobody else, and the queue
   is the part of it not sent yet, in order.
   */
  lemma OnlyOwnMessages(cfg: Config, events: seq<Event>)
    requires Letters(cfg.letter)
    ensures var s, person := Run(cfg, events), cfg.handshake.identity;
            && s.connection.principal.identity.tenantId == person.tenantId
            && s.connection.principal.identity.userId == person.userId
            && (forall i | 0 <= i < |s.log| ::
                  && s.log[i].tenantId == person.tenantId
                  && (s.log[i].userId.Some? ==> s.log[i].userId.value == person.userId))
            && s.sent <= |s.log| && s.connection.queue == Texts(s.log[s.sent..])
  {
    Invariant(cfg, events);
    var s := Run(cfg, events);
    forall i | 0 <= i < |s.log|
      ensures s.log[i].tenantId == cfg.handshake.identity.tenantId
      ensures s.log[i].userId.Some? ==> s.log[i].userId.value == cfg.handshake.identity.userId
    {
      var task, a, b, n := QueuedByItsDelivery(cfg, events, i);
      Invariant(cfg, events[..b + 1]);
    }
  }

  lemma KeyAtCheck(cfg: Config, events: seq<Event>, i: nat, task: nat, a: nat, b: nat, n: nat)
    returns (key: string)
    requires i < |Run(cfg, events).log| && QueuedBy(cfg, events, i, task, a, b, n)
    ensures key == RouteText(Run(cfg, events).log[i]) && key in Before(cfg, events, b + 1).connection.keys
  {
    key := RouteText(Run(cfg, events).log[i]);
  }

  /**
   When a message is queued its key is still in the table, unless an unsubscribe from the route came
   between the delivery's second check and the queueing and no subscribe followed.
   */
  lemma QueuedWhileSubscribed(cfg: Config, events: seq<Event>, i: nat, task: nat, a: nat, b: nat, n: nat)
    requires i < |Run(cfg, events).log| && QueuedBy(cfg, events, i, task, a, b, n)
    ensures var key := RouteText(Run(cfg, events).log[i]);
            key !in Before(cfg, events, n).connection.keys
            <==> exists u | b < u < n :: TakenOut(Adding(cfg, events, key), Dropping(cfg, events, key), u, n)
  {
    var key := KeyAtCheck(cfg, events, i, task, a, b, n);
    KeyGoneIff(cfg, events, b, n, key);
  }

  /** At that check the connection was subscribed under a text of the message's very route. */
  lemma QueuedWasSubscribed(
    cfg: Config, events: seq<Event>, i: nat, task: nat, a: nat, b: nat, n: nat, text: string)
    requires Letters(cfg.letter) && i < |Run(cfg, events).log| && QueuedBy(cfg, events, i, task, a, b, n)
    requires var m := Run(cfg, events).log[i]; Resolve(cfg.letter, text) == Some(AuthorizedRoute(m.topic, m.userId))
    ensures exists t ::
              t in Before(cfg, events, b + 1).texts && Resolve(cfg.letter, t) == Resolve(cfg.letter, text)
  {
    Invariant(cfg, events[..b + 1]);
    var s := Before(cfg, events, b + 1);
    KeyMeansRoute(cfg.letter, cfg.handshake.identity.userId, s.connection.keys, s.texts, text);
  }

  /** The answer is for the person of the handshake. */
  ghost predicate IsOwnAnswer(cfg: Config, answer: Answer) {
    answer.Refreshed? && IsSamePerson(answer.principal, cfg.handshake)
  }

  /** No principal in force, or one that has expired. */
  ghost predicate HasLapsed(cfg: Config, answer: Answer, now: int) {
    if cfg.bySession then !IsOwnAnswer(cfg, answer) || now >= answer.principal.expiresAt
    else now >= cfg.handshake.expiresAt
  }

  /** The step uses an answer of the session store. */
  predicate HasAnswer(s: State, e: Event) {
    e.Refresh? || (e.DeliveryChecks? && e.task in s.tasks && s.tasks[e.task].Asked?)
  }

  /**
   In every run, a refresh and the check of a delivery make the connection take over the principal of an
   answer for its own person, and keep the one it has on any other answer or without a session; a principal
   that has lapsed closes the connection.
   */
  lemma AnswersAreAdopted(cfg: Config, events: seq<Event>, e: Event)
    requires Letters(cfg.letter)
    requires HasAnswer(Run(cfg, events), e)
    ensures Step(cfg, Run(cfg, events), e).connection.principal
            == if cfg.bySession && IsOwnAnswer(cfg, e.answer) then e.answer.principal
               else Run(cfg, events).connection.principal
    ensures var c, d := Run(cfg, events).connection, Step(cfg, Run(cfg, events), e).connection;
            && d.isOpen == (c.isOpen && d.closing == c.closing)
            && (c.closing.Some? ==> d.closing == c.closing)
            && (c.closing.None? ==>
                  d.closing == if !HasLapsed(cfg, e.answer, e.now) then None
                               else if cfg.bySession && e.answer.Unavailable? then Some(AuthenticationUnavailable)
                               else Some(AuthenticationExpired))
  {
    Invariant(cfg, events);
  }

  /** The second check decides: the delivery goes on exactly if it finds a recipient, and is over otherwise. */
  lemma CheckDecides(cfg: Config, events: seq<Event>, e: Event)
    requires Letters(cfg.letter) && e.DeliveryChecks? && HasAnswer(Run(cfg, events), e)
    ensures var s, t, m := Run(cfg, events), Step(cfg, Run(cfg, events), e), Run(cfg, events).tasks[e.task].message;
            && (e.task in t.tasks <==> !HasLapsed(cfg, e.answer, e.now) && Recipient(t, m))
            && (e.task in t.tasks ==> t.tasks[e.task] == Checked(m))
            && forall other | other != e.task :: (other in t.tasks <==> other in s.tasks)
                                                 && (other in s.tasks ==> t.tasks[other] == s.tasks[other])
  {
    Invariant(cfg, events);
  }

  /**
   Whatever was queued, the answer to its delivery's question permitted the topic at that moment; without
   a session, the principal of the handshake did.
   */
  lemma QueuedWasPermitted(cfg: Config, events: seq<Event>, i: nat, task: nat, a: nat, b: nat, n: nat)
    requires Letters(cfg.letter) && i < |Run(cfg, events).log| && QueuedBy(cfg, events, i, task, a, b, n)
    ensures var m, check := Run(cfg, events).log[i], events[b];
            && check.DeliveryChecks?
            && (cfg.bySession ==> IsOwnAnswer(cfg, check.answer) && Permits(check.answer.principal, m.topic, check.now))
            && (!cfg.bySession ==> Permits(cfg.handshake, m.topic, check.now))
  {
    Invariant(cfg, events[..b]);
  }

  lemma Do(cfg: Config, past: seq<Event>, e: Event) returns (events: seq<Event>)
    ensures Run(cfg, events) == Step(cfg, Run(cfg, past), e)
  {
    events := past + [e];
    assert events[..|events| - 1] == past;
  }

  /** The message a client may publish on the route of a text it may subscribe to. */
  ghost function OnRoute(cfg: Config, text: string): BusMessage
    requires TryAuthorize(cfg.letter, cfg.handshake.identity, text).Some?
  {
    var route := TryAuthorize(cfg.letter, cfg.handshake.identity, text).value;
    BusMessage(cfg.handshake.identity.tenantId, route.topic, route.userId)
  }

  lemma SubscribesOnce(cfg: Config, text: string, m: BusMessage)
    requires cfg.maximumSubscriptions > 0 && TryAuthorize(cfg.letter, cfg.handshake.identity, text).Some?
    requires m == OnRoute(cfg, text)
    ensures var s := Initial(cfg);
            StepSubscribe(cfg, s, text) == s.(connection := s.connection.(keys := {RouteText(m)}), texts := {text})
    ensures IsPotentialRecipient({RouteText(m)}, cfg.handshake.identity, m)
  {
    assert AuthorizedRoute(m.topic, m.userId) == TryAuthorize(cfg.letter, cfg.handshake.identity, text).value;
  }

  lemma UnsubscribesLast(cfg: Config, s: State, text: string, m: BusMessage)
    requires TryAuthorize(cfg.letter, cfg.handshake.identity, text).Some? && m == OnRoute(cfg, text)
    requires s.connection.principal == cfg.handshake && s.connection.keys == {RouteText(m)} && s.texts == {text}
    ensures StepUnsubscribe(cfg, s, text) == s.(connection := s.connection.(keys := {}), texts := {})
  {
    assert AuthorizedRoute(m.topic, m.userId) == TryAuthorize(cfg.letter, cfg.handshake.identity, text).value;
    assert StepUnsubscribe(cfg, s, text).texts == {};
  }

  lemma ChecksOnce(cfg: Config, s: State, m: BusMessage, now: int)
    requires !s.connection.bySession && now < s.connection.principal.expiresAt && s.tasks == map[]
    requires IsPotentialRecipient(s.connection.keys, s.connection.principal.identity, m)
    ensures StepCheck(StepAsk(s, 0, m), 0, Invalid, now) == s.(tasks := map[0 := Checked(m)])
  {
  }

  /** Such an unsubscribe: it comes between check and queueing, and the message is queued all the same. */
  lemma LateUnsubscribeStillQueues(cfg: Config, text: string, now: int) returns (events: seq<Event>)
    requires !cfg.bySession && now < cfg.handshake.expiresAt && cfg.maximumSubscriptions > 0 && cfg.limits.capacity > 0
    requires TryAuthorize(cfg.letter, cfg.handshake.identity, text).Some?
    ensures var s := Run(cfg, events); s.connection.keys == {} && s.texts == {} && |s.connection.queue| == 1
  {
    var m := OnRoute(cfg, text);
    SubscribesOnce(cfg, text, m);
    events := Do(cfg, [], Subscribe(text));
    ChecksOnce(cfg, Run(cfg, events), m, now);
    events := DoAsk(cfg, events, m);
    events := DoCheck(cfg, events, now);
    UnsubscribesLast(cfg, Run(cfg, events), text, m);
    events := DoUnsubscribe(cfg, events, text);
    events := DoQueue(cfg, events);
  }

  lemma DoAsk(cfg: Config, past: seq<Event>, m: BusMessage) returns (events: seq<Event>)
    ensures Run(cfg, events) == StepAsk(Run(cfg, past), 0, m)
  {
    events := Do(cfg, past, DeliveryAsks(0, m));
  }

  lemma DoCheck(cfg: Config, past: seq<Event>, now: int) returns (events: seq<Event>)
    ensures Run(cfg, events) == StepCheck(Run(cfg, past), 0, Invalid, now)
  {
    events := Do(cfg, past, DeliveryChecks(0, Invalid, now));
  }

  lemma DoUnsubscribe(cfg: Config, past: seq<Event>, text: string) returns (events: seq<Event>)
    ensures Run(cfg, events) == StepUnsubscribe(cfg, Run(cfg, past), text)
  {
    events := Do(cfg, past, Unsubscribe(text));
  }

  lemma DoQueue(cfg: Config, past: seq<Event>) returns (events: seq<Event>)
    ensures Run(cfg, events) == StepQueue(cfg, Run(cfg, past), 0)
  {
    events := Do(cfg, past, DeliveryQueues(0));
  }

  // ---- Limits over a run --------------------------------------------------------------------------

  /** The step offers a message to the connection. */
  predicate Offers(s: State, e: Event) {
    e.DeliveryQueues? && e.task in s.tasks && s.tasks[e.task].Checked?
  }

  /** How many offers the open connection refused since it last took one. */
  ghost function Refusals(cfg: Config, events: seq<Event>): nat {
    if events == [] then 0
    else
      var past, e := events[..|events| - 1], events[|events| - 1];
      var s := Run(cfg, past);
      if !Offers(s, e) || !s.connection.isOpen then Refusals(cfg, past)
      else if |s.connection.queue| < cfg.limits.capacity then 0
      else Refusals(cfg, past) + 1
  }

  ghost predicate IsPatient(cfg: Config, c: Connection, refusals: nat) {
    && c.strikes == refusals <= cfg.limits.strikeLimit && c.isOpen == c.closing.None?
    && (c.closing == Some(SlowConsumer) <==> refusals == cfg.limits.strikeLimit)
    && (c.slowRecorded ==> !c.isOpen)
  }

  lemma OfferIsPatient(cfg: Config, c: Connection, m: BusMessage, refusals: nat)
    requires cfg.limits.strikeLimit >= 1 && IsPatient(cfg, c, refusals)
    ensures IsPatient(cfg, Offer(cfg.limits, c, m),
                      if !c.isOpen then refusals else if |c.queue| < cfg.limits.capacity then 0 else refusals + 1)
  {
  }

  lemma OtherIsPatient(cfg: Config, s: State, e: Event, refusals: nat)
    requires IsPatient(cfg, s.connection, refusals) && !Offers(s, e)
    ensures IsPatient(cfg, Step(cfg, s, e).connection, refusals)
  {
  }

  lemma {:induction false} RunIsPatient(cfg: Config, events: seq<Event>)
    requires cfg.limits.strikeLimit >= 1
    ensures IsPatient(cfg, Run(cfg, events).connection, Refusals(cfg, events))
  {
    if events == [] {
    } else {
      var past, e := events[..|events| - 1], events[|events| - 1];
      var s := Run(cfg, past);
      RunIsPatient(cfg, past);
      if Offers(s, e) {
        OfferIsPatient(cfg, s.connection, s.tasks[e.task].message, Refusals(cfg, past));
      } else {
        OtherIsPatient(cfg, s, e, Refusals(cfg, past));
      }
    }
  }

  /**
   In every run a connection is closed as too slow exactly when it has refused as many offers in a row as
   the limit says; while it is open it has refused fewer.
   */
  lemma SlowConsumerIff(cfg: Config, events: seq<Event>)
    requires cfg.limits.strikeLimit >= 1
    ensures var c := Run(cfg, events).connection;
            && (c.closing == Some(SlowConsumer) <==> Refusals(cfg, events) == cfg.limits.strikeLimit)
            && (c.isOpen ==> Refusals(cfg, events) < cfg.limits.strikeLimit)
  {
    RunIsPatient(cfg, events);
  }

  /** In every run the table and the queue stay within their limits. */
  lemma {:induction false} LimitsKept(cfg: Config, events: seq<Event>)
    ensures var c := Run(cfg, events).connection;
            |c.keys| <= cfg.maximumSubscriptions && |c.queue| <= cfg.limits.capacity
  {
    if events == [] {
    } else {
      LimitsKept(cfg, events[..|events| - 1]);
      LimitsStep(cfg, Run(cfg, events[..|events| - 1]), events[|events| - 1]);
    }
  }

  lemma LimitsStep(cfg: Config, s: State, e: Event)
    requires |s.connection.keys| <= cfg.maximumSubscriptions && |s.connection.queue| <= cfg.limits.capacity
    ensures var c := Step(cfg, s, e).connection;
            |c.keys| <= cfg.maximumSubscriptions && |c.queue| <= cfg.limits.capacity
  {
    if e.Subscribe? || e.Unsubscribe? {
      TableStep(cfg, s, e);
    } else {
      TableKept(cfg, s, e);
    }
  }

  lemma TableStep(cfg: Config, s: State, e: Event)
    requires (e.Subscribe? || e.Unsubscribe?) && |s.connection.keys| <= cfg.maximumSubscriptions
    ensures var c := Step(cfg, s, e).connection;
            |c.keys| <= cfg.maximumSubscriptions && c.queue == s.connection.queue
  {
    var route := TryAuthorize(cfg.letter, s.connection.principal.identity, e.text);
    if route.Some? {
      var key := SubscriptionKey(route.value);
      assert |s.connection.keys - {key}| <= |s.connection.keys|;
    }
  }

  /** From every state, a sender that keeps taking sends all that is queued, in order, and touches nothing else. */
  lemma {:induction false} SenderEmptiesQueue(cfg: Config, past: seq<Event>) returns (events: seq<Event>)
    ensures var s := Run(cfg, past);
            Run(cfg, events) == s.(connection := s.connection.(queue := []), sent := s.sent + |s.connection.queue|)
    decreases |Run(cfg, past).connection.queue|
  {
    if Run(cfg, past).connection.queue == [] {
      return past;
    }
    events := Do(cfg, past, SenderTakes);
    events := SenderEmptiesQueue(cfg, events);
  }
}
