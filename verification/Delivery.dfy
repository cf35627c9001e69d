/** Delivery of one bus message to the connections of a gateway. */
module Delivery {
  import opened Text
  import opened Routes

  datatype Principal = Principal(identity: Identity, expiresAt: int)

  /** `bySession` says that the connection has a session and an authenticator is configured. */
  datatype Connection = Connection(
    principal: Principal, bySession: bool, keys: set<string>, isOpen: bool, queue: seq<string>, strikes: nat,
    slowRecorded: bool, closing: Option<CloseReason>)

  datatype CloseReason = AuthenticationExpired | AuthenticationUnavailable | SlowConsumer

  datatype Answer = Refreshed(principal: Principal) | Invalid | Unavailable

  datatype BusMessage = BusMessage(tenantId: string, topic: string, userId: Option<string>)

  datatype Limits = Limits(capacity: nat, strikeLimit: nat)

  function RouteText(m: BusMessage): string {
    SubscriptionKey(AuthorizedRoute(m.topic, m.userId))
  }

  predicate IsPotentialRecipient(keys: set<string>, identity: Identity, m: BusMessage) {
    && identity.tenantId == m.tenantId && (m.userId.None? || identity.userId == m.userId.value)
    && TopicAllowed(identity, m.topic) && RouteText(m) in keys
  }

  /** `TryEnqueue` when no other thread intervenes. */
  function Enqueued(limits: Limits, c: Connection, envelope: string): Connection {
    if !c.isOpen then c
    else if |c.queue| >= limits.capacity then c.(strikes := c.strikes + 1)
    else c.(queue := c.queue + [envelope], strikes := 0)
  }

  // ---- What the message means for one connection ----------------------------------------------

  /** The principal in force after revalidation, if the session still belongs to the same user. */
  function InForce(c: Connection, answer: Answer): Option<Principal> {
    Revalidated(c.bySession, c.principal, answer)
  }

  function Revalidated(bySession: bool, held: Principal, answer: Answer): Option<Principal> {
    if !bySession then Some(held)
    else if answer.Refreshed? && answer.principal.identity.tenantId == held.identity.tenantId
            && answer.principal.identity.userId == held.identity.userId then Some(answer.principal)
    else None
  }

  /** Entitled before the revalidation and after it, with a principal that has not expired. */
  predicate Entitled(c: Connection, m: BusMessage, answer: Answer, now: int) {
    && IsPotentialRecipient(c.keys, c.principal.identity, m)
    && InForce(c, answer).Some? && now < InForce(c, answer).value.expiresAt
    && IsPotentialRecipient(c.keys, InForce(c, answer).value.identity, m)
  }

  /** A close request: only the first one counts, and the connection is no longer open. */
  function Closed(c: Connection, reason: CloseReason): Connection {
    if c.closing.Some? then c else c.(closing := Some(reason), isOpen := false)
  }

  /** The principal is no longer good for this connection. */
  predicate Lapsed(c: Connection, answer: Answer, now: int) {
    InForce(c, answer).None? || now >= InForce(c, answer).value.expiresAt
  }

  /** An entitled connection refuses the message for the last time. */
  predicate TooSlow(limits: Limits, c: Connection, m: BusMessage, answer: Answer, now: int) {
    && Entitled(c, m, answer, now) && (!c.isOpen || |c.queue| >= limits.capacity) && !c.slowRecorded
    && c.strikes + (if c.isOpen then 1 else 0) >= limits.strikeLimit
  }

  /** What holds of one connection before and after a delivery. */
  ghost predicate Served(limits: Limits, c: Connection, d: Connection, m: BusMessage, answer: Answer, now: int) {
    var asked, entitled := IsPotentialRecipient(c.keys, c.principal.identity, m), Entitled(c, m, answer, now);
    && d.keys == c.keys && d.bySession == c.bySession
    && d.queue == (if entitled && c.isOpen && |c.queue| < limits.capacity then c.queue + [RouteText(m)] else c.queue)
    && d.strikes == (if !entitled || !c.isOpen then c.strikes
                     else if |c.queue| < limits.capacity then 0 else c.strikes + 1)
    && d.principal == (if asked && InForce(c, answer).Some? then InForce(c, answer).value else c.principal)
    && d.slowRecorded == (c.slowRecorded || TooSlow(limits, c, m, answer, now))
    && (d.closing != c.closing ==> c.closing.None? && !d.isOpen)
    && (d.closing == c.closing ==> d.isOpen == c.isOpen)
    && (c.closing.None? ==>
          && (d.closing == Some(SlowConsumer) <==> TooSlow(limits, c, m, answer, now))
          && (d.closing == Some(AuthenticationUnavailable) <==> asked && c.bySession && answer.Unavailable?)
          && (d.closing == Some(AuthenticationExpired) <==>
                asked && Lapsed(c, answer, now) && !(c.bySession && answer.Unavailable?)))
  }

  /** The answer names the same tenant and the same user. */
  predicate IsSamePerson(a: Principal, b: Principal) {
    a.identity.tenantId == b.identity.tenantId && a.identity.userId == b.identity.userId
  }

  /** Revalidation and the expiry check for a potential recipient; otherwise it is being closed. */
  method Revalidate(c: Connection, answer: Answer, now: int) returns (d: Connection, ok: bool)
    ensures ok <==> !Lapsed(c, answer, now)
    ensures d.principal == if c.bySession && answer.Refreshed? && IsSamePerson(answer.principal, c.principal)
                           then answer.principal else c.principal
    ensures ok ==> d == c.(principal := InForce(c, answer).value)
    ensures !ok ==>
      var held := if InForce(c, answer).Some? then c.(principal := InForce(c, answer).value) else c;
      d == Closed(held, if c.bySession && answer.Unavailable? then AuthenticationUnavailable else AuthenticationExpired)
  {
    d := c;
    if c.bySession {
      if answer.Unavailable? {
        return Closed(d, AuthenticationUnavailable), false;
      }
      if answer.Invalid?
         || answer.principal.identity.tenantId != c.principal.identity.tenantId
         || answer.principal.identity.userId != c.principal.identity.userId {
        return Closed(d, AuthenticationExpired), false;
      }
      d := d.(principal := answer.principal);
    }
    if now >= d.principal.expiresAt {
      return Closed(d, AuthenticationExpired), false;
    }
    ok := true;
  }

  /** The body of the delivery loop for one connection. */
  method Deliver(limits: Limits, c: Connection, m: BusMessage, answer: Answer, now: int) returns (d: Connection)
    ensures Served(limits, c, d, m, answer, now)
    ensures d.principal == if IsPotentialRecipient(c.keys, c.principal.identity, m) && c.bySession
                              && answer.Refreshed? && IsSamePerson(answer.principal, c.principal)
                           then answer.principal else c.principal
  {
    d := c;
    if !IsPotentialRecipient(c.keys, c.principal.identity, m) {
      return;
    }
    var ok;
    d, ok := Revalidate(c, answer, now);
    if !ok || !IsPotentialRecipient(d.keys, d.principal.identity, m) {
      return;
    }
    var accepted := d.isOpen && |d.queue| < limits.capacity;
    d := Enqueued(limits, d, RouteText(m));
    if !accepted && d.strikes >= limits.strikeLimit && !d.slowRecorded {
      d := Closed(d.(slowRecorded := true), SlowConsumer);
    }
  }

  /** One pass over the connections: each is served once, by its own entitlement alone. */
  method DeliverAsync(
    limits: Limits, connections: seq<Connection>, m: BusMessage, answers: seq<Answer>, times: seq<int>)
    returns (after: seq<Connection>)
    requires |answers| == |connections| == |times|
    ensures |after| == |connections|
    ensures forall i | 0 <= i < |connections| :: Served(limits, connections[i], after[i], m, answers[i], times[i])
  {
    after := [];
    for i := 0 to |connections|
      invariant |after| == i
      invariant forall j | 0 <= j < i :: Served(limits, connections[j], after[j], m, answers[j], times[j])
    {
      var d := Deliver(limits, connections[i], m, answers[i], times[i]);
      after := after + [d];
    }
  }

  // ---- From publication to subscription -------------------------------------------------------

  /**
   The keys of a connection are those of the texts it subscribed with. They name no other user; whether
   the identity still allows their topics is not part of it, because a refresh drops no key.
   */
  ghost predicate SubscribedTo(letter: char -> bool, userId: string, keys: set<string>, texts: set<string>) {
    && (forall t | t in texts ::
          && Resolve(letter, t).Some?
          && (Resolve(letter, t).value.userId.Some? ==> Resolve(letter, t).value.userId.value == userId))
    && (forall key :: key in keys <==> exists t :: t in texts && SubscriptionKey(Resolve(letter, t).value) == key)
  }

  /** A table of keys holds the key of a publishable route exactly when some text resolves to that route. */
  lemma KeyMeansRoute(letter: char -> bool, userId: string, keys: set<string>, texts: set<string>, text: string)
    requires Letters(letter) && Resolve(letter, text).Some? && SubscribedTo(letter, userId, keys, texts)
    ensures SubscriptionKey(Resolve(letter, text).value) in keys
            <==> exists t :: t in texts && Resolve(letter, t) == Resolve(letter, text)
  {
    forall t | t in texts
      ensures SubscriptionKey(Resolve(letter, t).value) == SubscriptionKey(Resolve(letter, text).value)
              <==> Resolve(letter, t) == Resolve(letter, text)
    {
      KeysAreInjective(letter, t, text);
    }
  }

  /**
   End to end: a message a publisher was authorized to send reaches an open connection with room in its
   queue exactly when the connection subscribed, under any spelling, to the same route, in the same
   tenant, and its identity allows the topic both before and after the revalidation, whatever other
   topics were revoked meanwhile. The hypothesis on the connection holds again afterwards.
   */
  lemma ReachesExactlyTheRoute(
    letter: char -> bool, publisher: Identity, text: string, m: BusMessage, c: Connection, d: Connection,
    texts: set<string>, limits: Limits, answer: Answer, now: int)
    requires Letters(letter) && TryAuthorize(letter, publisher, text).Some?
    requires m == BusMessage(publisher.tenantId, TryAuthorize(letter, publisher, text).value.topic,
                             TryAuthorize(letter, publisher, text).value.userId)
    requires SubscribedTo(letter, c.principal.identity.userId, c.keys, texts)
    requires Served(limits, c, d, m, answer, now)
    ensures SubscribedTo(letter, d.principal.identity.userId, d.keys, texts)
    ensures c.isOpen && |c.queue| < limits.capacity ==>
              (d.queue == c.queue + [RouteText(m)] <==>
               && c.principal.identity.tenantId == publisher.tenantId
               && TopicAllowed(c.principal.identity, m.topic) && !Lapsed(c, answer, now)
               && TopicAllowed(InForce(c, answer).value.identity, m.topic)
               && exists t :: t in texts && Resolve(letter, t) == Resolve(letter, text))
  {
    assert Resolve(letter, text) == Some(AuthorizedRoute(m.topic, m.userId));
    KeyMeansRoute(letter, c.principal.identity.userId, c.keys, texts, text);
  }

  // ---- What the session store's answer does ---------------------------------------------------

  /** The principal has the topic, or all topics, and has not expired. */
  predicate Permits(p: Principal, topic: string, now: int) {
    ("*" in p.identity.allowedTopics || topic in p.identity.allowedTopics) && now < p.expiresAt
  }

  /**
   A connection with a session that was asked about takes over the principal of an answer for the same
   person, and gets the message only if that principal permits the topic now. Any other answer leaves the
   principal, queues nothing and closes an open connection.
   */
  lemma SessionDecides(limits: Limits, c: Connection, d: Connection, m: BusMessage, answer: Answer, now: int)
    requires Served(limits, c, d, m, answer, now) && c.bySession
    requires IsPotentialRecipient(c.keys, c.principal.identity, m)
    ensures answer.Refreshed? && IsSamePerson(answer.principal, c.principal) ==>
              && d.principal == answer.principal
              && (c.isOpen && |c.queue| < limits.capacity ==>
                    (d.queue == c.queue + [RouteText(m)] <==> Permits(answer.principal, m.topic, now)))
              && (d.queue != c.queue ==> Permits(answer.principal, m.topic, now))
              && (now >= answer.principal.expiresAt && c.closing.None? ==> d.closing == Some(AuthenticationExpired))
    ensures !(answer.Refreshed? && IsSamePerson(answer.principal, c.principal)) ==>
              && d.principal == c.principal && d.queue == c.queue
              && (c.closing.None? ==> !d.isOpen && d.closing == Some(if answer.Unavailable?
                                                                     then AuthenticationUnavailable
                                                                     else AuthenticationExpired))
  {
    assert d.queue == c.queue + [RouteText(m)] ==> |d.queue| == |c.queue| + 1;
  }

  /** Without a session the answer does not matter: the principal of the handshake decides. */
  lemma HandshakeDecides(limits: Limits, c: Connection, d: Connection, m: BusMessage, answer: Answer, now: int)
    requires Served(limits, c, d, m, answer, now) && !c.bySession
    ensures d.principal == c.principal && (d.queue != c.queue ==> Permits(c.principal, m.topic, now))
    ensures c.isOpen && |c.queue| < limits.capacity && IsPotentialRecipient(c.keys, c.principal.identity, m) ==>
              (d.queue == c.queue + [RouteText(m)] <==> now < c.principal.expiresAt)
  {
    assert d.queue == c.queue + [RouteText(m)] ==> |d.queue| == |c.queue| + 1;
  }

  /** A connection that is no recipient is left exactly as it was. */
  lemma OthersUntouched(limits: Limits, c: Connection, d: Connection, m: BusMessage, answer: Answer, now: int)
    requires Served(limits, c, d, m, answer, now) && !IsPotentialRecipient(c.keys, c.principal.identity, m)
    ensures d == c
  {
    assert d.closing.Some? ==> d.closing.value.SlowConsumer? || d.closing.value.AuthenticationExpired?
                               || d.closing.value.AuthenticationUnavailable?;
    assert d.closing == c.closing;
  }

  /** Who is a recipient, in plain terms. */
  lemma RecipientExactly(keys: set<string>, identity: Identity, m: BusMessage)
    ensures IsPotentialRecipient(keys, identity, m) <==>
            && m.tenantId == identity.tenantId && (m.userId == None || m.userId == Some(identity.userId))
            && ("*" in identity.allowedTopics || m.topic in identity.allowedTopics)
            && (match m.userId
                case None => "topics/" + m.topic
                case Some(u) => "users/" + u + "/topics/" + m.topic) in keys
  {
  }
}
