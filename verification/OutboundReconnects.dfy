/**
 What becomes of the client's unsent messages when nothing else happens: a live connection sends them all
 in order, a connection that is lost leaves them, and the next one starts with what it left.
 */
module OutboundReconnects {
  import opened Text
  import opened OutboundDelivery

  // ---- One caller -----------------------------------------------------------------------------

  /** From every reachable state with a free slot, a message of a caller that nobody interrupts is queued last. */
  lemma EnqueueIsExact(capacity: nat, past: seq<Event>, m: Message) returns (events: seq<Event>)
    requires Run(capacity, past).slots.free > 0
    ensures var s, t := Run(capacity, past), Run(capacity, events);
            var slots := s.slots.(free := s.slots.free - 1);
            if !s.accepting then t == s.(slots := slots.(owed := slots.owed + 1))
            else
              && t == s.(slots := slots, queues := s.queues.(outbound := s.queues.outbound + [m]), history := t.history)
              && t.history.sent == s.history.sent
              && t.history.accepted == s.history.accepted + if m.kind == Application then [m] else []
  {
    events := Extend(capacity, past, Acquire);
    events := Extend(capacity, events, Enqueue(m));
  }

  /** A caller that gives up leaves everything as it was. */
  lemma GiveUpIsExact(capacity: nat, past: seq<Event>) returns (events: seq<Event>)
    requires Run(capacity, past).slots.free > 0
    ensures Run(capacity, events) == Run(capacity, past)
  {
    events := Extend(capacity, past, Acquire);
    events := Extend(capacity, events, GiveUp);
    events := Extend(capacity, events, Return);
  }

  // ---- A live connection ----------------------------------------------------------------------

  /** This much was sent; what is left stands in these queues, in this stage. */
  ghost predicate HasSent(s: State, t: State, sent: seq<Message>, stage: Stage, queues: Queues) {
    t.history.sent == s.history.sent + sent && t.stage == stage && t.queues == queues && t.accepting == s.accepting
  }

  lemma HasSentMore(s: State, t: State, u: State, a: seq<Message>, b: seq<Message>, stage: Stage, q: Queues,
                    later: Stage, r: Queues)
    requires HasSent(s, t, a, stage, q) && HasSent(t, u, b, later, r)
    ensures HasSent(s, u, a + b, later, r)
  {
  }

  lemma SendsOne(capacity: nat, past: seq<Event>) returns (events: seq<Event>)
    requires var s := Run(capacity, past); s.stage == Live && s.queues.sending.None? && s.queues.outbound != []
    ensures var s := Run(capacity, past);
            HasSent(s, Run(capacity, events), [s.queues.outbound[0]], Live,
                    s.queues.(outbound := s.queues.outbound[1..]))
  {
    events := Extend(capacity, past, Take);
    events := Extend(capacity, events, SendOk);
  }

  lemma {:induction false} SendsAll(capacity: nat, past: seq<Event>) returns (events: seq<Event>)
    requires Run(capacity, past).stage == Live && Run(capacity, past).queues.sending.None?
    ensures var s := Run(capacity, past);
            HasSent(s, Run(capacity, events), s.queues.outbound, Live, s.queues.(outbound := []))
    decreases |Run(capacity, past).queues.outbound|
  {
    var s := Run(capacity, past);
    if s.queues.outbound == [] {
      return past;
    }
    events := SendsOne(capacity, past);
    var t := Run(capacity, events);
    events := SendsAll(capacity, events);
    HasSentMore(s, t, Run(capacity, events), [s.queues.outbound[0]], s.queues.outbound[1..], Live, t.queues,
                Live, s.queues.(outbound := []));
    assert [s.queues.outbound[0]] + s.queues.outbound[1..] == s.queues.outbound;
  }

  const NoQueues := Queues([], [], [], None)

  /** From every reachable live state, everything not yet sent is sent, in order. */
  lemma LiveSendsEverything(capacity: nat, past: seq<Event>) returns (events: seq<Event>)
    requires Run(capacity, past).stage == Live
    ensures var s := Run(capacity, past); HasSent(s, Run(capacity, events), Unsent(s.queues), Live, NoQueues)
  {
    var s := Run(capacity, past);
    Invariant(capacity, past);
    events := past;
    if s.queues.sending.Some? {
      events := Extend(capacity, past, SendOk);
    }
    var t := Run(capacity, events);
    assert HasSent(s, t, Held(s.queues.sending), Live, s.queues.(sending := None));
    events := SendsAll(capacity, events);
    HasSentMore(s, t, Run(capacity, events), Held(s.queues.sending), s.queues.outbound, Live, t.queues, Live, NoQueues);
    assert Unsent(s.queues) == Held(s.queues.sending) + s.queues.outbound;
  }

  // ---- A new connection -----------------------------------------------------------------------

  /** What is carried and what the drain will keep of the rest. */
  function ToCarry(s: State): seq<Message> {
    s.queues.carried + Kept(s.queues.outbound, s.heartbeats)
  }

  lemma DrainsOne(s: State)
    requires s.stage == Draining && s.queues.outbound != []
    ensures var t := StepDrainOne(s);
            && HasSent(s, t, [], Draining,
                       s.queues.(outbound := s.queues.outbound[1..], carried := t.queues.carried))
            && ToCarry(t) == ToCarry(s)
  {
  }

  lemma {:induction false} DrainsAll(capacity: nat, past: seq<Event>) returns (events: seq<Event>)
    requires Run(capacity, past).stage == Draining
    ensures var s := Run(capacity, past);
            HasSent(s, Run(capacity, events), [], Draining, s.queues.(outbound := [], carried := ToCarry(s)))
    decreases |Run(capacity, past).queues.outbound|
  {
    var s := Run(capacity, past);
    if s.queues.outbound == [] {
      assert s.queues.carried + [] == s.queues.carried;
      return past;
    }
    DrainsOne(s);
    events := ExtendDrainOne(capacity, past);
    events := DrainsAll(capacity, events);
  }

  lemma ReplaysOne(capacity: nat, past: seq<Event>) returns (events: seq<Event>)
    requires Run(capacity, past).stage == Replaying && Run(capacity, past).queues.carried != []
    ensures var s := Run(capacity, past);
            HasSent(s, Run(capacity, events), [s.queues.carried[0]], Replaying,
                    s.queues.(carried := s.queues.carried[1..]))
  {
    events := Extend(capacity, past, ReplayOk);
  }

  lemma {:induction false} ReplaysAll(capacity: nat, past: seq<Event>) returns (events: seq<Event>)
    requires Run(capacity, past).stage == Replaying
    ensures var s := Run(capacity, past);
            HasSent(s, Run(capacity, events), s.queues.carried, Replaying, s.queues.(carried := []))
    decreases |Run(capacity, past).queues.carried|
  {
    var s := Run(capacity, past);
    if s.queues.carried == [] {
      return past;
    }
    events := ReplaysOne(capacity, past);
    var t := Run(capacity, events);
    events := ReplaysAll(capacity, events);
    HasSentMore(s, t, Run(capacity, events), [s.queues.carried[0]], s.queues.carried[1..], Replaying, t.queues,
                Replaying, s.queues.(carried := []));
    assert [s.queues.carried[0]] + s.queues.carried[1..] == s.queues.carried;
  }

  lemma ReplayCompletes(capacity: nat, past: seq<Event>) returns (events: seq<Event>)
    requires Run(capacity, past).stage == Replaying
    ensures var s := Run(capacity, past);
            HasSent(s, Run(capacity, events), s.queues.carried, Live, s.queues.(carried := []))
            && Run(capacity, events).beating
  {
    events := ReplaysAll(capacity, past);
    events := Extend(capacity, events, ReplayEnd);
  }

  lemma ConnectionStarts(capacity: nat, past: seq<Event>) returns (events: seq<Event>)
    requires Run(capacity, past).stage == Off
    ensures Run(capacity, events) == Run(capacity, past).(stage := Starting, beating := false)
  {
    events := ExtendQuiet(capacity, past, HeartbeatStops);
    events := ExtendQuiet(capacity, events, Connect);
  }

  lemma BacklogDrains(s: State)
    requires s.stage == Starting && Structure(Starting, s.queues)
    ensures var t := StepDrainBacklog(s);
            && HasSent(s, t, [], Draining, t.queues) && t.queues.(carried := []) == s.queues.(backlog := [])
            && ToCarry(t) == Kept(s.queues.backlog + s.queues.outbound, s.heartbeats)
  {
    KeptAppend(s.queues.backlog, s.queues.outbound, s.heartbeats);
  }

  /** From the moment a connection stands, with the heartbeat loop ended, up to the replay. */
  lemma ConnectionDrains(capacity: nat, past: seq<Event>) returns (events: seq<Event>)
    requires Run(capacity, past).stage == Off
    ensures var s := Run(capacity, past);
            HasSent(s, Run(capacity, events), [], Replaying,
                    NoQueues.(carried := Kept(s.queues.backlog + s.queues.outbound, s.heartbeats)))
  {
    Invariant(capacity, past);
    events := ConnectionStarts(capacity, past);
    BacklogDrains(Run(capacity, events));
    events := ExtendDrainBacklog(capacity, events);
    events := DrainsAll(capacity, events);
    events := ExtendQuiet(capacity, events, DrainEnd);
  }

  /**
   From every reachable state without a connection, a connection on which nothing fails goes live after
   it has sent, in order, all that was left and is worth keeping, and holds nothing.
   */
  lemma ReconnectSendsTheRest(capacity: nat, past: seq<Event>) returns (events: seq<Event>)
    requires Run(capacity, past).stage == Off
    ensures var s := Run(capacity, past);
            HasSent(s, Run(capacity, events), Kept(s.queues.backlog + s.queues.outbound, s.heartbeats), Live, NoQueues)
            && Run(capacity, events).beating
  {
    var kept := Kept(Run(capacity, past).queues.backlog + Run(capacity, past).queues.outbound,
                     Run(capacity, past).heartbeats);
    events := ConnectionDrains(capacity, past);
    var t := Run(capacity, events);
    events := ReplayCompletes(capacity, events);
    HasSentMore(Run(capacity, past), t, Run(capacity, events), [], kept, Replaying, t.queues, Live, NoQueues);
    assert [] + kept == kept;
  }

  // ---- Failures -------------------------------------------------------------------------------

  lemma SendFails(capacity: nat, past: seq<Event>) returns (events: seq<Event>)
    requires var s := Run(capacity, past); s.stage == Live && s.queues.sending.None? && s.queues.outbound != []
    ensures var s := Run(capacity, past);
            Run(capacity, events)
            == s.(stage := Off, queues := s.queues.(backlog := s.queues.backlog + [s.queues.outbound[0]],
                                                    outbound := s.queues.outbound[1..]))
  {
    events := Extend(capacity, past, Take);
    events := Extend(capacity, events, SendFail);
  }

  /** A send that fails ends the connection; the next one starts with that message. */
  lemma FailedSendIsRepeated(capacity: nat, past: seq<Event>) returns (events: seq<Event>)
    requires var s := Run(capacity, past); s.stage == Live && s.queues.sending.None? && s.queues.outbound != []
    ensures var s := Run(capacity, past);
            HasSent(s, Run(capacity, events), Kept(s.queues.outbound, s.heartbeats), Live, NoQueues)
  {
    var outbound := Run(capacity, past).queues.outbound;
    assert Run(capacity, past).queues.backlog == [] by {
      Invariant(capacity, past);
    }
    events := SendFails(capacity, past);
    assert [] + [outbound[0]] + outbound[1..] == outbound;
    events := ReconnectSendsTheRest(capacity, events);
  }

  /** A replay that fails anywhere is taken up by the next connection where it stood. */
  lemma FailedReplayIsRepeated(capacity: nat, past: seq<Event>) returns (events: seq<Event>)
    requires Run(capacity, past).stage == Replaying
    ensures var s := Run(capacity, past);
            HasSent(s, Run(capacity, events), Kept(s.queues.carried + s.queues.outbound, s.heartbeats), Live, NoQueues)
  {
    var s := Run(capacity, past);
    Invariant(capacity, past);
    events := Extend(capacity, past, ReplayFail);
    assert s.queues.backlog + s.queues.carried == s.queues.carried;
    events := ReconnectSendsTheRest(capacity, events);
  }

  /** A connection that ends between two sends, or before its replay, leaves every message where it is. */
  lemma StopLeavesEverything(capacity: nat, past: seq<Event>) returns (events: seq<Event>)
    requires var s := Run(capacity, past); s.stage == Starting || (s.stage == Live && s.queues.sending.None?)
    ensures var s := Run(capacity, past);
            HasSent(s, Run(capacity, events), Kept(s.queues.backlog + s.queues.outbound, s.heartbeats), Live, NoQueues)
  {
    events := Extend(capacity, past, Stop);
    events := ReconnectSendsTheRest(capacity, events);
  }
}
