/** The gateway's half of the subscription protocol: what it answers, and what its table can hold. */
module SubscriptionServer {
  import opened Text
  import opened SubscriptionState
  import opened SubscriptionSteps
  import opened SubscriptionInvariants
  import DuplicateWindow
  import Routes

  /** The key of a route the identity may use. */
  ghost predicate HasKey(cfg: Config, identity: Routes.Identity, route: string, key: string) {
    var authorized := Routes.TryAuthorize(cfg.letter, identity, route);
    authorized.Some? && Routes.SubscriptionKey(authorized.value) == key
  }

  /**
   The answer to one command. A subscription is acknowledged exactly if its identifier was not used
   lately, its route is authorized, its key is new and the table has room; an unsubscription exactly if
   its identifier was not used lately and its route is authorized.
   */
  ghost predicate IsAcknowledged(cfg: Config, server: Server, identity: Routes.Identity, m: Command) {
    && m.id !in server.window
    && exists key ::
         && HasKey(cfg, identity, m.route, key)
         && (m.subscribe ==> key !in server.table && |server.table| < cfg.serverLimit)
  }

  lemma DispatchAnswers(cfg: Config, server: Server, identity: Routes.Identity, m: Command)
    ensures var verdict := Dispatch(cfg, server, identity, m);
            && (verdict.ack <==> IsAcknowledged(cfg, server, identity, m))
            && (verdict.ack ==> forall key | HasKey(cfg, identity, m.route, key) ::
                  key in verdict.table <==> m.subscribe)
            && (forall key | !verdict.ack || !HasKey(cfg, identity, m.route, key) ::
                  key in verdict.table <==> key in server.table)
            && (|server.table| <= cfg.serverLimit ==> |verdict.table| <= cfg.serverLimit)
  {
    var route := Routes.TryAuthorize(cfg.letter, identity, m.route);
    if route.Some? {
      assert HasKey(cfg, identity, m.route, Routes.SubscriptionKey(route.value));
    }
  }

  // ---- Over runs ------------------------------------------------------------------------------

  /** Some route named on the wire has this key. */
  ghost predicate WasNamed(cfg: Config, sentRoutes: set<string>, key: string) {
    exists route ::
      && route in sentRoutes && Routes.Resolve(cfg.letter, route).Some?
      && Routes.SubscriptionKey(Routes.Resolve(cfg.letter, route).value) == key
  }

  ghost predicate AllNamed(cfg: Config, table: set<string>, sentRoutes: set<string>) {
    forall key | key in table :: WasNamed(cfg, sentRoutes, key)
  }

  ghost predicate IsKept(cfg: Config, link: Link) {
    && |link.server.table| <= cfg.serverLimit && |link.server.window| <= cfg.windowLimit
    && AllNamed(cfg, link.server.table, link.sentRoutes)
    && (forall i | 0 <= i < |link.wire| :: link.wire[i].route in link.sentRoutes)
  }

  /** Only the server's own steps touch table and window; what is on the wire was named. */
  ghost predicate Passes(link: Link, next: Link) {
    && next.server == link.server && link.sentRoutes <= next.sentRoutes
    && forall i | 0 <= i < |next.wire| ::
         next.wire[i].route in next.sentRoutes || (i < |link.wire| && next.wire[i] == link.wire[i])
  }

  lemma PassesKeeps(cfg: Config, link: Link, next: Link)
    requires IsKept(cfg, link) && Passes(link, next)
    ensures IsKept(cfg, next)
  {
    forall key | key in next.server.table
      ensures WasNamed(cfg, next.sentRoutes, key)
    {
      assert WasNamed(cfg, link.sentRoutes, key);
    }
  }

  lemma ChangePasses(cfg: Config, s: State, e: Event)
    requires OfChange(e)
    ensures Passes(s.link, StepChange(cfg, s, e).link)
  {
  }

  lemma ReplayPasses(s: State, e: Event)
    requires OfReplay(e)
    ensures Passes(s.link, StepReplay(s, e).link)
  {
  }

  lemma OtherPasses(cfg: Config, s: State, e: Event)
    requires !OfChange(e) && !OfReplay(e) && !e.Connect? && !e.ServerHandle? && !e.ServerHandleOther?
    ensures Passes(s.link, StepOther(cfg, s, e).link)
  {
  }

  lemma DispatchNames(cfg: Config, server: Server, identity: Routes.Identity, m: Command, sentRoutes: set<string>)
    requires AllNamed(cfg, server.table, sentRoutes) && m.route in sentRoutes
    ensures AllNamed(cfg, Dispatch(cfg, server, identity, m).table, sentRoutes)
  {
    DispatchAnswers(cfg, server, identity, m);
    forall key | key in Dispatch(cfg, server, identity, m).table
      ensures WasNamed(cfg, sentRoutes, key)
    {
      if key !in server.table {
        assert HasKey(cfg, identity, m.route, key);
      }
    }
  }

  lemma HandleKeeps(cfg: Config, s: State, e: Event)
    requires IsKept(cfg, s.link) && e.ServerHandle?
    ensures IsKept(cfg, StepOther(cfg, s, e).link)
  {
    var t := StepServerHandle(cfg, s, e.identity, e.dropped);
    assert StepOther(cfg, s, e) == t;
    if s.link.wire != [] {
      var m := s.link.wire[0];
      assert t.link.server.table == Dispatch(cfg, s.link.server, e.identity, m).table;
      DispatchAnswers(cfg, s.link.server, e.identity, m);
      DispatchNames(cfg, s.link.server, e.identity, m, s.link.sentRoutes);
      assert t.link.wire == s.link.wire[1..] && t.link.sentRoutes == s.link.sentRoutes;
    }
  }

  lemma TrackedKeeps(cfg: Config, link: Link, next: Link)
    requires IsKept(cfg, link) && |next.server.window| <= cfg.windowLimit
    requires next.server.table == link.server.table && next.sentRoutes == link.sentRoutes && next.wire == link.wire
    ensures IsKept(cfg, next)
  {
  }

  lemma OtherTracks(cfg: Config, s: State, e: Event)
    requires e.ServerHandleOther? && |s.link.server.window| <= cfg.windowLimit
    ensures var next := StepOther(cfg, s, e).link;
            && |next.server.window| <= cfg.windowLimit && next.server.table == s.link.server.table
            && next.sentRoutes == s.link.sentRoutes && next.wire == s.link.wire
  {
    assert StepOther(cfg, s, e) == StepServerHandleOther(cfg, s, e.id, e.ack, e.dropped);
  }

  lemma HandleOtherKeeps(cfg: Config, s: State, e: Event)
    requires IsKept(cfg, s.link) && e.ServerHandleOther?
    ensures IsKept(cfg, StepOther(cfg, s, e).link)
  {
    OtherTracks(cfg, s, e);
    TrackedKeeps(cfg, s.link, StepOther(cfg, s, e).link);
  }

  lemma ConnectKeeps(cfg: Config, s: State)
    requires IsKept(cfg, s.link)
    ensures IsKept(cfg, StepOther(cfg, s, Connect).link)
  {
    assert StepOther(cfg, s, Connect) == StepConnect(s);
  }

  lemma RestKeeps(cfg: Config, s: State, e: Event)
    requires IsKept(cfg, s.link) && !OfChange(e) && !OfReplay(e)
    requires !e.ServerHandle? && !e.ServerHandleOther? && !e.Connect?
    ensures IsKept(cfg, StepOther(cfg, s, e).link)
  {
    OtherPasses(cfg, s, e);
    PassesKeeps(cfg, s.link, StepOther(cfg, s, e).link);
  }

  lemma StepKeeps(cfg: Config, s: State, e: Event)
    requires IsKept(cfg, s.link)
    ensures IsKept(cfg, Step(cfg, s, e).link)
  {
    if OfChange(e) {
      ChangePasses(cfg, s, e);
      PassesKeeps(cfg, s.link, StepChange(cfg, s, e).link);
    } else if OfReplay(e) {
      ReplayPasses(s, e);
      PassesKeeps(cfg, s.link, StepReplay(s, e).link);
    } else if e.ServerHandle? {
      HandleKeeps(cfg, s, e);
    } else if e.ServerHandleOther? {
      HandleOtherKeeps(cfg, s, e);
    } else if e.Connect? {
      ConnectKeeps(cfg, s);
    } else {
      RestKeeps(cfg, s, e);
    }
  }

  /**
   In every run the server's table is within its limit, its window within its own, and every key in the
   table is that of a route the client named on this connection.
   */
  lemma {:induction false} ServerTableBounded(cfg: Config, events: seq<Event>)
    ensures var link := Run(cfg, events).link;
            && |link.server.table| <= cfg.serverLimit && |link.server.window| <= cfg.windowLimit
            && forall key | key in link.server.table :: WasNamed(cfg, link.sentRoutes, key)
    ensures IsKept(cfg, Run(cfg, events).link)
  {
    if events == [] {
    } else {
      ServerTableBounded(cfg, events[..|events| - 1]);
      StepKeeps(cfg, Run(cfg, events[..|events| - 1]), events[|events| - 1]);
    }
  }

  // ---- The duplicate window -------------------------------------------------------------------

  /** The identifiers the server has handled on the current connection, in order. */
  ghost function Handled(cfg: Config, events: seq<Event>): seq<string> {
    if events == [] then []
    else
      var past, e := events[..|events| - 1], events[|events| - 1];
      var s := Run(cfg, past);
      if e.Connect? && s.session.phase == Down then []
      else if e.ServerHandle? && s.link.wire != [] then Handled(cfg, past) + [s.link.wire[0].id]
      else if e.ServerHandleOther? && s.session.phase != Down then Handled(cfg, past) + [e.id]
      else Handled(cfg, past)
  }

  lemma WindowAppend(limit: nat, calls: seq<string>, id: string)
    ensures DuplicateWindow.Window(limit, calls + [id])
            == DuplicateWindow.Track(DuplicateWindow.Window(limit, calls), limit, id)
  {
    assert (calls + [id])[..|calls|] == calls;
  }

  lemma WindowStep(cfg: Config, s: State, e: Event)
    ensures var window, next := s.link.server.window, Step(cfg, s, e).link.server.window;
            next == if e.Connect? && s.session.phase == Down then []
                    else if e.ServerHandle? && s.link.wire != []
                    then DuplicateWindow.Track(window, cfg.windowLimit, s.link.wire[0].id)
                    else if e.ServerHandleOther? && s.session.phase != Down
                    then DuplicateWindow.Track(window, cfg.windowLimit, e.id)
                    else window
  {
    if OfChange(e) {
      ChangePasses(cfg, s, e);
    } else if OfReplay(e) {
      ReplayPasses(s, e);
    } else if !e.Connect? && !e.ServerHandle? && !e.ServerHandleOther? {
      OtherPasses(cfg, s, e);
    }
  }

  /**
   In every run the server's window is that of all identifiers it has handled on this connection, of
   commands and of other messages alike; so it refuses a command exactly if its identifier is among the
   last ones it accepted.
   */
  lemma {:induction false} WindowIsExact(cfg: Config, events: seq<Event>)
    ensures Run(cfg, events).link.server.window == DuplicateWindow.Window(cfg.windowLimit, Handled(cfg, events))
    ensures Run(cfg, events).link.server.window
            == DuplicateWindow.Suffix(DuplicateWindow.Accepted(cfg.windowLimit, Handled(cfg, events)), cfg.windowLimit)
  {
    DuplicateWindow.WindowIsRecentHistory(cfg.windowLimit, Handled(cfg, events));
    if events == [] {
    } else {
      var past, e := events[..|events| - 1], events[|events| - 1];
      var s := Run(cfg, past);
      WindowIsExact(cfg, past);
      WindowStep(cfg, s, e);
      if e.ServerHandle? && s.link.wire != [] {
        WindowAppend(cfg.windowLimit, Handled(cfg, past), s.link.wire[0].id);
      } else if e.ServerHandleOther? {
        WindowAppend(cfg.windowLimit, Handled(cfg, past), e.id);
      }
    }
  }

  // ---- A client that has lost its connection ---------------------------------------------------

  /** Not connected, and no change is past its check of the connection. */
  predicate IsOffline(s: State) {
    && !s.session.connected
    && (s.change.stage.Idle? || s.change.stage.Entered? || s.change.stage.Waiting? || s.change.stage.Holding?
        || s.change.stage.Failing? || s.change.stage.Leaving?)
  }

  ghost predicate QueuesNothing(s: State, t: State) {
    |t.link.outbound| <= |s.link.outbound| && forall m | m in t.link.outbound :: m in s.link.outbound
  }

  lemma OfflineStep(cfg: Config, s: State, e: Event)
    requires IsOffline(s) && !e.GoLive?
    ensures IsOffline(Step(cfg, s, e)) && QueuesNothing(s, Step(cfg, s, e))
  {
    if OfChange(e) {
      OfflineChange(cfg, s, e);
    } else if OfReplay(e) {
      OfflineReplay(s, e);
    } else {
      OfflineOther(cfg, s, e);
    }
  }

  lemma OfflineChange(cfg: Config, s: State, e: Event)
    requires IsOffline(s) && OfChange(e)
    ensures IsOffline(StepChange(cfg, s, e)) && QueuesNothing(s, StepChange(cfg, s, e))
  {
  }

  lemma OfflineReplay(s: State, e: Event)
    requires IsOffline(s) && OfReplay(e)
    ensures IsOffline(StepReplay(s, e)) && QueuesNothing(s, StepReplay(s, e))
  {
  }

  lemma OfflineOther(cfg: Config, s: State, e: Event)
    requires IsOffline(s) && !OfChange(e) && !OfReplay(e) && !e.GoLive?
    ensures IsOffline(StepOther(cfg, s, e)) && QueuesNothing(s, StepOther(cfg, s, e))
  {
  }

  /**
   Once the connection is lost, no change that had not yet checked it, and no later one, queues a command
   until a connection has been replayed: each of them fails and is undone.
   */
  lemma {:induction false} NothingQueuedOffline(cfg: Config, events: seq<Event>, later: seq<Event>)
    requires IsOffline(Run(cfg, events)) && forall e | e in later :: !e.GoLive?
    ensures IsOffline(Run(cfg, events + later)) && QueuesNothing(Run(cfg, events), Run(cfg, events + later))
    decreases |later|
  {
    if later == [] {
      assert events + later == events;
    } else {
      var n := |later| - 1;
      NothingQueuedOffline(cfg, events, later[..n]);
      assert (events + later)[..|events + later| - 1] == events + later[..n];
      OfflineStep(cfg, Run(cfg, events + later[..n]), later[n]);
    }
  }
}
