/** What every step of the subscription protocol keeps. */
module SubscriptionInvariants {
  import opened Text
  import opened SubscriptionState
  import opened SubscriptionSteps
  import Routes

  predicate InReplay(stage: ReplayStage) {
    (stage.ReplayDrained? || stage.ReplaySending? || stage.ReplayHolding? || stage.ReplayRegistered?
     || stage.ReplayRefused? || stage.ReplayFailing?)
  }

  /** Mutual exclusion, the undo record, and which stage may hold what. */
  ghost predicate Structure(s: State) {
    && Valid(s.client)
    && (s.gate == ByChange <==> !s.change.stage.Idle?)
    && (s.gate == ByReplay <==> InReplay(s.replay.stage))
    && (s.client.rollback.Some? <==> Active(s.change))
    && (s.client.rollback.Some? ==> s.client.rollback.value.route == s.change.route)
    && (s.session.connected ==> s.session.phase == Live)
    && (s.session.phase == Live ==> s.replay.stage == ReplaySucceeded)
    && (InReplay(s.replay.stage) ==> (s.session.phase.Open? || s.session.phase.Closing?) && s.link.outbound == [])
    && (s.session.phase != Down && s.replay.stage.ReplayFailed? ==> s.change.stage.Idle?)
    && (s.session.phase == Down ==> !s.receiverHolds && s.client.confirmed == {})
    && (s.change.holdsSlot ==>
          (s.change.stage.Holding? || s.change.stage.Checked? || s.change.stage.Reasserted?
           || s.change.stage.Failing? || s.change.stage.Leaving?))
    && ((s.change.stage.Holding? || s.change.stage.Checked? || s.change.stage.Reasserted?) ==> s.change.holdsSlot)
    && (s.replay.holdsSlot ==> (s.replay.stage.ReplayHolding? || s.replay.stage.ReplayFailing?))
    && (s.replay.stage == ReplayHolding ==> s.replay.holdsSlot)
    && ((s.replay.stage.ReplayHolding? || s.replay.stage.ReplayRegistered? || s.replay.stage.ReplayRefused?) ==>
          s.replay.rest != [])
  }

  function Count(b: bool): nat {
    if b then 1 else 0
  }

  /** Every response slot is free, stands for a pending mutation, or is in one thread's hands. */
  predicate SlotsConserved(cfg: Config, s: State) {
    s.freeSlots + s.releasing + |s.client.pending| + Count(s.change.holdsSlot) + Count(s.replay.holdsSlot)
    + Count(s.receiverHolds) == cfg.capacity
  }

  ghost predicate Sound(cfg: Config, s: State) {
    Structure(s) && SlotsConserved(cfg, s)
  }

  // ---- Commands in flight ---------------------------------------------------------------------

  /** The commands that `responses` answer, in order. */
  function Answered(responses: seq<Response>): seq<Command> {
    if responses == [] then []
    else
      var last := responses[|responses| - 1];
      Answered(responses[..|responses| - 1]) + (if last.Answer? then [last.command] else [])
  }

  /** All commands on their way: answered, on the wire, or still queued at the client. */
  function Flight(s: State): seq<Command> {
    Answered(s.link.responses) + s.link.wire + s.link.outbound
  }

  ghost predicate Unique(f: seq<Command>) {
    forall i, j | 0 <= i < j < |f| :: f[i].id != f[j].id
  }

  ghost predicate Tracked(f: seq<Command>, pending: map<string, Mutation>) {
    forall i | 0 <= i < |f| ::
      f[i].id in pending && pending[f[i].id].route == f[i].route && pending[f[i].id].subscribe == f[i].subscribe
  }

  ghost function Ids(f: seq<Command>): set<string> {
    set i | 0 <= i < |f| :: f[i].id
  }

  /** The connection exists and its replay has not failed. */
  predicate Intact(s: State) {
    s.session.phase != Down &&
    !(s.replay.stage.ReplayRefused? || s.replay.stage.ReplayFailing? || s.replay.stage.ReplayFailed?
      || s.replay.stage.ReplaySkipped?)
  }

  /** No command has been sent on this connection yet. */
  predicate BeforeReplay(s: State) {
    s.replay.stage.ReplayNotStarted? || s.replay.stage.ReplaySkipped? || s.replay.stage.ReplayDrained?
  }

  predicate Drained(s: State) {
    Intact(s) && !s.replay.stage.ReplayNotStarted?
  }

  /** Registered by a thread that has not sent the command (or never will). */
  function Unsent(s: State): set<string> {
    OwnIds(s.change) + (if s.replay.stage.ReplayRegistered? then {s.replay.id} else {})
  }

  predicate Quiet(s: State) {
    s.session.phase != Down && BeforeReplay(s) ==>
      Answered(s.link.responses) == [] && s.link.wire == [] && s.client.confirmed == {} && s.link.lost == {}
  }

  /** Every pending mutation is in flight exactly once, lost, left over from before, or not sent yet. */
  ghost predicate Accounted(s: State) {
    Drained(s) ==>
      && Tracked(Flight(s), s.client.pending)
      && Unique(Flight(s))
      && s.client.pending.Keys == Ids(Flight(s)) + s.link.lost + s.link.stale + Unsent(s)
      && Ids(Flight(s)) !! s.link.lost !! s.link.stale !! Unsent(s)
  }

  // ---- Client and server ----------------------------------------------------------------------

  /** What the client will believe about a route once it has read the answers on their way. */
  function Expect(responses: seq<Response>, route: string, now: bool): bool {
    if responses == [] then now
    else
      var last := responses[|responses| - 1];
      if last.Answer? && last.ack && last.command.route == route then last.command.subscribe
      else Expect(responses[..|responses| - 1], route, now)
  }

  ghost predicate NoneLost(s: State, route: string) {
    forall id | id in s.link.lost && id in s.client.pending :: s.client.pending[id].route != route
  }

  /** The client's confirmations, brought forward over the answers on their way, are the server's table. */
  ghost predicate Simulates(cfg: Config, s: State) {
    Intact(s) ==>
      forall route | SoleSpelling(cfg, s, route) && NoneLost(s, route) ::
        Expect(s.link.responses, route, route in s.client.confirmed) == OnServer(cfg, s, route)
  }

  ghost predicate Recorded(s: State) {
    forall i | 0 <= i < |s.link.wire| :: s.link.wire[i].route in s.link.sentRoutes
  }

  predicate Replayed(s: State) {
    s.session.phase != Down &&
    (s.replay.stage.ReplaySending? || s.replay.stage.ReplayHolding? || s.replay.stage.ReplayRegistered?
     || s.replay.stage.ReplaySucceeded?)
  }

  predicate Agrees(c: Client, route: string) {
    route in c.desired <==> route in c.confirmed
  }

  /** The connection exists and its replay has not taken the caller's routes yet. */
  predicate Early(s: State) {
    s.session.phase != Down && (s.replay.stage.ReplayNotStarted? || s.replay.stage.ReplayDrained?)
  }

  /** After the snapshot both sets agree on the route; before it, a confirmed route is at least wanted. */
  predicate Fits(s: State, route: string) {
    && (Replayed(s) ==> Agrees(s.client, route))
    && (Early(s) ==> route in s.client.confirmed ==> route in s.client.desired)
  }

  /** A route with nothing pending, not being changed and not waiting for replay fits. */
  ghost predicate Settled(s: State) {
    forall route ::
      || HasPending(s.client.pending, route)
      || Fits(s, route)
      || (Active(s.change) && s.change.route == route)
      || (Replayed(s) && !s.replay.stage.ReplaySucceeded? && route in s.replay.rest)
  }

  /** Restoring `previous` makes the route fit. */
  predicate Restores(s: State, route: string, previous: bool) {
    && (Replayed(s) ==> (previous <==> route in s.client.confirmed))
    && (Early(s) ==> route in s.client.confirmed ==> previous)
  }

  /** Why undoing a change is safe: what it restores fitted when it began and still does. */
  ghost predicate Undoable(s: State) {
    Active(s.change) && !s.change.stage.Enqueued? && s.client.rollback.Some? ==>
      || s.client.rollback.value.observed
      || HasOther(s.client.pending, OwnIds(s.change), s.change.route)
      || Restores(s, s.change.route, s.client.rollback.value.previous)
  }

  /** A route whose command was just registered, by change or replay, is pending or was answered and fits. */
  ghost predicate Placed(s: State) {
    && (s.change.stage.Registered? || s.change.stage.Enqueued? ==>
          HasPending(s.client.pending, s.change.route) || Fits(s, s.change.route))
    && (s.replay.stage.ReplayRegistered? && s.replay.rest != [] ==>
          HasPending(s.client.pending, s.replay.rest[0]) || Fits(s, s.replay.rest[0]))
  }

  /** The client's own bookkeeping, which no answer, however misread, can break. */
  ghost predicate Coherent(s: State) {
    Settled(s) && Undoable(s) && Placed(s) && OwnMatches(s)
  }

  /** What `baseline` stands for, stage by stage. */
  ghost predicate BaselineKept(s: State) {
    Active(s.change) && !s.change.stage.Enqueued? && s.client.rollback.Some? ==>
      && (!s.client.rollback.value.observed ==> s.change.baseline == s.client.rollback.value.previous)
      && (s.client.rollback.value.observed && !s.change.cleared ==>
            s.change.baseline == Target(s.client.pending - OwnIds(s.change), s.client.confirmed, s.change.route))
      && (s.change.cleared ==>
            && (s.session.phase == Down || s.replay.stage.ReplayNotStarted? || s.replay.stage.ReplaySkipped?)
            && s.client.confirmed == {}
            && s.client.pending.Keys <= OwnIds(s.change))
  }

  /** An unsent mutation still names what its thread is about to send. */
  predicate OwnMatches(s: State) {
    && (s.change.stage.Registered? || s.change.stage.Refused? ==>
          s.change.id in s.client.pending ==>
            && s.client.pending[s.change.id].route == s.change.route
            && s.client.pending[s.change.id].subscribe == s.change.subscribe)
    && (s.replay.stage.ReplayRegistered? && s.replay.rest != [] ==>
          s.replay.id in s.client.pending ==>
            s.client.pending[s.replay.id].route == s.replay.rest[0] && s.client.pending[s.replay.id].subscribe)
  }

  ghost predicate WireSync(cfg: Config, s: State) {
    Quiet(s) && Accounted(s) && Simulates(cfg, s) && Recorded(s)
  }

  /** What holds as long as no answer was misread. */
  ghost predicate Sync(cfg: Config, s: State) {
    WireSync(cfg, s) && BaselineKept(s)
  }

  ghost predicate Inv(cfg: Config, s: State) {
    Sound(cfg, s) && Coherent(s) && (!s.mistaken ==> Sync(cfg, s))
  }

  // ---- Sequences ------------------------------------------------------------------------------

  lemma {:induction false} AnsweredTail(responses: seq<Response>)
    requires responses != []
    ensures Answered(responses) ==
            (if responses[0].Answer? then [responses[0].command] else []) + Answered(responses[1..])
  {
    if |responses| > 1 {
      var init := responses[..|responses| - 1];
      AnsweredTail(init);
      assert responses[1..][..|responses| - 2] == init[1..];
    }
  }

  lemma {:induction false} ExpectTail(responses: seq<Response>, route: string, now: bool)
    requires responses != []
    ensures Expect(responses, route, now) == Expect(responses[1..], route, Expect([responses[0]], route, now))
  {
    if |responses| > 1 {
      var init := responses[..|responses| - 1];
      ExpectTail(init, route, now);
      assert responses[1..][..|responses| - 2] == init[1..];
    }
  }

  lemma RemoveAt(f: seq<Command>, k: nat, pending: map<string, Mutation>)
    requires k < |f| && Unique(f) && Tracked(f, pending)
    ensures var g := f[..k] + f[k + 1..];
            && Unique(g) && Tracked(g, pending) && Tracked(g, pending - {f[k].id})
            && Ids(g) == Ids(f) - {f[k].id}
  {
    var g := f[..k] + f[k + 1..];
    forall i | 0 <= i < |g| ensures g[i] == f[if i < k then i else i + 1] {}
    forall id | id in Ids(f) - {f[k].id} ensures id in Ids(g) {
      var i :| 0 <= i < |f| && f[i].id == id;
      assert g[if i < k then i else i - 1].id == id;
    }
  }

  lemma Append(f: seq<Command>, m: Command, pending: map<string, Mutation>)
    requires Unique(f) && Tracked(f, pending) && m.id !in Ids(f)
    requires m.id in pending && pending[m.id].route == m.route && pending[m.id].subscribe == m.subscribe
    ensures Unique(f + [m]) && Tracked(f + [m], pending) && Ids(f + [m]) == Ids(f) + {m.id}
  {
    var g := f + [m];
    forall i | 0 <= i < |f| ensures g[i] == f[i] && f[i].id in Ids(f) {}
    assert g[|f|] == m;
    forall id | id in Ids(f) ensures id in Ids(g) {
      var i :| 0 <= i < |f| && f[i].id == id;
      assert g[i].id == id;
    }
    assert g[|f|].id in Ids(g);
  }

  lemma TrackedMore(f: seq<Command>, p: map<string, Mutation>, q: map<string, Mutation>)
    requires Tracked(f, p) && forall id | id in p :: id in q && q[id] == p[id]
    ensures Tracked(f, q)
  {
  }
}
