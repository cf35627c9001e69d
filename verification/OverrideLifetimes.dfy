/**
 Where the overrides of one instance come from and how they go, in every interleaving of the calls: each
 was asked for by an application whose request met every limit, and none goes before its time unless a
 revert of its identifier was called. The audit history says nothing else.
 */
module OverrideLifetimes {
  import opened Text
  import opened LogLevels
  import opened LogLevelController
  import opened AuditRuns

  // ---- What was asked for ---------------------------------------------------------------------

  /** The override that a request gets, in the terms of the request. */
  ghost predicate IsAnswer(r: Request, active: Override) {
    && active.category == Trim(r.category, IsWhiteSpace) && r.level == Some(active.level) && active.scope == r.scope
    && active.expiresAt - active.startedAt == 1000 * r.seconds
  }

  /** Within the limits of the instance. */
  ghost predicate IsWithin(o: Options, r: Request) {
    && 1 <= |Trim(r.category, IsWhiteSpace)| <= 128 && IsListed(o, Trim(r.category, IsWhiteSpace))
    && o.minimumSeconds <= r.seconds <= o.maximumSeconds
    && 3 <= |Trim(r.reason, IsWhiteSpace)| <= 256
    && (r.scope == "all" || r.scope == "instance")
  }

  /** An application, and not a mere validation, asked for it. */
  ghost predicate IsGranted(o: Options, events: seq<Event>, active: Override) {
    exists r: Request ::
      Call(Waiting(r, active.id, active.startedAt, false)) in events && IsWithin(o, r) && IsAnswer(r, active)
  }

  /** What validation lets through, whatever overrides there are: exactly the requests within all limits. */
  lemma WellFormedIff(o: Options, r: Request)
    ensures WellFormed(o, r) <==> IsWithin(o, r) && r.level.Some?
  {
    var category := Trim(r.category, IsWhiteSpace);
    BlankIffTrimmedAway(r.category);
    BlankIffTrimmedAway(r.reason);
    forall i | 0 <= i < |o.allowlist|
      ensures Covers(o.allowlist[i], category) <==> o.allowlist[i] == "*" || AtOrBelow(o.allowlist[i], category)
    {
      CoversExactly(o.allowlist[i], category);
    }
    if "*" in o.allowlist {
      var i :| 0 <= i < |o.allowlist| && o.allowlist[i] == "*";
      assert Covers(o.allowlist[i], category);
    }
    if r.scope == "all" || r.scope == "instance" {
      assert !IsWhiteSpace(r.scope[0]);
    }
  }

  ghost predicate IsPlan(o: Options, events: seq<Event>, p: Plan) {
    && Call(Waiting(p.request, p.active.id, p.active.startedAt, p.validateOnly)) in events
    && IsWithin(o, p.request) && IsAnswer(p.request, p.active)
  }

  lemma PlanIsGranted(o: Options, events: seq<Event>, p: Plan)
    requires IsPlan(o, events, p) && !p.validateOnly
    ensures IsGranted(o, events, p.active)
  {
  }

  /** What a call under way goes by. */
  ghost predicate JobIsGrounded(o: Options, events: seq<Event>, job: Job) {
    match job
    case Looking => true
    case Reverting(id) => Call(Reverting(id)) in events
    case Removed(gone) => Call(Reverting(gone.id)) in events && IsGranted(o, events, gone)
    case RevertOwing(gone) => Call(Reverting(gone.id)) in events && IsGranted(o, events, gone)
    case Waiting(r, id, startedAt, validateOnly) => Call(job) in events
    case Validating(p) => IsPlan(o, events, p)
    case Limiting(p) => IsPlan(o, events, p)
    case Conflicting(p) => IsPlan(o, events, p)
    case Fetching(p) => IsPlan(o, events, p) && !p.validateOnly
    case Preparing(p) => IsPlan(o, events, p) && !p.validateOnly
    case Inserting(p) => IsPlan(o, events, p) && !p.validateOnly
    case ApplyOwing(p) => IsPlan(o, events, p) && !p.validateOnly
    case Releasing => true
    case Done => true
  }

  /** An override that is over its time. */
  ghost predicate IsOverdue(o: Options, events: seq<Event>, clock: int, gone: Override) {
    IsGranted(o, events, gone) && gone.expiresAt <= clock
  }

  ghost predicate ThreadIsGrounded(o: Options, events: seq<Event>, x: Shared, th: Thread) {
    && JobIsGrounded(o, events, th.job)
    && (forall p | p in th.left :: IsOverdue(o, events, x.clock, p))
    && (th.audit.Owing? ==> IsOverdue(o, events, x.clock, th.audit.gone))
  }

  // ---- What the history says ------------------------------------------------------------------

  /** The entry is about this override and what was done to it. */
  ghost predicate Tells(events: seq<Event>, clock: int, entry: Entry, about: Override) {
    && entry.id == about.id && entry.category == about.category && entry.scope == about.scope
    && entry.expiresAt == about.expiresAt
    && match entry.outcome
       case Applied => entry.next == about.level && entry.timestamp == about.startedAt
       case Reverted => entry.previous == about.level && Call(Reverting(about.id)) in events
       case Expired => entry.previous == about.level && about.expiresAt <= clock
  }

  ghost predicate IsTrue(o: Options, events: seq<Event>, clock: int, entry: Entry) {
    exists about: Override :: IsGranted(o, events, about) && Tells(events, clock, entry, about)
  }

  ghost predicate SharedIsGrounded(o: Options, events: seq<Event>, x: Shared) {
    && Keyed(x.overrides)
    && (forall id | id in x.overrides :: IsGranted(o, events, x.overrides[id]))
    && (forall entry | entry in x.logs.history :: IsTrue(o, events, x.clock, entry))
  }

  ghost predicate IsGrounded(o: Options, events: seq<Event>, s: State) {
    && SharedIsGrounded(o, events, s.shared)
    && forall th | th in s.threads :: ThreadIsGrounded(o, events, s.shared, th)
  }

  // ---- One access -----------------------------------------------------------------------------

  lemma HistoryGrows(o: Options, events: seq<Event>, x: Shared, entry: Entry, about: Override)
    requires SharedIsGrounded(o, events, x) && IsGranted(o, events, about) && Tells(events, x.clock, entry, about)
    ensures SharedIsGrounded(o, events, x.(logs := Enqueue(x.logs, entry)))
  {
    var y := x.(logs := Enqueue(x.logs, entry));
    assert IsTrue(o, events, x.clock, entry);
    assert forall e :: e in y.logs.history <==> e == entry || e in x.logs.history;
  }

  lemma RemovalGrounded(o: Options, events: seq<Event>, x: Shared, id: string)
    requires SharedIsGrounded(o, events, x)
    ensures SharedIsGrounded(o, events, x.(overrides := x.overrides - {id}))
  {
  }

  lemma ExpirableIsOverdue(o: Options, events: seq<Event>, x: Shared, read: int)
    requires SharedIsGrounded(o, events, x)
    ensures forall p | p in Expirable(x.overrides, Earlier(read, x.clock)) :: IsOverdue(o, events, x.clock, p)
  {
  }

  lemma AuditGrounded(o: Options, events: seq<Event>, x: Shared, th: Thread, i: Input)
    requires SharedIsGrounded(o, events, x) && ThreadIsGrounded(o, events, x, th)
    ensures var effect := MoveAudit(o, x, th, i);
            SharedIsGrounded(o, events, effect.shared) && ThreadIsGrounded(o, events, effect.shared, effect.thread)
  {
    if th.audit.Owing? {
      HistoryGrows(o, events, x, RemovalEntry(th.audit.gone, i.read, i.level, Expired), th.audit.gone);
    }
  }

  lemma ExpiryGrounded(o: Options, events: seq<Event>, x: Shared, th: Thread, pick: Override)
    requires SharedIsGrounded(o, events, x) && ThreadIsGrounded(o, events, x, th)
    ensures var effect := MoveExpiry(x, th, pick);
            SharedIsGrounded(o, events, effect.shared) && ThreadIsGrounded(o, events, effect.shared, effect.thread)
  {
    RemovalGrounded(o, events, x, pick.id);
  }

  lemma RevertGrounded(o: Options, events: seq<Event>, x: Shared, th: Thread, i: Input)
    requires SharedIsGrounded(o, events, x) && ThreadIsGrounded(o, events, x, th)
    ensures var effect := MoveRevert(x, th, i);
            SharedIsGrounded(o, events, effect.shared) && ThreadIsGrounded(o, events, effect.shared, effect.thread)
  {
    ExpirableIsOverdue(o, events, x, i.read);
    match th.job
    case Reverting(id) => RemovalGrounded(o, events, x, id);
    case RevertOwing(gone) => HistoryGrows(o, events, x, RemovalEntry(gone, i.read, i.level, Reverted), gone);
    case _ =>
  }

  lemma ApplySharedGrounded(o: Options, events: seq<Event>, t: nat, x: Shared, th: Thread, i: Input)
    requires SharedIsGrounded(o, events, x) && ThreadIsGrounded(o, events, x, th)
    ensures SharedIsGrounded(o, events, MoveApply(o, t, x, th, i).shared)
  {
    if th.job.Inserting? {
      PlanIsGranted(o, events, th.job.plan);
    } else if th.job.ApplyOwing? {
      var p := th.job.plan;
      PlanIsGranted(o, events, p);
      HistoryGrows(o, events, x, ApplicationEntry(p.active, i.level), p.active);
    }
  }

  lemma WaitingGrounded(o: Options, events: seq<Event>, t: nat, x: Shared, th: Thread, i: Input)
    requires JobIsGrounded(o, events, th.job) && th.job.Waiting?
    ensures JobIsGrounded(o, events, MoveApply(o, t, x, th, i).thread.job)
  {
    if WellFormed(o, th.job.request) {
      WellFormedIff(o, th.job.request);
    }
  }

  lemma PlanGrounded(o: Options, events: seq<Event>, t: nat, x: Shared, th: Thread, i: Input)
    requires JobIsGrounded(o, events, th.job) && !th.job.Waiting?
    ensures JobIsGrounded(o, events, MoveApply(o, t, x, th, i).thread.job)
  {
  }

  lemma ApplyThreadGrounded(o: Options, events: seq<Event>, t: nat, x: Shared, th: Thread, i: Input)
    requires SharedIsGrounded(o, events, x) && ThreadIsGrounded(o, events, x, th)
    ensures ThreadIsGrounded(o, events, x, MoveApply(o, t, x, th, i).thread)
  {
    if th.job.Waiting? {
      WaitingGrounded(o, events, t, x, th, i);
    } else {
      PlanGrounded(o, events, t, x, th, i);
    }
    ExpirableIsOverdue(o, events, x, i.read);
    var next := MoveApply(o, t, x, th, i).thread;
    assert next.left == th.left || next.left == Expirable(x.overrides, Earlier(i.read, x.clock));
  }

  lemma ApplyGrounded(o: Options, events: seq<Event>, t: nat, x: Shared, th: Thread, i: Input)
    requires SharedIsGrounded(o, events, x) && ThreadIsGrounded(o, events, x, th)
    ensures var effect := MoveApply(o, t, x, th, i);
            SharedIsGrounded(o, events, effect.shared) && ThreadIsGrounded(o, events, effect.shared, effect.thread)
  {
    ApplySharedGrounded(o, events, t, x, th, i);
    ApplyThreadGrounded(o, events, t, x, th, i);
    assert MoveApply(o, t, x, th, i).shared.clock == x.clock;
  }

  lemma MoveGrounded(o: Options, events: seq<Event>, t: nat, x: Shared, th: Thread, i: Input)
    requires SharedIsGrounded(o, events, x) && ThreadIsGrounded(o, events, x, th)
    ensures var effect := Move(o, t, x, th, i);
            && SharedIsGrounded(o, events, effect.shared) && ThreadIsGrounded(o, events, effect.shared, effect.thread)
            && effect.shared.clock == x.clock
  {
    if th.audit != Quiet {
      AuditGrounded(o, events, x, th, i);
    } else if th.left != {} {
      ExpiryGrounded(o, events, x, th, i.pick);
    } else if IsRevert(th.job) {
      RevertGrounded(o, events, x, th, i);
    } else {
      ApplyGrounded(o, events, t, x, th, i);
    }
  }

  // ---- Every run ------------------------------------------------------------------------------

  ghost predicate IsLater(events: seq<Event>, more: seq<Event>) {
    forall e | e in events :: e in more
  }

  lemma GrantedLater(o: Options, events: seq<Event>, more: seq<Event>)
    requires IsLater(events, more)
    ensures forall active | IsGranted(o, events, active) :: IsGranted(o, more, active)
  {
    forall active | IsGranted(o, events, active) ensures IsGranted(o, more, active) {
      var r :| Call(Waiting(r, active.id, active.startedAt, false)) in events && IsWithin(o, r) && IsAnswer(r, active);
      assert Call(Waiting(r, active.id, active.startedAt, false)) in more;
    }
  }

  lemma SharedLater(o: Options, events: seq<Event>, more: seq<Event>, x: Shared, y: Shared)
    requires SharedIsGrounded(o, events, x) && IsLater(events, more) && x.clock <= y.clock
    requires y.overrides == x.overrides && y.logs.history == x.logs.history
    ensures SharedIsGrounded(o, more, y)
  {
    GrantedLater(o, events, more);
    forall entry | entry in y.logs.history ensures IsTrue(o, more, y.clock, entry) {
      var about :| IsGranted(o, events, about) && Tells(events, x.clock, entry, about);
      assert Tells(more, y.clock, entry, about);
    }
  }

  lemma ThreadLater(o: Options, events: seq<Event>, more: seq<Event>, x: Shared, y: Shared, th: Thread)
    requires ThreadIsGrounded(o, events, x, th) && IsLater(events, more) && x.clock <= y.clock
    ensures ThreadIsGrounded(o, more, y, th)
  {
    GrantedLater(o, events, more);
  }

  lemma ThreadsLater(o: Options, events: seq<Event>, more: seq<Event>, s: State, y: Shared)
    requires IsGrounded(o, events, s) && IsLater(events, more) && s.shared.clock <= y.clock
    ensures forall th | th in s.threads :: ThreadIsGrounded(o, more, y, th)
  {
    forall th | th in s.threads ensures ThreadIsGrounded(o, more, y, th) {
      ThreadLater(o, events, more, s.shared, y, th);
    }
  }

  lemma StepGrounded(o: Options, past: seq<Event>, e: Event, s: State)
    requires IsGrounded(o, past, s)
    ensures IsGrounded(o, past + [e], Step(o, s, e))
  {
    var events, s' := past + [e], Step(o, s, e);
    if e.Act? {
      SharedLater(o, past, events, s.shared, s.shared);
      ThreadsLater(o, past, events, s, s.shared);
      if e.thread < |s.threads| {
        ActGrounded(o, events, s, e.thread, e.input);
      }
    } else {
      SharedLater(o, past, events, s.shared, s'.shared);
      ThreadsLater(o, past, events, s, s'.shared);
      if e.Call? {
        assert e in events;
        assert forall th | th in s'.threads :: th in s.threads || th == Thread(e.job, {}, Quiet);
      }
    }
  }

  lemma ActGrounded(o: Options, events: seq<Event>, s: State, t: nat, i: Input)
    requires IsGrounded(o, events, s) && t < |s.threads|
    ensures IsGrounded(o, events, ActStep(o, s, t, i))
  {
    var s' := ActStep(o, s, t, i);
    assert s.threads[t] in s.threads;
    MoveGrounded(o, events, t, s.shared, s.threads[t], i);
    forall th | th in s'.threads ensures ThreadIsGrounded(o, events, s'.shared, th) {
      if th in s.threads {
        ThreadLater(o, events, events, s.shared, s'.shared, th);
      }
    }
  }

  lemma {:induction false} RunGrounded(o: Options, events: seq<Event>)
    ensures IsGrounded(o, events, Run(o, events))
  {
    if events == [] {
    } else {
      var past, e := events[..|events| - 1], events[|events| - 1];
      RunGrounded(o, past);
      StepGrounded(o, past, e, Run(o, past));
      assert past + [e] == events;
    }
  }

  /** In every run each override was asked for, by an application within all limits, and is what it asked for. */
  lemma EveryOverrideWasGranted(o: Options, events: seq<Event>, id: string)
    requires id in Run(o, events).shared.overrides
    ensures var active := Run(o, events).shared.overrides[id];
            && active.id == id && IsGranted(o, events, active)
            && 1000 * o.minimumSeconds <= active.expiresAt - active.startedAt <= 1000 * o.maximumSeconds
  {
    RunGrounded(o, events);
  }

  /** In every run the audit history tells only of such overrides, and only what was done to them. */
  lemma HistoryIsTrue(o: Options, events: seq<Event>, entry: Entry)
    requires entry in Run(o, events).shared.logs.history
    ensures IsTrue(o, events, Run(o, events).shared.clock, entry)
  {
    RunGrounded(o, events);
  }

  // ---- How an override goes -------------------------------------------------------------------

  /** Applications carry identifiers of their own. */
  ghost predicate HasOwnIds(events: seq<Event>) {
    forall a, b | a in events && b in events && Asks(a) && Asks(b) && a.job.id == b.job.id :: a == b
  }

  predicate Asks(e: Event) {
    e.Call? && e.job.Waiting?
  }

  lemma GrantedOnce(o: Options, events: seq<Event>, a: Override, b: Override)
    requires HasOwnIds(events) && IsGranted(o, events, a) && IsGranted(o, events, b) && a.id == b.id
    ensures a == b
  {
    var r :| Call(Waiting(r, a.id, a.startedAt, false)) in events && IsAnswer(r, a);
    var q :| Call(Waiting(q, b.id, b.startedAt, false)) in events && IsAnswer(q, b);
    assert Asks(Call(Waiting(r, a.id, a.startedAt, false))) && Asks(Call(Waiting(q, b.id, b.startedAt, false)));
  }

  lemma LeavingMove(o: Options, t: nat, x: Shared, th: Thread, i: Input, id: string)
    requires id in x.overrides && id !in Move(o, t, x, th, i).shared.overrides
    ensures th.job == Reverting(id) || (i.pick in th.left && i.pick.id == id)
  {
  }

  /**
   An override leaves the dictionary only at the hands of a call to revert it, or after its time; if
   identifiers were used twice, only after the time of an override with its identifier.
   */
  lemma LeavesOnlyInTime(o: Options, events: seq<Event>, e: Event, id: string) returns (due: Override)
    requires id in Run(o, events).shared.overrides && id !in Run(o, events + [e]).shared.overrides
    ensures var s := Run(o, events);
            && e.Act? && e.thread < |s.threads|
            && (|| (s.threads[e.thread].job == Reverting(id) && Call(Reverting(id)) in events)
                || (due.id == id && IsOverdue(o, events, s.shared.clock, due)))
            && (HasOwnIds(events) && s.threads[e.thread].job != Reverting(id) ==>
                  s.shared.overrides[id].expiresAt <= s.shared.clock)
  {
    var s := Run(o, events);
    assert (events + [e])[..|events|] == events;
    assert Run(o, events + [e]) == Step(o, s, e);
    due := s.shared.overrides[id];
    var th := s.threads[e.thread];
    LeavingMove(o, e.thread, s.shared, th, e.input, id);
    RunGrounded(o, events);
    assert th in s.threads;
    if th.job != Reverting(id) {
      due := e.input.pick;
      if HasOwnIds(events) {
        GrantedOnce(o, events, due, s.shared.overrides[id]);
      }
    }
  }
}
