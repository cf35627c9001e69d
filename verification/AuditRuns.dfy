/**
 The log-level controller under concurrent calls. Only validation and application hold the override
 lock; reverts, expiry and the audit queues do not. One step is one access to the dictionary, to an
 audit queue or to the lock. Levels and clock values that a call read on the way are inputs of its steps.
 */
module AuditRuns {
  import opened Text
  import opened Sums
  import opened LogLevels
  import opened LogLevelController
  import opened DuplicateWindow

  /** An application past the checks of its request; a mere validation stops before the insertion. */
  datatype Plan = Plan(request: Request, active: Override, validateOnly: bool)

  /** Where a call stands outside expiry and audit; the stages that take a plan hold the override lock. */
  datatype Job =
    | Looking
    | Reverting(id: string)
    | Removed(gone: Override)
    | RevertOwing(gone: Override)
    | Waiting(request: Request, id: string, startedAt: int, validateOnly: bool)
    | Validating(plan: Plan)
    | Limiting(plan: Plan)
    | Conflicting(plan: Plan)
    | Fetching(plan: Plan)
    | Preparing(plan: Plan)
    | Inserting(plan: Plan)
    | ApplyOwing(plan: Plan)
    | Releasing
    | Done

  /** Where `AddAudit` stands; `Owing` is an expired override that was removed and not recorded yet. */
  datatype Audit = Quiet | Owing(gone: Override) | Queueing(entry: Entry) | Counting | Trimming

  /** `left`: the expired overrides that a `RemoveExpired` under way found and has not come to yet. */
  datatype Thread = Thread(job: Job, left: set<Override>, audit: Audit)

  /** `history` and `queued`: everything ever put into the visible and into the unpersisted queue. */
  datatype Logs = Logs(history: seq<Entry>, audit: seq<Entry>, queued: seq<Entry>, pending: seq<Entry>)

  datatype Shared = Shared(clock: int, overrides: Overrides, lock: Option<nat>, logs: Logs)

  /** `peak` is history: how many calls were ever about to trim the visible queue at once. */
  datatype State = State(shared: Shared, threads: seq<Thread>, peak: nat)

  datatype Input = Input(read: int, level: Level, pick: Override)

  datatype Event =
    | Tick(now: int)
    | Call(job: Job)
    | Act(thread: nat, input: Input)
    | Persist(entry: Entry)

  datatype Effect = Effect(shared: Shared, thread: Thread)

  function Initial(): State {
    State(Shared(0, map[], None, Logs([], [], [], [])), [], 0)
  }

  predicate Starts(job: Job) {
    job.Looking? || job.Reverting? || job.Waiting?
  }

  // ---- Steps ----------------------------------------------------------------------------------

  function Earlier(read: int, clock: int): int {
    if read <= clock then read else clock
  }

  function Expirable(m: Overrides, now: int): set<Override> {
    set id | id in m && m[id].expiresAt <= now :: m[id]
  }

  function Enqueue(logs: Logs, entry: Entry): Logs {
    logs.(history := logs.history + [entry], audit := logs.audit + [entry])
  }

  function Queue(o: Options, logs: Logs, entry: Entry): Logs {
    logs.(queued := logs.queued + [entry], pending := Suffix(logs.pending + [entry], o.auditCapacity))
  }

  function Dequeue(logs: Logs): Logs {
    logs.(audit := if logs.audit == [] then [] else logs.audit[1..])
  }

  function RemovalEntry(gone: Override, read: int, level: Level, outcome: Outcome): Entry {
    Entry(gone.id, read, gone.category, gone.level, level, gone.scope, gone.expiresAt, outcome)
  }

  function ApplicationEntry(active: Override, level: Level): Entry {
    Entry(active.id, active.startedAt, active.category, level, active.level, active.scope, active.expiresAt, Applied)
  }

  /** One expired override less to look at; whoever removes it from the dictionary has to record it. */
  function MoveExpiry(x: Shared, th: Thread, pick: Override): Effect {
    if pick !in th.left then Effect(x, th)
    else if pick.id !in x.overrides then Effect(x, th.(left := th.left - {pick}))
    else Effect(x.(overrides := x.overrides - {pick.id}), th.(left := th.left - {pick}, audit := Owing(pick)))
  }

  function MoveRevert(x: Shared, th: Thread, i: Input): Effect {
    match th.job
    case Looking => Effect(x, th.(job := Done, left := Expirable(x.overrides, Earlier(i.read, x.clock))))
    case Reverting(id) =>
      if id !in x.overrides then Effect(x, th.(job := Done))
      else Effect(x.(overrides := x.overrides - {id}), th.(job := Removed(x.overrides[id])))
    case Removed(gone) =>
      Effect(x, th.(job := RevertOwing(gone), left := Expirable(x.overrides, Earlier(i.read, x.clock))))
    case RevertOwing(gone) =>
      var entry := RemovalEntry(gone, i.read, i.level, Reverted);
      Effect(x.(logs := Enqueue(x.logs, entry)), th.(job := Done, audit := Queueing(entry)))
    case _ => Effect(x, th)
  }

  function MoveApply(o: Options, t: nat, x: Shared, th: Thread, i: Input): Effect {
    match th.job
    case Waiting(r, id, startedAt, validateOnly) =>
      if x.lock.Some? then Effect(x, th)
      else if !WellFormed(o, r) then Effect(x, th.(job := Done))
      else Effect(x.(lock := Some(t)), th.(job := Validating(Plan(r, Accept(r, id, startedAt), validateOnly))))
    case Validating(p) =>
      Effect(x, th.(job := Limiting(p), left := Expirable(x.overrides, Earlier(i.read, x.clock))))
    case Limiting(p) =>
      Effect(x, th.(job := if p.request.scope == "instance" && |InstanceIds(x.overrides)| >= o.maximumItems
                           then Releasing else Conflicting(p)))
    case Conflicting(p) =>
      Effect(x, th.(job := if Conflicts(x.overrides, p.request, Earlier(i.read, x.clock)) || p.validateOnly
                           then Releasing else Fetching(p)))
    case Fetching(p) => Effect(x, th.(job := if p.active.id in x.overrides then Releasing else Preparing(p)))
    case Preparing(p) =>
      Effect(x, th.(job := Inserting(p), left := Expirable(x.overrides, Earlier(i.read, x.clock))))
    case Inserting(p) =>
      Effect(x.(overrides := x.overrides[p.active.id := p.active]), th.(job := ApplyOwing(p)))
    case ApplyOwing(p) =>
      var entry := ApplicationEntry(p.active, i.level);
      Effect(x.(logs := Enqueue(x.logs, entry)), th.(job := Releasing, audit := Queueing(entry)))
    case Releasing => Effect(x.(lock := None), th.(job := Done))
    case _ => Effect(x, th)
  }

  function MoveAudit(o: Options, x: Shared, th: Thread, i: Input): Effect {
    match th.audit
    case Owing(gone) =>
      var entry := RemovalEntry(gone, i.read, i.level, Expired);
      Effect(x.(logs := Enqueue(x.logs, entry)), th.(audit := Queueing(entry)))
    case Queueing(entry) => Effect(x.(logs := Queue(o, x.logs, entry)), th.(audit := Counting))
    case Counting => Effect(x, th.(audit := if |x.logs.audit| > o.auditCapacity then Trimming else Quiet))
    case Trimming => Effect(x.(logs := Dequeue(x.logs)), th.(audit := Counting))
    case Quiet => Effect(x, th)
  }

  predicate IsRevert(job: Job) {
    job.Looking? || job.Reverting? || job.Removed? || job.RevertOwing?
  }

  /** The next access of thread `t`. */
  function Move(o: Options, t: nat, x: Shared, th: Thread, i: Input): Effect {
    if th.audit != Quiet then MoveAudit(o, x, th, i)
    else if th.left != {} then MoveExpiry(x, th, i.pick)
    else if IsRevert(th.job) then MoveRevert(x, th, i)
    else MoveApply(o, t, x, th, i)
  }

  function Trims(th: Thread): int {
    if th.audit.Trimming? then 1 else 0
  }

  function Higher(peak: nat, n: int): nat {
    if n > peak then n else peak
  }

  function ActStep(o: Options, s: State, t: nat, i: Input): State
    requires t < |s.threads|
  {
    var effect := Move(o, t, s.shared, s.threads[t], i);
    var threads := s.threads[t := effect.thread];
    State(effect.shared, threads, Higher(s.peak, Sum(Trims, threads)))
  }

  function Persisted(logs: Logs, entry: Entry): Logs {
    if logs.pending != [] && logs.pending[0] == entry then logs.(pending := logs.pending[1..]) else logs
  }

  function Step(o: Options, s: State, e: Event): State {
    match e
    case Tick(now) => s.(shared := s.shared.(clock := if now > s.shared.clock then now else s.shared.clock))
    case Call(job) => if Starts(job) then s.(threads := s.threads + [Thread(job, {}, Quiet)]) else s
    case Act(t, input) => if t < |s.threads| then ActStep(o, s, t, input) else s
    case Persist(entry) => s.(shared := s.shared.(logs := Persisted(s.shared.logs, entry)))
  }

  function Run(o: Options, events: seq<Event>): State {
    if events == [] then Initial() else Step(o, Run(o, events[..|events| - 1]), events[|events| - 1])
  }

  // ---- The dictionary -------------------------------------------------------------------------

  predicate Holds(job: Job) {
    || job.Validating? || job.Limiting? || job.Conflicting? || job.Fetching? || job.Preparing? || job.Inserting?
    || job.ApplyOwing? || job.Releasing?
  }

  ghost predicate Planned(o: Options, p: Plan) {
    && WellFormed(o, p.request)
    && p.active.category == Trim(p.request.category, IsWhiteSpace) && p.active.scope == p.request.scope
  }

  ghost predicate Room(o: Options, m: Overrides, p: Plan) {
    p.request.scope == "instance" ==> |InstanceIds(m)| < o.maximumItems
  }

  /** What the holder of the lock has found out and may still rely on. */
  ghost predicate Stage(o: Options, x: Shared, job: Job) {
    match job
    case Validating(p) => Planned(o, p)
    case Limiting(p) => Planned(o, p)
    case Conflicting(p) => Planned(o, p) && Room(o, x.overrides, p)
    case Fetching(p) => Planned(o, p) && Room(o, x.overrides, p) && !Conflicts(x.overrides, p.request, x.clock)
    case Preparing(p) =>
      && Planned(o, p) && Room(o, x.overrides, p) && !Conflicts(x.overrides, p.request, x.clock)
      && p.active.id !in x.overrides
    case Inserting(p) =>
      && Planned(o, p) && Room(o, x.overrides, p) && !Conflicts(x.overrides, p.request, x.clock)
      && p.active.id !in x.overrides
    case _ => true
  }

  /** The allowlist names the category, one above it, or everything. */
  ghost predicate IsListed(o: Options, category: string) {
    "*" in o.allowlist || exists i :: 0 <= i < |o.allowlist| && AtOrBelow(o.allowlist[i], category)
  }

  ghost predicate Proper(o: Options, x: Shared) {
    && Keyed(x.overrides) && OnePerCategory(x.overrides, x.clock)
    && (forall id | id in x.overrides :: IsListed(o, x.overrides[id].category))
    && |InstanceIds(x.overrides)| <= o.maximumItems
  }

  ghost predicate Within(m: Overrides, n: Overrides) {
    forall id | id in m :: id in n && m[id] == n[id]
  }

  lemma FewerInstances(m: Overrides, n: Overrides)
    requires Within(m, n)
    ensures |InstanceIds(m)| <= |InstanceIds(n)|
  {
    assert InstanceIds(m) <= InstanceIds(n);
    SubsetSize(InstanceIds(m), InstanceIds(n));
  }

  lemma {:induction false} SubsetSize(a: set<string>, b: set<string>)
    requires a <= b
    ensures |a| <= |b|
  {
    if a != {} {
      var x :| x in a;
      SubsetSize(a - {x}, b - {x});
    }
  }

  /** Removals and the passing of time spoil nothing. */
  lemma LessIsProper(o: Options, x: Shared, y: Shared, job: Job)
    requires Proper(o, x) && Within(y.overrides, x.overrides) && x.clock <= y.clock && Stage(o, x, job)
    ensures Proper(o, y) && Stage(o, y, job)
  {
    FewerInstances(y.overrides, x.overrides);
  }

  predicate Inserts(th: Thread) {
    th.audit.Quiet? && th.left == {} && th.job.Inserting?
  }

  /** Whatever does not insert only removes. */
  lemma MoveShrinks(o: Options, t: nat, x: Shared, th: Thread, i: Input)
    requires !Inserts(th)
    ensures var y := Move(o, t, x, th, i).shared; Within(y.overrides, x.overrides) && y.clock == x.clock
  {
  }

  lemma InsertKeepsOne(m: Overrides, active: Override, clock: int)
    requires Keyed(m) && OnePerCategory(m, clock) && active.id !in m
    requires active.scope == "all" || active.scope == "instance"
    requires forall id | id in m && m[id].category == active.category && m[id].scope == active.scope ::
               m[id].expiresAt <= clock
    ensures Keyed(m[active.id := active]) && OnePerCategory(m[active.id := active], clock)
  {
  }

  lemma InsertKeepsLimit(m: Overrides, active: Override, limit: nat)
    requires |InstanceIds(m)| <= limit && (active.scope == "instance" ==> |InstanceIds(m)| < limit)
    requires active.id !in m
    ensures |InstanceIds(m[active.id := active])| <= limit
  {
    assert InstanceIds(m[active.id := active])
        == InstanceIds(m) + if active.scope == "instance" then {active.id} else {};
  }

  lemma PlannedIsListed(o: Options, p: Plan)
    requires Planned(o, p)
    ensures IsListed(o, p.active.category)
  {
    var i :| 0 <= i < |o.allowlist| && Covers(o.allowlist[i], p.active.category);
    CoversExactly(o.allowlist[i], p.active.category);
  }

  lemma InsertIsProper(o: Options, x: Shared, p: Plan)
    requires Proper(o, x) && Stage(o, x, Inserting(p))
    ensures Proper(o, x.(overrides := x.overrides[p.active.id := p.active]))
  {
    PlannedIsListed(o, p);
    InsertKeepsOne(x.overrides, p.active, x.clock);
    InsertKeepsLimit(x.overrides, p.active, o.maximumItems);
  }

  lemma MoveStage(o: Options, t: nat, x: Shared, th: Thread, i: Input)
    requires Proper(o, x) && Stage(o, x, th.job)
    ensures var effect := Move(o, t, x, th, i); Proper(o, effect.shared) && Stage(o, effect.shared, effect.thread.job)
  {
    var effect := Move(o, t, x, th, i);
    if Inserts(th) {
      InsertIsProper(o, x, th.job.plan);
    } else {
      MoveShrinks(o, t, x, th, i);
      LessIsProper(o, x, effect.shared, th.job);
      if th.audit.Quiet? && th.left == {} {
        JobStage(o, t, x, th, i);
      }
    }
  }

  lemma JobStage(o: Options, t: nat, x: Shared, th: Thread, i: Input)
    requires Proper(o, x) && Stage(o, x, th.job) && th.audit.Quiet? && th.left == {} && !th.job.Inserting?
    ensures var effect := Move(o, t, x, th, i); Stage(o, effect.shared, effect.thread.job)
  {
  }

  /** Exactly the thread that `lock` names holds the override lock. */
  ghost predicate Locked(lock: Option<nat>, threads: seq<Thread>) {
    && (forall t | 0 <= t < |threads| :: Holds(threads[t].job) <==> lock == Some(t))
    && (lock.Some? ==> lock.value < |threads|)
  }

  lemma MoveLocks(o: Options, t: nat, x: Shared, th: Thread, i: Input)
    requires Holds(th.job) <==> x.lock == Some(t)
    ensures var effect := Move(o, t, x, th, i);
            && (Holds(effect.thread.job) <==> effect.shared.lock == Some(t))
            && (effect.shared.lock == x.lock || (x.lock == None && effect.shared.lock == Some(t))
                || (x.lock == Some(t) && effect.shared.lock == None))
  {
  }

  ghost predicate Orderly(o: Options, s: State) {
    && Proper(o, s.shared) && Locked(s.shared.lock, s.threads)
    && forall t | 0 <= t < |s.threads| :: Stage(o, s.shared, s.threads[t].job)
  }

  /** A thread that does not move still may rely on what it found out. */
  lemma OthersStaged(o: Options, x: Shared, t: nat, th: Thread, i: Input, other: Job)
    requires Proper(o, x) && Stage(o, x, other) && (Inserts(th) ==> !Holds(other))
    ensures Stage(o, Move(o, t, x, th, i).shared, other)
  {
    if !Inserts(th) {
      MoveShrinks(o, t, x, th, i);
      LessIsProper(o, x, Move(o, t, x, th, i).shared, other);
    }
  }

  lemma LocksFollow(lock: Option<nat>, threads: seq<Thread>, t: nat, lock': Option<nat>, th': Thread)
    requires Locked(lock, threads) && t < |threads| && (Holds(th'.job) <==> lock' == Some(t))
    requires lock' == lock || (lock == None && lock' == Some(t)) || (lock == Some(t) && lock' == None)
    ensures Locked(lock', threads[t := th'])
  {
  }

  lemma ActOrderly(o: Options, s: State, t: nat, i: Input)
    requires Orderly(o, s) && t < |s.threads|
    ensures Orderly(o, ActStep(o, s, t, i))
  {
    var x, th, s' := s.shared, s.threads[t], ActStep(o, s, t, i);
    MoveStage(o, t, x, th, i);
    MoveLocks(o, t, x, th, i);
    LocksFollow(x.lock, s.threads, t, s'.shared.lock, s'.threads[t]);
    forall k | 0 <= k < |s.threads| && k != t
      ensures Stage(o, s'.shared, s'.threads[k].job)
    {
      OthersStaged(o, x, t, th, i, s.threads[k].job);
    }
  }

  lemma StepOrderly(o: Options, s: State, e: Event)
    requires Orderly(o, s)
    ensures Orderly(o, Step(o, s, e))
  {
    match e
    case Tick(now) =>
      var y := Step(o, s, e).shared;
      LessIsProper(o, s.shared, y, Done);
      forall t | 0 <= t < |s.threads| ensures Stage(o, y, s.threads[t].job) {
        LessIsProper(o, s.shared, y, s.threads[t].job);
      }
    case Call(job) =>
    case Act(t, input) =>
      if t < |s.threads| {
        ActOrderly(o, s, t, input);
      }
    case Persist(entry) =>
      var y := Step(o, s, e).shared;
      forall t | 0 <= t < |s.threads| ensures Stage(o, y, s.threads[t].job) {
        LessIsProper(o, s.shared, y, s.threads[t].job);
      }
  }

  // ---- The balance ----------------------------------------------------------------------------

  /** What a call has done to the dictionary under `id` and not recorded yet. */
  function Due(th: Thread, id: string): int {
    (match th.job
     case Removed(gone) => if gone.id == id then -1 else 0
     case RevertOwing(gone) => if gone.id == id then -1 else 0
     case ApplyOwing(p) => if p.active.id == id then 1 else 0
     case _ => 0)
    + (if th.audit.Owing? && th.audit.gone.id == id then -1 else 0)
  }

  function DueFor(id: string): Thread -> int {
    th => Due(th, id)
  }

  /** What an entry adds to the balance of `id`. */
  function Worth(entry: Entry, id: string): int {
    if entry.id != id then 0 else if entry.outcome.Applied? then 1 else -1
  }

  lemma BalanceGrows(history: seq<Entry>, entry: Entry, id: string)
    ensures Balance(history + [entry], id) == Balance(history, id) + Worth(entry, id)
  {
    assert (history + [entry])[..|history|] == history;
  }

  /** Dictionary, history and the debt of the moving call change together. */
  ghost predicate Balances(x: Shared, th: Thread, effect: Effect, id: string) {
    Balance(effect.shared.logs.history, id) + Due(effect.thread, id) - Present(effect.shared.overrides.Keys, id)
    == Balance(x.logs.history, id) + Due(th, id) - Present(x.overrides.Keys, id)
  }

  /** An entry that is worth what its call owed. */
  lemma EntryBalances(x: Shared, th: Thread, effect: Effect, entry: Entry, id: string)
    requires effect.shared.overrides == x.overrides && effect.shared.logs.history == x.logs.history + [entry]
    requires Worth(entry, id) + Due(effect.thread, id) == Due(th, id)
    ensures Balances(x, th, effect, id)
  {
    BalanceGrows(x.logs.history, entry, id);
  }

  /** A step that records nothing and owes for what it does to the dictionary. */
  lemma SilenceBalances(x: Shared, th: Thread, effect: Effect, id: string)
    requires effect.shared.logs.history == x.logs.history
    requires Due(effect.thread, id) - Present(effect.shared.overrides.Keys, id)
             == Due(th, id) - Present(x.overrides.Keys, id)
    ensures Balances(x, th, effect, id)
  {
  }

  lemma AuditBalances(o: Options, x: Shared, th: Thread, i: Input, id: string)
    ensures Balances(x, th, MoveAudit(o, x, th, i), id)
  {
    if th.audit.Owing? {
      EntryBalances(x, th, MoveAudit(o, x, th, i), RemovalEntry(th.audit.gone, i.read, i.level, Expired), id);
    } else {
      SilenceBalances(x, th, MoveAudit(o, x, th, i), id);
    }
  }

  lemma ExpiryBalances(x: Shared, th: Thread, pick: Override, id: string)
    requires th.audit.Quiet?
    ensures Balances(x, th, MoveExpiry(x, th, pick), id)
  {
    SilenceBalances(x, th, MoveExpiry(x, th, pick), id);
  }

  lemma RevertBalances(x: Shared, th: Thread, i: Input, id: string)
    requires th.audit.Quiet? && Keyed(x.overrides)
    ensures Balances(x, th, MoveRevert(x, th, i), id)
  {
    if th.job.RevertOwing? {
      EntryBalances(x, th, MoveRevert(x, th, i), RemovalEntry(th.job.gone, i.read, i.level, Reverted), id);
    } else {
      SilenceBalances(x, th, MoveRevert(x, th, i), id);
    }
  }

  lemma ApplyBalances(o: Options, t: nat, x: Shared, th: Thread, i: Input, id: string)
    requires th.audit.Quiet? && !IsRevert(th.job)
    requires th.job.Inserting? ==> th.job.plan.active.id !in x.overrides
    ensures Balances(x, th, MoveApply(o, t, x, th, i), id)
  {
    if th.job.ApplyOwing? {
      EntryBalances(x, th, MoveApply(o, t, x, th, i), ApplicationEntry(th.job.plan.active, i.level), id);
    } else {
      SilenceBalances(x, th, MoveApply(o, t, x, th, i), id);
    }
  }

  lemma MoveBalances(o: Options, t: nat, x: Shared, th: Thread, i: Input, id: string)
    requires Keyed(x.overrides) && Stage(o, x, th.job)
    ensures Balances(x, th, Move(o, t, x, th, i), id)
  {
    if th.audit != Quiet {
      AuditBalances(o, x, th, i, id);
    } else if th.left != {} {
      ExpiryBalances(x, th, i.pick, id);
    } else if IsRevert(th.job) {
      RevertBalances(x, th, i, id);
    } else {
      ApplyBalances(o, t, x, th, i, id);
    }
  }

  ghost predicate BalancedFor(s: State, id: string) {
    Balance(s.shared.logs.history, id) + Sum(DueFor(id), s.threads) == Present(s.shared.overrides.Keys, id)
  }

  lemma ActBalances(o: Options, s: State, t: nat, i: Input, id: string)
    requires t < |s.threads| && Keyed(s.shared.overrides) && Stage(o, s.shared, s.threads[t].job) && BalancedFor(s, id)
    ensures BalancedFor(ActStep(o, s, t, i), id)
  {
    var effect := Move(o, t, s.shared, s.threads[t], i);
    MoveBalances(o, t, s.shared, s.threads[t], i, id);
    SumUpdate(DueFor(id), s.threads, t, effect.thread);
  }

  lemma CallBalances(s: State, job: Job, id: string)
    requires BalancedFor(s, id) && Starts(job)
    ensures BalancedFor(s.(threads := s.threads + [Thread(job, {}, Quiet)]), id)
  {
    SumAppend(DueFor(id), s.threads, Thread(job, {}, Quiet));
  }

  lemma StepBalances(o: Options, s: State, e: Event, id: string)
    requires Orderly(o, s) && BalancedFor(s, id)
    ensures BalancedFor(Step(o, s, e), id)
  {
    match e
    case Tick(_) =>
    case Call(job) =>
      if Starts(job) {
        CallBalances(s, job, id);
      }
    case Act(t, input) =>
      if t < |s.threads| {
        ActBalances(o, s, t, input, id);
      }
    case Persist(entry) =>
      assert Step(o, s, e).shared.logs.history == s.shared.logs.history;
  }

  // ---- The two queues -------------------------------------------------------------------------

  /** Between the two queues, or still looking at the length of the visible one. */
  function Busy(th: Thread): int {
    if th.audit.Queueing? || th.audit.Counting? || th.audit.Trimming? then 1 else 0
  }

  /** What a step may do to the queues, by the stage of the call that takes it. */
  ghost predicate LogMove(o: Options, logs: Logs, audit: Audit, logs': Logs, audit': Audit) {
    match audit
    case Queueing(entry) => logs' == Queue(o, logs, entry) && audit' == Counting
    case Counting => logs' == logs && audit' == if |logs.audit| > o.auditCapacity then Trimming else Quiet
    case Trimming => logs' == Dequeue(logs) && audit' == Counting
    case _ =>
      || (logs' == logs && (audit'.Quiet? || audit'.Owing?))
      || (audit'.Queueing? && logs' == Enqueue(logs, audit'.entry))
  }

  lemma MoveLogs(o: Options, t: nat, x: Shared, th: Thread, i: Input)
    ensures var effect := Move(o, t, x, th, i); LogMove(o, x.logs, th.audit, effect.shared.logs, effect.thread.audit)
  {
  }

  function Shortest(history: seq<Entry>, capacity: nat): nat {
    if |history| <= capacity then |history| else capacity
  }

  /** How many entries concurrent trimmings may have taken too many. */
  function Excess(peak: nat): nat {
    if peak == 0 then 0 else peak - 1
  }

  ghost predicate Retained(o: Options, logs: Logs, busy: int, trims: int, peak: nat) {
    && IsSuffix(logs.audit, logs.history) && |logs.audit| <= o.auditCapacity + busy
    && Shortest(logs.history, o.auditCapacity) + trims <= |logs.audit| + Excess(peak)
    && 0 <= trims <= peak
    && IsSuffix(logs.pending, logs.queued) && |logs.pending| <= o.auditCapacity
  }

  lemma PendingKept(pending: seq<Entry>, queued: seq<Entry>, entry: Entry, capacity: nat)
    requires IsSuffix(pending, queued)
    ensures var next := Suffix(pending + [entry], capacity);
            IsSuffix(next, queued + [entry]) && |next| <= capacity
  {
  }

  lemma LogsRetained(
    o: Options, logs: Logs, th: Thread, logs': Logs, th': Thread, busy: int, trims: int, peak: nat)
    requires Retained(o, logs, busy, trims, peak) && Busy(th) <= busy && Trims(th) <= trims
    requires LogMove(o, logs, th.audit, logs', th'.audit)
    ensures var trims' := trims - Trims(th) + Trims(th');
            Retained(o, logs', busy - Busy(th) + Busy(th'), trims', Higher(peak, trims'))
  {
    if th.audit.Queueing? {
      PendingKept(logs.pending, logs.queued, th.audit.entry, o.auditCapacity);
    }
  }

  ghost predicate Kept(o: Options, s: State) {
    Retained(o, s.shared.logs, Sum(Busy, s.threads), Sum(Trims, s.threads), s.peak)
  }

  lemma ActKept(o: Options, s: State, t: nat, i: Input)
    requires Kept(o, s) && t < |s.threads|
    ensures Kept(o, ActStep(o, s, t, i))
  {
    var th, effect := s.threads[t], Move(o, t, s.shared, s.threads[t], i);
    MoveLogs(o, t, s.shared, th, i);
    SumUpdate(Busy, s.threads, t, effect.thread);
    SumUpdate(Trims, s.threads, t, effect.thread);
    SumAtLeast(Busy, s.threads, t);
    SumAtLeast(Trims, s.threads, t);
    var busy, trims := Sum(Busy, s.threads), Sum(Trims, s.threads);
    LogsRetained(o, s.shared.logs, th, effect.shared.logs, effect.thread, busy, trims, s.peak);
  }

  lemma StepKept(o: Options, s: State, e: Event)
    requires Kept(o, s)
    ensures Kept(o, Step(o, s, e))
  {
    if e.Act? {
      if e.thread < |s.threads| {
        ActKept(o, s, e.thread, e.input);
      }
    } else if e.Call? {
      SumAppend(Busy, s.threads, Thread(e.job, {}, Quiet));
      SumAppend(Trims, s.threads, Thread(e.job, {}, Quiet));
    }
  }

  function Carries(th: Thread, entry: Entry): int {
    if th.audit == Queueing(entry) then 1 else 0
  }

  function Carrying(entry: Entry): Thread -> int {
    th => Carries(th, entry)
  }

  /** Every entry of the one queue was put into the other, or is on its way there. */
  ghost predicate CopiedFor(s: State, entry: Entry) {
    multiset(s.shared.logs.history)[entry]
    == multiset(s.shared.logs.queued)[entry] + Sum(Carrying(entry), s.threads)
  }

  lemma LogsCopied(o: Options, logs: Logs, th: Thread, logs': Logs, th': Thread, entry: Entry)
    requires LogMove(o, logs, th.audit, logs', th'.audit)
    ensures multiset(logs'.history)[entry] - multiset(logs'.queued)[entry] - Carries(th', entry)
            == multiset(logs.history)[entry] - multiset(logs.queued)[entry] - Carries(th, entry)
  {
  }

  lemma StepCopied(o: Options, s: State, e: Event, entry: Entry)
    requires CopiedFor(s, entry)
    ensures CopiedFor(Step(o, s, e), entry)
  {
    if e.Act? && e.thread < |s.threads| {
      var th, effect := s.threads[e.thread], Move(o, e.thread, s.shared, s.threads[e.thread], e.input);
      MoveLogs(o, e.thread, s.shared, th, e.input);
      LogsCopied(o, s.shared.logs, th, effect.shared.logs, effect.thread, entry);
      SumUpdate(Carrying(entry), s.threads, e.thread, effect.thread);
    } else if e.Call? {
      SumAppend(Carrying(entry), s.threads, Thread(e.job, {}, Quiet));
    }
  }

  // ---- Results --------------------------------------------------------------------------------

  lemma {:induction false} Invariant(o: Options, events: seq<Event>)
    ensures Orderly(o, Run(o, events)) && Kept(o, Run(o, events))
  {
    if events == [] {
    } else {
      var past, e := events[..|events| - 1], events[|events| - 1];
      Invariant(o, past);
      StepOrderly(o, Run(o, past), e);
      StepKept(o, Run(o, past), e);
    }
  }

  lemma {:induction false} BalanceInvariant(o: Options, events: seq<Event>, id: string)
    ensures BalancedFor(Run(o, events), id)
  {
    if events == [] {
    } else {
      var past := events[..|events| - 1];
      BalanceInvariant(o, past, id);
      Invariant(o, past);
      StepBalances(o, Run(o, past), events[|events| - 1], id);
    }
  }

  lemma {:induction false} CopyInvariant(o: Options, events: seq<Event>, entry: Entry)
    ensures CopiedFor(Run(o, events), entry)
  {
    if events == [] {
    } else {
      var past := events[..|events| - 1];
      CopyInvariant(o, past, entry);
      StepCopied(o, Run(o, past), events[|events| - 1], entry);
    }
  }

  /** No call is under way. */
  ghost predicate AtRest(s: State) {
    forall th | th in s.threads :: th == Thread(Done, {}, Quiet)
  }

  /**
   In every interleaving of applications, validations, reverts and reads: at most one unexpired override
   per category and scope, no more instance-scoped ones than allowed, and none of a category that the
   allowlist does not name or cover from above.
   */
  lemma OnePerCategoryAlways(o: Options, events: seq<Event>)
    ensures var x := Run(o, events).shared;
            && Keyed(x.overrides) && OnePerCategory(x.overrides, x.clock)
            && |InstanceIds(x.overrides)| <= o.maximumItems
            && forall id | id in x.overrides :: IsListed(o, x.overrides[id].category)
  {
    Invariant(o, events);
  }

  /** The call has changed the dictionary under `id` and not recorded it yet. */
  predicate Owes(th: Thread, id: string) {
    Inserted(th, id) || TookAway(th, id)
  }

  predicate Inserted(th: Thread, id: string) {
    th.job.ApplyOwing? && th.job.plan.active.id == id
  }

  predicate TookAway(th: Thread, id: string) {
    || ((th.job.Removed? || th.job.RevertOwing?) && th.job.gone.id == id)
    || (th.audit.Owing? && th.audit.gone.id == id)
  }

  /**
   In every run, whenever no call owes an entry for an identifier, the audit history says that it was
   applied once more than it was taken away if it is active, and as often if it is not.
   */
  lemma AuditBalance(o: Options, events: seq<Event>, id: string)
    requires forall th | th in Run(o, events).threads :: !Owes(th, id)
    ensures Balance(Run(o, events).shared.logs.history, id) == Present(Run(o, events).shared.overrides.Keys, id)
  {
    BalanceInvariant(o, events, id);
    SumIsZero(DueFor(id), Run(o, events).threads);
  }

  function Arriving(id: string): Thread -> int {
    (th: Thread) => if Inserted(th, id) then 1 else 0
  }

  function TakenAway(th: Thread, id: string): int {
    (if (th.job.Removed? || th.job.RevertOwing?) && th.job.gone.id == id then 1 else 0)
    + if th.audit.Owing? && th.audit.gone.id == id then 1 else 0
  }

  function Leaving(id: string): Thread -> int {
    (th: Thread) => TakenAway(th, id)
  }

  lemma ArrivingIs(lock: Option<nat>, threads: seq<Thread>, id: string)
    requires Locked(lock, threads)
    ensures Sum(Arriving(id), threads) == if exists th :: th in threads && Inserted(th, id) then 1 else 0
  {
    if lock.Some? {
      SumOfOne(Arriving(id), threads, lock.value);
    } else {
      SumIsZero(Arriving(id), threads);
    }
  }

  lemma LeavingIs(threads: seq<Thread>, id: string)
    ensures Sum(Leaving(id), threads) >= 0
    ensures Sum(Leaving(id), threads) == 0 <==> forall th | th in threads :: !TookAway(th, id)
  {
    forall k | 0 <= k < |threads| ensures Sum(Leaving(id), threads) >= Leaving(id)(threads[k]) {
      SumAtLeast(Leaving(id), threads, k);
    }
    if forall th | th in threads :: !TookAway(th, id) {
      SumIsZero(Leaving(id), threads);
    }
  }

  /**
   The history can say that an identifier was taken away more often than applied, by one, exactly while
   its last removal is recorded and its application is not.
   */
  lemma RemovalRecordedFirstIff(o: Options, events: seq<Event>, id: string)
    ensures var s := Run(o, events); var balance := Balance(s.shared.logs.history, id);
            && balance >= -1
            && (balance < 0 <==>
                && id !in s.shared.overrides && (exists th :: th in s.threads && Inserted(th, id))
                && (forall th | th in s.threads :: !TookAway(th, id)))
  {
    var s := Run(o, events);
    Invariant(o, events);
    BalanceInvariant(o, events, id);
    SumOfDifference(DueFor(id), Arriving(id), Leaving(id), s.threads);
    ArrivingIs(s.shared.lock, s.threads, id);
    LeavingIs(s.threads, id);
  }

  lemma CopiedAtRest(o: Options, events: seq<Event>)
    requires AtRest(Run(o, events))
    ensures multiset(Run(o, events).shared.logs.history) == multiset(Run(o, events).shared.logs.queued)
  {
    var s := Run(o, events);
    forall entry ensures multiset(s.shared.logs.history)[entry] == multiset(s.shared.logs.queued)[entry] {
      CopyInvariant(o, events, entry);
      SumIsZero(Carrying(entry), s.threads);
    }
  }

  lemma KeptAtRest(o: Options, s: State)
    requires Kept(o, s) && AtRest(s)
    ensures Retained(o, s.shared.logs, 0, 0, s.peak)
  {
    SumIsZero(Busy, s.threads);
    SumIsZero(Trims, s.threads);
  }

  /** Both queues are ends of what was put into them, and the unpersisted one is within its capacity. */
  ghost predicate KeepsEnds(o: Options, logs: Logs) {
    && IsSuffix(logs.audit, logs.history) && IsSuffix(logs.pending, logs.queued)
    && |logs.pending| <= o.auditCapacity
  }

  /**
   The visible queue is within its capacity, too, and falls short of the newest entries by at most the
   other calls that trimmed at once.
   */
  ghost predicate KeepsNewest(o: Options, logs: Logs, peak: nat) {
    && |logs.audit| <= o.auditCapacity
    && Shortest(logs.history, o.auditCapacity) <= |logs.audit| + Excess(peak)
    && (peak <= 1 ==> logs.audit == Suffix(logs.history, o.auditCapacity))
  }

  lemma RetainedNewest(o: Options, logs: Logs, peak: nat)
    requires Retained(o, logs, 0, 0, peak)
    ensures KeepsNewest(o, logs, peak)
  {
  }

  /** In every run the queues keep ends; at rest also the newest, and both got the same entries. */
  lemma AuditRetention(o: Options, events: seq<Event>)
    ensures KeepsEnds(o, Run(o, events).shared.logs)
    ensures var s := Run(o, events);
            AtRest(s) ==> KeepsNewest(o, s.shared.logs, s.peak)
                          && multiset(s.shared.logs.history) == multiset(s.shared.logs.queued)
  {
    Invariant(o, events);
    var s := Run(o, events);
    if AtRest(s) {
      CopiedAtRest(o, events);
      KeptAtRest(o, s);
      RetainedNewest(o, s.shared.logs, s.peak);
    }
  }

  /** This step takes an entry from the visible queue although the queue is within its capacity. */
  predicate Overtrims(o: Options, s: State, e: Event) {
    && e.Act? && e.thread < |s.threads| && s.threads[e.thread].audit.Trimming?
    && 1 <= |s.shared.logs.audit| <= o.auditCapacity
  }

  /** What a step does to the lengths of the visible queue and of its history. */
  ghost predicate LengthStep(o: Options, logs: Logs, logs': Logs, overtrims: bool) {
    if overtrims then |logs'.audit| == |logs.audit| - 1 && |logs'.history| == |logs.history|
    else || (|logs'.audit| - |logs.audit| == |logs'.history| - |logs.history| && |logs.history| <= |logs'.history|)
         || (|logs'.audit| == |logs.audit| - 1 >= o.auditCapacity && |logs'.history| == |logs.history|)
  }

  lemma LengthsMove(o: Options, s: State, e: Event)
    ensures LengthStep(o, s.shared.logs, Step(o, s, e).shared.logs, Overtrims(o, s, e))
  {
    if e.Act? && e.thread < |s.threads| {
      MoveLogs(o, e.thread, s.shared, s.threads[e.thread], e.input);
    }
  }

  /** Event `n` took an entry too many, which left `length` entries had all later ones been kept. */
  ghost predicate OvertrimsTo(o: Options, events: seq<Event>, n: nat, length: int)
    requires n < |events|
  {
    var s := Run(o, events[..n]);
    && Overtrims(o, s, events[n])
    && length == |s.shared.logs.audit| - 1 + |Run(o, events).shared.logs.history| - |s.shared.logs.history|
  }

  lemma OvertrimsOn(o: Options, events: seq<Event>, n: nat, length: int, added: int)
    requires n < |events| - 1 && OvertrimsTo(o, events[..|events| - 1], n, length)
    requires |Run(o, events).shared.logs.history| == |Run(o, events[..|events| - 1]).shared.logs.history| + added
    ensures OvertrimsTo(o, events, n, length + added)
  {
    assert events[..|events| - 1][..n] == events[..n];
  }

  predicate IsShort(o: Options, logs: Logs) {
    |logs.audit| < Shortest(logs.history, o.auditCapacity)
  }

  lemma {:induction false} ShortHasCause(o: Options, events: seq<Event>)
    requires IsShort(o, Run(o, events).shared.logs)
    ensures exists n | 0 <= n < |events| :: OvertrimsTo(o, events, n, |Run(o, events).shared.logs.audit|)
  {
    var last := |events| - 1;
    var past, e := events[..last], events[last];
    var logs, logs' := Run(o, past).shared.logs, Run(o, events).shared.logs;
    LengthsMove(o, Run(o, past), e);
    if Overtrims(o, Run(o, past), e) {
      assert OvertrimsTo(o, events, last, |logs'.audit|);
    } else {
      ShortHasCause(o, past);
      var n :| 0 <= n < last && OvertrimsTo(o, past, n, |logs.audit|);
      OvertrimsOn(o, events, n, |logs.audit|, |logs'.history| - |logs.history|);
    }
  }

  /** Nothing but new entries lengthens the visible queue. */
  lemma {:induction false} OvertrimBounds(o: Options, events: seq<Event>, n: nat, length: int)
    requires n < |events| && OvertrimsTo(o, events, n, length)
    ensures |Run(o, events).shared.logs.audit| <= length
    decreases |events|
  {
    var last := |events| - 1;
    var past, e := events[..last], events[last];
    LengthsMove(o, Run(o, past), e);
    if n < last {
      assert past[..n] == events[..n];
      var added := |Run(o, events).shared.logs.history| - |Run(o, past).shared.logs.history|;
      OvertrimBounds(o, past, n, length - added);
    }
  }

  /**
   In every run the visible audit is shorter than the newest entries the capacity allows exactly if some
   call took an entry although the queue was within its capacity, as trimming at once can do, and not
   enough entries were added since.
   */
  lemma AuditShortIff(o: Options, events: seq<Event>)
    ensures IsShort(o, Run(o, events).shared.logs) <==>
            exists n, length | 0 <= n < |events| ::
              && OvertrimsTo(o, events, n, length)
              && length < Shortest(Run(o, events).shared.logs.history, o.auditCapacity)
  {
    if IsShort(o, Run(o, events).shared.logs) {
      ShortHasCause(o, events);
    }
    forall n, length | 0 <= n < |events| && OvertrimsTo(o, events, n, length)
      ensures |Run(o, events).shared.logs.audit| <= length
    {
      OvertrimBounds(o, events, n, length);
    }
  }

  // ---- Two runs -------------------------------------------------------------------------------

  function Pair(x: Shared, a: Thread, b: Thread, peak: nat): State {
    State(x, [a, b], peak)
  }

  /** The next state of two threads of which the first, or the second, moves. */
  function Next(o: Options, s: State, first: bool, i: Input): State
    requires |s.threads| == 2
  {
    if first then
      var effect := Move(o, 0, s.shared, s.threads[0], i);
      Pair(effect.shared, effect.thread, s.threads[1], Higher(s.peak, Trims(effect.thread) + Trims(s.threads[1])))
    else
      var effect := Move(o, 1, s.shared, s.threads[1], i);
      Pair(effect.shared, s.threads[0], effect.thread, Higher(s.peak, Trims(s.threads[0]) + Trims(effect.thread)))
  }

  lemma Do(o: Options, past: seq<Event>, first: bool, i: Input) returns (events: seq<Event>)
    requires |Run(o, past).threads| == 2
    ensures Run(o, events) == Next(o, Run(o, past), first, i)
  {
    var s, t := Run(o, past), if first then 0 else 1;
    events := past + [Act(t, i)];
    assert events[..|events| - 1] == past;
    var effect := Move(o, t, s.shared, s.threads[t], i);
    assert s.threads[t := effect.thread] == [if first then effect.thread else s.threads[0],
                                             if first then s.threads[1] else effect.thread];
    TwoTrims(s.threads[t := effect.thread]);
  }

  lemma TwoTrims(threads: seq<Thread>)
    requires |threads| == 2
    ensures Sum(Trims, threads) == Trims(threads[0]) + Trims(threads[1])
  {
    assert Sum(Trims, threads[..1]) == Trims(threads[0]);
  }

  lemma DoCall(o: Options, past: seq<Event>, job: Job) returns (events: seq<Event>)
    requires Starts(job)
    ensures Run(o, events) == Run(o, past).(threads := Run(o, past).threads + [Thread(job, {}, Quiet)])
  {
    events := past + [Call(job)];
    assert events[..|events| - 1] == past;
  }

  /** An application without expiry or audit under way, and a revert of it that begins. */
  function Applying(x: Shared, job: Job, id: string): State {
    Pair(x, Thread(job, {}, Quiet), Thread(Reverting(id), {}, Quiet), 0)
  }

  function Empty(lock: Option<nat>): Shared {
    Shared(0, map[], lock, Logs([], [], [], []))
  }

  lemma NothingToExpire(read: int)
    ensures Expirable(map[], Earlier(read, 0)) == {}
  {
  }

  lemma DoValidate(o: Options, r: Request, id: string, i: Input) returns (events: seq<Event>)
    requires WellFormed(o, r)
    ensures Run(o, events) == Applying(Empty(Some(0)), Limiting(Plan(r, Accept(r, id, 0), false)), id)
  {
    events := DoCall(o, [], Waiting(r, id, 0, false));
    events := DoCall(o, events, Reverting(id));
    assert Run(o, events) == Applying(Empty(None), Waiting(r, id, 0, false), id);
    NothingToExpire(i.read);
    events := Do(o, events, true, i);
    events := Do(o, events, true, i);
  }

  lemma DoCheck(o: Options, past: seq<Event>, p: Plan, id: string, i: Input) returns (events: seq<Event>)
    requires o.maximumItems > 0 && !p.validateOnly && Run(o, past) == Applying(Empty(Some(0)), Limiting(p), id)
    ensures Run(o, events) == Applying(Empty(Some(0)), Fetching(p), id)
  {
    assert InstanceIds(map[]) == {};
    events := Do(o, past, true, i);
    events := Do(o, events, true, i);
  }

  lemma DoInsert(o: Options, past: seq<Event>, p: Plan, i: Input) returns (events: seq<Event>)
    requires Run(o, past) == Applying(Empty(Some(0)), Fetching(p), p.active.id)
    ensures Run(o, events) == Halfway(p)
  {
    NothingToExpire(i.read);
    events := Do(o, past, true, i);
    events := Do(o, events, true, i);
    assert Run(o, events) == Applying(Empty(Some(0)), Inserting(p), p.active.id);
    events := Do(o, events, true, i);
  }

  /** The application has inserted its override and not recorded it. */
  function Halfway(p: Plan): State {
    Applying(Empty(Some(0)).(overrides := map[p.active.id := p.active]), ApplyOwing(p), p.active.id)
  }

  lemma DoHalfway(o: Options, r: Request, id: string, i: Input) returns (events: seq<Event>)
    requires WellFormed(o, r) && o.maximumItems > 0
    ensures Run(o, events) == Halfway(Plan(r, Accept(r, id, 0), false))
  {
    var p := Plan(r, Accept(r, id, 0), false);
    events := DoValidate(o, r, id, i);
    events := DoCheck(o, events, p, id, i);
    events := DoInsert(o, events, p, i);
  }

  /** The revert runs up to its audit entry while the application stands where it stood. */
  lemma DoRemove(o: Options, past: seq<Event>, x: Shared, th: Thread, gone: Override, i: Input)
    returns (events: seq<Event>)
    requires Run(o, past) == Pair(x, th, Thread(Reverting(gone.id), {}, Quiet), 0)
    requires x.overrides == map[gone.id := gone] && x.clock == 0 && !th.audit.Trimming?
    ensures Run(o, events) == Pair(x.(overrides := map[]), th, Thread(RevertOwing(gone), {}, Quiet), 0)
  {
    assert x.overrides - {gone.id} == map[];
    events := Do(o, past, false, i);
    NothingToExpire(i.read);
    events := Do(o, events, false, i);
  }

  /** A revert that comes between the insertion of an override and its audit entry is recorded before it. */
  lemma RevertRecordedFirst(o: Options, r: Request, id: string, i: Input) returns (events: seq<Event>)
    requires WellFormed(o, r) && o.maximumItems > 0
    ensures var history := Run(o, events).shared.logs.history;
            |history| == 1 && history[0].id == id && history[0].outcome.Reverted? && Balance(history, id) == -1
  {
    events := DoHalfway(o, r, id, i);
    var s := Run(o, events);
    events := DoRemove(o, events, s.shared, s.threads[0], Accept(r, id, 0), i);
    events := Do(o, events, false, i);
    BalanceGrows([], Run(o, events).shared.logs.history[0], id);
  }

  /** Both calls have put their entries into both queues. */
  predicate BothAdded(s: State) {
    && s == Pair(s.shared, Thread(Releasing, {}, Counting), Thread(Done, {}, Counting), 0)
    && |s.shared.logs.history| == |s.shared.logs.audit| == 2
  }

  lemma DoRecord(o: Options, past: seq<Event>, p: Plan, i: Input) returns (events: seq<Event>)
    requires Run(o, past) == Halfway(p)
    ensures var s, h := Run(o, events), Halfway(p);
            && s == Pair(h.shared.(logs := s.shared.logs), Thread(Releasing, {}, Counting), h.threads[1], 0)
            && |s.shared.logs.history| == |s.shared.logs.audit| == 1
  {
    events := Do(o, past, true, i);
    events := Do(o, events, true, i);
  }

  lemma DoAdd(o: Options, past: seq<Event>, x: Shared, gone: Override, i: Input) returns (events: seq<Event>)
    requires Run(o, past)
          == Pair(x, Thread(Releasing, {}, Counting), Thread(RevertOwing(gone), {}, Quiet), 0)
    requires |x.logs.history| == |x.logs.audit| == 1
    ensures BothAdded(Run(o, events))
  {
    events := Do(o, past, false, i);
    events := Do(o, events, false, i);
  }

  lemma DoBoth(o: Options, r: Request, id: string, i: Input) returns (events: seq<Event>)
    requires WellFormed(o, r) && o.maximumItems > 0
    ensures BothAdded(Run(o, events))
  {
    var active := Accept(r, id, 0);
    events := DoHalfway(o, r, id, i);
    events := DoRecord(o, events, Plan(r, active, false), i);
    var s := Run(o, events);
    events := DoRemove(o, events, s.shared, s.threads[0], active, i);
    events := DoAdd(o, events, s.shared.(overrides := map[]), active, i);
  }

  lemma DoTrims(o: Options, past: seq<Event>, i: Input) returns (events: seq<Event>)
    requires o.auditCapacity == 1 && BothAdded(Run(o, past))
    ensures AtRest(Run(o, events)) && Run(o, events).peak == 2
    ensures |Run(o, events).shared.logs.history| == 2 && Run(o, events).shared.logs.audit == []
  {
    events := Do(o, past, true, i);
    events := Do(o, events, false, i);
    events := Do(o, events, true, i);
    events := Do(o, events, false, i);
    events := Do(o, events, true, i);
    events := Do(o, events, false, i);
    events := Do(o, events, true, i);
  }

  /** Two calls that trim at once can take one entry too many: none is left where one should be. */
  lemma TrimmedTooFar(o: Options, r: Request, id: string, i: Input) returns (events: seq<Event>)
    requires WellFormed(o, r) && o.maximumItems > 0 && o.auditCapacity == 1
    ensures var s := Run(o, events);
            AtRest(s) && s.peak == 2 && |s.shared.logs.history| == 2 && s.shared.logs.audit == []
  {
    events := DoBoth(o, r, id, i);
    events := DoTrims(o, events, i);
  }
}
