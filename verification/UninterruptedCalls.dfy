/**
 A call of the log-level controller that nobody interrupts: its many accesses, one after the other, do
 what the whole call promises. From every reachable state each call can end this way.
 */
module UninterruptedCalls {
  import opened Text
  import opened LogLevels
  import opened LogLevelController
  import opened DuplicateWindow
  import opened AuditRuns

  /** The accesses of thread `t` alone. */
  function Alone(o: Options, t: nat, x: Shared, th: Thread, inputs: seq<Input>): Effect
    decreases |inputs|
  {
    if inputs == [] then Effect(x, th)
    else
      var effect := Move(o, t, x, th, inputs[0]);
      Alone(o, t, effect.shared, effect.thread, inputs[1..])
  }

  lemma {:induction false} AloneThen(o: Options, t: nat, x: Shared, th: Thread, a: seq<Input>, b: seq<Input>)
    ensures var half := Alone(o, t, x, th, a);
            Alone(o, t, x, th, a + b) == Alone(o, t, half.shared, half.thread, b)
    decreases |a|
  {
    if a == [] {
      assert a + b == b;
    } else {
      var effect := Move(o, t, x, th, a[0]);
      assert (a + b)[1..] == a[1..] + b;
      AloneThen(o, t, effect.shared, effect.thread, a[1..], b);
    }
  }

  lemma AloneFirst(o: Options, t: nat, x: Shared, th: Thread, i: Input, b: seq<Input>)
    ensures var effect := Move(o, t, x, th, i);
            Alone(o, t, x, th, [i] + b) == Alone(o, t, effect.shared, effect.thread, b)
  {
    assert ([i] + b)[1..] == b;
  }

  function Acts(t: nat, inputs: seq<Input>): seq<Event> {
    seq(|inputs|, k requires 0 <= k < |inputs| => Act(t, inputs[k]))
  }

  lemma AloneLast(o: Options, t: nat, x: Shared, th: Thread, inputs: seq<Input>, last: Input)
    ensures var half := Alone(o, t, x, th, inputs);
            Alone(o, t, x, th, inputs + [last]) == Move(o, t, half.shared, half.thread, last)
  {
    AloneThen(o, t, x, th, inputs, [last]);
    var half := Alone(o, t, x, th, inputs);
    AloneFirst(o, t, half.shared, half.thread, last, []);
    assert [last] + [] == [last];
  }

  lemma ActsLast(t: nat, inputs: seq<Input>, last: Input)
    ensures Acts(t, inputs + [last]) == Acts(t, inputs) + [Act(t, last)]
  {
  }

  lemma RunLast(o: Options, past: seq<Event>, e: Event)
    ensures Run(o, past + [e]) == Step(o, Run(o, past), e)
  {
    assert (past + [e])[..|past|] == past;
  }

  /** The state differs from `s` by this much, except perhaps in its peak. */
  ghost predicate Differs(s: State, t: nat, effect: Effect, s': State)
    requires t < |s.threads|
  {
    s'.shared == effect.shared && s'.threads == s.threads[t := effect.thread]
  }

  lemma OneAccess(o: Options, s: State, t: nat, effect: Effect, s': State, i: Input)
    requires t < |s.threads| && Differs(s, t, effect, s')
    ensures Differs(s, t, Move(o, t, effect.shared, effect.thread, i), Step(o, s', Act(t, i)))
  {
    assert s'.threads[t] == effect.thread;
  }

  /** Such accesses are part of a run, and touch no other thread. */
  lemma {:induction false} AloneRuns(o: Options, past: seq<Event>, t: nat, inputs: seq<Input>)
    requires t < |Run(o, past).threads|
    ensures var s := Run(o, past);
            Differs(s, t, Alone(o, t, s.shared, s.threads[t], inputs), Run(o, past + Acts(t, inputs)))
    decreases |inputs|
  {
    var s := Run(o, past);
    if inputs == [] {
      assert past + Acts(t, inputs) == past;
    } else {
      var init, last := inputs[..|inputs| - 1], inputs[|inputs| - 1];
      var events := past + Acts(t, init);
      AloneRuns(o, past, t, init);
      OneAccess(o, s, t, Alone(o, t, s.shared, s.threads[t], init), Run(o, events), last);
      AloneLast(o, t, s.shared, s.threads[t], init, last);
      RunLast(o, events, Act(t, last));
      ActsLast(t, init, last);
      assert inputs == init + [last];
      assert past + Acts(t, inputs) == events + [Act(t, last)];
    }
  }

  // ---- The audit ------------------------------------------------------------------------------

  /** What adding an entry means for the queues. */
  function Recorded(o: Options, logs: Logs, entry: Entry): Logs {
    Logs(logs.history + [entry], Suffix(logs.audit + [entry], o.auditCapacity),
         logs.queued + [entry], Suffix(logs.pending + [entry], o.auditCapacity))
  }

  function RecordedAll(o: Options, logs: Logs, entries: seq<Entry>): Logs
    decreases |entries|
  {
    if entries == [] then logs else RecordedAll(o, Recorded(o, logs, entries[0]), entries[1..])
  }

  lemma {:induction false} TrimsAlone(o: Options, t: nat, x: Shared, th: Thread, i: Input) returns (inputs: seq<Input>)
    requires th.audit.Counting?
    ensures Alone(o, t, x, th, inputs)
            == Effect(x.(logs := x.logs.(audit := Suffix(x.logs.audit, o.auditCapacity))), th.(audit := Quiet))
    decreases |x.logs.audit|
  {
    if |x.logs.audit| <= o.auditCapacity {
      inputs := [i];
      AloneFirst(o, t, x, th, i, []);
      assert [i] == [i] + [];
    } else {
      var y, next := x.(logs := Dequeue(x.logs)), th.(audit := Trimming);
      inputs := TrimsAlone(o, t, y, th, i);
      AloneFirst(o, t, x, next, i, inputs);
      AloneFirst(o, t, x, th, i, [i] + inputs);
      inputs := [i] + ([i] + inputs);
    }
  }

  lemma RecordsAlone(o: Options, t: nat, x: Shared, th: Thread, i: Input) returns (inputs: seq<Input>)
    requires th.audit.Queueing? && x.logs.audit != [] && x.logs.history != []
    ensures Alone(o, t, x, th, inputs)
            == Effect(x.(logs := Logs(x.logs.history, Suffix(x.logs.audit, o.auditCapacity),
                                      x.logs.queued + [th.audit.entry],
                                      Suffix(x.logs.pending + [th.audit.entry], o.auditCapacity))),
                      th.(audit := Quiet))
  {
    var y := x.(logs := Queue(o, x.logs, th.audit.entry));
    inputs := TrimsAlone(o, t, y, th.(audit := Counting), i);
    AloneFirst(o, t, x, th, i, inputs);
    inputs := [i] + inputs;
  }

  // ---- Expiry ---------------------------------------------------------------------------------

  function ExpiredEntries(gone: seq<Override>, read: int, level: Level): seq<Entry> {
    seq(|gone|, k requires 0 <= k < |gone| => RemovalEntry(gone[k], read, level, Expired))
  }

  /** All that are left to look at are in the dictionary. */
  ghost predicate AreThere(left: set<Override>, m: Overrides) {
    forall p | p in left :: p.id in m && m[p.id] == p
  }

  function Ids(left: set<Override>): set<string> {
    set p | p in left :: p.id
  }

  lemma ExpiresOne(o: Options, t: nat, x: Shared, th: Thread, read: int, level: Level, pick: Override)
    returns (inputs: seq<Input>)
    requires th.audit.Quiet? && pick in th.left && pick.id in x.overrides
    ensures Alone(o, t, x, th, inputs)
            == Effect(x.(overrides := x.overrides - {pick.id},
                         logs := Recorded(o, x.logs, RemovalEntry(pick, read, level, Expired))),
                      th.(left := th.left - {pick}))
  {
    var i, entry := Input(read, level, pick), RemovalEntry(pick, read, level, Expired);
    var y := x.(overrides := x.overrides - {pick.id});
    var owing := th.(left := th.left - {pick}, audit := Owing(pick));
    var z, queueing := y.(logs := Enqueue(x.logs, entry)), owing.(audit := Queueing(entry));
    inputs := RecordsAlone(o, t, z, queueing, i);
    AloneFirst(o, t, y, owing, i, inputs);
    AloneFirst(o, t, x, th, i, [i] + inputs);
    inputs := [i] + ([i] + inputs);
  }

  lemma OneEntryMore(o: Options, logs: Logs, pick: Override, gone: seq<Override>, read: int, level: Level)
    ensures RecordedAll(o, logs, ExpiredEntries([pick] + gone, read, level))
            == RecordedAll(o, Recorded(o, logs, RemovalEntry(pick, read, level, Expired)),
                           ExpiredEntries(gone, read, level))
  {
    var entry, entries := RemovalEntry(pick, read, level, Expired), ExpiredEntries([pick] + gone, read, level);
    assert entries == [entry] + ExpiredEntries(gone, read, level);
    assert entries[1..] == ExpiredEntries(gone, read, level);
  }

  /** The entries are those of the overrides that were there. */
  ghost predicate AreFound(left: set<Override>, m: Overrides, gone: seq<Override>) {
    && (forall p | p in gone :: p in left) && (AreThere(left, m) ==> multiset(gone) == multiset(left))
  }

  lemma OneLess(m: Overrides, left: set<Override>, pick: Override, gone: seq<Override>)
    requires pick in left && AreFound(left - {pick}, m - {pick.id}, gone)
    ensures m - {pick.id} - Ids(left - {pick}) == m - Ids(left)
    ensures AreFound(left, m, if pick.id in m then [pick] + gone else gone)
  {
    assert left == left - {pick} + {pick};
    assert Ids(left) == Ids(left - {pick}) + {pick.id};
    if AreThere(left, m) {
      assert AreThere(left - {pick}, m - {pick.id});
    }
  }

  lemma SkipsOne(o: Options, t: nat, x: Shared, th: Thread, i: Input) returns (inputs: seq<Input>)
    requires th.audit.Quiet? && i.pick in th.left && i.pick.id !in x.overrides
    ensures Alone(o, t, x, th, inputs) == Effect(x, th.(left := th.left - {i.pick}))
  {
    AloneFirst(o, t, x, th, i, []);
    inputs := [i] + [];
  }

  /** A call goes through all it found expired, whether or not others have taken some of it away. */
  lemma {:induction false} ExpiresAlone(o: Options, t: nat, x: Shared, th: Thread, read: int, level: Level)
    returns (inputs: seq<Input>, gone: seq<Override>)
    requires th.audit.Quiet?
    ensures AreFound(th.left, x.overrides, gone)
    ensures Alone(o, t, x, th, inputs)
            == Effect(x.(overrides := x.overrides - Ids(th.left),
                         logs := RecordedAll(o, x.logs, ExpiredEntries(gone, read, level))),
                      th.(left := {}))
    decreases |th.left|
  {
    if th.left == {} {
      inputs, gone := [], [];
      assert x.overrides - Ids(th.left) == x.overrides;
      return;
    }
    var pick :| pick in th.left;
    var first;
    if pick.id in x.overrides {
      first := ExpiresOne(o, t, x, th, read, level, pick);
    } else {
      first := SkipsOne(o, t, x, th, Input(read, level, pick));
      assert x.overrides - {pick.id} == x.overrides;
    }
    var half := Alone(o, t, x, th, first);
    inputs, gone := ExpiresAlone(o, t, half.shared, half.thread, read, level);
    AloneThen(o, t, x, th, first, inputs);
    OneLess(x.overrides, th.left, pick, gone);
    inputs := first + inputs;
    if pick.id in x.overrides {
      OneEntryMore(o, x.logs, pick, gone, read, level);
      gone := [pick] + gone;
    }
  }

  /** What a scan at this time takes away. */
  ghost predicate AreOver(m: Overrides, now: int, gone: seq<Override>) {
    multiset(gone) == multiset(set id | id in m && m[id].expiresAt <= now :: m[id])
  }

  /** Expiry as a whole: exactly the overrides that are over go, each with an entry. */
  lemma ScanAlone(o: Options, t: nat, x: Shared, th: Thread, read: int, level: Level)
    returns (inputs: seq<Input>, gone: seq<Override>)
    requires th.audit.Quiet? && Keyed(x.overrides) && read <= x.clock && th.left == Expirable(x.overrides, read)
    ensures AreOver(x.overrides, read, gone)
    ensures Alone(o, t, x, th, inputs)
            == Effect(x.(overrides := Unexpired(x.overrides, read),
                         logs := RecordedAll(o, x.logs, ExpiredEntries(gone, read, level))),
                      th.(left := {}))
  {
    inputs, gone := ExpiresAlone(o, t, x, th, read, level);
    assert x.overrides - Ids(th.left) == Unexpired(x.overrides, read) by {
      forall id | id in x.overrides ensures id in Ids(th.left) <==> x.overrides[id].expiresAt <= read {
        if x.overrides[id].expiresAt <= read {
          assert x.overrides[id] in th.left;
        }
      }
    }
  }

  // ---- Reading and reverting ------------------------------------------------------------------

  function Start(job: Job): Thread {
    Thread(job, {}, Quiet)
  }

  /** The log after a scan that took these away. */
  function Scanned(o: Options, x: Shared, gone: seq<Override>, read: int, level: Level): Shared {
    x.(overrides := Unexpired(x.overrides, read), logs := RecordedAll(o, x.logs, ExpiredEntries(gone, read, level)))
  }

  lemma LookAlone(o: Options, t: nat, x: Shared, i: Input) returns (inputs: seq<Input>, gone: seq<Override>)
    requires Keyed(x.overrides) && i.read <= x.clock
    ensures AreOver(x.overrides, i.read, gone)
    ensures Alone(o, t, x, Start(Looking), inputs) == Effect(Scanned(o, x, gone, i.read, i.level), Start(Done))
  {
    var next := Thread(Done, Expirable(x.overrides, i.read), Quiet);
    inputs, gone := ScanAlone(o, t, x, next, i.read, i.level);
    AloneFirst(o, t, x, Start(Looking), i, inputs);
    inputs := [i] + inputs;
  }

  /** A call that has enqueued its own entry ends by copying and trimming. */
  lemma EntryAlone(o: Options, t: nat, x: Shared, job: Job, entry: Entry, i: Input) returns (inputs: seq<Input>)
    ensures Alone(o, t, x.(logs := Enqueue(x.logs, entry)), Thread(job, {}, Queueing(entry)), inputs)
            == Effect(x.(logs := Recorded(o, x.logs, entry)), Start(job))
  {
    inputs := RecordsAlone(o, t, x.(logs := Enqueue(x.logs, entry)), Thread(job, {}, Queueing(entry)), i);
  }

  lemma RevertAlone(o: Options, t: nat, x: Shared, id: string, i: Input)
    returns (inputs: seq<Input>, gone: seq<Override>)
    requires Keyed(x.overrides) && i.read <= x.clock
    ensures id !in x.overrides ==> Alone(o, t, x, Start(Reverting(id)), inputs) == Effect(x, Start(Done))
    ensures id in x.overrides ==>
              var rest := x.(overrides := x.overrides - {id});
              var y := Scanned(o, rest, gone, i.read, i.level);
              && AreOver(rest.overrides, i.read, gone)
              && Alone(o, t, x, Start(Reverting(id)), inputs)
                 == Effect(y.(logs := Recorded(o, y.logs, RemovalEntry(x.overrides[id], i.read, i.level, Reverted))),
                           Start(Done))
  {
    if id !in x.overrides {
      AloneFirst(o, t, x, Start(Reverting(id)), i, []);
      return [i] + [], [];
    }
    var removed, rest := x.overrides[id], x.(overrides := x.overrides - {id});
    var scanning := Thread(RevertOwing(removed), Expirable(rest.overrides, i.read), Quiet);
    var scan;
    scan, gone := ScanAlone(o, t, rest, scanning, i.read, i.level);
    var y, entry := Scanned(o, rest, gone, i.read, i.level), RemovalEntry(removed, i.read, i.level, Reverted);
    inputs := EntryAlone(o, t, y, Done, entry, i);
    AloneFirst(o, t, y, Start(RevertOwing(removed)), i, inputs);
    AloneThen(o, t, rest, scanning, scan, [i] + inputs);
    AloneFirst(o, t, rest, Start(Removed(removed)), i, scan + ([i] + inputs));
    AloneFirst(o, t, x, Start(Reverting(id)), i, [i] + (scan + ([i] + inputs)));
    inputs := [i] + ([i] + (scan + ([i] + inputs)));
  }

  // ---- Applying and validating ----------------------------------------------------------------

  /** The request gets past validation and the identifier is new. */
  ghost predicate Enters(o: Options, m: Overrides, r: Request, id: string, validateOnly: bool, now: int) {
    Admits(o, m, r, now) && !validateOnly && id !in m
  }

  lemma NothingOver(m: Overrides, now: int)
    ensures Expirable(Unexpired(m, now), now) == {}
  {
  }

  /** Up to the scan that validation begins with. */
  lemma ValidatesAlone(o: Options, t: nat, x: Shared, p: Plan, i: Input)
    returns (inputs: seq<Input>, gone: seq<Override>)
    requires Keyed(x.overrides) && i.read <= x.clock
    ensures AreOver(x.overrides, i.read, gone)
    ensures Alone(o, t, x, Start(Validating(p)), inputs)
            == Effect(Scanned(o, x, gone, i.read, i.level), Start(Limiting(p)))
  {
    var scanning := Thread(Limiting(p), Expirable(x.overrides, i.read), Quiet);
    inputs, gone := ScanAlone(o, t, x, scanning, i.read, i.level);
    AloneFirst(o, t, x, Start(Validating(p)), i, inputs);
    inputs := [i] + inputs;
  }

  lemma RefusesAlone(o: Options, t: nat, x: Shared, job: Job, i: Input) returns (inputs: seq<Input>)
    requires Move(o, t, x, Start(job), i) == Effect(x, Start(Releasing))
    ensures Alone(o, t, x, Start(job), inputs) == Effect(x.(lock := None), Start(Done))
  {
    AloneFirst(o, t, x, Start(Releasing), i, []);
    AloneFirst(o, t, x, Start(job), i, [i]);
    assert [i] == [i] + [];
    inputs := [i] + [i];
  }

  lemma DecidesAlone(o: Options, t: nat, x: Shared, p: Plan, i: Input) returns (inputs: seq<Input>)
    requires WellFormed(o, p.request) && i.read <= x.clock && Expirable(x.overrides, i.read) == {}
    ensures var enters := Enters(o, x.overrides, p.request, p.active.id, p.validateOnly, i.read);
            Alone(o, t, x, Start(Limiting(p)), inputs)
            == if enters then Effect(x, Start(Inserting(p))) else Effect(x.(lock := None), Start(Done))
  {
    var full := p.request.scope == "instance" && |InstanceIds(x.overrides)| >= o.maximumItems;
    if full {
      inputs := RefusesAlone(o, t, x, Limiting(p), i);
    } else if Conflicts(x.overrides, p.request, i.read) || p.validateOnly {
      inputs := RefusesAlone(o, t, x, Conflicting(p), i);
      AloneFirst(o, t, x, Start(Limiting(p)), i, inputs);
      inputs := [i] + inputs;
    } else if p.active.id in x.overrides {
      inputs := RefusesAlone(o, t, x, Fetching(p), i);
      AloneFirst(o, t, x, Start(Conflicting(p)), i, inputs);
      AloneFirst(o, t, x, Start(Limiting(p)), i, [i] + inputs);
      inputs := [i] + ([i] + inputs);
    } else {
      inputs := PreparesAlone(o, t, x, p, i);
      AloneFirst(o, t, x, Start(Conflicting(p)), i, inputs);
      AloneFirst(o, t, x, Start(Limiting(p)), i, [i] + inputs);
      inputs := [i] + ([i] + inputs);
    }
  }

  lemma PreparesAlone(o: Options, t: nat, x: Shared, p: Plan, i: Input) returns (inputs: seq<Input>)
    requires p.active.id !in x.overrides && i.read <= x.clock && Expirable(x.overrides, i.read) == {}
    ensures Alone(o, t, x, Start(Fetching(p)), inputs) == Effect(x, Start(Inserting(p)))
  {
    AloneFirst(o, t, x, Start(Preparing(p)), i, []);
    AloneFirst(o, t, x, Start(Fetching(p)), i, [i]);
    assert [i] == [i] + [];
    inputs := [i] + [i];
  }

  lemma InsertsAlone(o: Options, t: nat, x: Shared, p: Plan, i: Input) returns (inputs: seq<Input>)
    ensures Alone(o, t, x, Start(Inserting(p)), inputs)
            == Effect(x.(overrides := x.overrides[p.active.id := p.active], lock := None,
                         logs := Recorded(o, x.logs, ApplicationEntry(p.active, i.level))), Start(Done))
  {
    var y, entry := x.(overrides := x.overrides[p.active.id := p.active]), ApplicationEntry(p.active, i.level);
    var recorded := y.(logs := Recorded(o, x.logs, entry));
    var copy := EntryAlone(o, t, y, Releasing, entry, i);
    AloneFirst(o, t, recorded, Start(Releasing), i, []);
    assert [i] == [i] + [];
    AloneThen(o, t, y.(logs := Enqueue(x.logs, entry)), Thread(Releasing, {}, Queueing(entry)), copy, [i]);
    AloneFirst(o, t, y, Start(ApplyOwing(p)), i, copy + [i]);
    AloneFirst(o, t, x, Start(Inserting(p)), i, [i] + (copy + [i]));
    inputs := [i] + ([i] + (copy + [i]));
  }

  /** The state after an application or a validation that nobody interrupts. */
  ghost function Applied(o: Options, x: Shared, r: Request, id: string, startedAt: int, validateOnly: bool,
                         gone: seq<Override>, i: Input): Shared
  {
    if !WellFormed(o, r) then x
    else
      var y := Scanned(o, x, gone, i.read, i.level);
      if !Enters(o, y.overrides, r, id, validateOnly, i.read) then y
      else
        var active := Accept(r, id, startedAt);
        y.(overrides := y.overrides[id := active], logs := Recorded(o, y.logs, ApplicationEntry(active, i.level)))
  }

  lemma ApplyAlone(o: Options, t: nat, x: Shared, r: Request, id: string, startedAt: int, validateOnly: bool, i: Input)
    returns (inputs: seq<Input>, gone: seq<Override>)
    requires Keyed(x.overrides) && i.read <= x.clock && x.lock.None?
    ensures WellFormed(o, r) ==> AreOver(x.overrides, i.read, gone)
    ensures Alone(o, t, x, Start(Waiting(r, id, startedAt, validateOnly)), inputs)
            == Effect(Applied(o, x, r, id, startedAt, validateOnly, gone, i), Start(Done))
  {
    if !WellFormed(o, r) {
      AloneFirst(o, t, x, Start(Waiting(r, id, startedAt, validateOnly)), i, []);
      return [i] + [], [];
    }
    var p, locked := Plan(r, Accept(r, id, startedAt), validateOnly), x.(lock := Some(t));
    var scan;
    scan, gone := ValidatesAlone(o, t, locked, p, i);
    var y := Scanned(o, locked, gone, i.read, i.level);
    NothingOver(x.overrides, i.read);
    var decide := DecidesAlone(o, t, y, p, i);
    if Enters(o, y.overrides, r, id, validateOnly, i.read) {
      var insert := InsertsAlone(o, t, y, p, i);
      AloneThen(o, t, y, Start(Limiting(p)), decide, insert);
      decide := decide + insert;
    }
    AloneThen(o, t, locked, Start(Validating(p)), scan, decide);
    AloneFirst(o, t, x, Start(Waiting(r, id, startedAt, validateOnly)), i, scan + decide);
    inputs := [i] + (scan + decide);
  }

  // ---- Calls in a run -------------------------------------------------------------------------

  /** The call begins in this state and nobody else moves until it has ended. */
  ghost predicate IsWholeCall(o: Options, past: seq<Event>, job: Job, events: seq<Event>, after: Shared) {
    && (exists inputs: seq<Input> :: events == past + [Call(job)] + Acts(|Run(o, past).threads|, inputs))
    && Run(o, events).shared == after && Run(o, events).threads == Run(o, past).threads + [Start(Done)]
  }

  lemma WholeCall(o: Options, past: seq<Event>, job: Job, inputs: seq<Input>, after: Shared)
    returns (events: seq<Event>)
    requires Starts(job)
    requires Alone(o, |Run(o, past).threads|, Run(o, past).shared, Start(job), inputs) == Effect(after, Start(Done))
    ensures IsWholeCall(o, past, job, events, after)
  {
    var t := |Run(o, past).threads|;
    var called := past + [Call(job)];
    RunLast(o, past, Call(job));
    AloneRuns(o, called, t, inputs);
    events := called + Acts(t, inputs);
    assert Run(o, called).threads[t := Start(Done)] == Run(o, past).threads + [Start(Done)];
  }

  /** From every reachable state: a read takes away exactly what is over, and says so. */
  lemma ReadAlone(o: Options, past: seq<Event>, i: Input) returns (events: seq<Event>, gone: seq<Override>)
    requires i.read <= Run(o, past).shared.clock
    ensures var x := Run(o, past).shared;
            && AreOver(x.overrides, i.read, gone)
            && IsWholeCall(o, past, Looking, events, Scanned(o, x, gone, i.read, i.level))
  {
    var s, inputs := Run(o, past), [];
    OnePerCategoryAlways(o, past);
    inputs, gone := LookAlone(o, |s.threads|, s.shared, i);
    events := WholeCall(o, past, Looking, inputs, Scanned(o, s.shared, gone, i.read, i.level));
  }

  /**
   From every reachable state in which nobody holds the lock: an application does what the request's
   checks over the unexpired overrides say, and a validation only takes away what is over.
   */
  lemma ApplicationAlone(o: Options, past: seq<Event>, r: Request, id: string, startedAt: int, validateOnly: bool,
                         i: Input) returns (events: seq<Event>, gone: seq<Override>)
    requires i.read <= Run(o, past).shared.clock && Run(o, past).shared.lock.None?
    ensures var x := Run(o, past).shared;
            && (WellFormed(o, r) ==> AreOver(x.overrides, i.read, gone))
            && IsWholeCall(o, past, Waiting(r, id, startedAt, validateOnly), events,
                           Applied(o, x, r, id, startedAt, validateOnly, gone, i))
  {
    var s, inputs := Run(o, past), [];
    OnePerCategoryAlways(o, past);
    inputs, gone := ApplyAlone(o, |s.threads|, s.shared, r, id, startedAt, validateOnly, i);
    events := WholeCall(o, past, Waiting(r, id, startedAt, validateOnly), inputs,
                        Applied(o, s.shared, r, id, startedAt, validateOnly, gone, i));
  }

  /** From every reachable state: a revert takes away its override, if it is there, and what else is over. */
  lemma RevertCallAlone(o: Options, past: seq<Event>, id: string, i: Input)
    returns (events: seq<Event>, gone: seq<Override>, after: Shared)
    requires i.read <= Run(o, past).shared.clock
    ensures IsWholeCall(o, past, Reverting(id), events, after)
    ensures var x := Run(o, past).shared;
            if id !in x.overrides then after == x
            else
              && AreOver(x.overrides - {id}, i.read, gone) && after.overrides == Unexpired(x.overrides - {id}, i.read)
              && after.logs
                 == Recorded(o, RecordedAll(o, x.logs, ExpiredEntries(gone, i.read, i.level)),
                             RemovalEntry(x.overrides[id], i.read, i.level, Reverted))
  {
    var s, inputs := Run(o, past), [];
    OnePerCategoryAlways(o, past);
    inputs, gone := RevertAlone(o, |s.threads|, s.shared, id, i);
    after := Alone(o, |s.threads|, s.shared, Start(Reverting(id)), inputs).shared;
    events := WholeCall(o, past, Reverting(id), inputs, after);
  }
}
