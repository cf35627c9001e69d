/**
 One reconciliation pass of a replica against the store. Clock reads of the pass are arbitrary
 non-decreasing instants between the start of the pass and `finish`.
 */
module OverrideCoordination {
  import opened Text
  import opened LogLevels
  import opened LogLevelController
  import opened OverrideStore

  predicate IsGuid(id: string) {
    && |id| == 32
    && forall i | 0 <= i < |id| :: '0' <= id[i] <= '9' || 'a' <= id[i] <= 'f' || 'A' <= id[i] <= 'F'
  }

  predicate IsValidMessage(m: Message, now: int) {
    && IsGuid(m.id) && !IsBlank(m.actor) && |m.actor| <= 128
    && 0 <= m.startedAt <= now + 5 * 60 * 1000 && m.request.scope == "all"
  }

  /** A message an instance listens to, in plain terms. */
  lemma ValidMessageIff(m: Message, now: int)
    ensures IsValidMessage(m, now) <==>
            && |m.id| == 32 && (forall i | 0 <= i < |m.id| :: m.id[i] in "0123456789abcdefABCDEF")
            && 1 <= |m.actor| <= 128 && (exists i :: 0 <= i < |m.actor| && !IsWhiteSpace(m.actor[i]))
            && m.request.scope == "all" && 0 <= m.startedAt && m.startedAt - now <= 300000
  {
    forall i | 0 <= i < |m.id|
      ensures m.id[i] in "0123456789abcdefABCDEF" <==>
              '0' <= m.id[i] <= '9' || 'a' <= m.id[i] <= 'f' || 'A' <= m.id[i] <= 'F'
    {
      IsHexDigit(m.id[i]);
    }
  }

  lemma IsHexDigit(c: char)
    ensures c in "0123456789abcdefABCDEF" <==> '0' <= c <= '9' || 'a' <= c <= 'f' || 'A' <= c <= 'F'
  {
    var digits := "0123456789abcdefABCDEF";
    if '0' <= c <= '9' {
      assert digits[c as int - '0' as int] == c;
    } else if 'a' <= c <= 'f' {
      assert digits[c as int - 'a' as int + 10] == c;
    } else if 'A' <= c <= 'F' {
      assert digits[c as int - 'A' as int + 16] == c;
    }
  }

  /** What an issuing instance has checked before a message reaches the store. */
  ghost predicate Genuine(o: Options, m: Message) {
    && IsValidMessage(m, m.startedAt) && WellFormed(o, m.request)
    && Trim(m.request.category, IsWhiteSpace) == m.request.category
  }

  /** The override a message stands for; a genuine message always names a level. */
  ghost function Announced(m: Message): Override {
    Override(m.id, Category(m), if m.request.level.Some? then m.request.level.value else Information,
             "all", m.startedAt, NominalEnd(m))
  }

  /** The validation behind the store's messages is the one this instance performs. */
  ghost predicate SameRules(rules: Rules, o: Options) {
    forall m {:trigger Genuine(o, m)} | rules.accepts(m) :: Genuine(o, m)
  }

  // ---- What an instance may hold --------------------------------------------------------------

  /** Whatever the instance holds under an identifier the store has seen is what that message announced. */
  ghost predicate Remembers(m: Overrides, known: map<string, Message>) {
    forall id | id in m && id in known :: m[id] == Announced(known[id])
  }

  /** A local change: overrides go, or come from a message the store has seen, or are the instance's own. */
  ghost predicate Grows(before: Overrides, after: Overrides, known: map<string, Message>) {
    forall id | id in after ::
      || (id in before && after[id] == before[id])
      || (if id in known then after[id] == Announced(known[id]) else after[id].scope == "instance")
  }

  lemma GrowsKeeps(before: Overrides, after: Overrides, known: map<string, Message>)
    requires Remembers(before, known) && Grows(before, after, known)
    ensures Remembers(after, known)
  {
  }

  lemma GrowsTwice(a: Overrides, b: Overrides, c: Overrides, known: map<string, Message>)
    requires Grows(a, b, known) && Grows(b, c, known)
    ensures Grows(a, c, known)
  {
  }

  ghost predicate NoRival(m: Overrides, message: Message, now: int) {
    forall id | id in m && id != message.id && m[id].category == Category(message) && m[id].scope == "all" ::
      m[id].expiresAt <= now
  }

  lemma NoRivalIsAdmitted(rules: Rules, o: Options, m: Overrides, message: Message, removal: int, check: int)
    requires SameRules(rules, o) && rules.accepts(message)
    requires NoRival(m, message, removal) && removal <= check
    requires message.id in Unexpired(m, removal) ==> m[message.id].expiresAt <= check
    ensures Admits(o, Unexpired(m, removal), message.request, check)
  {
    assert Genuine(o, message);
  }

  lemma AcceptedMessage(rules: Rules, o: Options, message: Message, now: int)
    requires SameRules(rules, o) && rules.accepts(message) && message.startedAt <= now
    ensures IsValidMessage(message, now)
    ensures message.request.level.Some? && Accept(message.request, message.id, message.startedAt) == Announced(message)
  {
    assert Genuine(o, message);
  }

  /** From `before` to `after` at most the message came in and at most expired overrides went. */
  ghost predicate Touched(before: Overrides, after: Overrides, message: Message, finish: int) {
    && (forall id | id in after ::
          || (id in before && after[id] == before[id])
          || (id == message.id && after[id] == Announced(message)))
    && (forall id | id in before && before[id].expiresAt > finish :: id in after)
  }

  /** ... and the message did come in, unless it is over. */
  ghost predicate Joined(before: Overrides, after: Overrides, message: Message, finish: int) {
    Touched(before, after, message, finish) && (NominalEnd(message) > finish ==> message.id in after)
  }

  lemma TouchedGrows(before: Overrides, after: Overrides, message: Message, finish: int, known: map<string, Message>)
    requires Touched(before, after, message, finish) && message.id in known && known[message.id] == message
    ensures Grows(before, after, known)
  {
  }

  /**
   Any message the store has seen, read in a pass or published by another instance, is a local change.
   Without a rival it is applied unless it is already there or over.
   */
  method ApplyMessage(
    ghost rules: Rules, ghost known: map<string, Message>, c: Controller, message: Message, start: int, finish: int)
    returns (end: int)
    requires c.Valid() && c.clock <= start <= finish && SameRules(rules, c.options)
    requires rules.accepts(message) && message.startedAt <= start
    requires message.id in known && known[message.id] == message && Remembers(c.overrides, known)
    modifies c
    ensures c.Valid() && start <= end <= finish && c.clock <= end
    ensures Touched(old(c.overrides), c.overrides, message, finish)
    ensures NoRival(old(c.overrides), message, start) ==> Joined(old(c.overrides), c.overrides, message, finish)
    ensures Grows(old(c.overrides), c.overrides, known) && Remembers(c.overrides, known)
  {
    end :| start <= end <= finish;
    AcceptedMessage(rules, c.options, message, end);
    if IsValidMessage(message, end) {
      var checked :| end <= checked <= finish;
      end := checked;
      var found := c.Contains(message.id, end);
      if !found {
        end := ApplyAbsent(rules, c, message, end, finish);
      }
    }
    TouchedGrows(old(c.overrides), c.overrides, message, finish, known);
    GrowsKeeps(old(c.overrides), c.overrides, known);
  }

  /** The rest of `ApplyMessage` for an identifier the instance does not hold. */
  method ApplyAbsent(ghost rules: Rules, c: Controller, message: Message, start: int, finish: int) returns (end: int)
    requires c.Valid() && c.clock <= start <= finish && SameRules(rules, c.options)
    requires rules.accepts(message) && message.startedAt <= start && message.id !in c.overrides
    modifies c
    ensures c.Valid() && start <= end <= finish && c.clock <= end
    ensures Touched(old(c.overrides), c.overrides, message, finish)
    ensures NoRival(old(c.overrides), message, start) ==> Joined(old(c.overrides), c.overrides, message, finish)
  {
    ghost var before := c.overrides;
    var removal :| start <= removal <= finish;
    var check :| removal <= check <= finish;
    AcceptedMessage(rules, c.options, message, check);
    if NoRival(before, message, start) {
      NoRivalIsAdmitted(rules, c.options, before, message, removal, check);
    }
    var ok := c.TryValidate(message.request, removal, check);
    end :| check <= end <= finish;
    if ok && NominalEnd(message) > end {
      var again :| end <= again <= finish;
      var recheck :| again <= recheck <= finish;
      end :| recheck <= end <= finish;
      UnexpiredLater(before, removal, again);
      if NoRival(before, message, start) {
        NoRivalIsAdmitted(rules, c.options, before, message, again, recheck);
      }
      var answer := c.TryApply(message.request, message.id, message.startedAt, again, recheck, end);
    }
  }

  /** The only override that may have come in is the one this message asks for, and only within all limits. */
  ghost predicate ComesInOnly(o: Options, before: Overrides, after: Overrides, m: Message, start: int, finish: int) {
    && (forall id | id in before && id !in after :: before[id].expiresAt <= finish)
    && forall id | id in after ::
         || (id in before && after[id] == before[id])
         || (id == m.id && WellFormed(o, m.request) && IsValidMessage(m, finish) && start < NominalEnd(m)
             && after[id] == Accept(m.request, m.id, m.startedAt))
  }

  lemma ComesInLater(o: Options, before: Overrides, now: int, after: Overrides, m: Message, start: int, finish: int)
    requires now <= finish && ComesInOnly(o, Unexpired(before, now), after, m, start, finish)
    ensures ComesInOnly(o, before, after, m, start, finish)
  {
    forall id | id in before && id !in after ensures before[id].expiresAt <= finish {
      assert id in Unexpired(before, now) <==> before[id].expiresAt > now;
    }
  }

  /** Any message that anyone publishes, genuine or not. */
  method ApplyPublished(c: Controller, message: Message, start: int, finish: int) returns (end: int)
    requires c.Valid() && c.clock <= start <= finish
    modifies c
    ensures c.Valid() && start <= end <= finish && c.clock <= end
    ensures ComesInOnly(c.options, old(c.overrides), c.overrides, message, start, finish)
    ensures !IsValidMessage(message, finish) ==> c.overrides == old(c.overrides)
  {
    end :| start <= end <= finish;
    if !IsValidMessage(message, end) {
      return;
    }
    var now := end;
    var found := c.Contains(message.id, now);
    if !found {
      end := ApplyChecked(c, message, start, end, finish);
    }
    ComesInLater(c.options, old(c.overrides), now, c.overrides, message, start, finish);
  }

  /** The validation and the application of a valid message. */
  method ApplyChecked(c: Controller, message: Message, ghost start: int, now: int, finish: int) returns (end: int)
    requires c.Valid() && start <= now <= finish && c.clock <= now && IsValidMessage(message, now)
    modifies c
    ensures c.Valid() && now <= end <= finish && c.clock <= end
    ensures ComesInOnly(c.options, old(c.overrides), c.overrides, message, start, finish)
  {
    var removal :| now <= removal <= finish;
    var check :| removal <= check <= finish;
    var ok := c.TryValidate(message.request, removal, check);
    end :| check <= end <= finish;
    if ok && NominalEnd(message) > end {
      ghost var before := c.overrides;
      var again :| end <= again <= finish;
      var recheck :| again <= recheck <= finish;
      end :| recheck <= end <= finish;
      var answer := c.TryApply(message.request, message.id, message.startedAt, again, recheck, end);
      assert ComesInOnly(c.options, before, c.overrides, message, start, finish);
      ComesInLater(c.options, old(c.overrides), removal, c.overrides, message, start, finish);
    }
  }

  /** A published revert. */
  method RevertMessage(ghost known: map<string, Message>, c: Controller, id: string, timestamp: int, effective: int)
    requires c.Valid() && c.clock <= effective && Remembers(c.overrides, known)
    modifies c
    ensures c.Valid() && id !in c.overrides
    ensures Grows(old(c.overrides), c.overrides, known) && Remembers(c.overrides, known)
  {
    var removed := c.Revert(id, timestamp, effective);
  }

  // ---- Applying and reverting at an instance --------------------------------------------------

  /**
   The issuing instance after its reservation succeeded: it applies the override, or takes the
   reservation back. The override is then in both places or in neither exactly if, when it was applied,
   nobody had removed it from the store meanwhile and, when it was rejected, no pass had applied it here.
   */
  method FinishApply(
    ghost rules: Rules, c: Controller, s: Store, message: Message, removal: int, check: int, effective: int)
    returns (after: Store, ok: bool)
    requires c.Valid() && c.clock <= removal <= check <= effective && message.startedAt <= removal
    requires SameRules(rules, c.options) && rules.accepts(message)
    requires message.id in s.known && s.known[message.id] == message && Remembers(c.overrides, s.known)
    modifies c
    ensures c.Valid()
    ensures Grows(old(c.overrides), c.overrides, s.known) && Remembers(c.overrides, after.known)
    ensures ok <==> Admits(c.options, Unexpired(old(c.overrides), removal), message.request, check)
    ensures ok ==> after == s && message.id in c.overrides && c.overrides[message.id] == Announced(message)
    ensures !ok ==> after == Step(rules, s, Remove(message.id)) && message.id !in after.actives
    ensures (message.id in c.overrides <==> message.id in after.actives)
            <==> if ok then message.id in s.actives else message.id !in Unexpired(old(c.overrides), removal)
  {
    AcceptedMessage(rules, c.options, message, removal);
    var answer := c.TryApply(message.request, message.id, message.startedAt, removal, check, effective);
    GrowsKeeps(old(c.overrides), c.overrides, s.known);
    ok := !answer.Rejected?;
    after := s;
    if !ok {
      assert Genuine(c.options, message);
      after := RemoveStep(s, message.id);
    }
  }

  /**
   An apply that was cancelled or lost Redis after its reservation. The override leaves the instance and,
   if Redis can be reached, the store; no other override in the store is touched.
   */
  method RollbackApply(
    ghost rules: Rules, c: Controller, s: Store, id: string, reachable: bool, timestamp: int, effective: int)
    returns (after: Store)
    requires Consistent(rules, s) && c.Valid() && c.clock <= effective && Remembers(c.overrides, s.known)
    modifies c
    ensures c.Valid() && Consistent(rules, after)
    ensures Grows(old(c.overrides), c.overrides, s.known) && Remembers(c.overrides, after.known)
    ensures id !in c.overrides && (if reachable then id !in after.actives else after == s)
    ensures forall other | other in s.actives && other != id ::
              other in after.actives && after.actives[other] == s.actives[other]
  {
    StepRemove(rules, s, id);
    var removed := c.Revert(id, timestamp, effective);
    after := if reachable then RemoveStep(s, id) else s;
  }

  /**
   An override of the instance's own, under a fresh identifier. `keep` is false when coordination is
   required and fails, or the call is cancelled: the override is then reverted.
   */
  method ApplyInstance(
    ghost known: map<string, Message>, c: Controller, request: Request, id: string, startedAt: int,
    removal: int, check: int, effective: int, keep: bool, timestamp: int, end: int)
    returns (ok: bool)
    requires c.Valid() && c.clock <= removal <= check <= effective <= end && Remembers(c.overrides, known)
    requires request.scope != "all" && id !in known && id !in c.overrides
    modifies c
    ensures c.Valid()
    ensures Grows(old(c.overrides), c.overrides, known) && Remembers(c.overrides, known)
    ensures ok <==> keep && Admits(c.options, Unexpired(old(c.overrides), removal), request, check)
    ensures ok ==> request.level.Some? && id in c.overrides && c.overrides[id] == Accept(request, id, startedAt)
    ensures !ok ==> id !in c.overrides
  {
    var answer := c.TryApply(request, id, startedAt, removal, check, effective);
    ok := !answer.Rejected? && keep;
    if !answer.Rejected? && !keep {
      var removed := c.Revert(id, timestamp, end);
    }
  }

  /** Whether Redis is reachable, and whether it stays so until the revert is published. */
  datatype Redis = Reachable | LostAfterRemoval | Unreachable

  /**
   A revert asked of this instance. `optional`: the instance may run without Redis. When it succeeds the
   override is neither here nor in the store; when it fails, whatever was here is still here.
   */
  method RevertOverride(
    ghost rules: Rules, c: Controller, s: Store, id: string, redis: Redis, optional: bool,
    listed: int, timestamp: int, effective: int)
    returns (after: Store, found: bool, ok: bool)
    requires Consistent(rules, s) && c.Valid() && c.clock <= listed <= effective && Remembers(c.overrides, s.known)
    modifies c
    ensures c.Valid() && Consistent(rules, after)
    ensures Grows(old(c.overrides), c.overrides, s.known) && Remembers(c.overrides, after.known)
    ensures found <==> id in Unexpired(old(c.overrides), listed) || (!redis.Unreachable? && LiveActive(s, id))
    ensures ok <==> found && (redis.Reachable? || (optional && IsOwn(Unexpired(old(c.overrides), listed), id)))
    ensures ok ==> id !in c.overrides && id !in after.actives
    ensures !ok ==> c.overrides == Unexpired(old(c.overrides), listed) && (redis.Unreachable? ==> after == s)
  {
    after := s;
    StepRemove(rules, s, id);
    var active := c.GetActive(listed);
    var isLocal, isOwn := id in c.overrides, IsOwn(c.overrides, id);
    if !isLocal && (redis.Unreachable? || !LiveActive(s, id)) {
      return s, false, false;
    }
    if !isOwn && !redis.Unreachable? {
      after := RemoveStep(s, id);
    }
    if !redis.Reachable? && !(isOwn && optional) {
      return after, true, false;
    }
    var removed := c.Revert(id, timestamp, effective);
    found, ok := true, removed || redis.Reachable?;
  }

  predicate IsOwn(m: Overrides, id: string) {
    id in m && m[id].scope != "all"
  }

  /** A look at the instance's overrides, which also expires what is due, is a local change, too. */
  method ListActive(ghost known: map<string, Message>, c: Controller, now: int) returns (active: seq<Override>)
    requires c.Valid() && c.clock <= now && Remembers(c.overrides, known)
    modifies c
    ensures c.Valid() && IsListing(active, c.overrides)
    ensures Grows(old(c.overrides), c.overrides, known) && Remembers(c.overrides, known)
  {
    active := c.GetActive(now);
  }

  lemma OwnOverrideConflicts(rules: Rules, o: Options, m: Overrides, message: Message, removal: int, check: int)
    requires SameRules(rules, o) && rules.accepts(message) && removal <= check < NominalEnd(message)
    requires message.id in m && m[message.id] == Announced(message)
    ensures !Admits(o, Unexpired(m, removal), message.request, check)
  {
    assert Genuine(o, message);
    assert message.id in Unexpired(m, removal);
  }

  // ---- Reconciliation -------------------------------------------------------------------------

  /** The unexpired replica-wide overrides of an instance. */
  ghost function Shared(m: Overrides, now: int): Overrides {
    map id | id in m && m[id].scope == "all" && m[id].expiresAt > now :: m[id]
  }

  ghost function Private(m: Overrides, now: int): Overrides {
    map id | id in m && m[id].scope != "all" && m[id].expiresAt > now :: m[id]
  }

  /** The replica-wide overrides the store stands for at `now`. */
  ghost function Expected(s: Store, now: int): Overrides {
    map id | id in s.actives && LiveActive(s, id) && NominalEnd(s.actives[id].message) > now ::
      Announced(s.actives[id].message)
  }

  ghost predicate Named(s: Store) {
    forall id | id in s.actives :: s.actives[id].message.id == id
  }

  /** The indexed identifiers with a live key, in some order, and the index without the others. */
  method ReadActive(s: Store) returns (messages: seq<Message>, ids: set<string>, index: map<string, int>)
    requires KeysMatch(s) && IndexMatches(s) && Named(s)
    ensures ids == Current(s) && index == Pruned(s.index, s.now)
    ensures forall i | 0 <= i < |messages| ::
      messages[i].id in ids && messages[i].id in s.actives && messages[i] == s.actives[messages[i].id].message
    ensures forall id | id in ids :: exists i :: 0 <= i < |messages| && messages[i].id == id
  {
    index := Pruned(s.index, s.now);
    messages, ids := [], {};
    var remaining := index.Keys;
    while remaining != {}
      invariant index == Pruned(s.index, s.now) && remaining <= index.Keys && ids == index.Keys - remaining
      invariant forall i | 0 <= i < |messages| ::
        messages[i].id in ids && messages[i].id in s.actives && messages[i] == s.actives[messages[i].id].message
      invariant forall id | id in ids :: exists i :: 0 <= i < |messages| && messages[i].id == id
    {
      var id :| id in remaining;
      remaining := remaining - {id};
      if LiveActive(s, id) {
        ghost var earlier := messages;
        messages := messages + [s.actives[id].message];
        ids := ids + {id};
        assert messages[|earlier|].id == id;
        assert forall i | 0 <= i < |earlier| :: messages[i] == earlier[i];
      } else {
        index := index - {id};
      }
    }
  }

  /** Of `before`, exactly the stale overrides still in `pending` and the expired ones may be missing or remain. */
  ghost predicate Sifted(before: Overrides, m: Overrides, ids: set<string>, pending: set<string>, finish: int) {
    && (forall id | id in m ::
          id in before && m[id] == before[id] && (m[id].scope == "all" ==> id in ids || id in pending))
    && (forall id | id in before && before[id].expiresAt > finish && (before[id].scope == "all" ==> id in ids) ::
          id in m)
  }

  lemma SiftOne(
    before: Overrides, m: Overrides, ids: set<string>, pending: set<string>, finish: int, id: string, end: int)
    requires Sifted(before, m, ids, pending, finish) && id in pending && end <= finish
    requires id in before ==> before[id].scope == "all" && id !in ids
    ensures Sifted(before, if id in m then Unexpired(m - {id}, end) else m, ids, pending - {id}, finish)
  {
  }

  /** The identifiers still to be reverted from position `from` on. */
  ghost function Stale(locals: seq<Override>, from: nat, ids: set<string>): set<string>
    requires from <= |locals|
  {
    set i | from <= i < |locals| && locals[i].scope == "all" && locals[i].id !in ids :: locals[i].id
  }

  lemma StaleStep(locals: seq<Override>, i: nat, ids: set<string>)
    requires i < |locals| && forall j, k | 0 <= j < k < |locals| :: locals[j].id != locals[k].id
    ensures Stale(locals, i + 1, ids) == Stale(locals, i, ids) - {locals[i].id}
    ensures locals[i].id in Stale(locals, i, ids) <==> locals[i].scope == "all" && locals[i].id !in ids
  {
  }

  lemma StaleCovers(locals: seq<Override>, m: Overrides, ids: set<string>)
    requires IsListing(locals, m) && Keyed(m)
    ensures forall id | id in m && m[id].scope == "all" :: id in ids || id in Stale(locals, 0, ids)
  {
    forall id | id in m && m[id].scope == "all" && id !in ids
      ensures id in Stale(locals, 0, ids)
    {
      var i :| 0 <= i < |locals| && locals[i] == m[id];
      assert locals[i].id == id;
    }
  }

  /** Replica-wide overrides that the store no longer lists are reverted, and nothing else is. */
  method RevertStale(c: Controller, ids: set<string>, start: int, finish: int) returns (end: int)
    requires c.Valid() && c.clock <= start <= finish
    modifies c
    ensures c.Valid() && start <= end <= finish && c.clock <= end
    ensures Sifted(old(c.overrides), c.overrides, ids, {}, finish)
  {
    ghost var before := c.overrides;
    end :| start <= end <= finish;
    var locals := c.GetActive(end);
    ghost var pending := Stale(locals, 0, ids);
    assert Sifted(before, c.overrides, ids, pending, finish) by {
      StaleCovers(locals, c.overrides, ids);
    }
    for i := 0 to |locals|
      invariant c.Valid() && start <= end <= finish && c.clock <= end
      invariant Sifted(before, c.overrides, ids, Stale(locals, i, ids), finish)
    {
      assert locals[i].id in before && locals[i] == before[locals[i].id];
      StaleStep(locals, i, ids);
      if locals[i].scope == "all" && locals[i].id !in ids {
        var timestamp :| end <= timestamp <= finish;
        end :| timestamp <= end <= finish;
        SiftOne(before, c.overrides, ids, Stale(locals, i, ids), finish, locals[i].id, end);
        var removed := c.Revert(locals[i].id, timestamp, end);
      }
    }
  }

  /** Every replica-wide override of the instance is one the store lists, with the same content. */
  ghost predicate Listed(m: Overrides, s: Store) {
    forall id | id in m && (m[id].scope == "all" || id in Current(s)) ::
      id in Current(s) && id in s.actives && m[id] == Announced(s.actives[id].message)
  }

  ghost predicate AreActive(messages: seq<Message>, s: Store) {
    forall i | 0 <= i < |messages| ::
      messages[i].id in Current(s) && messages[i].id in s.actives && messages[i] == s.actives[messages[i].id].message
  }

  lemma ListedHasNoRival(m: Overrides, s: Store, message: Message, now: int)
    requires KeysMatch(s) && ReservationsMatch(s) && IndexMatches(s) && Listed(m, s)
    requires message.id in Current(s) && message.id in s.actives && s.actives[message.id].message == message
    ensures NoRival(m, message, now) && message.startedAt <= s.now
    ensures message.id in m ==> m[message.id] == Announced(message)
  {
    assert LiveActive(s, message.id);
    forall id | id in m && m[id].category == Category(message) && m[id].scope == "all"
      ensures id == message.id
    {
      assert LiveActive(s, id);
    }
  }

  ghost predicate Done(messages: seq<Message>, count: nat, m: Overrides, finish: int)
    requires count <= |messages|
  {
    forall i | 0 <= i < count && NominalEnd(messages[i]) > finish ::
      messages[i].id in m && m[messages[i].id].expiresAt > finish
  }

  /** What `ApplyMessage` promises keeps the overrides listed and the instance-scoped ones as they were. */
  lemma AppliedStaysListed(
    before: Overrides, m: Overrides, s: Store, messages: seq<Message>, count: nat, finish: int)
    requires count < |messages| && Listed(before, s) && Done(messages, count, before, finish)
    requires var message := messages[count];
             message.id in Current(s) && message.id in s.actives && s.actives[message.id].message == message
    requires Joined(before, m, messages[count], finish)
    ensures Listed(m, s) && Private(m, finish) == Private(before, finish) && Done(messages, count + 1, m, finish)
  {
  }

  /** The applying half of a pass. */
  method ApplyAll(ghost rules: Rules, c: Controller, s: Store, messages: seq<Message>, start: int, finish: int)
    requires Consistent(rules, s) && SameRules(rules, c.options) && Named(s)
    requires c.Valid() && c.clock <= start && s.now <= start <= finish
    requires AreActive(messages, s) && Listed(c.overrides, s) && Remembers(c.overrides, s.known)
    modifies c
    ensures c.Valid() && c.clock <= finish
    ensures Listed(c.overrides, s) && Private(c.overrides, finish) == Private(old(c.overrides), finish)
    ensures Done(messages, |messages|, c.overrides, finish) && Grows(old(c.overrides), c.overrides, s.known)
  {
    var now := start;
    for k := 0 to |messages|
      invariant c.Valid() && c.clock <= now && start <= now <= finish
      invariant Listed(c.overrides, s) && Private(c.overrides, finish) == Private(old(c.overrides), finish)
      invariant Done(messages, k, c.overrides, finish) && Grows(old(c.overrides), c.overrides, s.known)
      invariant Remembers(c.overrides, s.known)
    {
      ghost var before := c.overrides;
      ListedHasNoRival(before, s, messages[k], now);
      now := ApplyMessage(rules, s.known, c, messages[k], now, finish);
      AppliedStaysListed(before, c.overrides, s, messages, k, finish);
      GrowsTwice(old(c.overrides), before, c.overrides, s.known);
    }
  }

  /**
   After one pass the instance holds exactly the store's replica-wide overrides, up to expiry at the
   end of the pass, its own instance-scoped overrides are untouched, and another pass may follow.
   */
  method ReconcileActive(ghost rules: Rules, s: Store, c: Controller, finish: int) returns (after: Store)
    requires Consistent(rules, s) && SameRules(rules, c.options)
    requires c.Valid() && c.clock <= s.now <= finish && Remembers(c.overrides, s.known)
    modifies c
    ensures c.Valid() && c.clock <= finish
    ensures Shared(c.overrides, finish) == Expected(s, finish)
    ensures Private(c.overrides, finish) == Private(old(c.overrides), finish)
    ensures after == Step(rules, s, Prune(s.now)) && Consistent(rules, after)
    ensures Grows(old(c.overrides), c.overrides, s.known) && Remembers(c.overrides, after.known)
  {
    var messages, ids, index := ReadActive(s);
    after := s.(index := index);
    StepPrune(rules, s, s.now);
    var start := RevertStale(c, ids, s.now, finish);
    ghost var sifted := c.overrides;
    SiftedIsListed(old(c.overrides), sifted, s, finish);
    GrowsKeeps(old(c.overrides), sifted, s.known);
    ApplyAll(rules, c, s, messages, start, finish);
    ListedIsExpected(c.overrides, s, messages, finish);
    GrowsTwice(old(c.overrides), sifted, c.overrides, s.known);
    GrowsKeeps(old(c.overrides), c.overrides, s.known);
  }

  lemma SiftedIsListed(before: Overrides, m: Overrides, s: Store, finish: int)
    requires KeysMatch(s) && IndexMatches(s) && Remembers(before, s.known)
    requires Sifted(before, m, Current(s), {}, finish)
    ensures Listed(m, s) && Private(m, finish) == Private(before, finish) && Grows(before, m, s.known)
  {
  }

  lemma ListedIsExpected(m: Overrides, s: Store, messages: seq<Message>, finish: int)
    requires KeysMatch(s) && IndexMatches(s) && s.now <= finish && Listed(m, s)
    requires forall id | id in Current(s) :: exists i :: 0 <= i < |messages| && messages[i].id == id
    requires AreActive(messages, s) && Done(messages, |messages|, m, finish)
    ensures Shared(m, finish) == Expected(s, finish)
  {
    forall id | id in Expected(s, finish)
      ensures id in Current(s) && id in m
    {
      assert LiveActive(s, id);
      assert id in s.index && s.index[id] > s.now;
      assert id in Current(s);
      var i :| 0 <= i < |messages| && messages[i].id == id;
    }
    forall id | id in Shared(m, finish)
      ensures id in Expected(s, finish)
    {
      assert LiveActive(s, id);
    }
  }

  // ---- Agreement of replicas ------------------------------------------------------------------

  /** Time, pruning and unlisting: the overrides in the store stay as they are. */
  predicate IsStill(e: Event) {
    e.Tick? || e.Prune? || e.Unlist?
  }

  lemma {:induction false} StillKeepsActives(rules: Rules, events: seq<Event>, still: seq<Event>)
    requires forall e | e in still :: IsStill(e)
    ensures Run(rules, events + still).actives == Run(rules, events).actives
    decreases |still|
  {
    if still == [] {
      assert events + still == events;
    } else {
      var n := |still| - 1;
      StillKeepsActives(rules, events, still[..n]);
      RunAfter(rules, events + still[..n], still[n]);
      assert events + still == events + still[..n] + [still[n]];
      StillStep(rules, Run(rules, events + still[..n]), still[n]);
    }
  }

  lemma StillStep(rules: Rules, s: Store, e: Event)
    requires IsStill(e)
    ensures Step(rules, s, e).actives == s.actives
  {
  }

  /** What a pass leaves at its end decides what is left later. */
  lemma SharedLater(m: Overrides, s: Store, finish: int, later: int)
    requires KeysMatch(s) && s.now <= finish <= later && Shared(m, finish) == Expected(s, finish)
    ensures Shared(m, later) == map id | id in s.actives && NominalEnd(s.actives[id].message) > later ::
                                  Announced(s.actives[id].message)
  {
    var expected := map id | id in s.actives && NominalEnd(s.actives[id].message) > later ::
                      Announced(s.actives[id].message);
    forall id | id in Shared(m, later)
      ensures id in expected && Shared(m, later)[id] == expected[id]
    {
      assert id in Shared(m, finish) && Shared(m, finish)[id] == m[id];
    }
    forall id | id in expected
      ensures id in Shared(m, later)
    {
      assert id in Expected(s, finish) && Expected(s, finish)[id] == expected[id];
      assert id in Shared(m, finish) && m[id] == expected[id];
    }
  }

  /**
   Two replicas that reconciled after the last replica-wide change, each in its own pass at its own
   time, hold the same replica-wide overrides from then on, whatever each held before.
   */
  lemma ReplicasAgree(
    rules: Rules, events: seq<Event>, stillA: seq<Event>, stillB: seq<Event>, a: Overrides, b: Overrides,
    finishA: int, finishB: int, later: int)
    requires (forall e | e in stillA :: IsStill(e)) && (forall e | e in stillB :: IsStill(e))
    requires Run(rules, events + stillA).now <= finishA <= later && Run(rules, events + stillB).now <= finishB <= later
    requires Shared(a, finishA) == Expected(Run(rules, events + stillA), finishA)
    requires Shared(b, finishB) == Expected(Run(rules, events + stillB), finishB)
    ensures Shared(a, later) == Shared(b, later)
  {
    Invariant(rules, events + stillA);
    Invariant(rules, events + stillB);
    StillKeepsActives(rules, events, stillA);
    StillKeepsActives(rules, events, stillB);
    SharedLater(a, Run(rules, events + stillA), finishA, later);
    SharedLater(b, Run(rules, events + stillB), finishB, later);
  }

  // ---- Every reachable cluster ----------------------------------------------------------------

  datatype Cluster = Cluster(store: Store, replicas: seq<Overrides>)

  datatype ClusterEvent =
    | InStore(event: Event)
    | Joins
    | AtReplica(replica: nat, after: Overrides)

  /** Identifiers are drawn fresh: one that is reserved is on no replica yet. */
  ghost predicate IsFresh(c: Cluster, e: Event) {
    e.Reserve? ==> forall i | 0 <= i < |c.replicas| :: e.message.id !in c.replicas[i]
  }

  /** A store script, a new instance, or a local change of the kind every operation of an instance makes. */
  ghost function ClusterStep(rules: Rules, c: Cluster, e: ClusterEvent): Cluster {
    match e
    case InStore(event) => if IsFresh(c, event) then c.(store := Step(rules, c.store, event)) else c
    case Joins => c.(replicas := c.replicas + [map[]])
    case AtReplica(i, after) =>
      if i < |c.replicas| && Grows(c.replicas[i], after, c.store.known) then c.(replicas := c.replicas[i := after])
      else c
  }

  ghost function ClusterRun(rules: Rules, events: seq<ClusterEvent>): Cluster {
    if events == [] then Cluster(Run(rules, []), [])
    else ClusterStep(rules, ClusterRun(rules, events[..|events| - 1]), events[|events| - 1])
  }

  ghost predicate AllRemember(c: Cluster) {
    forall i | 0 <= i < |c.replicas| :: Remembers(c.replicas[i], c.store.known)
  }

  lemma KnownOnlyByReserve(rules: Rules, s: Store, e: Event)
    ensures var t := Step(rules, s, e);
            forall id | id in t.known ::
              (id in s.known && t.known[id] == s.known[id]) || (e.Reserve? && id == e.message.id)
  {
  }

  lemma ClusterStepRemembers(rules: Rules, c: Cluster, e: ClusterEvent)
    requires AllRemember(c)
    ensures AllRemember(ClusterStep(rules, c, e))
  {
    match e
    case InStore(event) =>
      KnownOnlyByReserve(rules, c.store, event);
    case Joins =>
    case AtReplica(i, after) =>
      if i < |c.replicas| && Grows(c.replicas[i], after, c.store.known) {
        GrowsKeeps(c.replicas[i], after, c.store.known);
      }
  }

  lemma ClusterStepConsistent(rules: Rules, c: Cluster, e: ClusterEvent)
    requires Consistent(rules, c.store)
    ensures Consistent(rules, ClusterStep(rules, c, e).store)
  {
    if e.InStore? && IsFresh(c, e.event) {
      StepConsistent(rules, c.store, e.event);
    }
  }

  /**
   In every reachable cluster the store is consistent and every replica holds, under any identifier the
   store has seen, what that message announced: a reconciliation pass may start at any moment.
   */
  lemma {:induction false} ReachableReplicasRemember(rules: Rules, events: seq<ClusterEvent>)
    ensures Consistent(rules, ClusterRun(rules, events).store) && AllRemember(ClusterRun(rules, events))
  {
    if events == [] {
      Invariant(rules, []);
    } else {
      var c := ClusterRun(rules, events[..|events| - 1]);
      ReachableReplicasRemember(rules, events[..|events| - 1]);
      ClusterStepConsistent(rules, c, events[|events| - 1]);
      ClusterStepRemembers(rules, c, events[|events| - 1]);
    }
  }

  // ---- One override on one side only ----------------------------------------------------------

  lemma Do(rules: Rules, past: seq<ClusterEvent>, e: ClusterEvent) returns (events: seq<ClusterEvent>)
    ensures ClusterRun(rules, events) == ClusterStep(rules, ClusterRun(rules, past), e)
  {
    events := past + [e];
    assert events[..|events| - 1] == past;
  }

  /** One instance, and one override just reserved. */
  lemma DoReserve(rules: Rules, message: Message) returns (events: seq<ClusterEvent>)
    requires rules.accepts(message) && 0 <= message.startedAt && message.request.seconds > 0 && rules.maximumItems > 0
    ensures var c := ClusterRun(rules, events);
            && c.replicas == [map[]] && c.store.known == map[message.id := message]
            && c.store.now == message.startedAt && message.id in c.store.actives
  {
    events := Do(rules, [], Joins);
    events := Do(rules, events, InStore(Tick(message.startedAt)));
    var s := ClusterRun(rules, events).store;
    assert s == Store(message.startedAt, map[], map[], map[], map[]);
    assert Pruned(s.index, message.startedAt) == map[];
    ReserveSucceeds(rules, s, message);
    events := Do(rules, events, InStore(Reserve(message)));
  }

  /**
   First case: another instance reverts the override between its reservation and its apply. `FinishApply`
   then applies it, and it stays on the instance alone until the next pass.
   */
  lemma RevertDuringApply(rules: Rules, o: Options, message: Message) returns (events: seq<ClusterEvent>)
    requires SameRules(rules, o) && rules.accepts(message) && message.request.seconds > 0 && rules.maximumItems > 0
    ensures var c := ClusterRun(rules, events);
            && c.replicas == [map[]] && c.store.known == map[message.id := message]
            && message.id !in c.store.actives
            && (forall removal, check :: Admits(o, Unexpired(c.replicas[0], removal), message.request, check))
    ensures var c := ClusterRun(rules, events);
            var d := ClusterStep(rules, c, AtReplica(0, map[message.id := Announced(message)]));
            message.id in d.replicas[0] && message.id !in d.store.actives
  {
    assert Genuine(o, message);
    events := DoReserve(rules, message);
    events := Do(rules, events, InStore(Remove(message.id)));
  }

  /**
   Second case: a pass applies the override on the issuing instance before its own apply. The apply then
   rejects it and takes the reservation back, and it stays on the instance alone until the next pass.
   */
  lemma PassDuringApply(rules: Rules, o: Options, message: Message) returns (events: seq<ClusterEvent>)
    requires SameRules(rules, o) && rules.accepts(message) && message.request.seconds > 0 && rules.maximumItems > 0
    ensures var c := ClusterRun(rules, events);
            && c.replicas == [map[message.id := Announced(message)]]
            && c.store.known == map[message.id := message] && message.id in c.store.actives
            && (forall removal, check | removal <= check < NominalEnd(message) ::
                  !Admits(o, Unexpired(c.replicas[0], removal), message.request, check))
    ensures var d := ClusterStep(rules, ClusterRun(rules, events), InStore(Remove(message.id)));
            message.id in d.replicas[0] && message.id !in d.store.actives
  {
    assert Genuine(o, message);
    events := DoReserve(rules, message);
    var held := map[message.id := Announced(message)];
    events := Do(rules, events, AtReplica(0, held));
    forall removal, check | removal <= check < NominalEnd(message)
      ensures !Admits(o, Unexpired(held, removal), message.request, check)
    {
      OwnOverrideConflicts(rules, o, held, message, removal, check);
    }
  }
}
