/**
 The log-level controller of one instance. Every method takes the clock reads it performs; the
 ghost field `clock` makes them non-decreasing over the life of the controller.
 */
module LogLevelController {
  import opened Text
  import opened LogLevels
  import opened DuplicateWindow

  datatype Outcome = Applied | Reverted | Expired

  datatype Entry = Entry(
    id: string, timestamp: int, category: string, previous: Level, next: Level, scope: string,
    expiresAt: int, outcome: Outcome)

  datatype Answer = Accepted(response: Override) | Existing(response: Override) | Rejected

  /** The entry records this override and what happened to it. */
  predicate Describes(entry: Entry, o: Override, outcome: Outcome) {
    && entry.id == o.id && entry.category == o.category && entry.scope == o.scope && entry.expiresAt == o.expiresAt
    && entry.outcome == outcome && (if outcome.Applied? then entry.next else entry.previous) == o.level
  }

  /** ... and its other level, the one before an application or after a removal, is that of the rest at `now`. */
  ghost predicate Records(
    entry: Entry, o: Override, outcome: Outcome, rest: Overrides, baseline: string -> Level, now: int)
  {
    && Describes(entry, o, outcome)
    && IsEffective(rest, baseline, o.category, now, if outcome.Applied? then entry.previous else entry.next)
  }

  /** Everything from `start` on is the expiry, at `now`, of an override of `m`. */
  ghost predicate OnlyExpiries(
    history: seq<Entry>, start: nat, end: nat, m: Overrides, baseline: string -> Level, now: int)
  {
    end <= |history| &&
    forall i | start <= i < end ::
      && history[i].id in m && history[i].timestamp == now
      && Records(history[i], m[history[i].id], Expired, Unexpired(m, now), baseline, now)
  }

  /** Of `m`, exactly the expired overrides outside `left` are gone. */
  ghost predicate IsExpiring(m: Overrides, current: Overrides, left: set<string>, now: int) {
    && left <= current.Keys <= m.Keys && (forall id | id in current :: current[id] == m[id])
    && forall id | id in m :: id in current <==> (id in left || m[id].expiresAt > now)
  }

  lemma ExpiringKeepsRest(m: Overrides, current: Overrides, left: set<string>, now: int)
    requires IsExpiring(m, current, left, now)
    ensures Unexpired(current, now) == Unexpired(m, now) == Unexpired(Unexpired(m, now), now)
  {
  }

  lemma OneExpiryMore(
    history: seq<Entry>, start: nat, m: Overrides, current: Overrides, left: set<string>, entry: Entry,
    baseline: string -> Level, now: int)
    requires OnlyExpiries(history, start, |history|, m, baseline, now) && IsExpiring(m, current, left, now)
    requires entry.id in m && entry.timestamp == now
    requires Records(entry, m[entry.id], Expired, current, baseline, now)
    ensures OnlyExpiries(history + [entry], start, |history| + 1, m, baseline, now)
  {
    ExpiringKeepsRest(m, current, left, now);
    EffectiveIgnoresExpired(current, Unexpired(m, now), baseline, entry.category, now, entry.next);
  }

  /** How many times the audit history says `id` was applied, less how often it was taken away. */
  ghost function Balance(history: seq<Entry>, id: string): int {
    if history == [] then 0
    else
      var last := history[|history| - 1];
      Balance(history[..|history| - 1], id)
      + if last.id != id then 0 else if last.outcome.Applied? then 1 else -1
  }

  ghost function Present(ids: set<string>, id: string): int {
    if id in ids then 1 else 0
  }

  /** Between two states, the audit entries of an identifier add up to its arrivals less its departures. */
  ghost predicate Settles(before: seq<Entry>, idsBefore: set<string>, after: seq<Entry>, idsAfter: set<string>) {
    forall id :: Balance(after, id) - Balance(before, id) == Present(idsAfter, id) - Present(idsBefore, id)
  }

  lemma Arrival(before: seq<Entry>, idsBefore: set<string>, after: seq<Entry>, idsAfter: set<string>, entry: Entry)
    requires Settles(before, idsBefore, after, idsAfter) && entry.outcome.Applied? && entry.id !in idsAfter
    ensures Settles(before, idsBefore, after + [entry], idsAfter + {entry.id})
  {
    assert (after + [entry])[..|after|] == after;
  }

  lemma Departure(before: seq<Entry>, idsBefore: set<string>, after: seq<Entry>, idsAfter: set<string>, entry: Entry)
    requires Settles(before, idsBefore, after, idsAfter) && !entry.outcome.Applied? && entry.id in idsAfter
    ensures Settles(before, idsBefore, after + [entry], idsAfter - {entry.id})
  {
    assert (after + [entry])[..|after|] == after;
  }

  /** An identifier set aside while others settle can be put back. */
  lemma SetAside(before: seq<Entry>, idsBefore: set<string>, after: seq<Entry>, idsAfter: set<string>, id: string)
    requires Settles(before, idsBefore - {id}, after, idsAfter) && id in idsBefore && id !in idsAfter
    ensures Settles(before, idsBefore, after, idsAfter + {id})
  {
  }

  lemma SettlesTwice(h0: seq<Entry>, m0: set<string>, h1: seq<Entry>, m1: set<string>, h2: seq<Entry>, m2: set<string>)
    requires Settles(h0, m0, h1, m1) && Settles(h1, m1, h2, m2)
    ensures Settles(h0, m0, h2, m2)
  {
  }

  ghost predicate IsSuffix(part: seq<Entry>, whole: seq<Entry>) {
    |part| <= |whole| && part == whole[|whole| - |part|..]
  }

  /** Admission keeps one unexpired override per category and scope. */
  lemma AcceptKeepsOnePerCategory(
    o: Options, m: Overrides, r: Request, id: string, startedAt: int, check: int, effective: int)
    requires Keyed(m) && OnePerCategory(m, effective) && Admits(o, m, r, check) && check <= effective
    ensures var accepted := Unexpired(m, effective)[id := Accept(r, id, startedAt)];
            Keyed(accepted) && OnePerCategory(accepted, effective)
  {
    var rest, active := Unexpired(m, effective), Accept(r, id, startedAt);
    forall other | other in rest
      ensures rest[other].category != active.category || rest[other].scope != active.scope
    {
      assert m[other].expiresAt > check;
    }
  }

  lemma LaterStillOne(m: Overrides, earlier: int, later: int)
    requires OnePerCategory(m, earlier) && earlier <= later
    ensures OnePerCategory(m, later)
  {
  }

  lemma UnexpiredLater(m: Overrides, earlier: int, later: int)
    requires earlier <= later
    ensures Unexpired(Unexpired(m, earlier), later) == Unexpired(m, later)
  {
  }

  /** `active` lists the overrides whose id is not in `remaining`, by end, and none that ends later than those. */
  ghost predicate IsPartialListing(active: seq<Override>, m: Overrides, remaining: set<string>) {
    && (forall i | 0 <= i < |active| ::
          active[i].id in m && active[i].id !in remaining && active[i] == m[active[i].id])
    && (forall i, j | 0 <= i < j < |active| ::
          active[i].id != active[j].id && active[i].expiresAt <= active[j].expiresAt)
    && (forall id | id in m && id !in remaining :: m[id] in active)
    && (forall i, id | 0 <= i < |active| && id in m && id in remaining :: active[i].expiresAt <= m[id].expiresAt)
  }

  ghost predicate IsListing(active: seq<Override>, m: Overrides) {
    IsPartialListing(active, m, {})
  }

  lemma ListOne(active: seq<Override>, m: Overrides, remaining: set<string>, id: string)
    requires Keyed(m) && IsPartialListing(active, m, remaining) && id in remaining && id in m
    requires forall other | other in remaining && other in m :: m[id].expiresAt <= m[other].expiresAt
    ensures IsPartialListing(active + [m[id]], m, remaining - {id})
  {
    var longer := active + [m[id]];
    forall other | other in m && other !in remaining - {id}
      ensures m[other] in longer
    {
      if other == id {
        assert longer[|active|] == m[id];
      }
    }
  }

  class Controller {
    const options: Options
    const baseline: string -> Level
    var overrides: Overrides
    var audit: seq<Entry>
    var pendingAudit: seq<Entry>
    ghost var history: seq<Entry>
    ghost var clock: int

    /** Retention: the visible audit is the newest part of the history, the unpersisted part a suffix. */
    ghost predicate Retains()
      reads this
    {
      && audit == Suffix(history, options.auditCapacity)
      && IsSuffix(pendingAudit, history) && |pendingAudit| <= options.auditCapacity
    }

    ghost predicate Valid()
      reads this
    {
      && Keyed(overrides) && OnePerCategory(overrides, clock) && Retains()
      && Settles([], {}, history, overrides.Keys)
    }

    constructor (options: Options, baseline: string -> Level)
      ensures Valid() && overrides == map[] && history == []
      ensures this.options == options && this.baseline == baseline
    {
      this.options := options;
      this.baseline := baseline;
      overrides, audit, pendingAudit, history, clock := map[], [], [], [], 0;
    }

    method AddAudit(entry: Entry)
      requires Retains()
      modifies `audit, `pendingAudit, `history
      ensures Retains() && history == old(history) + [entry]
    {
      history := history + [entry];
      audit := audit + [entry];
      pendingAudit := pendingAudit + [entry];
      while |pendingAudit| > options.auditCapacity
        invariant IsSuffix(pendingAudit, history)
        modifies `pendingAudit
      {
        pendingAudit := pendingAudit[1..];
      }
      while |audit| > options.auditCapacity
        invariant IsSuffix(audit, history)
        invariant |audit| < |history| ==> |audit| >= options.auditCapacity
        modifies `audit
      {
        audit := audit[1..];
      }
    }

    /** The first element of the sorted candidates, whatever order the dictionary enumerates. */
    method EffectiveLevelCore(category: string, now: int) returns (level: Level)
      ensures IsEffective(overrides, baseline, category, now, level)
    {
      var remaining := overrides.Keys;
      var best: Option<string> := None;
      while remaining != {}
        invariant remaining <= overrides.Keys
        invariant best.None? ==>
          forall id | id in overrides.Keys - remaining :: !Candidate(overrides, category, now, id)
        invariant best.Some? ==>
          && Candidate(overrides, category, now, best.value)
          && forall id | id in overrides.Keys - remaining && Candidate(overrides, category, now, id) ::
               !Better(overrides[id], overrides[best.value])
      {
        var id :| id in remaining;
        remaining := remaining - {id};
        if Candidate(overrides, category, now, id) && (best.None? || Better(overrides[id], overrides[best.value])) {
          best := Some(id);
        }
      }
      if best.Some? {
        assert Selected(overrides, category, now, best.value);
      }
      level := if best.Some? then overrides[best.value].level else baseline(category);
    }

    /** Each expired override leaves the dictionary with exactly one audit entry of its own. */
    method RemoveExpired(now: int)
      requires Keyed(overrides) && Retains()
      modifies `overrides, `audit, `pendingAudit, `history
      ensures overrides == Unexpired(old(overrides), now) && Keyed(overrides) && Retains()
      ensures old(history) <= history && Settles(old(history), old(overrides.Keys), history, overrides.Keys)
      ensures OnlyExpiries(history, |old(history)|, |history|, old(overrides), baseline, now)
    {
      var expired := set id | id in overrides && overrides[id].expiresAt <= now;
      while expired != {}
        invariant IsExpiring(old(overrides), overrides, expired, now)
        invariant Retains() && old(history) <= history
        invariant Settles(old(history), old(overrides.Keys), history, overrides.Keys)
        invariant OnlyExpiries(history, |old(history)|, |history|, old(overrides), baseline, now)
      {
        var id :| id in expired;
        expired := expired - {id};
        ghost var entries, ids := history, overrides.Keys;
        ExpireOne(id, now);
        Departure(old(history), old(overrides.Keys), entries, ids, history[|history| - 1]);
        OneExpiryMore(
          entries, |old(history)|, old(overrides), overrides, expired, history[|history| - 1], baseline, now);
      }
    }

    method ExpireOne(id: string, now: int)
      requires id in overrides && overrides[id].id == id && Retains()
      modifies `overrides, `audit, `pendingAudit, `history
      ensures overrides == old(overrides) - {id} && Retains()
      ensures |history| == |old(history)| + 1 && history == old(history) + [history[|old(history)|]]
      ensures history[|old(history)|].timestamp == now
      ensures Records(history[|old(history)|], old(overrides)[id], Expired, overrides, baseline, now)
    {
      var active := overrides[id];
      overrides := overrides - {id};
      var next := EffectiveLevelCore(active.category, now);
      AddAudit(Entry(id, now, active.category, active.level, next, active.scope, active.expiresAt, Expired));
    }

    method EffectiveLevel(category: string, now: int) returns (level: Level)
      requires Keyed(overrides) && Retains()
      modifies `overrides, `audit, `pendingAudit, `history
      ensures overrides == Unexpired(old(overrides), now) && Keyed(overrides) && Retains()
      ensures old(history) <= history && Settles(old(history), old(overrides.Keys), history, overrides.Keys)
      ensures OnlyExpiries(history, |old(history)|, |history|, old(overrides), baseline, now)
      ensures IsEffective(overrides, baseline, category, now, level)
    {
      RemoveExpired(now);
      level := EffectiveLevelCore(category, now);
    }

    /** Expiry on its own: the invariant holds again at `now`. */
    method Expire(now: int)
      requires Valid() && clock <= now
      modifies this
      ensures Valid() && clock == now && overrides == Unexpired(old(overrides), now)
    {
      clock := now;
      RemoveExpired(now);
      SettlesTwice([], {}, old(history), old(overrides.Keys), history, overrides.Keys);
    }

    method Soonest(ids: set<string>) returns (id: string)
      requires ids != {} && ids <= overrides.Keys
      ensures id in ids && forall other | other in ids :: overrides[id].expiresAt <= overrides[other].expiresAt
    {
      id :| id in ids;
      var remaining := ids - {id};
      while remaining != {}
        invariant id in ids && remaining <= ids
        invariant forall other | other in ids && other !in remaining ::
          overrides[id].expiresAt <= overrides[other].expiresAt
      {
        var other :| other in remaining;
        remaining := remaining - {other};
        if overrides[other].expiresAt < overrides[id].expiresAt {
          id := other;
        }
      }
    }

    /** Every unexpired override once, those that end first first. */
    method GetActive(now: int) returns (active: seq<Override>)
      requires Valid() && clock <= now
      modifies this
      ensures Valid() && clock == now && overrides == Unexpired(old(overrides), now)
      ensures IsListing(active, overrides)
    {
      Expire(now);
      active := [];
      var remaining := overrides.Keys;
      while remaining != {}
        invariant Valid() && clock == now && overrides == Unexpired(old(overrides), now)
        invariant remaining <= overrides.Keys && IsPartialListing(active, overrides, remaining)
      {
        var id := Soonest(remaining);
        ListOne(active, overrides, remaining, id);
        active := active + [overrides[id]];
        remaining := remaining - {id};
      }
    }

    method Contains(id: string, now: int) returns (found: bool)
      requires Valid() && clock <= now
      modifies this
      ensures Valid() && clock == now && overrides == Unexpired(old(overrides), now)
      ensures found <==> id in old(overrides) && old(overrides)[id].expiresAt > now
    {
      Expire(now);
      found := id in overrides;
    }

    /** Validation expires overrides at `removal` and looks for a conflict at `check`. */
    method TryValidate(request: Request, removal: int, check: int) returns (ok: bool)
      requires Valid() && clock <= removal <= check
      modifies this
      ensures Valid() && clock == check
      ensures overrides == if WellFormed(options, request) then Unexpired(old(overrides), removal) else old(overrides)
      ensures ok <==> Admits(options, Unexpired(old(overrides), removal), request, check)
    {
      clock := check;
      if !WellFormed(options, request) {
        return false;
      }
      RemoveExpired(removal);
      SettlesTwice([], {}, old(history), old(overrides.Keys), history, overrides.Keys);
      if request.scope == "instance" && |InstanceIds(overrides)| >= options.maximumItems {
        return false;
      }
      ok := !Conflicts(overrides, request, check);
    }

    /** The accepting half of `TryApply`. */
    method Insert(request: Request, id: string, startedAt: int, ghost check: int, effective: int)
      returns (response: Override)
      requires Valid() && clock == effective && check <= effective
      requires Admits(options, overrides, request, check) && id !in overrides
      modifies `overrides, `audit, `pendingAudit, `history
      ensures Valid() && response == Accept(request, id, startedAt)
      ensures overrides == Unexpired(old(overrides), effective)[id := response]
      ensures |history| > |old(history)|
      ensures Records(
        history[|history| - 1], response, Applied, Unexpired(old(overrides), effective), baseline, effective)
    {
      var active := Accept(request, id, startedAt);
      AcceptKeepsOnePerCategory(options, overrides, request, id, startedAt, check, effective);
      response := active;
      AddApplied(active, effective, Unexpired(overrides, effective)[id := active]);
    }

    /** Records and stores an override that is known to fit. */
    method AddApplied(active: Override, effective: int, ghost accepted: Overrides)
      requires Keyed(overrides) && Retains() && Settles([], {}, history, overrides.Keys)
      requires clock == effective && active.id !in overrides
      requires accepted == Unexpired(overrides, effective)[active.id := active]
      modifies `overrides, `audit, `pendingAudit, `history
      ensures Retains() && Settles([], {}, history, overrides.Keys) && overrides == accepted
      ensures |history| > |old(history)|
      ensures Records(
        history[|history| - 1], active, Applied, Unexpired(old(overrides), effective), baseline, effective)
    {
      var previous := EffectiveLevel(active.category, effective);
      SettlesTwice([], {}, old(history), old(overrides.Keys), history, overrides.Keys);
      var entry := Entry(
        active.id, active.startedAt, active.category, previous, active.level, active.scope, active.expiresAt, Applied);
      Arrival([], {}, history, overrides.Keys, entry);
      ghost var ids := overrides.Keys;
      overrides := overrides[active.id := active];
      assert overrides.Keys == ids + {active.id};
      AddAudit(entry);
    }

    /**
     `id` and `startedAt` are the caller's, or a fresh identifier and a clock read. An override is
     accepted exactly when the request is admitted and the identifier is not already present.
     */
    method TryApply(request: Request, id: string, startedAt: int, removal: int, check: int, effective: int)
      returns (answer: Answer)
      requires Valid() && clock <= removal <= check <= effective
      modifies this
      ensures Valid() && clock == effective
      ensures answer.Rejected? <==> !Admits(options, Unexpired(old(overrides), removal), request, check)
      ensures answer.Rejected? ==>
        overrides == if WellFormed(options, request) then Unexpired(old(overrides), removal) else old(overrides)
      ensures answer.Existing? ==>
        && overrides == Unexpired(old(overrides), removal)
        && id in overrides && answer.response == overrides[id]
      ensures answer.Accepted? ==>
        && id !in Unexpired(old(overrides), removal)
        && answer.response == Accept(request, id, startedAt)
        && overrides == Unexpired(old(overrides), effective)[id := answer.response]
        && history != []
        && Records(history[|history| - 1], answer.response, Applied, Unexpired(old(overrides), effective),
                   baseline, effective)
    {
      var ok := TryValidate(request, removal, check);
      LaterStillOne(overrides, clock, effective);
      clock := effective;
      if !ok {
        return Rejected;
      }
      if id in overrides {
        return Existing(overrides[id]);
      }
      var response := Insert(request, id, startedAt, check, effective);
      UnexpiredLater(old(overrides), removal, effective);
      answer := Accepted(response);
    }

    method Revert(id: string, now: int, effective: int) returns (removed: bool)
      requires Valid() && clock <= effective
      modifies this
      ensures Valid() && clock == effective
      ensures removed <==> id in old(overrides)
      ensures overrides == if removed then Unexpired(old(overrides) - {id}, effective) else old(overrides)
      ensures !removed ==> history == old(history)
      ensures removed ==>
        history != [] && Records(history[|history| - 1], old(overrides)[id], Reverted, overrides, baseline, effective)
    {
      clock := effective;
      if id !in overrides {
        return false;
      }
      var active := overrides[id];
      overrides := overrides - {id};
      var next := EffectiveLevel(active.category, effective);
      var entry := Entry(id, now, active.category, active.level, next, active.scope, active.expiresAt, Reverted);
      SetAside(old(history), old(overrides.Keys), history, overrides.Keys, id);
      SettlesTwice([], {}, old(history), old(overrides.Keys), history, overrides.Keys + {id});
      Departure([], {}, history, overrides.Keys + {id}, entry);
      assert overrides.Keys + {id} - {id} == overrides.Keys;
      AddAudit(entry);
      removed := true;
    }

    method MarkPendingAuditPersisted(persisted: Entry)
      requires Valid()
      modifies `pendingAudit
      ensures Valid()
      ensures pendingAudit == if old(pendingAudit) != [] && old(pendingAudit)[0] == persisted
                              then old(pendingAudit)[1..] else old(pendingAudit)
    {
      if pendingAudit != [] && pendingAudit[0] == persisted {
        pendingAudit := pendingAudit[1..];
      }
    }
  }
}
