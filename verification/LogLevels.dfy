/** Runtime log-level overrides of one gateway instance: validation, selection, expiry and audit. */
module LogLevels {
  import opened Text

  datatype Level = Trace | Debug | Information | Warning | Error | Critical

  /** `level` is `None` when the text does not name a usable level. Times are milliseconds. */
  datatype Request = Request(category: string, level: Option<Level>, seconds: int, reason: string, scope: string)

  datatype Override = Override(
    id: string, category: string, level: Level, scope: string, startedAt: int, expiresAt: int)

  type Overrides = map<string, Override>

  datatype Options = Options(
    allowlist: seq<string>, maximumItems: nat, minimumSeconds: int, maximumSeconds: int, auditCapacity: nat)

  ghost predicate Keyed(m: Overrides) {
    forall id | id in m :: m[id].id == id && (m[id].scope == "all" || m[id].scope == "instance")
  }

  function Unexpired(m: Overrides, now: int): Overrides {
    map id | id in m && m[id].expiresAt > now :: m[id]
  }

  /** At most one unexpired override per category and scope. */
  ghost predicate OnePerCategory(m: Overrides, now: int) {
    forall a, b | a in m && b in m && a != b && m[a].category == m[b].category && m[a].scope == m[b].scope ::
      m[a].expiresAt <= now || m[b].expiresAt <= now
  }

  // ---- Validation -----------------------------------------------------------------------------

  predicate Covers(configured: string, category: string) {
    configured == "*" || category == configured || configured + "." <= category
  }

  /** The category is the configured one, or goes on after it with a dot. */
  ghost predicate AtOrBelow(configured: string, category: string) {
    && |configured| <= |category| && (forall i | 0 <= i < |configured| :: category[i] == configured[i])
    && (|configured| < |category| ==> category[|configured|] == '.')
  }

  lemma DotFollows(configured: string, category: string)
    ensures configured + "." <= category
            <==> && |configured| < |category| && category[|configured|] == '.'
                 && forall i | 0 <= i < |configured| :: category[i] == configured[i]
  {
    if configured + "." <= category {
      assert forall i | 0 <= i < |configured| + 1 :: category[i] == (configured + ".")[i];
    }
  }

  lemma BelowHasSegments(configured: string, rest: string)
    ensures Split(configured, '.') <= Split(configured + "." + rest, '.')
  {
    SplitAround(configured, rest, '.');
  }

  lemma SegmentsAreBelow(configured: string, category: string)
    requires Split(configured, '.') <= Split(category, '.')
    ensures category == configured || configured + "." <= category
  {
    var a, b := Split(configured, '.'), Split(category, '.');
    JoinSplit(configured, '.');
    JoinSplit(category, '.');
    if |a| < |b| {
      JoinAround(a, b[|a|..], '.');
      assert b == a + b[|a|..];
    } else {
      assert b == a;
    }
  }

  /**
   What a configured category covers: every category for "*", otherwise those at or below it, which are
   those whose dotted names begin with its own.
   */
  lemma CoversExactly(configured: string, category: string)
    ensures configured == "*" ==> Covers(configured, category)
    ensures configured != "*" ==> (Covers(configured, category) <==> AtOrBelow(configured, category))
    ensures configured != "*" ==>
              (Covers(configured, category) <==> Split(configured, '.') <= Split(category, '.'))
  {
    DotFollows(configured, category);
    if configured + "." <= category {
      var rest := category[|configured| + 1..];
      assert category == configured + "." + rest;
      BelowHasSegments(configured, rest);
    }
    if Split(configured, '.') <= Split(category, '.') {
      SegmentsAreBelow(configured, category);
    }
    if |configured| == |category| && AtOrBelow(configured, category) {
      assert configured == category;
    }
  }

  /** The checks that do not look at the active overrides. */
  predicate WellFormed(o: Options, r: Request) {
    var category, reason := Trim(r.category, IsWhiteSpace), Trim(r.reason, IsWhiteSpace);
    && !IsBlank(r.category) && !IsBlank(r.reason) && !IsBlank(r.scope)
    && 1 <= |category| <= 128 && (exists i | 0 <= i < |o.allowlist| :: Covers(o.allowlist[i], category))
    && r.level.Some?
    && o.minimumSeconds <= r.seconds <= o.maximumSeconds
    && 3 <= |reason| <= 256
    && (r.scope == "all" || r.scope == "instance")
  }

  function InstanceIds(m: Overrides): set<string> {
    set id | id in m && m[id].scope == "instance"
  }

  predicate Conflicts(m: Overrides, r: Request, now: int) {
    exists id ::
      && id in m && m[id].category == Trim(r.category, IsWhiteSpace) && m[id].scope == r.scope
      && m[id].expiresAt > now
  }

  /** `TryValidateLocked` over the overrides left after expiry. */
  predicate Admits(o: Options, m: Overrides, r: Request, now: int) {
    && WellFormed(o, r)
    && (r.scope == "instance" ==> |InstanceIds(m)| < o.maximumItems)
    && !Conflicts(m, r, now)
  }

  function Accept(r: Request, id: string, startedAt: int): Override
    requires r.level.Some?
  {
    Override(id, Trim(r.category, IsWhiteSpace), r.level.value, r.scope, startedAt, startedAt + 1000 * r.seconds)
  }

  // ---- Selection ------------------------------------------------------------------------------

  predicate Candidate(m: Overrides, category: string, now: int, id: string) {
    id in m && m[id].expiresAt > now && Covers(m[id].category, category)
  }

  /** Longer categories first, then the instance scope. */
  predicate Better(a: Override, b: Override) {
    |a.category| > |b.category| || (|a.category| == |b.category| && a.scope == "instance" && b.scope != "instance")
  }

  ghost predicate Selected(m: Overrides, category: string, now: int, id: string) {
    Candidate(m, category, now, id) && forall other | Candidate(m, category, now, other) :: !Better(m[other], m[id])
  }

  /** What the category's level is: that of a selected override, or the baseline if none applies. */
  ghost predicate IsEffective(m: Overrides, baseline: string -> Level, category: string, now: int, level: Level) {
    && ((exists id :: Candidate(m, category, now, id)) ==>
          exists id :: Selected(m, category, now, id) && level == m[id].level)
    && ((forall id :: !Candidate(m, category, now, id)) ==> level == baseline(category))
  }

  /** Expired overrides make no difference. */
  lemma EffectiveIgnoresExpired(
    m: Overrides, n: Overrides, baseline: string -> Level, category: string, now: int, level: Level)
    requires Unexpired(m, now) == Unexpired(n, now) && IsEffective(m, baseline, category, now, level)
    ensures IsEffective(n, baseline, category, now, level)
  {
    forall id
      ensures Candidate(m, category, now, id) <==> Candidate(n, category, now, id)
      ensures Candidate(n, category, now, id) ==> m[id] == n[id]
    {
      assert id in Unexpired(m, now) <==> id in Unexpired(n, now);
      assert id in Unexpired(m, now) ==> m[id] == Unexpired(m, now)[id] == Unexpired(n, now)[id] == n[id];
    }
    if exists id :: Candidate(n, category, now, id) {
      var id :| Selected(m, category, now, id) && level == m[id].level;
      assert Selected(n, category, now, id);
    }
  }

  lemma CoversSameLength(a: string, b: string, category: string)
    requires Covers(a, category) && Covers(b, category) && |a| == |b| && a != "*" && b != "*"
    ensures a == b
  {
    assert a <= category by {
      if a + "." <= category {
        assert a == (a + ".")[..|a|];
      }
    }
    assert b <= category by {
      if b + "." <= category {
        assert b == (b + ".")[..|b|];
      }
    }
  }

  /** A tie between two selected overrides can only be between "*" and a one-character category. */
  lemma TieIsWildcard(m: Overrides, category: string, now: int, a: string, b: string)
    requires Keyed(m) && OnePerCategory(m, now)
    requires Selected(m, category, now, a) && Selected(m, category, now, b) && a != b
    ensures m[a].scope == m[b].scope && |m[a].category| == |m[b].category| == 1
    ensures m[a].category == "*" <==> m[b].category != "*"
  {
    if m[a].category != "*" && m[b].category != "*" {
      CoversSameLength(m[a].category, m[b].category, category);
    }
  }

  /** An unexpired override that applies to the category. */
  predicate Applies(m: Overrides, category: string, now: int, id: string, length: nat) {
    Candidate(m, category, now, id) && |m[id].category| == length
  }

  /**
   What a reader of the table would look for: "*" and a one-character category apply, in the same scope
   and with different levels, nothing longer applies, and nothing of that length is closer in scope.
   */
  ghost predicate Clash(m: Overrides, category: string, now: int) {
    && (forall id | Candidate(m, category, now, id) :: |m[id].category| <= 1)
    && exists star, single ::
         && Applies(m, category, now, star, 1) && Applies(m, category, now, single, 1)
         && m[star].category == "*" && m[single].category != "*"
         && m[star].scope == m[single].scope && m[star].level != m[single].level
         && (m[star].scope == "all" ==> forall id | Applies(m, category, now, id, 1) :: m[id].scope != "instance")
  }

  lemma TieIsClash(m: Overrides, category: string, now: int, a: string, b: string)
    requires Keyed(m) && OnePerCategory(m, now) && m.Keys >= {a, b} && m[a].level != m[b].level
    requires Selected(m, category, now, a) && Selected(m, category, now, b) && m[a].category == "*"
    ensures Clash(m, category, now)
  {
    TieIsWildcard(m, category, now, a, b);
    assert Applies(m, category, now, a, 1) && Applies(m, category, now, b, 1);
    forall id | Applies(m, category, now, id, 1) && m[a].scope == "all"
      ensures m[id].scope != "instance"
    {
      assert !Better(m[id], m[a]);
    }
  }

  lemma ClashIsTie(m: Overrides, category: string, now: int) returns (star: string, single: string)
    requires Keyed(m) && Clash(m, category, now)
    ensures Selected(m, category, now, star) && Selected(m, category, now, single) && m[star].level != m[single].level
  {
    star, single :|
      && Applies(m, category, now, star, 1) && Applies(m, category, now, single, 1)
      && m[star].category == "*" && m[single].category != "*"
      && m[star].scope == m[single].scope && m[star].level != m[single].level
      && (m[star].scope == "all" ==> forall id | Applies(m, category, now, id, 1) :: m[id].scope != "instance");
    forall id | Candidate(m, category, now, id)
      ensures !Better(m[id], m[star]) && !Better(m[id], m[single])
    {
      assert |m[id].category| == 1 ==> Applies(m, category, now, id, 1);
    }
  }

  /** The effective level is independent of the dictionary's order exactly when the table has no such clash. */
  lemma SelectionIsWellDefined(m: Overrides, category: string, now: int)
    requires Keyed(m) && OnePerCategory(m, now)
    ensures (forall a, b | Selected(m, category, now, a) && Selected(m, category, now, b) :: m[a].level == m[b].level)
            <==> !Clash(m, category, now)
  {
    forall a, b | Selected(m, category, now, a) && Selected(m, category, now, b) && m[a].level != m[b].level
      ensures Clash(m, category, now)
    {
      TieIsWildcard(m, category, now, a, b);
      if m[a].category == "*" {
        TieIsClash(m, category, now, a, b);
      } else {
        TieIsClash(m, category, now, b, a);
      }
    }
    if Clash(m, category, now) {
      var star, single := ClashIsTie(m, category, now);
    }
  }

  /** Without one-character categories other than "*", at most one override is selected. */
  lemma SelectionIsUnique(m: Overrides, category: string, now: int, a: string, b: string)
    requires Keyed(m) && OnePerCategory(m, now)
    requires forall id | id in m && |m[id].category| == 1 :: m[id].category == "*"
    requires Selected(m, category, now, a) && Selected(m, category, now, b)
    ensures a == b
  {
    if a != b {
      TieIsWildcard(m, category, now, a, b);
    }
  }

  /** The tie can be reached: with "*" allowed, both requests are admitted one after the other. */
  lemma WildcardTie(o: Options, low: Level, high: Level, seconds: int)
    requires low != high && o.allowlist == ["*"] && o.minimumSeconds <= seconds <= o.maximumSeconds && seconds > 0
    ensures var r, q := Request("*", Some(low), seconds, "tie", "all"), Request("R", Some(high), seconds, "tie", "all");
            var first := map["x" := Accept(r, "x", 0)];
            var m := first["y" := Accept(q, "y", 0)];
            && Admits(o, map[], r, 0) && Admits(o, first, q, 0) && Keyed(m) && OnePerCategory(m, 0)
            && Selected(m, "R", 0, "x") && Selected(m, "R", 0, "y") && m["x"].level != m["y"].level
  {
    TieAdmitted(o, "*", low, seconds);
    TieAdmitted(o, "R", high, seconds);
  }

  lemma TieAdmitted(o: Options, category: string, level: Level, seconds: int)
    requires o.allowlist == ["*"] && o.minimumSeconds <= seconds <= o.maximumSeconds
    requires |category| == 1 && !IsWhiteSpace(category[0])
    ensures WellFormed(o, Request(category, Some(level), seconds, "tie", "all"))
    ensures Trim(category, IsWhiteSpace) == category
  {
    TrimKeeps(category, IsWhiteSpace);
    TrimKeeps("tie", IsWhiteSpace);
    assert !IsWhiteSpace("tie"[0]) && !IsWhiteSpace("all"[0]);
    assert Covers(o.allowlist[0], category);
  }
}
