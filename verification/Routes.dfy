/**
 Route texts: the client-side value `RealtimeRoute` and the gateway's route authorizer.
 `char.IsLetterOrDigit` ranges over all of Unicode; it is a parameter `letter` here, about which
 only `Letters` is assumed.
 */
module Routes {
  import opened Text

  const MaximumRouteLength := 256
  const MaximumSegmentLength := 128

  /** What is used of `char.IsLetterOrDigit`: a letter or digit is neither a slash nor white space. */
  ghost predicate Letters(letter: char -> bool) {
    forall c | letter(c) :: c != '/' && !IsWhiteSpace(c)
  }

  datatype Route = Route(text: string, topic: string, userId: Option<string>)

  datatype RouteResult = Created(route: Route) | InvalidSegment | TooLong

  predicate SegmentCharacter(letter: char -> bool, c: char) {
    letter(c) || c == '-' || c == '_' || c == '.'
  }

  predicate IsValidSegment(letter: char -> bool, s: string) {
    && !IsBlank(s)
    && |s| <= MaximumSegmentLength
    && forall i | 0 <= i < |s| :: SegmentCharacter(letter, s[i])
  }

  function TopicText(topic: string): string {
    "topics/" + topic
  }

  function UserTopicText(userId: string, topic: string): string {
    "users/" + userId + "/topics/" + topic
  }

  function ForTopic(letter: char -> bool, topic: string): RouteResult {
    if IsValidSegment(letter, topic) then Created(Route(TopicText(topic), topic, None)) else InvalidSegment
  }

  function ForUserTopic(letter: char -> bool, userId: string, topic: string): RouteResult {
    if !IsValidSegment(letter, userId) || !IsValidSegment(letter, topic) then InvalidSegment
    else if |UserTopicText(userId, topic)| > MaximumRouteLength then TooLong
    else Created(Route(UserTopicText(userId, topic), topic, Some(userId)))
  }

  function TryParse(letter: char -> bool, text: Option<string>): Option<Route> {
    if text.None? || IsBlank(text.value) || |text.value| > MaximumRouteLength then None
    else
      var segments := Split(text.value, '/');
      if |segments| == 2 && segments[0] == "topics" && IsValidSegment(letter, segments[1]) then
        Some(Route(text.value, segments[1], None))
      else if |segments| == 4 && segments[0] == "users" && segments[2] == "topics" &&
              IsValidSegment(letter, segments[1]) && IsValidSegment(letter, segments[3]) then
        Some(Route(text.value, segments[3], Some(segments[1])))
      else None
  }

  lemma SegmentIsClean(letter: char -> bool, s: string)
    requires Letters(letter) && (forall i | 0 <= i < |s| :: SegmentCharacter(letter, s[i]))
    ensures '/' !in s && (forall c | c in s :: !IsWhiteSpace(c)) && Trim(s, IsWhiteSpace) == s
  {
    TrimKeeps(s, IsWhiteSpace);
  }

  lemma SplitTopic(topic: string)
    requires '/' !in topic
    ensures Split(TopicText(topic), '/') == ["topics", topic]
  {
    assert TopicText(topic) == "topics" + ['/'] + topic;
    SplitAfter("topics", topic, '/');
    SplitWhole(topic, '/');
  }

  lemma SplitUserTopic(userId: string, topic: string)
    requires '/' !in topic && '/' !in userId
    ensures Split(UserTopicText(userId, topic), '/') == ["users", userId, "topics", topic]
  {
    assert UserTopicText(userId, topic) == "users" + ['/'] + (userId + ['/'] + TopicText(topic));
    SplitAfter("users", userId + ['/'] + TopicText(topic), '/');
    SplitAfter(userId, TopicText(topic), '/');
    SplitTopic(topic);
  }

  /** Parsing the text of any route a factory builds gives that same route. */
  lemma FactoriesParse(letter: char -> bool, userId: string, topic: string)
    requires Letters(letter)
    ensures ForTopic(letter, topic).Created? ==>
              TryParse(letter, Some(ForTopic(letter, topic).route.text)) == Some(ForTopic(letter, topic).route)
    ensures ForUserTopic(letter, userId, topic).Created? ==>
              TryParse(letter, Some(ForUserTopic(letter, userId, topic).route.text))
              == Some(ForUserTopic(letter, userId, topic).route)
  {
    if IsValidSegment(letter, topic) {
      SegmentIsClean(letter, topic);
      SplitTopic(topic);
      assert TopicText(topic)[0] == 't';
      if IsValidSegment(letter, userId) {
        SegmentIsClean(letter, userId);
        SplitUserTopic(userId, topic);
        assert UserTopicText(userId, topic)[0] == 'u';
      }
    }
  }

  lemma JoinTwo(a: string, b: string)
    ensures Join([a, b], '/') == a + "/" + b
  {
    assert [a, b][1..] == [b];
  }

  lemma JoinFour(a: string, b: string, c: string, d: string)
    ensures Join([a, b, c, d], '/') == a + "/" + (b + "/" + (c + "/" + d))
  {
    JoinTwo(c, d);
    assert [b, c, d][1..] == [c, d];
    assert [a, b, c, d][1..] == [b, c, d];
  }

  lemma TwoParts(text: string)
    requires |Split(text, '/')| == 2
    ensures text == Split(text, '/')[0] + "/" + Split(text, '/')[1]
  {
    var segments := Split(text, '/');
    JoinSplit(text, '/');
    JoinTwo(segments[0], segments[1]);
    assert segments == [segments[0], segments[1]];
  }

  lemma FourParts(text: string)
    requires |Split(text, '/')| == 4
    ensures var s := Split(text, '/'); text == s[0] + "/" + (s[1] + "/" + (s[2] + "/" + s[3]))
  {
    var s := Split(text, '/');
    JoinSplit(text, '/');
    JoinFour(s[0], s[1], s[2], s[3]);
    assert s == [s[0], s[1], s[2], s[3]];
  }

  lemma Shapes(userId: string, topic: string)
    ensures "topics" + "/" + topic == TopicText(topic)
    ensures "users" + "/" + (userId + "/" + ("topics" + "/" + topic)) == UserTopicText(userId, topic)
  {
  }

  /** Whatever parses is exactly what one of the factories builds, under the parsed text. */
  lemma ParsedIsBuilt(letter: char -> bool, text: Option<string>)
    ensures var r := TryParse(letter, text);
            r.Some? ==>
              && text == Some(r.value.text)
              && match r.value.userId
                 case None => ForTopic(letter, r.value.topic) == Created(r.value)
                 case Some(u) => ForUserTopic(letter, u, r.value.topic) == Created(r.value)
  {
    if TryParse(letter, text).Some? {
      var segments := Split(text.value, '/');
      if |segments| == 2 {
        TwoParts(text.value);
        Shapes("", segments[1]);
      } else {
        FourParts(text.value);
        Shapes(segments[1], segments[3]);
      }
    }
  }

  // ---- The gateway's side -------------------------------------------------------------------

  datatype Identity = Identity(tenantId: string, userId: string, allowedTopics: seq<string>)

  datatype AuthorizedRoute = AuthorizedRoute(topic: string, userId: Option<string>)

  function SubscriptionKey(route: AuthorizedRoute): string {
    match route.userId
    case None => TopicText(route.topic)
    case Some(u) => UserTopicText(u, route.topic)
  }

  /** `StringSplitOptions.RemoveEmptyEntries | TrimEntries`. */
  function TrimmedEntries(pieces: seq<string>): seq<string> {
    if pieces == [] then []
    else
      var head := Trim(pieces[0], IsWhiteSpace);
      (if head == "" then [] else [head]) + TrimmedEntries(pieces[1..])
  }

  predicate IsSafeSegment(letter: char -> bool, s: string) {
    1 <= |s| <= MaximumSegmentLength && forall i | 0 <= i < |s| :: SegmentCharacter(letter, s[i])
  }

  /** The route a text names, before the identity is consulted. */
  function Resolve(letter: char -> bool, text: string): Option<AuthorizedRoute> {
    var segments := TrimmedEntries(Split(text, '/'));
    if |segments| == 2 && segments[0] == "topics" && IsSafeSegment(letter, segments[1]) then
      Some(AuthorizedRoute(segments[1], None))
    else if |segments| == 4 && segments[0] == "users" && segments[2] == "topics" &&
            IsSafeSegment(letter, segments[3]) then
      Some(AuthorizedRoute(segments[3], Some(segments[1])))
    else None
  }

  predicate TopicAllowed(identity: Identity, topic: string) {
    "*" in identity.allowedTopics || topic in identity.allowedTopics
  }

  function TryAuthorize(letter: char -> bool, identity: Identity, text: string): Option<AuthorizedRoute> {
    var route := Resolve(letter, text);
    if route.None? then None
    else if route.value.userId.Some? && route.value.userId.value != identity.userId then None
    else if !TopicAllowed(identity, route.value.topic) then None
    else route
  }

  lemma {:induction false} EntriesAreClean(pieces: seq<string>)
    requires forall i | 0 <= i < |pieces| :: '/' !in pieces[i]
    ensures forall e | e in TrimmedEntries(pieces) :: '/' !in e && e != "" && Trim(e, IsWhiteSpace) == e
  {
    if pieces != [] {
      TrimWithin(pieces[0], IsWhiteSpace);
      TrimTwice(pieces[0], IsWhiteSpace);
      EntriesAreClean(pieces[1..]);
    }
  }

  /** Entries that are already trimmed and non-empty are kept as they are. */
  lemma {:induction false} CleanEntriesKept(pieces: seq<string>)
    requires forall i | 0 <= i < |pieces| :: pieces[i] != "" && Trim(pieces[i], IsWhiteSpace) == pieces[i]
    ensures TrimmedEntries(pieces) == pieces
  {
    if pieces != [] {
      CleanEntriesKept(pieces[1..]);
    }
  }

  lemma TopicResolves(letter: char -> bool, topic: string)
    requires Letters(letter) && IsSafeSegment(letter, topic)
    ensures Resolve(letter, TopicText(topic)) == Some(AuthorizedRoute(topic, None))
  {
    SegmentIsClean(letter, topic);
    TrimKeeps("topics", IsWhiteSpace);
    SplitTopic(topic);
    CleanEntriesKept(["topics", topic]);
  }

  lemma UserTopicResolves(letter: char -> bool, userId: string, topic: string)
    requires Letters(letter) && IsSafeSegment(letter, topic)
    requires userId != "" && '/' !in userId && Trim(userId, IsWhiteSpace) == userId
    ensures Resolve(letter, UserTopicText(userId, topic)) == Some(AuthorizedRoute(topic, Some(userId)))
  {
    SegmentIsClean(letter, topic);
    TrimKeeps("topics", IsWhiteSpace);
    TrimKeeps("users", IsWhiteSpace);
    SplitUserTopic(userId, topic);
    CleanEntriesKept(["users", userId, "topics", topic]);
  }

  /** How the two key shapes resolve. */
  lemma ShapesResolve(letter: char -> bool, userId: string, topic: string)
    requires Letters(letter) && IsSafeSegment(letter, topic)
    ensures Resolve(letter, TopicText(topic)) == Some(AuthorizedRoute(topic, None))
    ensures userId != "" && '/' !in userId && Trim(userId, IsWhiteSpace) == userId ==>
              Resolve(letter, UserTopicText(userId, topic)) == Some(AuthorizedRoute(topic, Some(userId)))
  {
    TopicResolves(letter, topic);
    if userId != "" && '/' !in userId && Trim(userId, IsWhiteSpace) == userId {
      UserTopicResolves(letter, userId, topic);
    }
  }

  /** The parts of a resolved route hold no slash and need no trimming. */
  lemma ResolvedIsClean(letter: char -> bool, text: string)
    requires Letters(letter)
    ensures var r := Resolve(letter, text);
            r.Some? ==>
              && IsSafeSegment(letter, r.value.topic) && '/' !in r.value.topic
              && (r.value.userId.Some? ==>
                    && '/' !in r.value.userId.value && r.value.userId.value != ""
                    && Trim(r.value.userId.value, IsWhiteSpace) == r.value.userId.value)
  {
    EntriesAreClean(Split(text, '/'));
    var segments := TrimmedEntries(Split(text, '/'));
    if |segments| == 4 {
      assert segments[1] in segments && segments[3] in segments;
    } else if |segments| == 2 {
      assert segments[1] in segments;
    }
  }

  /**
   A key is the normal form of the route it came from: resolving the key gives the same route, so
   the key of a key is the key, and two texts resolve to the same route iff they have one key.
   */
  lemma KeyResolvesToItsRoute(letter: char -> bool, text: string)
    requires Letters(letter) && Resolve(letter, text).Some?
    ensures Resolve(letter, SubscriptionKey(Resolve(letter, text).value)) == Resolve(letter, text)
  {
    ResolvedIsClean(letter, text);
    var r := Resolve(letter, text).value;
    ShapesResolve(letter, if r.userId.Some? then r.userId.value else "", r.topic);
  }

  /** Subscription keys identify authorized routes: no two of them share a key. */
  lemma KeysAreInjective(letter: char -> bool, a: string, b: string)
    requires Letters(letter) && Resolve(letter, a).Some? && Resolve(letter, b).Some?
    ensures SubscriptionKey(Resolve(letter, a).value) == SubscriptionKey(Resolve(letter, b).value)
            <==> Resolve(letter, a) == Resolve(letter, b)
  {
    KeyResolvesToItsRoute(letter, a);
    KeyResolvesToItsRoute(letter, b);
  }

  /** A text is canonical when `RealtimeRoute` would accept it. */
  predicate Canonical(letter: char -> bool, text: string) {
    TryParse(letter, Some(text)).Some?
  }

  /** The authorizer reads a canonical route as the client wrote it: the key is the route text. */
  lemma CanonicalRouteIsItsKey(letter: char -> bool, text: string)
    requires Letters(letter) && Canonical(letter, text)
    ensures Resolve(letter, text) ==
            Some(AuthorizedRoute(TryParse(letter, Some(text)).value.topic,
                                 TryParse(letter, Some(text)).value.userId))
    ensures SubscriptionKey(Resolve(letter, text).value) == text
  {
    ParsedIsBuilt(letter, Some(text));
    var r := TryParse(letter, Some(text)).value;
    if r.userId.Some? {
      SegmentIsClean(letter, r.userId.value);
    }
    ShapesResolve(letter, if r.userId.Some? then r.userId.value else "", r.topic);
  }

  /** Every topic has a second spelling that the authorizer accepts and `RealtimeRoute` rejects. */
  lemma AliasedSpelling(letter: char -> bool, topic: string)
    requires Letters(letter) && IsValidSegment(letter, topic)
    ensures Canonical(letter, TopicText(topic)) && !Canonical(letter, TopicText("/" + topic))
    ensures Resolve(letter, TopicText("/" + topic)) == Resolve(letter, TopicText(topic))
            == Some(AuthorizedRoute(topic, None))
  {
    FactoriesParse(letter, topic, topic);
    ShapesResolve(letter, topic, topic);
    SegmentIsClean(letter, topic);
    AliasPieces(topic);
  }

  lemma AliasPieces(topic: string)
    requires topic != "" && '/' !in topic && Trim(topic, IsWhiteSpace) == topic
    ensures |Split(TopicText("/" + topic), '/')| == 3
    ensures TrimmedEntries(Split(TopicText("/" + topic), '/')) == ["topics", topic]
  {
    var t := "topics";
    TrimKeeps(t, IsWhiteSpace);
    DoubledSlash(t, topic);
    assert TopicText("/" + topic) == t + "//" + topic;
  }

  /** A doubled slash makes an empty entry, which is dropped. */
  lemma DoubledSlash(a: string, b: string)
    requires a != "" && '/' !in a && Trim(a, IsWhiteSpace) == a
    requires b != "" && '/' !in b && Trim(b, IsWhiteSpace) == b
    ensures Split(a + "//" + b, '/') == [a, "", b]
    ensures TrimmedEntries([a, "", b]) == [a, b]
  {
    assert a + "//" + b == a + ['/'] + ("" + ['/'] + b);
    SplitAfter(a, "" + ['/'] + b, '/');
    SplitAfter("", b, '/');
    SplitWhole(b, '/');
    CleanEntriesKept([b]);
    assert ["", b][1..] == [b];
    assert [a, "", b][1..] == ["", b];
  }

  // ---- What the client library and the authorizer let through ------------------------------------

  /** One to 128 letters, digits, hyphens, underscores or periods. */
  ghost predicate IsName(letter: char -> bool, s: string) {
    1 <= |s| <= 128 && forall c | c in s :: letter(c) || c in "-_."
  }

  lemma NamesAreSegments(letter: char -> bool, s: string)
    requires Letters(letter)
    ensures IsName(letter, s) <==> IsValidSegment(letter, s)
    ensures IsName(letter, s) <==> IsSafeSegment(letter, s)
  {
    assert forall c :: c in "-_." <==> c == '-' || c == '_' || c == '.';
    assert forall i | 0 <= i < |s| :: s[i] in s;
    if IsName(letter, s) {
      assert s[0] in s;
      assert !IsWhiteSpace(s[0]);
    }
  }

  /** The canonical texts: a topic route of a name, or a user's topic route of two names within 256 characters. */
  lemma CanonicalExactly(letter: char -> bool, text: string)
    requires Letters(letter)
    ensures Canonical(letter, text) <==>
            || (exists topic :: IsName(letter, topic) && text == "topics/" + topic)
            || (exists userId, topic :: && IsName(letter, userId) && IsName(letter, topic) && |text| <= 256
                                        && text == "users/" + userId + "/topics/" + topic)
  {
    if Canonical(letter, text) {
      ParsedIsBuilt(letter, Some(text));
      var r := TryParse(letter, Some(text)).value;
      NamesAreSegments(letter, r.topic);
      if r.userId.Some? {
        NamesAreSegments(letter, r.userId.value);
      }
    }
    forall topic | IsName(letter, topic) && text == "topics/" + topic
      ensures Canonical(letter, text)
    {
      NamesAreSegments(letter, topic);
      FactoriesParse(letter, topic, topic);
    }
    forall userId, topic | && IsName(letter, userId) && IsName(letter, topic) && |text| <= 256
                           && text == "users/" + userId + "/topics/" + topic
      ensures Canonical(letter, text)
    {
      NamesAreSegments(letter, userId);
      NamesAreSegments(letter, topic);
      FactoriesParse(letter, userId, topic);
    }
  }

  /** The text without empty entries and without white space around the others. */
  function Normalized(text: string): string {
    var entries := TrimmedEntries(Split(text, '/'));
    if entries == [] then "" else Join(entries, '/')
  }

  lemma NormalizedTwo(text: string, entries: seq<string>)
    requires entries == TrimmedEntries(Split(text, '/')) && |entries| == 2
    ensures Normalized(text) == entries[0] + "/" + entries[1]
  {
    JoinTwo(entries[0], entries[1]);
    assert entries == [entries[0], entries[1]];
  }

  lemma NormalizedFour(text: string, entries: seq<string>)
    requires entries == TrimmedEntries(Split(text, '/')) && |entries| == 4
    ensures Normalized(text) == entries[0] + "/" + (entries[1] + "/" + (entries[2] + "/" + entries[3]))
  {
    JoinFour(entries[0], entries[1], entries[2], entries[3]);
    assert entries == [entries[0], entries[1], entries[2], entries[3]];
  }

  /** The key of a route is its normalized text. */
  lemma KeyIsNormalized(letter: char -> bool, text: string)
    requires Resolve(letter, text).Some?
    ensures SubscriptionKey(Resolve(letter, text).value) == Normalized(text)
  {
    var entries := TrimmedEntries(Split(text, '/'));
    if |entries| == 2 {
      NormalizedTwo(text, entries);
      Shapes("", entries[1]);
    } else {
      NormalizedFour(text, entries);
      Shapes(entries[1], entries[3]);
    }
  }

  /**
   Who may use which text. Exactly the texts that normalize to a topic route of a name, or to such a
   route of the identity's own user, and only if the identity has the topic or all topics.
   */
  lemma AuthorizesExactly(letter: char -> bool, identity: Identity, text: string)
    requires Letters(letter)
    ensures TryAuthorize(letter, identity, text).Some? <==>
            exists topic ::
              && IsName(letter, topic) && (topic in identity.allowedTopics || "*" in identity.allowedTopics)
              && (|| Normalized(text) == "topics/" + topic
                  || (identity.userId != "" && '/' !in identity.userId
                      && Trim(identity.userId, IsWhiteSpace) == identity.userId
                      && Normalized(text) == "users/" + identity.userId + "/topics/" + topic))
    ensures TryAuthorize(letter, identity, text).Some? ==>
              SubscriptionKey(TryAuthorize(letter, identity, text).value) == Normalized(text)
  {
    if TryAuthorize(letter, identity, text).Some? {
      var r := Resolve(letter, text).value;
      KeyIsNormalized(letter, text);
      ResolvedIsClean(letter, text);
      NamesAreSegments(letter, r.topic);
    }
    forall topic | IsName(letter, topic) && Normalized(text) == "topics/" + topic
      ensures Resolve(letter, text) == Some(AuthorizedRoute(topic, None))
    {
      NamesAreSegments(letter, topic);
      SegmentIsClean(letter, topic);
      SplitTopic(topic);
      NormalizedEntries(text, ["topics", topic]);
    }
    forall topic | && IsName(letter, topic) && '/' !in identity.userId
                   && Normalized(text) == "users/" + identity.userId + "/topics/" + topic
      ensures Resolve(letter, text) == Some(AuthorizedRoute(topic, Some(identity.userId)))
    {
      NamesAreSegments(letter, topic);
      SegmentIsClean(letter, topic);
      SplitUserTopic(identity.userId, topic);
      NormalizedEntries(text, ["users", identity.userId, "topics", topic]);
    }
  }

  /** Splitting the normalized text gives the entries back. */
  lemma NormalizedEntries(text: string, pieces: seq<string>)
    requires Split(Normalized(text), '/') == pieces && |pieces| > 1
    ensures TrimmedEntries(Split(text, '/')) == pieces
  {
    var entries := TrimmedEntries(Split(text, '/'));
    EntriesAreClean(Split(text, '/'));
    if entries != [] {
      forall i | 0 <= i < |entries| ensures '/' !in entries[i] {
        assert entries[i] in entries;
      }
      SplitJoin(entries, '/');
    }
  }
}
