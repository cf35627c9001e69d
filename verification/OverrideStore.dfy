/**
 Replica-wide overrides in Redis: the reservation key of a category, the active key of an override
 and the index sorted by nominal end. Keys set with a lifetime are live while `now` is before their end.
 */
module OverrideStore {
  import opened Text
  import opened LogLevels

  datatype Message = Message(id: string, request: Request, actor: string, startedAt: int)

  datatype Held = Held(id: string, expiresAt: int)

  datatype Stored = Stored(message: Message, expiresAt: int)

  /** `known` remembers every identifier that ever reached the reservation script. */
  datatype Store = Store(
    now: int, reservations: map<string, Held>, actives: map<string, Stored>, index: map<string, int>,
    known: map<string, Message>)

  datatype Event =
    | Tick(elapsed: nat)
    | Reserve(message: Message)
    | Remove(id: string)
    | Prune(upTo: int)
    | Unlist(id: string)

  /** `accepts` is the validation every issuing instance performs before it reserves. */
  datatype Rules = Rules(accepts: Message -> bool, maximumItems: nat)

  /** The issuing instance trims the category before it uses it. */
  function Category(m: Message): string {
    m.request.category
  }

  function Lifetime(m: Message): int {
    1000 * m.request.seconds
  }

  /** The end the message itself announces, which is also its score in the index. */
  function NominalEnd(m: Message): int {
    m.startedAt + Lifetime(m)
  }

  predicate LiveActive(s: Store, id: string) {
    id in s.actives && s.actives[id].expiresAt > s.now
  }

  predicate LiveReservation(s: Store, category: string) {
    category in s.reservations && s.reservations[category].expiresAt > s.now
  }

  function Pruned(index: map<string, int>, upTo: int): map<string, int> {
    map id | id in index && index[id] > upTo :: index[id]
  }

  // ---- Scripts --------------------------------------------------------------------------------

  /** The reservation script, run at `now`, possibly after the `startedAt` its caller read. */
  function ReserveStep(rules: Rules, s: Store, m: Message): Store {
    var known := s.known[m.id := m];
    var index := Pruned(s.index, m.startedAt);
    if m.id in s.known || m.startedAt > s.now || !rules.accepts(m) || m.request.seconds <= 0 then s
    else if LiveReservation(s, Category(m)) then s.(known := known)
    else if |index| >= rules.maximumItems then s.(known := known, index := index)
    else
      s.(known := known,
         reservations := s.reservations[Category(m) := Held(m.id, s.now + Lifetime(m))],
         actives := s.actives[m.id := Stored(m, s.now + Lifetime(m))],
         index := index[m.id := NominalEnd(m)])
  }

  function RemoveStep(s: Store, id: string): Store {
    if id !in s.known then s
    else
      var category := Category(s.known[id]);
      s.(reservations := if category in s.reservations && s.reservations[category].id == id
                         then s.reservations - {category} else s.reservations,
         actives := s.actives - {id},
         index := s.index - {id})
  }

  function Step(rules: Rules, s: Store, e: Event): Store {
    match e
    case Tick(elapsed) => s.(now := s.now + elapsed)
    case Reserve(m) => ReserveStep(rules, s, m)
    case Remove(id) => RemoveStep(s, id)
    case Prune(upTo) => PruneStep(s, upTo)
    case Unlist(id) => UnlistStep(s, id)
  }

  function PruneStep(s: Store, upTo: int): Store {
    if upTo <= s.now then s.(index := Pruned(s.index, upTo)) else s
  }

  /** A reader that found no live key takes the identifier out of the index. */
  function UnlistStep(s: Store, id: string): Store {
    if LiveActive(s, id) then s else s.(index := s.index - {id})
  }

  function Run(rules: Rules, events: seq<Event>): Store {
    if events == [] then Store(0, map[], map[], map[], map[])
    else Step(rules, Run(rules, events[..|events| - 1]), events[|events| - 1])
  }

  // ---- Invariant ------------------------------------------------------------------------------

  ghost predicate KnownAccepted(rules: Rules, known: map<string, Message>) {
    forall id | id in known :: known[id].id == id && rules.accepts(known[id])
  }

  ghost predicate KeysMatch(s: Store) {
    forall id | id in s.actives ::
      && id in s.known && s.known[id] == s.actives[id].message
      && s.known[id].startedAt <= s.now && NominalEnd(s.known[id]) <= s.actives[id].expiresAt
  }

  ghost predicate ReservationsMatch(s: Store) {
    && (forall id | LiveActive(s, id) ::
          var stored := s.actives[id];
          Category(stored.message) in s.reservations
          && s.reservations[Category(stored.message)] == Held(id, stored.expiresAt))
    && (forall category | LiveReservation(s, category) ::
          var held := s.reservations[category];
          held.id in s.actives && s.actives[held.id].expiresAt == held.expiresAt
          && Category(s.actives[held.id].message) == category)
  }

  ghost predicate IndexMatches(s: Store) {
    && (forall id | id in s.index ::
          && id in s.known && s.index[id] == NominalEnd(s.known[id])
          && (s.index[id] > s.now ==> id in s.actives))
    && (forall id | LiveActive(s, id) && NominalEnd(s.actives[id].message) > s.now :: id in s.index)
  }

  ghost predicate Consistent(rules: Rules, s: Store) {
    && KnownAccepted(rules, s.known) && KeysMatch(s) && ReservationsMatch(s) && IndexMatches(s)
    && |s.index| <= rules.maximumItems
  }

  lemma {:induction false} MapSubset(a: map<string, int>, b: map<string, int>)
    requires a.Keys <= b.Keys
    ensures |a| <= |b|
    decreases |b|
  {
    if a.Keys != {} {
      var id :| id in a.Keys;
      MapSubset(a - {id}, b - {id});
      assert |a.Keys| == |(a - {id}).Keys| + 1 by {
        assert a.Keys == (a - {id}).Keys + {id};
      }
      assert |b.Keys| == |(b - {id}).Keys| + 1 by {
        assert b.Keys == (b - {id}).Keys + {id};
      }
      assert |a| == |a.Keys| && |b| == |b.Keys| && |a - {id}| == |(a - {id}).Keys| && |b - {id}| == |(b - {id}).Keys|;
    }
  }

  /** What a successful reservation changes. */
  ghost predicate IsReserved(s: Store, m: Message, t: Store) {
    && m.id !in s.known && m.startedAt <= s.now && !LiveReservation(s, Category(m)) && Lifetime(m) > 0
    && t.known == s.known[m.id := m] && t.now == s.now
    && t.reservations == s.reservations[Category(m) := Held(m.id, s.now + Lifetime(m))]
    && t.actives == s.actives[m.id := Stored(m, s.now + Lifetime(m))]
    && t.index == Pruned(s.index, m.startedAt)[m.id := NominalEnd(m)]
  }

  lemma ReservedReservations(s: Store, m: Message, t: Store)
    requires KeysMatch(s) && ReservationsMatch(s) && IsReserved(s, m, t)
    ensures ReservationsMatch(t)
  {
    forall id | LiveActive(t, id)
      ensures Category(t.actives[id].message) in t.reservations
      ensures t.reservations[Category(t.actives[id].message)] == Held(id, t.actives[id].expiresAt)
    {
      if id != m.id {
        assert LiveActive(s, id);
      }
    }
    forall category | LiveReservation(t, category)
      ensures t.reservations[category].id in t.actives
      ensures t.actives[t.reservations[category].id].expiresAt == t.reservations[category].expiresAt
      ensures Category(t.actives[t.reservations[category].id].message) == category
    {
      if category != Category(m) {
        assert LiveReservation(s, category);
      }
    }
  }

  lemma ReservedIndex(s: Store, m: Message, t: Store)
    requires KeysMatch(s) && IndexMatches(s) && IsReserved(s, m, t)
    ensures KeysMatch(t) && IndexMatches(t)
  {
    forall id | LiveActive(t, id) && id != m.id
      ensures LiveActive(s, id)
    {
    }
  }

  lemma KnownGrows(rules: Rules, known: map<string, Message>, m: Message)
    requires KnownAccepted(rules, known) && rules.accepts(m)
    ensures KnownAccepted(rules, known[m.id := m])
  {
  }

  /** Dropping index entries that are due, or learning of an identifier, changes nothing else. */
  lemma IndexShrinks(s: Store, t: Store)
    requires KeysMatch(s) && ReservationsMatch(s) && IndexMatches(s)
    requires t.actives == s.actives && t.reservations == s.reservations && t.now >= s.now
    requires forall id | id in s.known :: id in t.known && t.known[id] == s.known[id]
    requires forall id | id in t.index :: id in s.index && t.index[id] == s.index[id]
    requires forall id | id in s.index && id !in t.index :: s.index[id] <= t.now || !LiveActive(s, id)
    ensures KeysMatch(t) && ReservationsMatch(t) && IndexMatches(t) && |t.index| <= |s.index|
  {
    assert forall id | LiveActive(t, id) :: LiveActive(s, id);
    assert forall category | LiveReservation(t, category) :: LiveReservation(s, category);
    MapSubset(t.index, s.index);
  }

  lemma Refused(rules: Rules, s: Store, t: Store, m: Message)
    requires Consistent(rules, s) && rules.accepts(m) && m.id !in s.known && m.startedAt <= s.now
    requires t == s.(known := s.known[m.id := m], index := t.index)
    requires t.index == s.index || t.index == Pruned(s.index, m.startedAt)
    ensures Consistent(rules, t)
  {
    KnownGrows(rules, s.known, m);
    IndexShrinks(s, t);
  }

  lemma StepReserve(rules: Rules, s: Store, m: Message)
    requires Consistent(rules, s)
    ensures Consistent(rules, ReserveStep(rules, s, m))
  {
    var index := Pruned(s.index, m.startedAt);
    if m.id in s.known || m.startedAt > s.now || !rules.accepts(m) || m.request.seconds <= 0 {
    } else if LiveReservation(s, Category(m)) || |index| >= rules.maximumItems {
      Refused(rules, s, ReserveStep(rules, s, m), m);
    } else {
      ReserveSucceeds(rules, s, m);
      Reserved(rules, s, ReserveStep(rules, s, m), m);
      OneMore(index, m.id, NominalEnd(m));
    }
  }

  lemma OneMore(index: map<string, int>, id: string, score: int)
    ensures |index[id := score]| <= |index| + 1
  {
  }

  lemma ReserveSucceeds(rules: Rules, s: Store, m: Message)
    requires m.id !in s.known && m.startedAt <= s.now && rules.accepts(m) && m.request.seconds > 0
    requires !LiveReservation(s, Category(m)) && |Pruned(s.index, m.startedAt)| < rules.maximumItems
    ensures ReserveStep(rules, s, m)
            == Store(s.now, s.reservations[Category(m) := Held(m.id, s.now + Lifetime(m))],
                     s.actives[m.id := Stored(m, s.now + Lifetime(m))],
                     Pruned(s.index, m.startedAt)[m.id := NominalEnd(m)], s.known[m.id := m])
  {
  }

  lemma Reserved(rules: Rules, s: Store, t: Store, m: Message)
    requires Consistent(rules, s) && rules.accepts(m) && IsReserved(s, m, t)
    ensures KnownAccepted(rules, t.known) && KeysMatch(t) && ReservationsMatch(t) && IndexMatches(t)
  {
    KnownGrows(rules, s.known, m);
    ReservedReservations(s, m, t);
    ReservedIndex(s, m, t);
  }

  lemma RemovedReservations(s: Store, id: string)
    requires KeysMatch(s) && ReservationsMatch(s)
    ensures ReservationsMatch(RemoveStep(s, id))
  {
    var t := RemoveStep(s, id);
    assert forall other | LiveActive(t, other) :: LiveActive(s, other);
    assert forall category | LiveReservation(t, category) :: LiveReservation(s, category);
  }

  lemma RemovedIndex(s: Store, id: string)
    requires KeysMatch(s) && IndexMatches(s)
    ensures KeysMatch(RemoveStep(s, id)) && IndexMatches(RemoveStep(s, id))
  {
    assert forall other | LiveActive(RemoveStep(s, id), other) :: LiveActive(s, other);
  }

  lemma StepRemove(rules: Rules, s: Store, id: string)
    requires Consistent(rules, s)
    ensures Consistent(rules, RemoveStep(s, id))
  {
    RemovedReservations(s, id);
    RemovedIndex(s, id);
    MapSubset(RemoveStep(s, id).index, s.index);
  }

  lemma StepTick(rules: Rules, s: Store, elapsed: nat)
    requires Consistent(rules, s)
    ensures Consistent(rules, s.(now := s.now + elapsed))
  {
    IndexShrinks(s, s.(now := s.now + elapsed));
  }

  lemma StepPrune(rules: Rules, s: Store, upTo: int)
    requires Consistent(rules, s)
    ensures Consistent(rules, PruneStep(s, upTo))
  {
    if upTo <= s.now {
      IndexShrinks(s, s.(index := Pruned(s.index, upTo)));
    }
  }

  lemma StepUnlist(rules: Rules, s: Store, id: string)
    requires Consistent(rules, s)
    ensures Consistent(rules, UnlistStep(s, id))
  {
    if !LiveActive(s, id) {
      IndexShrinks(s, s.(index := s.index - {id}));
    }
  }

  lemma StepConsistent(rules: Rules, s: Store, e: Event)
    requires Consistent(rules, s)
    ensures Consistent(rules, Step(rules, s, e))
  {
    if e.Reserve? {
      StepReserve(rules, s, e.message);
    } else if e.Remove? {
      StepRemove(rules, s, e.id);
    } else if e.Tick? {
      StepTick(rules, s, e.elapsed);
    } else if e.Prune? {
      StepPrune(rules, s, e.upTo);
    } else {
      StepUnlist(rules, s, e.id);
    }
  }

  lemma {:induction false} Invariant(rules: Rules, events: seq<Event>)
    ensures Consistent(rules, Run(rules, events))
  {
    if events != [] {
      Invariant(rules, events[..|events| - 1]);
      StepConsistent(rules, Run(rules, events[..|events| - 1]), events[|events| - 1]);
    }
  }

  // ---- Results --------------------------------------------------------------------------------

  /** What a reconciling replica finds: indexed identifiers whose nominal end is still ahead. */
  function Current(s: Store): set<string> {
    set id | id in s.index && s.index[id] > s.now
  }

  function Live(s: Store): set<string> {
    set id | id in s.actives && s.actives[id].expiresAt > s.now
  }

  /** Live although past their own nominal end, because their script ran after `startedAt`. */
  function Overstayed(s: Store): set<string> {
    set id | id in s.actives && s.actives[id].expiresAt > s.now >= NominalEnd(s.actives[id].message)
  }

  /** In every run, a category has a live reservation exactly when one override of it is live. */
  lemma OneLivePerCategory(rules: Rules, events: seq<Event>)
    ensures var s := Run(rules, events);
            && (forall a, b | LiveActive(s, a) && LiveActive(s, b)
                              && Category(s.actives[a].message) == Category(s.actives[b].message) :: a == b)
            && (forall category :: LiveReservation(s, category) <==>
                  exists id :: LiveActive(s, id) && Category(s.actives[id].message) == category)
  {
    Invariant(rules, events);
    var s := Run(rules, events);
    forall category | LiveReservation(s, category)
      ensures exists id :: LiveActive(s, id) && Category(s.actives[id].message) == category
    {
      assert LiveActive(s, s.reservations[category].id);
    }
  }

  /** In every run, the index shows exactly the live overrides that have not reached their nominal end. */
  lemma IndexShowsTheLive(rules: Rules, events: seq<Event>)
    ensures var s := Run(rules, events);
            && Live(s) == Current(s) + Overstayed(s) && Current(s) !! Overstayed(s)
            && |Current(s)| <= rules.maximumItems
  {
    Invariant(rules, events);
    LiveSplits(Run(rules, events));
    CurrentIsBounded(Run(rules, events));
  }

  lemma LiveSplits(s: Store)
    requires KeysMatch(s) && IndexMatches(s)
    ensures Live(s) == Current(s) + Overstayed(s) && Current(s) !! Overstayed(s)
  {
    forall id
      ensures id in Live(s) <==> id in Current(s) || id in Overstayed(s)
    {
      assert id in Live(s) <==> LiveActive(s, id);
    }
  }

  lemma CurrentIsBounded(s: Store)
    ensures |Current(s)| <= |s.index|
  {
    MapSubset(Pruned(s.index, s.now), s.index);
    assert Current(s) == Pruned(s.index, s.now).Keys;
    assert |Pruned(s.index, s.now).Keys| == |Pruned(s.index, s.now)|;
  }

  /** The override has a live key that ends a lifetime from now. */
  ghost predicate IsLiveFor(s: Store, m: Message) {
    LiveActive(s, m.id) && s.actives[m.id] == Stored(m, s.now + Lifetime(m))
  }

  ghost predicate OthersKept(s: Store, t: Store, id: string) {
    forall other | other != id :: (other in t.actives <==> other in s.actives)
                                  && (other in s.actives ==> t.actives[other] == s.actives[other])
  }

  /**
   In every run a new, accepted message gets a live key for its whole lifetime exactly if no live override
   has its category and fewer than the limit are listed that end after its start. No other key is touched,
   and unless the category was taken nothing that had ended by then stays listed.
   */
  lemma ReservedIff(rules: Rules, events: seq<Event>, m: Message)
    requires var s := Run(rules, events);
             m.id !in s.known && m.startedAt <= s.now && rules.accepts(m) && m.request.seconds > 0
    ensures var s, t := Run(rules, events), Step(rules, Run(rules, events), Reserve(m));
            var taken := exists id :: LiveActive(s, id) && Category(s.actives[id].message) == Category(m);
            && (IsLiveFor(t, m) <==> !taken && |Pruned(s.index, m.startedAt)| < rules.maximumItems)
            && (!IsLiveFor(t, m) ==> t.actives == s.actives && t.reservations == s.reservations)
            && OthersKept(s, t, m.id)
            && (!taken ==> forall id | id in t.index && id != m.id :: t.index[id] > m.startedAt)
  {
    OneLivePerCategory(rules, events);
    Invariant(rules, events);
    var s := Run(rules, events);
    assert m.id !in s.actives;
    if !LiveReservation(s, Category(m)) && |Pruned(s.index, m.startedAt)| < rules.maximumItems {
      ReserveSucceeds(rules, s, m);
    }
  }

  /** In every run a removal takes away its key, its reservation and its place in the index, and nothing else. */
  lemma RemovedExactly(rules: Rules, events: seq<Event>, id: string)
    ensures var s, t := Run(rules, events), Step(rules, Run(rules, events), Remove(id));
            && id !in t.actives && OthersKept(s, t, id)
            && (forall other :: other in t.index <==> other in s.index && other != id)
            && (forall category :: LiveReservation(t, category) <==>
                  LiveReservation(s, category) && s.reservations[category].id != id)
  {
    Invariant(rules, events);
  }

  lemma PruneHidesNothing(s: Store, upTo: int)
    requires upTo <= s.now
    ensures var t := PruneStep(s, upTo);
            && Current(t) == Current(s) && Live(t) == Live(s)
            && (forall id :: id in t.index <==> id in s.index && s.index[id] > upTo)
  {
  }

  lemma UnlistHidesNothing(s: Store, id: string)
    requires KeysMatch(s) && IndexMatches(s)
    ensures var t := UnlistStep(s, id);
            && Current(t) == Current(s) && Live(t) == Live(s) && (id in t.index ==> LiveActive(s, id))
            && (forall other | other != id :: other in t.index <==> other in s.index)
  {
    assert id in Current(s) ==> LiveActive(s, id);
  }

  /** In every run, pruning up to now and unlisting what has no live key drop just that and hide no current override. */
  lemma CleaningIsInvisible(rules: Rules, events: seq<Event>, upTo: int, id: string)
    requires upTo <= Run(rules, events).now
    ensures var s := Run(rules, events);
            var pruned, unlisted := Step(rules, s, Prune(upTo)), Step(rules, s, Unlist(id));
            && Current(pruned) == Current(unlisted) == Current(s) && Live(pruned) == Live(unlisted) == Live(s)
            && (forall other :: other in pruned.index <==> other in s.index && s.index[other] > upTo)
            && (id in unlisted.index ==> LiveActive(s, id))
            && (forall other | other != id :: other in unlisted.index <==> other in s.index)
  {
    Invariant(rules, events);
    PruneHidesNothing(Run(rules, events), upTo);
    UnlistHidesNothing(Run(rules, events), id);
  }

  /** Every reservation script of the run starts at most `delay` after its caller read the clock. */
  ghost predicate Within(rules: Rules, events: seq<Event>, delay: nat) {
    forall i | 0 <= i < |events| && events[i].Reserve? ::
      Run(rules, events[..i]).now <= events[i].message.startedAt + delay
  }

  lemma WithinPast(rules: Rules, events: seq<Event>, delay: nat)
    requires events != [] && Within(rules, events, delay)
    ensures Within(rules, events[..|events| - 1], delay)
  {
    var past := events[..|events| - 1];
    assert forall i | 0 <= i < |past| :: past[..i] == events[..i] && past[i] == events[i];
  }

  ghost predicate EndsBy(s: Store, id: string, delay: nat)
    requires id in s.actives
  {
    s.actives[id].expiresAt <= NominalEnd(s.actives[id].message) + delay
  }

  lemma EndsByStep(rules: Rules, s: Store, e: Event, id: string, delay: nat)
    requires id in Step(rules, s, e).actives && (id in s.actives ==> EndsBy(s, id, delay))
    requires e.Reserve? ==> s.now <= e.message.startedAt + delay
    ensures EndsBy(Step(rules, s, e), id, delay)
  {
  }

  lemma {:induction false} EndsWithin(rules: Rules, events: seq<Event>, delay: nat, id: string)
    requires Within(rules, events, delay) && id in Run(rules, events).actives
    ensures EndsBy(Run(rules, events), id, delay)
  {
    if events != [] {
      var past := events[..|events| - 1];
      WithinPast(rules, events, delay);
      if id in Run(rules, past).actives {
        EndsWithin(rules, past, delay, id);
      }
      EndsByStep(rules, Run(rules, past), events[|events| - 1], id, delay);
    }
  }

  /** A stored override is between its nominal end and `delay` later. */
  predicate InGrace(s: Store, id: string, delay: nat) {
    id in s.actives && NominalEnd(s.actives[id].message) <= s.now < NominalEnd(s.actives[id].message) + delay
  }

  /**
   When no script runs more than `delay` after its start, an override overstays only within `delay` of its
   nominal end, and the limit holds whenever no stored override is in that interval; with no delay it
   always holds. The bound is met in any case up to the overrides that overstay.
   */
  lemma LimitHolds(rules: Rules, events: seq<Event>, delay: nat)
    requires Within(rules, events, delay)
    ensures var s := Run(rules, events);
            && |Live(s)| <= rules.maximumItems + |Overstayed(s)|
            && (forall id | id in Overstayed(s) :: InGrace(s, id, delay))
            && ((forall id | id in s.actives :: !InGrace(s, id, delay)) ==> |Live(s)| <= rules.maximumItems)
            && (delay == 0 ==> |Live(s)| <= rules.maximumItems)
  {
    var s := Run(rules, events);
    IndexShowsTheLive(rules, events);
    forall id | id in Overstayed(s)
      ensures InGrace(s, id, delay)
    {
      EndsWithin(rules, events, delay, id);
    }
    if (forall id | id in s.actives :: !InGrace(s, id, delay)) || delay == 0 {
      assert Overstayed(s) == {};
    }
  }

  // ---- Late scripts ---------------------------------------------------------------------------

  lemma RunAfter(rules: Rules, events: seq<Event>, e: Event)
    ensures Run(rules, events + [e]) == Step(rules, Run(rules, events), e)
  {
    assert (events + [e])[..|events|] == events;
  }

  /**
   Messages of different names and categories: all but the last start at zero and have the same
   lifetime, the last starts at the nominal end of the others.
   */
  ghost predicate Batch(rules: Rules, messages: seq<Message>, lifetime: int) {
    && messages != []
    && (forall i | 0 <= i < |messages| ::
          && rules.accepts(messages[i]) && messages[i].request.seconds > 0
          && (i < |messages| - 1 ==> messages[i].startedAt == 0 && Lifetime(messages[i]) == lifetime))
    && messages[|messages| - 1].startedAt == lifetime
    && (forall i, j | 0 <= i < j < |messages| ::
          messages[i].id != messages[j].id && Category(messages[i]) != Category(messages[j]))
  }

  /** The first `k` messages were reserved `delay` late, the others are new to the store. */
  ghost predicate Filled(s: Store, messages: seq<Message>, k: nat, lifetime: int, delay: nat)
    requires k <= |messages|
  {
    && s.now == delay
    && (forall i | 0 <= i < k ::
          messages[i].id in s.actives && s.actives[messages[i].id] == Stored(messages[i], delay + lifetime))
    && (forall i | k <= i < |messages| :: messages[i].id !in s.known && Category(messages[i]) !in s.reservations)
    && (forall id | id in s.index :: s.index[id] == lifetime) && |s.index| <= k
  }

  lemma FillOne(rules: Rules, s: Store, messages: seq<Message>, k: nat, lifetime: int, delay: nat)
    requires Batch(rules, messages, lifetime) && k < |messages| - 1 && k < rules.maximumItems && lifetime > 0
    requires Filled(s, messages, k, lifetime, delay)
    ensures Filled(ReserveStep(rules, s, messages[k]), messages, k + 1, lifetime, delay)
  {
    var m := messages[k];
    var index := Pruned(s.index, m.startedAt);
    MapSubset(index, s.index);
    ReserveSucceeds(rules, s, m);
    FilledMore(s, ReserveStep(rules, s, m), messages, k, lifetime, delay, index);
  }

  lemma FilledMore(
    s: Store, t: Store, messages: seq<Message>, k: nat, lifetime: int, delay: nat, index: map<string, int>)
    requires k < |messages| && Filled(s, messages, k, lifetime, delay)
    requires messages[k].startedAt == 0 && Lifetime(messages[k]) == lifetime
    requires forall i | 0 <= i < |messages| && i != k ::
               messages[i].id != messages[k].id && Category(messages[i]) != Category(messages[k])
    requires index == Pruned(s.index, 0) && |index| <= |s.index|
    requires var m := messages[k];
             t == Store(s.now, s.reservations[Category(m) := Held(m.id, s.now + Lifetime(m))],
                        s.actives[m.id := Stored(m, s.now + Lifetime(m))],
                        index[m.id := NominalEnd(m)], s.known[m.id := m])
    ensures Filled(t, messages, k + 1, lifetime, delay)
  {
    assert |t.index| <= |index| + 1;
  }

  lemma {:induction false} FillAll(rules: Rules, messages: seq<Message>, k: nat, lifetime: int, delay: nat)
    returns (events: seq<Event>)
    requires Batch(rules, messages, lifetime) && k < |messages| && k <= rules.maximumItems && lifetime > 0
    ensures Filled(Run(rules, events), messages, k, lifetime, delay)
  {
    if k == 0 {
      events := FillNone(rules, messages, lifetime, delay);
    } else {
      events := FillAll(rules, messages, k - 1, lifetime, delay);
      events := FillNext(rules, events, messages, k - 1, lifetime, delay);
    }
  }

  lemma FillNext(rules: Rules, past: seq<Event>, messages: seq<Message>, k: nat, lifetime: int, delay: nat)
    returns (events: seq<Event>)
    requires Batch(rules, messages, lifetime) && k < |messages| - 1 && k < rules.maximumItems && lifetime > 0
    requires Filled(Run(rules, past), messages, k, lifetime, delay)
    ensures Filled(Run(rules, events), messages, k + 1, lifetime, delay)
  {
    FillOne(rules, Run(rules, past), messages, k, lifetime, delay);
    RunAfter(rules, past, Reserve(messages[k]));
    events := past + [Reserve(messages[k])];
  }

  lemma FillNone(rules: Rules, messages: seq<Message>, lifetime: int, delay: nat) returns (events: seq<Event>)
    ensures Filled(Run(rules, events), messages, 0, lifetime, delay)
  {
    events := [Tick(delay)];
    assert events[..0] == [];
    assert Run(rules, events) == Store(delay, map[], map[], map[], map[]);
  }

  /** Different names that are all in a set make it at least as large. */
  lemma {:induction false} AllIn(messages: seq<Message>, ids: set<string>)
    requires forall i, j | 0 <= i < j < |messages| :: messages[i].id != messages[j].id
    requires forall i | 0 <= i < |messages| :: messages[i].id in ids
    ensures |messages| <= |ids|
  {
    if messages != [] {
      var n := |messages| - 1;
      AllIn(messages[..n], ids - {messages[n].id});
    }
  }

  lemma AcceptsOneMore(rules: Rules, s: Store, messages: seq<Message>, lifetime: int, delay: nat)
    requires Batch(rules, messages, lifetime) && |messages| == rules.maximumItems + 1 && 0 < delay < lifetime
    requires rules.maximumItems > 0 && Filled(s, messages, |messages| - 1, lifetime, delay)
    ensures |Live(ReserveStep(rules, s.(now := lifetime), messages[|messages| - 1]))| > rules.maximumItems
  {
    var due, last := s.(now := lifetime), messages[|messages| - 1];
    assert Pruned(due.index, last.startedAt) == map[];
    ReserveSucceeds(rules, due, last);
    AllIn(messages, Live(ReserveStep(rules, due, last)));
  }

  /**
   Whatever the limit: if as many scripts as it allows run late, one more is accepted at their nominal
   end while all of them are still live.
   */
  lemma LateScriptExceedsLimit(rules: Rules, messages: seq<Message>, lifetime: int, delay: nat)
    returns (events: seq<Event>)
    requires Batch(rules, messages, lifetime) && |messages| == rules.maximumItems + 1 && 0 < delay < lifetime
    requires rules.maximumItems > 0
    ensures |Live(Run(rules, events))| > rules.maximumItems
  {
    var last := messages[|messages| - 1];
    events := FillAll(rules, messages, |messages| - 1, lifetime, delay);
    AcceptsOneMore(rules, Run(rules, events), messages, lifetime, delay);
    RunAfter(rules, events, Tick(lifetime - delay));
    events := events + [Tick(lifetime - delay)];
    RunAfter(rules, events, Reserve(last));
    events := events + [Reserve(last)];
  }
}
