/** The duplicate window of one gateway connection: a set for lookups and a queue for eviction order. */
module DuplicateWindow {

  function Suffix<T>(s: seq<T>, n: nat): seq<T> {
    if |s| <= n then s else s[|s| - n..]
  }

  /** The window after one call. */
  function Track<T(==)>(window: seq<T>, limit: nat, id: T): seq<T> {
    if id in window then window else Suffix(window + [id], limit)
  }

  function Window<T(==)>(limit: nat, calls: seq<T>): seq<T> {
    if calls == [] then []
    else Track(Window(limit, calls[..|calls| - 1]), limit, calls[|calls| - 1])
  }

  /** Reference: the accepted ids, where an id is refused iff it is among the last `limit` accepted ones. */
  function Accepted<T(==)>(limit: nat, calls: seq<T>): seq<T> {
    if calls == [] then []
    else
      var earlier := Accepted(limit, calls[..|calls| - 1]);
      var id := calls[|calls| - 1];
      if id in Suffix(earlier, limit) then earlier else earlier + [id]
  }

  ghost predicate Distinct<T>(s: seq<T>) {
    forall i, j | 0 <= i < j < |s| :: s[i] != s[j]
  }

  /** After any sequence of calls the bounded window is exactly the recent end of the unbounded history. */
  lemma {:induction false} WindowIsRecentHistory<T>(limit: nat, calls: seq<T>)
    ensures Window(limit, calls) == Suffix(Accepted(limit, calls), limit)
    ensures Distinct(Window(limit, calls)) && |Window(limit, calls)| <= limit
  {
    if calls != [] {
      var earlier, id := calls[..|calls| - 1], calls[|calls| - 1];
      WindowIsRecentHistory(limit, earlier);
      SuffixOfSuffix(Accepted(limit, earlier), id, limit);
      DistinctTrack(Window(limit, earlier), limit, id);
    }
  }

  lemma SuffixOfSuffix<T>(s: seq<T>, x: T, n: nat)
    ensures Suffix(Suffix(s, n) + [x], n) == Suffix(s + [x], n)
  {
  }

  lemma DistinctTrack<T>(window: seq<T>, limit: nat, id: T)
    requires Distinct(window) && |window| <= limit
    ensures Distinct(Track(window, limit, id)) && |Track(window, limit, id)| <= limit
  {
  }

  function Elements<T>(s: seq<T>): set<T> {
    set x | x in s
  }

  class CorrelationWindow {
    const limit: nat
    var ids: set<string>
    var order: seq<string>
    ghost var calls: seq<string>

    ghost predicate Valid()
      reads this
    {
      && order == Window(limit, calls)
      && Distinct(order)
      && |order| <= limit
      && ids == Elements(order)
    }

    constructor (limit: nat)
      ensures Valid() && this.limit == limit && calls == []
    {
      this.limit := limit;
      ids, order, calls := {}, [], [];
    }

    /** Refuses an id iff it is one of the last `limit` accepted ids of this connection. */
    method TryTrackCorrelation(id: string) returns (tracked: bool)
      requires Valid()
      modifies this
      ensures Valid() && calls == old(calls) + [id]
      ensures tracked <==> id !in Suffix(Accepted(limit, old(calls)), limit)
      ensures order == Track(old(order), limit, id)
    {
      WindowIsRecentHistory(limit, calls);
      calls := calls + [id];
      assert calls[..|calls| - 1] == old(calls);
      if id in ids {
        return false;
      }
      ids := ids + {id};
      order := order + [id];
      Evict();
      DistinctTrack(old(order), limit, id);
      return true;
    }

    /** Drops the oldest ids until at most `limit` are left. */
    method Evict()
      requires Distinct(order) && ids == Elements(order)
      modifies this`ids, this`order
      ensures order == Suffix(old(order), limit) && ids == Elements(order)
    {
      ghost var k := 0;
      while |ids| > limit && order != []
        invariant 0 <= k <= |old(order)| && order == old(order)[k..] && (k > 0 ==> |order| >= limit)
        invariant Distinct(order) && ids == Elements(order)
        decreases |order|
      {
        DistinctCardinality(order);
        WithoutHead(order);
        ids := ids - {order[0]};
        order, k := order[1..], k + 1;
      }
      DistinctCardinality(order);
    }
  }

  lemma WithoutHead<T>(s: seq<T>)
    requires s != [] && Distinct(s)
    ensures Distinct(s[1..]) && Elements(s[1..]) == Elements(s) - {s[0]}
  {
    forall x | x in Elements(s) - {s[0]} ensures x in Elements(s[1..]) {
      var i :| 0 <= i < |s| && s[i] == x;
      assert s[1..][i - 1] == x;
    }
  }

  lemma {:induction false} DistinctCardinality<T>(s: seq<T>)
    requires Distinct(s)
    ensures |Elements(s)| == |s|
  {
    if s != [] {
      WithoutHead(s);
      DistinctCardinality(s[1..]);
      assert s[0] in Elements(s);
    }
  }
}
