/** Sums of a share over a sequence of parts. */
module Sums {
  function Sum<T>(share: T -> int, parts: seq<T>): int {
    if parts == [] then 0 else Sum(share, parts[..|parts| - 1]) + share(parts[|parts| - 1])
  }

  lemma {:induction false} SumUpdate<T>(share: T -> int, parts: seq<T>, i: nat, part: T)
    requires i < |parts|
    ensures Sum(share, parts[i := part]) == Sum(share, parts) - share(parts[i]) + share(part)
  {
    var last := |parts| - 1;
    if i < last {
      SumUpdate(share, parts[..last], i, part);
      assert parts[i := part][..last] == parts[..last][i := part];
    } else {
      assert parts[i := part][..last] == parts[..last];
    }
  }

  lemma SumAppend<T>(share: T -> int, parts: seq<T>, part: T)
    ensures Sum(share, parts + [part]) == Sum(share, parts) + share(part)
  {
    assert (parts + [part])[..|parts|] == parts;
  }

  lemma {:induction false} SumAtLeast<T>(share: T -> int, parts: seq<T>, i: nat)
    requires i < |parts| && forall p | p in parts :: share(p) >= 0
    ensures Sum(share, parts) >= share(parts[i])
  {
    var last := |parts| - 1;
    if i < last {
      SumAtLeast(share, parts[..last], i);
    } else if last > 0 {
      SumAtLeast(share, parts[..last], 0);
    }
  }

  lemma {:induction false} SumIsZero<T>(share: T -> int, parts: seq<T>)
    requires forall p | p in parts :: share(p) == 0
    ensures Sum(share, parts) == 0
  {
    if parts != [] {
      SumIsZero(share, parts[..|parts| - 1]);
    }
  }

  lemma {:induction false} SumOfOne<T>(share: T -> int, parts: seq<T>, k: nat)
    requires k < |parts| && forall i | 0 <= i < |parts| && i != k :: share(parts[i]) == 0
    ensures Sum(share, parts) == share(parts[k])
  {
    var last := |parts| - 1;
    if k < last {
      SumOfOne(share, parts[..last], k);
    } else {
      SumIsZero(share, parts[..last]);
    }
  }

  lemma {:induction false} SumOfDifference<T>(share: T -> int, plus: T -> int, minus: T -> int, parts: seq<T>)
    requires forall p | p in parts :: share(p) == plus(p) - minus(p)
    ensures Sum(share, parts) == Sum(plus, parts) - Sum(minus, parts)
  {
    if parts != [] {
      SumOfDifference(share, plus, minus, parts[..|parts| - 1]);
    }
  }

  lemma {:induction false} SumSame<T>(f: T -> int, g: T -> int, parts: seq<T>)
    requires forall p | p in parts :: f(p) == g(p)
    ensures Sum(f, parts) == Sum(g, parts)
  {
    if parts != [] {
      SumSame(f, g, parts[..|parts| - 1]);
    }
  }
}
