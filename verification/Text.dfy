/** Characters, trimming and splitting as the .NET and JavaScript runtimes define them. */
module Text {

  datatype Option<+T> = None | Some(value: T)

  /** `char.IsWhiteSpace` of .NET. */
  predicate IsWhiteSpace(c: char) {
    var code := c as int;
    || 0x9 <= code <= 0xD
    || code in {0x20, 0x85, 0xA0, 0x1680, 0x2028, 0x2029, 0x202F, 0x205F, 0x3000}
    || 0x2000 <= code <= 0x200A
  }

  /** `string.IsNullOrWhiteSpace` of a text that is not null. */
  predicate IsBlank(s: string) {
    forall i | 0 <= i < |s| :: IsWhiteSpace(s[i])
  }

  /** The characters that `String.prototype.trim` of ECMAScript removes. */
  predicate IsScriptSpace(c: char) {
    var code := c as int;
    || 0x9 <= code <= 0xD
    || code in {0x20, 0xA0, 0x1680, 0x2028, 0x2029, 0x202F, 0x205F, 0x3000, 0xFEFF}
    || 0x2000 <= code <= 0x200A
  }

  function TrimStart(s: string, space: char -> bool): string {
    if s != "" && space(s[0]) then TrimStart(s[1..], space) else s
  }

  function TrimEnd(s: string, space: char -> bool): string {
    if s != "" && space(s[|s| - 1]) then TrimEnd(s[..|s| - 1], space) else s
  }

  function Trim(s: string, space: char -> bool): string {
    TrimEnd(TrimStart(s, space), space)
  }

  /** A string without white space at either end is its own trimmed form. */
  lemma TrimKeeps(s: string, space: char -> bool)
    requires forall c | c in s :: !space(c)
    ensures Trim(s, space) == s
  {
  }

  lemma {:induction false} TrimStartWithin(s: string, space: char -> bool)
    ensures forall c | c in TrimStart(s, space) :: c in s
  {
    if s != "" && space(s[0]) {
      TrimStartWithin(s[1..], space);
    }
  }

  lemma {:induction false} TrimEndWithin(s: string, space: char -> bool)
    ensures forall c | c in TrimEnd(s, space) :: c in s
  {
    if s != "" && space(s[|s| - 1]) {
      TrimEndWithin(s[..|s| - 1], space);
    }
  }

  /** Trimming adds no characters. */
  lemma TrimWithin(s: string, space: char -> bool)
    ensures forall c | c in Trim(s, space) :: c in s
  {
    TrimStartWithin(s, space);
    TrimEndWithin(TrimStart(s, space), space);
  }

  lemma {:induction false} TrimStartTwice(s: string, space: char -> bool)
    ensures TrimStart(TrimStart(s, space), space) == TrimStart(s, space)
  {
    if s != "" && space(s[0]) {
      TrimStartTwice(s[1..], space);
    }
  }

  lemma {:induction false} TrimEndTwice(s: string, space: char -> bool)
    ensures TrimEnd(TrimEnd(s, space), space) == TrimEnd(s, space)
    ensures s != "" && !space(s[0]) ==> TrimEnd(s, space) != "" && TrimEnd(s, space)[0] == s[0]
  {
    if s != "" && space(s[|s| - 1]) {
      TrimEndTwice(s[..|s| - 1], space);
    }
  }

  lemma {:induction false} TrimStartStops(s: string, space: char -> bool)
    ensures TrimStart(s, space) != "" ==> !space(TrimStart(s, space)[0])
  {
    if s != "" && space(s[0]) {
      TrimStartStops(s[1..], space);
    }
  }

  /** Trimming is idempotent. */
  lemma TrimTwice(s: string, space: char -> bool)
    ensures Trim(Trim(s, space), space) == Trim(s, space)
  {
    var t := TrimStart(s, space);
    TrimStartStops(s, space);
    TrimEndTwice(t, space);
    TrimStartTwice(s, space);
    if t != "" {
      assert TrimStart(TrimEnd(t, space), space) == TrimEnd(t, space);
    }
  }

  /** `string.Split(char)`: always at least one piece. */
  function Split(s: string, separator: char): (pieces: seq<string>)
    ensures |pieces| >= 1
    ensures forall i | 0 <= i < |pieces| :: separator !in pieces[i]
  {
    if s == "" then [""]
    else if s[0] == separator then [""] + Split(s[1..], separator)
    else
      var rest := Split(s[1..], separator);
      [[s[0]] + rest[0]] + rest[1..]
  }

  function Join(pieces: seq<string>, separator: char): string
    requires |pieces| >= 1
  {
    if |pieces| == 1 then pieces[0] else pieces[0] + [separator] + Join(pieces[1..], separator)
  }

  ghost predicate AllSpace(s: string, space: char -> bool) {
    forall i | 0 <= i < |s| :: space(s[i])
  }

  lemma {:induction false} TrimStartExactly(s: string, space: char -> bool) returns (front: string)
    ensures s == front + TrimStart(s, space) && AllSpace(front, space)
    ensures TrimStart(s, space) != "" ==> !space(TrimStart(s, space)[0])
  {
    if s != "" && space(s[0]) {
      front := TrimStartExactly(s[1..], space);
      front := [s[0]] + front;
      assert s == [s[0]] + s[1..];
    } else {
      front := "";
    }
  }

  lemma {:induction false} TrimEndExactly(s: string, space: char -> bool) returns (back: string)
    ensures s == TrimEnd(s, space) + back && AllSpace(back, space)
    ensures TrimEnd(s, space) != "" ==> !space(TrimEnd(s, space)[|TrimEnd(s, space)| - 1])
  {
    if s != "" && space(s[|s| - 1]) {
      back := TrimEndExactly(s[..|s| - 1], space);
      back := back + [s[|s| - 1]];
      assert s == s[..|s| - 1] + [s[|s| - 1]];
    } else {
      back := "";
    }
  }

  /** A trimmed text is the text without the white space around it: none is left at its ends, and only it is gone. */
  lemma TrimExactly(s: string, space: char -> bool) returns (front: string, back: string)
    ensures var t := Trim(s, space);
            && s == front + t + back && AllSpace(front, space) && AllSpace(back, space)
            && (t != "" ==> !space(t[0]) && !space(t[|t| - 1]))
  {
    front := TrimStartExactly(s, space);
    back := TrimEndExactly(TrimStart(s, space), space);
    assert front + (Trim(s, space) + back) == front + Trim(s, space) + back;
  }

  lemma BlankIffTrimmedAway(s: string)
    ensures IsBlank(s) <==> Trim(s, IsWhiteSpace) == ""
  {
    var front, back := TrimExactly(s, IsWhiteSpace);
    var t := Trim(s, IsWhiteSpace);
    if t == "" {
      assert s == front + back;
    } else {
      assert s[|front|] == t[0];
    }
  }

  /** Joining the pieces gives the text back. */
  lemma {:induction false} JoinSplit(s: string, separator: char)
    ensures Join(Split(s, separator), separator) == s
  {
    if s == "" {
    } else {
      JoinSplit(s[1..], separator);
      var rest := Split(s[1..], separator);
      if s[0] == separator {
        assert ([""] + rest)[1..] == rest;
      } else if |rest| > 1 {
        assert ([[s[0]] + rest[0]] + rest[1..])[1..] == rest[1..];
      }
    }
  }

  /** The first piece of a text that starts with `a` and a separator is `a`. */
  lemma {:induction false} SplitAfter(a: string, s: string, separator: char)
    requires separator !in a
    ensures Split(a + [separator] + s, separator) == [a] + Split(s, separator)
  {
    var t := a + [separator] + s;
    if a == "" {
      assert t[1..] == s;
    } else {
      assert t[1..] == a[1..] + [separator] + s;
      SplitAfter(a[1..], s, separator);
      assert [t[0]] + a[1..] == a;
    }
  }

  /** A text without a separator is one piece. */
  lemma {:induction false} SplitWhole(a: string, separator: char)
    requires separator !in a
    ensures Split(a, separator) == [a]
  {
    if a != "" {
      SplitWhole(a[1..], separator);
      assert [a[0]] + a[1..] == a;
    }
  }

  /** Splitting around a separator is splitting both sides. */
  lemma {:induction false} SplitAround(a: string, b: string, separator: char)
    ensures Split(a + [separator] + b, separator) == Split(a, separator) + Split(b, separator)
  {
    var t := a + [separator] + b;
    if a == "" {
      assert t[1..] == b;
    } else {
      assert t[1..] == a[1..] + [separator] + b;
      SplitAround(a[1..], b, separator);
    }
  }

  lemma {:induction false} JoinAround(a: seq<string>, b: seq<string>, separator: char)
    requires a != [] && b != []
    ensures Join(a + b, separator) == Join(a, separator) + [separator] + Join(b, separator)
  {
    if |a| == 1 {
      assert (a + b)[1..] == b;
    } else {
      assert (a + b)[1..] == a[1..] + b;
      JoinAround(a[1..], b, separator);
    }
  }

  /** Splitting a joined text gives the pieces back. */
  lemma {:induction false} SplitJoin(pieces: seq<string>, separator: char)
    requires pieces != [] && forall i | 0 <= i < |pieces| :: separator !in pieces[i]
    ensures Split(Join(pieces, separator), separator) == pieces
  {
    if |pieces| == 1 {
      SplitWhole(pieces[0], separator);
    } else {
      SplitJoin(pieces[1..], separator);
      SplitAfter(pieces[0], Join(pieces[1..], separator), separator);
    }
  }
}
