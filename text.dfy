/** The pieces of the .NET base library's text handling that the client uses:
    String.Split(char), String.Join, and the decimal rendering of an int. */
module Text {

  /** String.Split(sep) with default options: the pieces between the occurrences of
      sep, empty pieces kept, so "a//b" gives ["a", "", "b"] and "" gives [""]. */
  function Split(s: string, sep: char): (parts: seq<string>)
    ensures |parts| >= 1
    ensures forall i :: 0 <= i < |parts| ==> sep !in parts[i]
    decreases |s|
  {
    if |s| == 0 then [""]
    else
      var rest := Split(s[1..], sep);
      if s[0] == sep then [""] + rest
      else [[s[0]] + rest[0]] + rest[1..]
  }

  /** String.Join(sep, parts): the parts with sep between neighbours; "" for no parts. */
  function Join(sep: string, parts: seq<string>): (r: string)
    ensures |parts| == 0 ==> r == ""
    ensures |parts| > 0 ==> |parts[0]| <= |r| && r[..|parts[0]|] == parts[0]
    decreases |parts|
  {
    if |parts| == 0 then ""
    else if |parts| == 1 then parts[0]
    else parts[0] + sep + Join(sep, parts[1..])
  }

  /** Joining three parts puts the separator twice. */
  lemma JoinThree(sep: string, a: string, b: string, c: string)
    ensures Join(sep, [a, b, c]) == a + sep + b + sep + c
  {
    assert [a, b, c][1..] == [b, c];
    assert [b, c][1..] == [c];
    assert Join(sep, [b, c]) == b + sep + c;
    assert Join(sep, [a, b, c]) == a + sep + (b + sep + c);
  }

  /** SelectMany(s => s.Split(sep)): every segment split, the pieces concatenated in order. */
  function Flatten(segments: seq<string>, sep: char): (pieces: seq<string>)
    ensures forall i :: 0 <= i < |pieces| ==> sep !in pieces[i]
    ensures |segments| > 0 ==> |pieces| > 0
    decreases |segments|
  {
    if |segments| == 0 then []
    else Split(segments[0], sep) + Flatten(segments[1..], sep)
  }

  /** Joining the pieces of a split with the same separator gives the string back. */
  lemma {:induction false} JoinSplit(s: string, sep: char)
    ensures Join([sep], Split(s, sep)) == s
    decreases |s|
  {
    if |s| > 0 {
      JoinSplit(s[1..], sep);
      var rest := Split(s[1..], sep);
      if s[0] == sep {
        assert Split(s, sep) == [""] + rest;
        assert ([""] + rest)[1..] == rest;
        assert s == [sep] + s[1..];
      } else {
        var parts := [[s[0]] + rest[0]] + rest[1..];
        assert Split(s, sep) == parts;
        if |rest| > 1 {
          assert parts[1..] == rest[1..];
        }
        assert s == [s[0]] + s[1..];
      }
    }
  }

  /** A separator between two strings separates their pieces:
      the split of a + sep + b is the split of a followed by the split of b. */
  lemma {:induction false} SplitAround(a: string, b: string, sep: char)
    ensures Split(a + [sep] + b, sep) == Split(a, sep) + Split(b, sep)
    decreases |a|
  {
    if |a| == 0 {
      assert a + [sep] + b == [sep] + b;
      SplitCons(sep, b, sep);
    } else {
      var tail := a[1..] + [sep] + b;
      SplitAround(a[1..], b, sep);
      assert a + [sep] + b == [a[0]] + tail;
      assert a == [a[0]] + a[1..];
      SplitCons(a[0], tail, sep);
      SplitCons(a[0], a[1..], sep);
      ConsPieces(a[0], sep, Split(a[1..], sep), Split(b, sep));
    }
  }

  /** The first character of a split string either opens a new piece or joins the first
      one; either way the pieces of a later part are appended unchanged. */
  lemma ConsPieces(c: char, sep: char, left: seq<string>, right: seq<string>)
    requires |left| >= 1
    ensures (if c == sep then [""] + (left + right) else [[c] + (left + right)[0]] + (left + right)[1..])
            == (if c == sep then [""] + left else [[c] + left[0]] + left[1..]) + right
  {
    if c != sep {
      assert (left + right)[0] == left[0];
      assert (left + right)[1..] == left[1..] + right;
    }
  }

  /** Split of a string by its first character. */
  lemma SplitCons(c: char, t: string, sep: char)
    ensures Split([c] + t, sep) == if c == sep then [""] + Split(t, sep)
                                   else [[c] + Split(t, sep)[0]] + Split(t, sep)[1..]
  {
    assert ([c] + t)[1..] == t;
  }

  /** Flattening a list of segments is the same as splitting the joined list. */
  lemma {:induction false} FlattenIsSplitOfJoin(segments: seq<string>, sep: char)
    requires |segments| > 0
    ensures Flatten(segments, sep) == Split(Join([sep], segments), sep)
    decreases |segments|
  {
    if |segments| > 1 {
      FlattenIsSplitOfJoin(segments[1..], sep);
      SplitAround(segments[0], Join([sep], segments[1..]), sep);
    } else {
      assert segments[1..] == [];
    }
  }

  /** Splitting each segment and rejoining with the same separator changes nothing:
      the result is the plain join of the segments. */
  lemma JoinFlatten(segments: seq<string>, sep: char)
    ensures Join([sep], Flatten(segments, sep)) == Join([sep], segments)
  {
    if |segments| > 0 {
      FlattenIsSplitOfJoin(segments, sep);
      JoinSplit(Join([sep], segments), sep);
    }
  }

  /** A string without the separator splits into itself alone. */
  lemma {:induction false} SplitWithoutSeparator(s: string, sep: char)
    requires sep !in s
    ensures Split(s, sep) == [s]
    decreases |s|
  {
    if |s| > 0 {
      assert sep !in s[1..] by {
        forall i | 0 <= i < |s[1..]| ensures s[1..][i] != sep { assert s[1..][i] == s[i + 1]; }
      }
      SplitWithoutSeparator(s[1..], sep);
      assert s == [s[0]] + s[1..];
    }
  }

  /** Flattening segments that contain no separator leaves them as they are. */
  lemma {:induction false} FlattenFlat(segments: seq<string>, sep: char)
    requires forall i :: 0 <= i < |segments| ==> sep !in segments[i]
    ensures Flatten(segments, sep) == segments
    decreases |segments|
  {
    if |segments| > 0 {
      SplitWithoutSeparator(segments[0], sep);
      FlattenFlat(segments[1..], sep);
      assert segments == [segments[0]] + segments[1..];
    }
  }

  /** Flattening is idempotent: the pieces are already flat. */
  lemma FlattenIdempotent(segments: seq<string>, sep: char)
    ensures Flatten(Flatten(segments, sep), sep) == Flatten(segments, sep)
  {
    FlattenFlat(Flatten(segments, sep), sep);
  }

  /** Parts that contain no separator are recovered from their join by a split. */
  lemma SplitJoin(parts: seq<string>, sep: char)
    requires |parts| > 0
    requires forall i :: 0 <= i < |parts| ==> sep !in parts[i]
    ensures Split(Join([sep], parts), sep) == parts
  {
    FlattenIsSplitOfJoin(parts, sep);
    FlattenFlat(parts, sep);
  }

  /** The character of a decimal digit. */
  function DigitChar(d: int): (c: char)
    requires 0 <= d < 10
    ensures '0' <= c <= '9'
  {
    ('0' as int + d) as char
  }

  predicate IsDigits(s: string) {
    forall i :: 0 <= i < |s| ==> '0' <= s[i] <= '9'
  }

  /** The decimal digits of n, most significant first, without leading zeros. */
  function NatText(n: nat): (s: string)
    ensures |s| >= 1 && IsDigits(s)
    decreases n
  {
    if n < 10 then [DigitChar(n)] else NatText(n / 10) + [DigitChar(n % 10)]
  }

  /** The number a string of decimal digits denotes. */
  function DigitsValue(s: string): nat
    requires IsDigits(s)
    decreases |s|
  {
    if |s| == 0 then 0
    else DigitsValue(s[..|s| - 1]) * 10 + (s[|s| - 1] as int - '0' as int)
  }

  /** Int32.ToString() under the invariant culture: a minus sign before the digits of a
      negative number, so every rendering is non-empty and contains no '/'. */
  function IntText(n: int): (s: string)
    ensures |s| >= 1 && '/' !in s
    ensures s[0] == '-' <==> n < 0
    ensures n >= 0 ==> IsDigits(s)
  {
    if n < 0 then "-" + NatText(-n) else NatText(n)
  }

  /** The digits of n denote n. */
  lemma {:induction false} NatTextValue(n: nat)
    ensures DigitsValue(NatText(n)) == n
    decreases n
  {
    if n >= 10 {
      NatTextValue(n / 10);
      var s := NatText(n);
      assert s[..|s| - 1] == NatText(n / 10);
    }
  }

  /** Different numbers have different renderings, so different avatar ids give different paths. */
  lemma IntTextInjective(m: int, n: int)
    requires IntText(m) == IntText(n)
    ensures m == n
  {
    if m < 0 && n < 0 {
      assert IntText(m)[1..] == NatText(-m);
      assert IntText(n)[1..] == NatText(-n);
      NatTextInjective(-m, -n);
    } else if m >= 0 && n >= 0 {
      NatTextInjective(m, n);
    }
  }

  lemma NatTextInjective(a: nat, b: nat)
    requires NatText(a) == NatText(b)
    ensures a == b
  {
    NatTextValue(a);
    NatTextValue(b);
  }
}
