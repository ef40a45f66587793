/**
 * The few Python string operations the query layer relies on, written out
 * over `seq<char>`: `str.lower()` (ASCII only), `str.startswith` and
 * `str.endswith` with a one-character argument, `str.strip(c)`,
 * `sep.join(parts)` and `str(n)` for a natural number. `str.split(sep)` and
 * `DigitsValue` are not used by the query layer; they are the readers that
 * the read-back lemmas take the built strings apart with.
 */
module Strings {

  /** ASCII lower-casing of one character; every other character is kept. */
  function LowerChar(c: char): char
  {
    if 'A' <= c <= 'Z' then (c as int + 32) as char else c
  }

  predicate IsUpper(c: char)
  {
    'A' <= c <= 'Z'
  }

  /** `s.lower()`, restricted to ASCII letters. */
  function Lower(s: string): (r: string)
    ensures |r| == |s|
  {
    if s == [] then [] else [LowerChar(s[0])] + Lower(s[1..])
  }

  /** Lower-casing maps each character on its own, and leaves no upper-case letter. */
  lemma {:induction false} LowerChars(s: string)
    ensures forall i :: 0 <= i < |s| ==> Lower(s)[i] == LowerChar(s[i])
    ensures forall i :: 0 <= i < |s| ==> !IsUpper(Lower(s)[i])
  {
    if s != [] {
      LowerChars(s[1..]);
      forall i | 1 <= i < |s| ensures Lower(s)[i] == LowerChar(s[i]) {
        assert Lower(s)[i] == Lower(s[1..])[i - 1];
      }
    }
  }

  /** Lower-casing does not move or create separators: `/` and `:` stay where they are. */
  lemma LowerKeepsSeparators(s: string, i: int)
    requires 0 <= i < |s|
    ensures Lower(s)[i] == '/' <==> s[i] == '/'
    ensures Lower(s)[i] == ':' <==> s[i] == ':'
  {
    LowerChars(s);
  }

  predicate StartsWith(s: string, c: char)
  {
    |s| > 0 && s[0] == c
  }

  predicate EndsWith(s: string, c: char)
  {
    |s| > 0 && s[|s| - 1] == c
  }

  /** `s.lstrip(c)`: the longest suffix of `s` that does not start with `c`. */
  function TrimLeft(s: string, c: char): (r: string)
    ensures |r| <= |s| && !StartsWith(r, c)
  {
    if StartsWith(s, c) then TrimLeft(s[1..], c) else s
  }

  /** What `s.lstrip(c)` keeps is a suffix of `s`, and what it cuts off is all `c`. */
  lemma {:induction false} TrimLeftSuffix(s: string, c: char)
    ensures TrimLeft(s, c) == s[|s| - |TrimLeft(s, c)|..]
    ensures forall k :: 0 <= k < |s| - |TrimLeft(s, c)| ==> s[k] == c
  {
    if StartsWith(s, c) {
      TrimLeftSuffix(s[1..], c);
      forall k | 1 <= k < |s| - |TrimLeft(s, c)| ensures s[k] == c {
        assert s[k] == s[1..][k - 1];
      }
    }
  }

  /** `s.rstrip(c)`: the longest prefix of `s` that does not end with `c`. */
  function TrimRight(s: string, c: char): (r: string)
    ensures |r| <= |s| && !EndsWith(r, c)
  {
    if EndsWith(s, c) then TrimRight(s[..|s| - 1], c) else s
  }

  /** What `s.rstrip(c)` keeps is a prefix of `s`, and what it cuts off is all `c`. */
  lemma {:induction false} TrimRightPrefix(s: string, c: char)
    ensures TrimRight(s, c) == s[..|TrimRight(s, c)|]
    ensures forall k :: |TrimRight(s, c)| <= k < |s| ==> s[k] == c
  {
    if EndsWith(s, c) {
      TrimRightPrefix(s[..|s| - 1], c);
    }
  }

  /** Number of `c` characters that `s.strip(c)` removes at the front. */
  function StripStart(s: string, c: char): (n: nat)
    ensures n <= |s|
  {
    |s| - |TrimLeft(s, c)|
  }

  /** `s.strip(c)`: every leading and every trailing `c` removed. */
  function Strip(s: string, c: char): (r: string)
    ensures !StartsWith(r, c) && !EndsWith(r, c)
  {
    var left := TrimLeft(s, c);
    var r := TrimRight(left, c);
    TrimRightPrefix(left, c);
    assert r == [] || r[0] == left[0];
    r
  }

  /**
   * What `s.strip(c)` leaves is one contiguous slice of `s`, and everything
   * cut off on either side of it is `c`.
   */
  lemma StripSlice(s: string, c: char)
    ensures StripStart(s, c) + |Strip(s, c)| <= |s|
    ensures Strip(s, c) == s[StripStart(s, c)..StripStart(s, c) + |Strip(s, c)|]
    ensures forall k :: 0 <= k < StripStart(s, c) ==> s[k] == c
    ensures forall k :: StripStart(s, c) + |Strip(s, c)| <= k < |s| ==> s[k] == c
  {
    var left := TrimLeft(s, c);
    var r := TrimRight(left, c);
    var n := |s| - |left|;
    assert Strip(s, c) == r && StripStart(s, c) == n;
    TrimLeftSuffix(s, c);
    TrimRightPrefix(left, c);
    assert left == s[n..];
    assert r == left[..|r|];
    assert r == s[n..n + |r|];
    forall k | n + |r| <= k < |s| ensures s[k] == c {
      assert s[k] == left[k - n];
    }
  }

  /** Stripping twice removes nothing more than stripping once. */
  lemma StripIdempotent(s: string, c: char)
    ensures Strip(Strip(s, c), c) == Strip(s, c)
  {
    var r := Strip(s, c);
    StripUnchanged(r, c);
  }

  /** A string that neither starts nor ends with `c` is its own strip. */
  lemma StripUnchanged(s: string, c: char)
    requires !StartsWith(s, c) && !EndsWith(s, c)
    ensures Strip(s, c) == s
  {
  }

  /** `sep.join(parts)` for a one-character separator. */
  function Join(sep: char, parts: seq<string>): string
  {
    if |parts| == 0 then []
    else if |parts| == 1 then parts[0]
    else parts[0] + [sep] + Join(sep, parts[1..])
  }

  /** `s.split(sep)` for a one-character separator: always at least one piece. */
  function Split(s: string, sep: char): (parts: seq<string>)
    ensures |parts| > 0
  {
    if s == [] then [[]]
    else
      var rest := Split(s[1..], sep);
      if s[0] == sep then [[]] + rest else [[s[0]] + rest[0]] + rest[1..]
  }

  predicate Free(s: string, sep: char)
  {
    sep !in s
  }

  /** A string without the separator splits into itself. */
  lemma {:induction false} SplitFree(s: string, sep: char)
    requires Free(s, sep)
    ensures Split(s, sep) == [s]
  {
    if s != [] {
      SplitFree(s[1..], sep);
      assert [s[0]] + s[1..] == s;
    }
  }

  /** Splitting `a + sep + b` with `a` free of `sep` yields `a`, then the pieces of `b`. */
  lemma {:induction false} SplitCons(a: string, b: string, sep: char)
    requires Free(a, sep)
    ensures Split(a + [sep] + b, sep) == [a] + Split(b, sep)
  {
    if a == [] {
      assert a + [sep] + b == [sep] + b;
      assert ([sep] + b)[1..] == b;
    } else {
      SplitCons(a[1..], b, sep);
      assert (a + [sep] + b)[1..] == a[1..] + [sep] + b;
      assert [a[0]] + a[1..] == a;
    }
  }

  /** Joining pieces free of the separator and splitting again gives the pieces back. */
  lemma {:induction false} SplitJoin(parts: seq<string>, sep: char)
    requires |parts| > 0
    requires forall i :: 0 <= i < |parts| ==> Free(parts[i], sep)
    ensures Split(Join(sep, parts), sep) == parts
  {
    if |parts| == 1 {
      SplitFree(parts[0], sep);
    } else {
      SplitJoin(parts[1..], sep);
      SplitCons(parts[0], Join(sep, parts[1..]), sep);
      assert [parts[0]] + parts[1..] == parts;
    }
  }

  /** Joining two non-empty lists of pieces puts one separator between them. */
  lemma {:induction false} JoinAppend(a: seq<string>, b: seq<string>, sep: char)
    requires |a| > 0 && |b| > 0
    ensures Join(sep, a + b) == Join(sep, a) + [sep] + Join(sep, b)
  {
    if |a| == 1 {
      assert (a + b)[1..] == b;
    } else {
      JoinAppend(a[1..], b, sep);
      assert (a + b)[1..] == a[1..] + b;
    }
  }

  function Digit(d: nat): (c: char)
    requires d < 10
  {
    ('0' as int + d) as char
  }

  predicate AllDigits(s: string)
  {
    forall i :: 0 <= i < |s| ==> '0' <= s[i] <= '9'
  }

  /** `str(n)`: the decimal digits of `n`, without leading zeros. */
  function NatToString(n: nat): (s: string)
    ensures |s| > 0 && AllDigits(s)
  {
    if n < 10 then [Digit(n)] else NatToString(n / 10) + [Digit(n % 10)]
  }

  /** `int(s)` for a string of decimal digits (the empty string reads as 0). */
  function DigitsValue(s: string): nat
    requires AllDigits(s)
  {
    if s == [] then 0
    else DigitsValue(s[..|s| - 1]) * 10 + (s[|s| - 1] as int - '0' as int)
  }

  /** Reading back the decimal text of `n` gives `n`. */
  lemma {:induction false} NatToStringRoundTrip(n: nat)
    ensures DigitsValue(NatToString(n)) == n
  {
    if n >= 10 {
      NatToStringRoundTrip(n / 10);
      var s := NatToString(n);
      assert s[..|s| - 1] == NatToString(n / 10);
    }
  }
}
