/** String operations with the meaning of the Python built-ins the service relies on:
    str.split with an explicit one-character separator, str.strip with no argument,
    the `in` substring test, str.replace(p, "") and f-string formatting of an int. */
module Text {

  /** Python's str.isspace() for one character: the characters str.strip() removes. */
  predicate IsSpace(c: char) {
    c == ' ' || ('\t' <= c <= '\r') || ('\U{1C}' <= c <= '\U{1F}')
    || c == '\U{85}' || c == '\U{A0}' || c == '\U{1680}'
    || ('\U{2000}' <= c <= '\U{200A}')
    || c == '\U{2028}' || c == '\U{2029}' || c == '\U{202F}' || c == '\U{205F}' || c == '\U{3000}'
  }

  /** Position of the first `c` in `s`, or |s| when `s` has none. */
  function IndexOf(s: string, c: char): (i: nat)
    ensures i <= |s|
    ensures i < |s| ==> s[i] == c
    ensures forall j :: 0 <= j < i ==> s[j] != c
  {
    if |s| == 0 then 0
    else if s[0] == c then 0
    else 1 + IndexOf(s[1..], c)
  }

  /** The first `c` of a + b lies in b when a has none. */
  lemma {:induction false} IndexOfAppend(a: string, b: string, c: char)
    requires c !in a
    ensures IndexOf(a + b, c) == |a| + IndexOf(b, c)
  {
    if |a| > 0 {
      assert (a + b)[1..] == a[1..] + b;
      IndexOfAppend(a[1..], b, c);
    } else {
      assert a + b == b;
    }
  }

  /** s.split(sep): the pieces between separators, always at least one. */
  function Split(s: string, sep: char): (r: seq<string>)
    ensures |r| >= 1
    ensures forall i :: 0 <= i < |r| ==> sep !in r[i]
  {
    if |s| == 0 then [""]
    else
      var rest := Split(s[1..], sep);
      if s[0] == sep then [""] + rest
      else [[s[0]] + rest[0]] + rest[1..]
  }

  /** sep.join(parts), the inverse of Split. */
  function Join(parts: seq<string>, sep: char): string
  {
    if |parts| == 0 then ""
    else if |parts| == 1 then parts[0]
    else parts[0] + [sep] + Join(parts[1..], sep)
  }

  lemma {:induction false} SplitJoin(s: string, sep: char)
    ensures Join(Split(s, sep), sep) == s
  {
    if |s| > 0 {
      var rest := Split(s[1..], sep);
      SplitJoin(s[1..], sep);
      if s[0] == sep {
        assert Split(s, sep) == [""] + rest;
        assert Join([""] + rest, sep) == "" + [sep] + Join(rest, sep) by {
          assert ([""] + rest)[1..] == rest;
        }
        assert s == [s[0]] + s[1..];
      } else {
        assert Split(s, sep) == [[s[0]] + rest[0]] + rest[1..];
        if |rest| == 1 {
          assert s == [s[0]] + s[1..];
        } else {
          assert Join(rest, sep) == rest[0] + [sep] + Join(rest[1..], sep);
          assert ([[s[0]] + rest[0]] + rest[1..])[1..] == rest[1..];
          assert s == [s[0]] + s[1..];
        }
      }
    }
  }

  lemma {:induction false} JoinSplit(parts: seq<string>, sep: char)
    requires |parts| >= 1
    requires forall i :: 0 <= i < |parts| ==> sep !in parts[i]
    ensures Split(Join(parts, sep), sep) == parts
  {
    if |parts| == 1 {
      SplitNoSeparator(parts[0], sep);
    } else {
      JoinSplit(parts[1..], sep);
      SplitPrefix(parts[0], Join(parts[1..], sep), sep);
      assert parts == [parts[0]] + parts[1..];
    }
  }

  /** A string without the separator splits into itself. */
  lemma {:induction false} SplitNoSeparator(s: string, sep: char)
    requires sep !in s
    ensures Split(s, sep) == [s]
  {
    if |s| > 0 {
      SplitNoSeparator(s[1..], sep);
      assert s == [s[0]] + s[1..];
    }
  }

  /** Splitting `a + [sep] + b`, where `a` holds no separator, yields `a` followed by the pieces of `b`. */
  lemma {:induction false} SplitPrefix(a: string, b: string, sep: char)
    requires sep !in a
    ensures Split(a + [sep] + b, sep) == [a] + Split(b, sep)
  {
    if |a| == 0 {
      assert (a + [sep] + b)[1..] == b;
    } else {
      SplitPrefix(a[1..], b, sep);
      assert (a + [sep] + b)[1..] == a[1..] + [sep] + b;
      assert a == [a[0]] + a[1..];
    }
  }

  /** The first piece is everything before the first separator, and the string splits into
      at least two pieces exactly when it holds a separator. */
  lemma {:induction false} SplitHead(s: string, sep: char)
    ensures Split(s, sep)[0] == s[..IndexOf(s, sep)]
    ensures |Split(s, sep)| >= 2 <==> sep in s
  {
    if |s| > 0 {
      SplitHead(s[1..], sep);
      if s[0] != sep {
        assert sep in s <==> sep in s[1..] by {
          assert s == [s[0]] + s[1..];
        }
      }
    }
  }

  /** After the first separator, the remaining pieces are the pieces of the rest. */
  lemma {:induction false} SplitTail(s: string, sep: char)
    requires sep in s
    ensures Split(s, sep)[1..] == Split(s[IndexOf(s, sep) + 1..], sep)
  {
    var i := IndexOf(s, sep);
    assert s == s[..i] + [sep] + s[i + 1..];
    SplitPrefix(s[..i], s[i + 1..], sep);
  }

  /** The piece that `s.split(sep)[1]` selects: the text between the first and the second
      separator (or the end of the string). */
  lemma SecondPiece(s: string, sep: char)
    requires sep in s
    ensures |Split(s, sep)| >= 2
    ensures var i := IndexOf(s, sep);
            Split(s, sep)[1] == s[i + 1..][..IndexOf(s[i + 1..], sep)]
  {
    SplitHead(s, sep);
    SplitTail(s, sep);
    SplitHead(s[IndexOf(s, sep) + 1..], sep);
  }

  function StripLeft(s: string): (r: string)
    ensures |r| <= |s| && r == s[|s| - |r|..]
    ensures r == [] || !IsSpace(r[0])
    ensures forall i :: 0 <= i < |s| - |r| ==> IsSpace(s[i])
  {
    if |s| > 0 && IsSpace(s[0]) then StripLeft(s[1..]) else s
  }

  function StripRight(s: string): (r: string)
    ensures |r| <= |s| && r == s[..|r|]
    ensures r == [] || !IsSpace(r[|r| - 1])
    ensures forall i :: |r| <= i < |s| ==> IsSpace(s[i])
  {
    if |s| > 0 && IsSpace(s[|s| - 1]) then StripRight(s[..|s| - 1]) else s
  }

  /** `r` is the slice of `s` starting at `i`, and everything of `s` around it is whitespace. */
  predicate TrimmedAt(s: string, r: string, i: int) {
    && 0 <= i <= i + |r| <= |s| && r == s[i..i + |r|]
    && (forall j :: 0 <= j < i ==> IsSpace(s[j]))
    && (forall j :: i + |r| <= j < |s| ==> IsSpace(s[j]))
  }

  /** s.strip(): drop leading and trailing whitespace. The result is a middle slice of `s`,
      everything cut off is whitespace, and the result neither starts nor ends with it. */
  function Strip(s: string): (r: string)
    ensures exists i :: TrimmedAt(s, r, i)
    ensures r == [] || (!IsSpace(r[0]) && !IsSpace(r[|r| - 1]))
  {
    var l := StripLeft(s);
    var r := StripRight(l);
    var i := |s| - |l|;
    assert TrimmedAt(s, r, i);
    r
  }

  /** Strip adds no character: one absent from the string is absent from its stripped form. */
  lemma StripKeepsOut(s: string, x: char)
    requires x !in s
    ensures x !in Strip(s)
  {
    var r := Strip(s);
    var j :| TrimmedAt(s, r, j);
    assert r == s[j..j + |r|];
  }

  /** A string with no whitespace at either end is left alone by Strip. */
  lemma StripClean(s: string)
    requires s == [] || (!IsSpace(s[0]) && !IsSpace(s[|s| - 1]))
    ensures Strip(s) == s
  {
  }

  lemma StripIdempotent(s: string)
    ensures Strip(Strip(s)) == Strip(s)
  {
    StripClean(Strip(s));
  }

  /** `p in s` for strings. */
  predicate Contains(s: string, p: string)
    decreases |s|
  {
    if |s| < |p| then false
    else if s[..|p|] == p then true
    else Contains(s[1..], p)
  }

  /** s.startswith(p) */
  predicate StartsWith(s: string, p: string) {
    |p| <= |s| && s[..|p|] == p
  }

  /** `p` occurs in `s` at position `i`. */
  predicate OccursAt(s: string, p: string, i: int) {
    0 <= i <= |s| - |p| && s[i..i + |p|] == p
  }

  lemma {:induction false} ContainsIff(s: string, p: string)
    ensures Contains(s, p) <==> exists i :: OccursAt(s, p, i)
  {
    if |s| >= |p| && s[..|p|] != p {
      ContainsIff(s[1..], p);
      if Contains(s[1..], p) {
        var i :| OccursAt(s[1..], p, i);
        assert s[i + 1..i + 1 + |p|] == p;
        assert OccursAt(s, p, i + 1);
      }
      if exists i :: OccursAt(s, p, i) {
        var i :| OccursAt(s, p, i);
        assert i != 0;
        assert s[1..][i - 1..i - 1 + |p|] == p;
        assert OccursAt(s[1..], p, i - 1);
      }
    } else if |s| >= |p| {
      assert OccursAt(s, p, 0);
    } else {
      assert forall i :: !OccursAt(s, p, i);
    }
  }

  /** s.replace(p, ""): every non-overlapping occurrence of `p`, scanning from the left, removed. */
  function RemoveAll(s: string, p: string): (r: string)
    requires |p| > 0
    ensures |r| <= |s|
    decreases |s|
  {
    if |s| < |p| then s
    else if s[..|p|] == p then RemoveAll(s[|p|..], p)
    else [s[0]] + RemoveAll(s[1..], p)
  }

  /** Removing a pattern that does not occur changes nothing. */
  lemma {:induction false} RemoveAllAbsent(s: string, p: string)
    requires |p| > 0 && !Contains(s, p)
    ensures RemoveAll(s, p) == s
  {
    if |s| >= |p| {
      RemoveAllAbsent(s[1..], p);
      assert s == [s[0]] + s[1..];
    }
  }

  /** A leading occurrence is removed and the rest is processed as if it stood alone. */
  lemma RemoveAllLeading(p: string, s: string)
    requires |p| > 0
    ensures RemoveAll(p + s, p) == RemoveAll(s, p)
  {
    assert (p + s)[..|p|] == p;
    assert (p + s)[|p|..] == s;
  }

  predicate IsDigit(c: char) { '0' <= c <= '9' }

  function DigitChar(d: nat): (c: char)
    requires d < 10
    ensures IsDigit(c) && c as int - '0' as int == d
  {
    (d + '0' as int) as char
  }

  /** f"{n}" for a non-negative int: its decimal digits, most significant first. */
  function NatToDecimal(n: nat): (r: string)
    ensures |r| >= 1 && forall i :: 0 <= i < |r| ==> IsDigit(r[i])
    ensures r[0] == '0' ==> n == 0
  {
    if n < 10 then [DigitChar(n)] else NatToDecimal(n / 10) + [DigitChar(n % 10)]
  }

  /** f"{n}" for any int: a minus sign before the digits of a negative number. */
  function IntToDecimal(n: int): (r: string)
    ensures |r| >= 1
    ensures (r[0] == '-') <==> n < 0
  {
    if n < 0 then "-" + NatToDecimal(-n) else NatToDecimal(n)
  }

  /** The number a string of decimal digits denotes. */
  function DecimalValue(s: string): nat
    requires forall i :: 0 <= i < |s| ==> IsDigit(s[i])
  {
    if |s| == 0 then 0
    else
      assert IsDigit(s[|s| - 1]);
      10 * DecimalValue(s[..|s| - 1]) + (s[|s| - 1] as int - '0' as int)
  }

  lemma {:induction false} DecimalRoundTrip(n: nat)
    ensures DecimalValue(NatToDecimal(n)) == n
  {
    if n >= 10 {
      DecimalRoundTrip(n / 10);
      var r := NatToDecimal(n);
      assert r[..|r| - 1] == NatToDecimal(n / 10);
    }
  }

  /** Distinct ints format to distinct texts. */
  lemma IntToDecimalInjective(m: int, n: int)
    requires IntToDecimal(m) == IntToDecimal(n)
    ensures m == n
  {
    if m < 0 && n < 0 {
      assert NatToDecimal(-m) == IntToDecimal(m)[1..];
      assert NatToDecimal(-n) == IntToDecimal(n)[1..];
      DecimalRoundTrip(-m);
      DecimalRoundTrip(-n);
    } else if m >= 0 && n >= 0 {
      DecimalRoundTrip(m);
      DecimalRoundTrip(n);
    }
  }
}
