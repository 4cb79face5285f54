/** The Python string operations the backend relies on: `strip`, `split`,
    `join`, `in`, `startswith`, `lower`, `isidentifier` and `str(int)`. */
module Text {
  import opened Wrappers

  /** `c.isspace()`: the code points Python treats as whitespace. */
  predicate IsSpace(c: char)
  {
    var n := c as int;
    || 9 <= n <= 13
    || 28 <= n <= 32
    || n == 0x85
    || n == 0xA0
    || n == 0x1680
    || 0x2000 <= n <= 0x200A
    || n == 0x2028
    || n == 0x2029
    || n == 0x202F
    || n == 0x205F
    || n == 0x3000
  }

  predicate AllSpace(s: string)
  {
    forall i {:trigger IsSpace(s[i])} :: 0 <= i < |s| ==> IsSpace(s[i])
  }

  /** Neither begins nor ends with whitespace. */
  predicate Trimmed(s: string)
  {
    s == [] || (!IsSpace(s[0]) && !IsSpace(s[|s| - 1]))
  }

  /** `s.lstrip()`. */
  function TrimStart(s: string): (r: string)
    ensures |r| <= |s| && r == s[|s| - |r|..]
    ensures AllSpace(s[..|s| - |r|])
    ensures r == [] || !IsSpace(r[0])
  {
    if s != [] && IsSpace(s[0]) then
      var r := TrimStart(s[1..]);
      assert s[..|s| - |r|] == [s[0]] + s[1..][..|s| - 1 - |r|];
      r
    else s
  }

  /** `s.rstrip()`. */
  function TrimEnd(s: string): (r: string)
    ensures |r| <= |s| && r == s[..|r|]
    ensures AllSpace(s[|r|..])
    ensures r == [] || !IsSpace(r[|r| - 1])
  {
    if s != [] && IsSpace(s[|s| - 1]) then
      var r := TrimEnd(s[..|s| - 1]);
      assert s[|r|..] == s[..|s| - 1][|r|..] + [s[|s| - 1]];
      r
    else s
  }

  /** `s.strip()`: the text between the leading and the trailing run of
      whitespace. */
  function Strip(s: string): (r: string)
    ensures Trimmed(r)
  {
    StripEnds(s);
    TrimEnd(TrimStart(s))
  }

  /** Trimming both ends keeps no whitespace at either end, and leaves
      nothing exactly when the text is all whitespace. */
  lemma StripEnds(s: string)
    ensures Trimmed(TrimEnd(TrimStart(s)))
    ensures TrimEnd(TrimStart(s)) == [] <==> AllSpace(s)
  {
    var t := TrimStart(s);
    var r := TrimEnd(t);
    var k := |s| - |t|;
    assert t == s[k..];
    if r != [] {
      assert r[0] == t[0];
      assert !IsSpace(s[k]);
    } else {
      assert s == s[..k];
    }
  }

  /** `strip` leaves nothing exactly when the text is all whitespace. */
  lemma StripBlank(s: string)
    ensures Strip(s) == [] <==> AllSpace(s)
  {
    StripEnds(s);
  }

  /** `s.strip()` removes only whitespace, and only at the two ends: the
      input is some whitespace, then the result, then some whitespace. */
  lemma StripParts(s: string) returns (i: nat)
    ensures i + |Strip(s)| <= |s|
    ensures Strip(s) == s[i..i + |Strip(s)|]
    ensures AllSpace(s[..i]) && AllSpace(s[i + |Strip(s)|..])
  {
    var t := TrimStart(s);
    var r := TrimEnd(t);
    i := |s| - |t|;
    assert Strip(s) == r;
    assert t == s[i..] && AllSpace(s[..i]);
    assert r == t[..|r|] && AllSpace(t[|r|..]);
    PrefixOfSuffix(s, i, |r|);
  }

  /** A prefix of a suffix is a middle slice, and what follows it is the
      rest of the suffix. */
  lemma PrefixOfSuffix<T>(s: seq<T>, i: nat, n: nat)
    requires i + n <= |s|
    ensures s[i..][..n] == s[i..i + n]
    ensures s[i..][n..] == s[i + n..]
  {
  }

  /** Stripping a string that has no surrounding whitespace changes nothing. */
  lemma StripTrimmed(s: string)
    requires Trimmed(s)
    ensures Strip(s) == s
  {
  }

  /** `lstrip` removes exactly a leading run of whitespace. */
  lemma {:induction false} TrimStartPadded(pre: string, t: string)
    requires AllSpace(pre)
    requires t == [] || !IsSpace(t[0])
    ensures TrimStart(pre + t) == t
    decreases |pre|
  {
    if pre == [] {
      assert pre + t == t;
    } else {
      assert (pre + t)[1..] == pre[1..] + t;
      TrimStartPadded(pre[1..], t);
    }
  }

  /** `rstrip` removes exactly a trailing run of whitespace. */
  lemma {:induction false} TrimEndPadded(t: string, post: string)
    requires AllSpace(post)
    requires t == [] || !IsSpace(t[|t| - 1])
    ensures TrimEnd(t + post) == t
    decreases |post|
  {
    var s := t + post;
    if post == [] {
      assert s == t;
    } else {
      assert s[..|s| - 1] == t + post[..|post| - 1];
      TrimEndPadded(t, post[..|post| - 1]);
    }
  }

  /** Whitespace padding on either side of a trimmed, non-empty string is
      exactly what `strip` removes. */
  lemma StripPadded(pre: string, x: string, post: string)
    requires AllSpace(pre) && AllSpace(post)
    requires x != [] && Trimmed(x)
    ensures Strip(pre + x + post) == x
  {
    assert pre + x + post == pre + (x + post);
    TrimStartPadded(pre, x + post);
    TrimEndPadded(x, post);
  }

  /** `pat` occurs in `s` starting at index `j`. */
  predicate OccursAt(s: string, pat: string, j: int)
  {
    0 <= j && j + |pat| <= |s| && s[j..j + |pat|] == pat
  }

  /** `s.find(pat)`: the first index where `pat` occurs. */
  function IndexOf(s: string, pat: string): (r: Option<nat>)
    ensures r.Some? ==> OccursAt(s, pat, r.value)
    ensures r.Some? ==> forall j :: 0 <= j < r.value ==> !OccursAt(s, pat, j)
    ensures r.None? ==> forall j :: !OccursAt(s, pat, j)
    decreases |s|
  {
    if |s| < |pat| then None
    else if s[..|pat|] == pat then Some(0)
    else
      var r := IndexOf(s[1..], pat);
      forall j | 1 <= j
        ensures OccursAt(s, pat, j) <==> OccursAt(s[1..], pat, j - 1)
      {
        if j + |pat| <= |s| {
          var here, there := s[j..j + |pat|], s[1..][j - 1..j - 1 + |pat|];
          assert forall k :: 0 <= k < |pat| ==> here[k] == there[k];
          assert here == there;
        }
      }
      match r
      case None => None
      case Some(i) => Some(i + 1)
  }

  /** `pat in s`. */
  predicate Contains(s: string, pat: string)
  {
    IndexOf(s, pat).Some?
  }

  /** `s.startswith(p)`. */
  predicate StartsWith(s: string, p: string)
  {
    |p| <= |s| && s[..|p|] == p
  }

  /** `sep.join(parts)`. */
  function Join(parts: seq<string>, sep: string): string
  {
    if parts == [] then ""
    else if |parts| == 1 then parts[0]
    else parts[0] + sep + Join(parts[1..], sep)
  }

  /** `s.split(sep)` for a non-empty separator: the pieces between
      non-overlapping occurrences of `sep`, scanned left to right. */
  function SplitOn(s: string, sep: string): (parts: seq<string>)
    requires sep != []
    ensures parts != []
    decreases |s|
  {
    match IndexOf(s, sep)
    case None => [s]
    case Some(k) => [s[..k]] + SplitOn(s[k + |sep|..], sep)
  }

  /** Joining the pieces of a split with the same separator gives back the
      original string. */
  lemma {:induction false} SplitJoin(s: string, sep: string)
    requires sep != []
    ensures Join(SplitOn(s, sep), sep) == s
    decreases |s|
  {
    match IndexOf(s, sep)
    case None =>
    case Some(k) =>
      var rest := s[k + |sep|..];
      SplitJoin(rest, sep);
      assert SplitOn(s, sep) == [s[..k]] + SplitOn(rest, sep);
      assert s == s[..k] + sep + rest by {
        assert s[k..k + |sep|] == sep;
        assert s == s[..k] + s[k..k + |sep|] + rest;
      }
  }

  /** No piece of a split contains the separator. */
  lemma {:induction false} SplitPiecesFree(s: string, sep: string, i: nat)
    requires sep != [] && i < |SplitOn(s, sep)|
    ensures !Contains(SplitOn(s, sep)[i], sep)
    decreases |s|
  {
    match IndexOf(s, sep)
    case None =>
    case Some(k) =>
      if i == 0 {
        var piece := s[..k];
        if IndexOf(piece, sep).Some? {
          var j := IndexOf(piece, sep).value;
          assert piece[j..j + |sep|] == s[j..j + |sep|];
          assert OccursAt(s, sep, j);
          assert false;
        }
      } else {
        SplitPiecesFree(s[k + |sep|..], sep, i - 1);
      }
  }

  /** A one-character pattern occurs exactly where that character is. */
  lemma CharOccurs(s: string, c: char, j: int)
    ensures OccursAt(s, [c], j) <==> 0 <= j < |s| && s[j] == c
  {
    if 0 <= j < |s| {
      assert s[j..j + 1] == [s[j]];
    }
  }

  lemma CharIndex(s: string, c: char)
    ensures IndexOf(s, [c]).None? <==> c !in s
    ensures IndexOf(s, [c]).Some? ==> s[IndexOf(s, [c]).value] == c && c !in s[..IndexOf(s, [c]).value]
  {
    var r := IndexOf(s, [c]);
    if r.None? {
      forall j | 0 <= j < |s| ensures s[j] != c { CharOccurs(s, c, j); }
    } else {
      CharOccurs(s, c, r.value);
      forall j | 0 <= j < r.value ensures s[j] != c { CharOccurs(s, c, j); }
    }
  }

  /** Splitting on a character gives one piece more than the number of
      occurrences of that character. */
  lemma {:induction false} SplitCount(s: string, c: char)
    ensures |SplitOn(s, [c])| == multiset(s)[c] + 1
    decreases |s|
  {
    match IndexOf(s, [c])
    case None =>
      assert multiset(s)[c] == 0 by {
        CharIndex(s, c);
      }
    case Some(k) =>
      var rest := s[k + 1..];
      assert multiset(s)[c] == multiset(rest)[c] + 1 by {
        CharIndex(s, c);
        assert s == s[..k] + [c] + rest;
        assert multiset(s) == multiset(s[..k]) + multiset([c]) + multiset(rest);
      }
      SplitCount(rest, c);
  }

  /** The first occurrence of a character is right after a prefix that does
      not contain it. */
  lemma FirstCharAfter(p: string, c: char, t: string)
    requires c !in p
    ensures IndexOf(p + [c] + t, [c]) == Some(|p|)
  {
    var s := p + [c] + t;
    CharIndex(s, c);
    assert s[|p|] == c;
    assert s[..|p|] == p;
  }

  /** Splitting a join of pieces that do not contain the one-character
      separator gives back exactly those pieces. */
  lemma {:induction false} JoinSplit(parts: seq<string>, c: char)
    requires parts != []
    requires forall i :: 0 <= i < |parts| ==> c !in parts[i]
    ensures SplitOn(Join(parts, [c]), [c]) == parts
  {
    var s := Join(parts, [c]);
    if |parts| == 1 {
      assert s == parts[0];
      CharIndex(s, c);
    } else {
      var p0, rest := parts[0], parts[1..];
      var t := Join(rest, [c]);
      assert s == p0 + [c] + t;
      FirstCharAfter(p0, c, t);
      assert s[..|p0|] == p0;
      assert s[|p0| + 1..] == t;
      assert SplitOn(s, [c]) == [p0] + SplitOn(t, [c]);
      JoinSplit(rest, c);
      assert parts == [p0] + rest;
    }
  }

  predicate IsAsciiLetter(c: char)
  {
    'a' <= c <= 'z' || 'A' <= c <= 'Z'
  }

  predicate IsDigit(c: char)
  {
    '0' <= c <= '9'
  }

  /** `s.isidentifier()`, restricted to ASCII: a letter or underscore
      followed by letters, digits and underscores. */
  predicate IsIdentifier(s: string)
  {
    && s != []
    && (IsAsciiLetter(s[0]) || s[0] == '_')
    && forall i :: 0 < i < |s| ==> IsAsciiLetter(s[i]) || IsDigit(s[i]) || s[i] == '_'
  }

  function LowerChar(c: char): char
  {
    if 'A' <= c <= 'Z' then (c as int + 32) as char else c
  }

  /** `s.lower()` on ASCII letters. */
  function Lower(s: string): (r: string)
  {
    seq(|s|, i requires 0 <= i < |s| => LowerChar(s[i]))
  }

  function DigitChar(d: nat): char
    requires d < 10
  {
    ('0' as int + d) as char
  }

  /** `str(n)` for a natural number. */
  function NatToString(n: nat): (r: string)
  {
    if n < 10 then [DigitChar(n)] else NatToString(n / 10) + [DigitChar(n % 10)]
  }

  /** `str(n)` for any integer. */
  function IntToString(n: int): string
  {
    if n < 0 then "-" + NatToString(-n) else NatToString(n)
  }

  /** The value of a string of decimal digits: the reading `int(s)` gives. */
  function DecimalValue(s: string): nat
    requires forall i :: 0 <= i < |s| ==> IsDigit(s[i])
  {
    if s == [] then 0
    else
      assert IsDigit(s[|s| - 1]);
      DecimalValue(s[..|s| - 1]) * 10 + (s[|s| - 1] as int - '0' as int)
  }

  /** `str(n)` writes only digits, without leading zeros, and reading them
      back gives `n`. */
  lemma {:induction false} NatToStringRoundTrip(n: nat)
    ensures forall i :: 0 <= i < |NatToString(n)| ==> IsDigit(NatToString(n)[i])
    ensures NatToString(n)[0] != '0' || n == 0
    ensures DecimalValue(NatToString(n)) == n
  {
    var s := NatToString(n);
    if n >= 10 {
      NatToStringRoundTrip(n / 10);
      var p := NatToString(n / 10);
      assert s == p + [DigitChar(n % 10)];
      assert s[..|s| - 1] == p;
    }
  }
}
