/**
 * The string operations the pipeline applies to prompts, captions, ids and
 * model names: Python's `strip`, `lower`/`upper`, `startswith`, `in`,
 * `rfind`, `split()`, `join`, `replace` and prefix slicing `s[:n]`.
 * Case mapping and whitespace are ASCII only.
 */
module Text {

  /** Python's `str.isspace` restricted to ASCII. */
  predicate IsSpace(c: char)
  {
    c == ' ' || c == '\t' || c == '\n' || c == '\r' || c == '\U{0B}' || c == '\U{0C}'
  }

  /** True when `s` is empty or holds only whitespace (so `s.strip()` is falsy). */
  predicate IsBlank(s: string)
  {
    forall i :: 0 <= i < |s| ==> IsSpace(s[i])
  }

  function StripLeft(s: string): (r: string)
    ensures |r| <= |s| && r == s[|s| - |r|..]
    ensures r == [] || !IsSpace(r[0])
    ensures IsBlank(s[..|s| - |r|])
  {
    if s != [] && IsSpace(s[0]) then
      var t := StripLeft(s[1..]);
      assert s[..|s| - |t|] == [s[0]] + s[1..][..|s| - 1 - |t|];
      t
    else s
  }

  function StripRight(s: string): (r: string)
    ensures |r| <= |s| && r == s[..|r|]
    ensures r == [] || !IsSpace(r[|r| - 1])
    ensures IsBlank(s[|r|..])
  {
    if s != [] && IsSpace(s[|s| - 1]) then
      var t := StripRight(s[..|s| - 1]);
      assert s[|t|..] == s[..|s| - 1][|t|..] + [s[|s| - 1]];
      t
    else s
  }

  /** Python's `s.strip()`: the longest slice without whitespace at either end. */
  function Strip(s: string): (r: string)
    ensures |r| <= |s|
    ensures r == [] || (!IsSpace(r[0]) && !IsSpace(r[|r| - 1]))
    ensures r == [] <==> IsBlank(s)
  {
    var l := StripLeft(s);
    var r := StripRight(l);
    StripParts(s, l, r);
    assert r != [] ==> r[0] == l[0];
    r
  }

  /** What `strip` keeps is one slice of `s`, with only whitespace cut from either end. */
  lemma StripSlice(s: string)
    ensures exists i, j :: 0 <= i <= j <= |s| && Strip(s) == s[i..j] && IsBlank(s[..i]) && IsBlank(s[j..])
  {
    var l := StripLeft(s);
    BlankEnds(s, |s| - |l|, l, StripRight(l));
  }

  /** A prefix of a suffix of `s`, with blank cut-offs, is a slice of `s` with blank ends. */
  lemma BlankEnds(s: string, i: nat, l: string, r: string)
    requires i <= |s| && l == s[i..] && |r| <= |l| && r == l[..|r|]
    requires IsBlank(s[..i]) && IsBlank(l[|r|..])
    ensures exists i, j :: 0 <= i <= j <= |s| && r == s[i..j] && IsBlank(s[..i]) && IsBlank(s[j..])
  {
    var j := i + |r|;
    assert s[j..] == l[|r|..];
    assert r == s[i..j];
  }

  lemma StripParts(s: string, l: string, r: string)
    requires l == StripLeft(s) && r == StripRight(l)
    ensures r == [] <==> IsBlank(s)
  {
    if r == [] {
      assert IsBlank(l[|r|..]);
      assert s == s[..|s| - |l|] + l;
    } else {
      assert r[0] == s[|s| - |l|];
    }
  }

  function LowerChar(c: char): char
  {
    if 'A' <= c <= 'Z' then (c as int + 32) as char else c
  }

  function UpperChar(c: char): char
  {
    if 'a' <= c <= 'z' then (c as int - 32) as char else c
  }

  /** Python's `s.lower()` on ASCII letters; every other character is kept. */
  function Lower(s: string): (r: string)
    ensures |r| == |s|
    ensures forall i :: 0 <= i < |s| ==> r[i] == LowerChar(s[i])
  {
    seq(|s|, i requires 0 <= i < |s| => LowerChar(s[i]))
  }

  /** Python's `s.upper()` on ASCII letters. */
  function Upper(s: string): (r: string)
    ensures |r| == |s|
    ensures forall i :: 0 <= i < |s| ==> r[i] == UpperChar(s[i])
  {
    seq(|s|, i requires 0 <= i < |s| => UpperChar(s[i]))
  }

  predicate StartsWith(s: string, prefix: string)
  {
    |prefix| <= |s| && s[..|prefix|] == prefix
  }

  /** Python's `sub in s`. */
  predicate Contains(s: string, sub: string)
    decreases |s|
  {
    StartsWith(s, sub) || (s != [] && Contains(s[1..], sub))
  }

  /** Python's `s[:n]` for a non-negative `n`. */
  function Head(s: string, n: nat): (r: string)
    ensures |r| <= n && |r| <= |s|
    ensures r == s[..|r|]
    ensures |s| <= n ==> r == s
  {
    if |s| <= n then s else s[..n]
  }

  /** `sub` occurs in `s` starting at index `j`. */
  predicate OccursAt(s: string, sub: string, j: int)
  {
    0 <= j && j + |sub| <= |s| && s[j..j + |sub|] == sub
  }

  /** Index of the last occurrence of `sub` at or before `k`, or -1. */
  function RFindFrom(s: string, sub: string, k: int): (r: int)
    requires k <= |s| - |sub|
    ensures -1 <= r && (r >= 0 ==> r <= k && OccursAt(s, sub, r))
    ensures forall j :: r < j <= k ==> !OccursAt(s, sub, j)
    decreases k + 1
  {
    if k < 0 then -1
    else if s[k..k + |sub|] == sub then k
    else RFindFrom(s, sub, k - 1)
  }

  /** Python's `s.rfind(sub)`: the highest index where `sub` starts, or -1. */
  function RFind(s: string, sub: string): (r: int)
    ensures -1 <= r <= |s| - |sub| || r == -1
    ensures r >= 0 ==> OccursAt(s, sub, r)
    ensures forall j :: r < j ==> !OccursAt(s, sub, j)
  {
    RFindFrom(s, sub, |s| - |sub|)
  }

  /** The longest prefix of `s` without whitespace. */
  function Word(s: string): (w: string)
    ensures |w| <= |s| && w == s[..|w|]
    ensures forall i :: 0 <= i < |w| ==> !IsSpace(w[i])
    ensures |w| == |s| || IsSpace(s[|w|])
  {
    if s == [] || IsSpace(s[0]) then [] else [s[0]] + Word(s[1..])
  }

  /** Python's `s.split()`: the maximal runs of non-whitespace, in order. */
  function SplitWs(s: string): seq<string>
    decreases |s|
  {
    var t := StripLeft(s);
    if t == [] then []
    else
      var w := Word(t);
      assert w != [];
      [w] + SplitWs(t[|w|..])
  }

  /** Every piece `split()` returns is a non-empty word without whitespace. */
  lemma {:induction false} SplitWsWords(s: string)
    ensures forall k :: 0 <= k < |SplitWs(s)| ==> SplitWs(s)[k] != [] && NoSpace(SplitWs(s)[k])
    decreases |s|
  {
    var t := StripLeft(s);
    if t != [] {
      var w := Word(t);
      assert w != [] && NoSpace(w);
      var rest := SplitWs(t[|w|..]);
      SplitWsWords(t[|w|..]);
      var r := SplitWs(s);
      assert r == [w] + rest;
      forall k | 0 <= k < |r|
        ensures r[k] != [] && NoSpace(r[k])
      {
        if k > 0 {
          assert r[k] == rest[k - 1];
        }
      }
    }
  }

  predicate NoSpace(w: string)
  {
    forall i :: 0 <= i < |w| ==> !IsSpace(w[i])
  }

  /** A word without whitespace is left alone by `strip`. */
  lemma NoSpaceStripped(w: string)
    requires NoSpace(w)
    ensures Strip(w) == w
  {
    assert StripLeft(w) == w;
    assert StripRight(w) == w;
  }

  /** Python's `sep.join(parts)`. */
  function Join(sep: string, parts: seq<string>): (r: string)
    ensures parts == [] ==> r == []
    ensures |parts| == 1 ==> r == parts[0]
  {
    if parts == [] then []
    else if |parts| == 1 then parts[0]
    else parts[0] + sep + Join(sep, parts[1..])
  }

  /** Python's `s.replace(c, rep)` for a one-character pattern. */
  function ReplaceChar(s: string, c: char, rep: string): (r: string)
    ensures c !in s ==> r == s
  {
    if s == [] then []
    else (if s[0] == c then rep else [s[0]]) + ReplaceChar(s[1..], c, rep)
  }

  /** Replacing in a concatenation replaces in each part. */
  lemma {:induction false} ReplaceCharAppend(s: string, t: string, c: char, rep: string)
    ensures ReplaceChar(s + t, c, rep) == ReplaceChar(s, c, rep) + ReplaceChar(t, c, rep)
  {
    if s != [] {
      assert (s + t)[1..] == s[1..] + t;
      ReplaceCharAppend(s[1..], t, c, rep);
    } else {
      assert s + t == t;
    }
  }

  function DigitChar(d: int): char
    requires 0 <= d < 10
  {
    ('0' as int + d) as char
  }

  predicate IsDigit(c: char)
  {
    '0' <= c <= '9'
  }

  /** Python's `str(n)` for a non-negative integer: its decimal digits. */
  function NatText(n: nat): (r: string)
    ensures r != []
    ensures forall i :: 0 <= i < |r| ==> IsDigit(r[i])
  {
    if n < 10 then [DigitChar(n)] else NatText(n / 10) + [DigitChar(n % 10)]
  }

  /** Python's `str(i)` for any integer. */
  function IntText(i: int): string
  {
    if i < 0 then "-" + NatText(-i) else NatText(i)
  }

  /** Python's `int(s)` on a string of decimal digits. */
  function ParseDigits(s: string): int
  {
    if s == [] then 0 else ParseDigits(s[..|s| - 1]) * 10 + (s[|s| - 1] as int - '0' as int)
  }

  /** Reading back the digits `str(n)` wrote gives `n`. */
  lemma {:induction false} NatTextRoundTrip(n: nat)
    ensures ParseDigits(NatText(n)) == n
  {
    if n >= 10 {
      NatTextRoundTrip(n / 10);
      var r := NatText(n);
      assert r[..|r| - 1] == NatText(n / 10);
    }
  }

  /** `str(i)` starts with a minus sign exactly when `i` is negative. */
  function SignChar(i: int): (c: char)
    ensures c == IntText(i)[0]
    ensures c == '-' <==> i < 0
  {
    if i < 0 then '-' else assert IsDigit(NatText(i)[0]); NatText(i)[0]
  }

  /** Distinct integers are written as distinct strings. */
  lemma IntTextInjective(a: int, b: int)
    requires IntText(a) == IntText(b)
    ensures a == b
  {
    var sa, sb := SignChar(a), SignChar(b);
    if a < 0 {
      assert NatText(-a) == IntText(a)[1..] == NatText(-b);
      NatTextRoundTrip(-a);
      NatTextRoundTrip(-b);
    } else {
      NatTextRoundTrip(a);
      NatTextRoundTrip(b);
    }
  }

  /** `t` is `s` with `f` applied to every character. */
  predicate MappedBy(s: string, t: string, f: char -> char)
  {
    |t| == |s| && forall i :: 0 <= i < |s| ==> t[i] == f(s[i])
  }

  /** `f` maps whitespace to whitespace and nothing else to whitespace. */
  predicate KeepsSpace(f: char -> char)
  {
    forall c :: IsSpace(f(c)) == IsSpace(c)
  }

  lemma LowerUpperKeepSpace()
    ensures KeepsSpace(LowerChar) && KeepsSpace(UpperChar)
  {
  }

  lemma {:induction false} StripLeftMapped(s: string, t: string, f: char -> char)
    requires MappedBy(s, t, f) && KeepsSpace(f)
    ensures |StripLeft(t)| == |StripLeft(s)|
    decreases |s|
  {
    if s != [] && IsSpace(s[0]) {
      assert IsSpace(t[0]);
      StripLeftMapped(s[1..], t[1..], f);
    } else if s != [] {
      assert !IsSpace(t[0]);
    }
  }

  lemma {:induction false} StripRightMapped(s: string, t: string, f: char -> char)
    requires MappedBy(s, t, f) && KeepsSpace(f)
    ensures |StripRight(t)| == |StripRight(s)|
    decreases |s|
  {
    if s != [] && IsSpace(s[|s| - 1]) {
      assert IsSpace(t[|t| - 1]);
      StripRightMapped(s[..|s| - 1], t[..|t| - 1], f);
    } else if s != [] {
      assert !IsSpace(t[|t| - 1]);
    }
  }

  lemma MappedSuffix(s: string, t: string, f: char -> char, n: nat)
    requires MappedBy(s, t, f) && n <= |s|
    ensures MappedBy(s[n..], t[n..], f)
  {
  }

  lemma MappedPrefix(s: string, t: string, f: char -> char, n: nat)
    requires MappedBy(s, t, f) && n <= |s|
    ensures MappedBy(s[..n], t[..n], f)
  {
  }

  /** Stripping commutes with a character map that keeps whitespace, such as case mapping. */
  lemma StripMapped(s: string, t: string, f: char -> char)
    requires MappedBy(s, t, f) && KeepsSpace(f)
    ensures MappedBy(Strip(s), Strip(t), f)
  {
    var l, lt := StripLeft(s), StripLeft(t);
    StripLeftMapped(s, t, f);
    MappedSuffix(s, t, f, |s| - |l|);
    StripRightMapped(l, lt, f);
    var r, rt := StripRight(l), StripRight(lt);
    MappedPrefix(l, lt, f, |r|);
    assert Strip(s) == r && Strip(t) == rt;
  }

  /** `s.strip().lower()` equals `s.lower().strip()`. */
  lemma LowerStrip(s: string)
    ensures Lower(Strip(s)) == Strip(Lower(s))
  {
    LowerUpperKeepSpace();
    StripMapped(s, Lower(s), LowerChar);
  }

  /** Upper-casing an upper-cased text changes nothing. */
  lemma UpperIdempotent(s: string)
    ensures Upper(Upper(s)) == Upper(s)
  {
  }

  /** `s.strip().upper()` equals `s.upper().strip()`. */
  lemma UpperStrip(s: string)
    ensures Upper(Strip(s)) == Strip(Upper(s))
  {
    LowerUpperKeepSpace();
    StripMapped(s, Upper(s), UpperChar);
  }

  /** Ids equal up to case are equal once stripped and lower-cased. */
  lemma LowerStripAgree(a: string, b: string)
    requires Lower(a) == Lower(b)
    ensures Lower(Strip(a)) == Lower(Strip(b))
  {
    LowerStrip(a);
    LowerStrip(b);
  }

  /** Lower-casing is idempotent. */
  lemma LowerLower(s: string)
    ensures Lower(Lower(s)) == Lower(s)
  {
  }

  /** A string with no whitespace at either end is its own `strip()`. */
  lemma {:induction false} StripStripped(s: string)
    requires s == [] || (!IsSpace(s[0]) && !IsSpace(s[|s| - 1]))
    ensures Strip(s) == s
  {
    assert StripLeft(s) == s;
    assert StripRight(s) == s;
  }

  /** A trimmed, lower-cased string is left alone by trimming and lower-casing again. */
  lemma NormalizedStable(s: string)
    ensures Lower(Strip(Lower(Strip(s)))) == Lower(Strip(s))
  {
    var t := Strip(s);
    StripStripped(t);
    LowerStrip(t);
    LowerLower(t);
  }
}
