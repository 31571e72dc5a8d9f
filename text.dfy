/** String helpers with Python's meaning: `sep.join`, `str(n)` and `int(s)` on
    decimal digits, `str.strip()`, substring search, a left-to-right literal
    `re.sub`, and `str.split(sep)`. */
module Text {

  /** `sep.join(parts)`. */
  function Join(parts: seq<string>, sep: string): string
    decreases |parts|
  {
    if |parts| == 0 then ""
    else if |parts| == 1 then parts[0]
    else parts[0] + sep + Join(parts[1..], sep)
  }

  function Newlines(n: nat): (r: string)
    ensures |r| == n && forall i :: 0 <= i < n ==> r[i] == '\n'
  {
    if n == 0 then "" else Newlines(n - 1) + "\n"
  }

  // ---------------------------------------------------------------- numbers

  predicate IsDigit(c: char) { '0' <= c <= '9' }

  predicate AllDigits(s: string) { forall i :: 0 <= i < |s| ==> IsDigit(s[i]) }

  function DigitChar(d: nat): (c: char)
    requires d < 10
    ensures IsDigit(c) && c as int - '0' as int == d
  {
    ('0' as int + d) as char
  }

  /** `str(n)` for a non-negative integer. */
  function NatToString(n: nat): (s: string)
    ensures |s| > 0 && AllDigits(s)
  {
    if n < 10 then [DigitChar(n)] else NatToString(n / 10) + [DigitChar(n % 10)]
  }

  /** The value of a string of decimal digits. */
  function DigitsValue(s: string): nat
    requires AllDigits(s)
  {
    if |s| == 0 then 0 else DigitsValue(s[..|s| - 1]) * 10 + (s[|s| - 1] as int - '0' as int)
  }

  /** The path walker's `int(key)`, with -1 when the conversion raises. */
  function ParseIndex(key: string): int {
    if |key| > 0 && AllDigits(key) then DigitsValue(key) else -1
  }

  /** `int(str(i)) == i`: a list index rendered by `str` is read back unchanged. */
  lemma {:induction false} ParseIndexOfNat(n: nat)
    ensures ParseIndex(NatToString(n)) == n
  {
    var s := NatToString(n);
    if n >= 10 {
      ParseIndexOfNat(n / 10);
      assert s[..|s| - 1] == NatToString(n / 10);
      assert DigitsValue(s) == DigitsValue(NatToString(n / 10)) * 10 + n % 10;
    }
  }

  /** A key the walker reads as a list index is a non-empty digit string. */
  lemma ParseIndexDigits(key: string)
    ensures ParseIndex(key) >= 0 <==> |key| > 0 && AllDigits(key)
  {
  }

  // ---------------------------------------------------------------- strip

  /** Python's `str.isspace` for one character. */
  predicate IsSpace(c: char) {
    || c == ' ' || ('\t' <= c <= '\r')
    || ('\U{1c}' <= c <= '\U{1f}') || c == '\U{85}' || c == '\U{a0}' || c == '\U{1680}'
    || ('\U{2000}' <= c <= '\U{200a}') || c == '\U{2028}' || c == '\U{2029}'
    || c == '\U{202f}' || c == '\U{205f}' || c == '\U{3000}'
  }

  /** The end of the whitespace run of `s` that starts at `i`. */
  function SpaceRunEnd(s: string, i: nat): (k: nat)
    requires i <= |s|
    ensures i <= k <= |s|
    ensures forall j :: i <= j < k ==> IsSpace(s[j])
    ensures k < |s| ==> !IsSpace(s[k])
    decreases |s| - i
  {
    if i < |s| && IsSpace(s[i]) then SpaceRunEnd(s, i + 1) else i
  }

  /** The start of the whitespace run of `s` that ends at `j`, going no lower than `lo`. */
  function SpaceRunStart(s: string, lo: nat, j: nat): (k: nat)
    requires lo <= j <= |s|
    ensures lo <= k <= j
    ensures forall m :: k <= m < j ==> IsSpace(s[m])
    ensures k > lo ==> !IsSpace(s[k - 1])
    decreases j
  {
    if j > lo && IsSpace(s[j - 1]) then SpaceRunStart(s, lo, j - 1) else j
  }

  /** Where `str.strip()` starts: after the leading whitespace. */
  function StripStart(s: string): nat {
    SpaceRunEnd(s, 0)
  }

  /** Where `str.strip()` ends: before the trailing whitespace that follows its start. */
  function StripEnd(s: string): nat {
    SpaceRunStart(s, StripStart(s), |s|)
  }

  /** `str.strip()`: leading and trailing whitespace removed, nothing else. */
  function Strip(s: string): string {
    s[StripStart(s)..StripEnd(s)]
  }

  predicate AllSpace(t: string) { forall i :: 0 <= i < |t| ==> IsSpace(t[i]) }

  /** The stripped string has no whitespace at either end, and it is the slice of
      `s` left once a whitespace prefix and a whitespace suffix are cut off. */
  lemma StripShape(s: string)
    ensures var r := Strip(s); var k := StripStart(s);
      && (|r| > 0 ==> !IsSpace(r[0]) && !IsSpace(r[|r| - 1]))
      && 0 <= k && k + |r| <= |s| && r == s[k..k + |r|]
      && AllSpace(s[..k]) && AllSpace(s[k + |r|..])
  {
    var k := StripStart(s);
    var e := StripEnd(s);
    forall i | 0 <= i < k ensures IsSpace(s[..k][i]) {
      assert s[..k][i] == s[i];
    }
    forall i | 0 <= i < |s| - e ensures IsSpace(s[e..][i]) {
      assert s[e..][i] == s[e + i];
    }
  }

  /** A string with no whitespace at its ends is its own `strip()`. */
  lemma StripUnchanged(s: string)
    requires |s| > 0 ==> !IsSpace(s[0]) && !IsSpace(s[|s| - 1])
    ensures Strip(s) == s
  {
  }

  // ---------------------------------------------------------------- search

  /** `p` occurs in `t` starting at index `i`. */
  predicate OccursAt(p: string, t: string, i: int) {
    0 <= i <= |t| - |p| && t[i..i + |p|] == p
  }

  /** Python's `p in t` for strings. */
  predicate Occurs(p: string, t: string) {
    exists i | 0 <= i <= |t| - |p| :: OccursAt(p, t, i)
  }

  /** `re.sub(pat, rep, s)` for a pattern that matches only the literal `pat`:
      scan from the left, replace each match, resume after it. */
  function ReplaceAll(s: string, pat: string, rep: string): string
    requires |pat| > 0
    decreases |s|
  {
    if |s| < |pat| then s
    else if s[..|pat|] == pat then rep + ReplaceAll(s[|pat|..], pat, rep)
    else [s[0]] + ReplaceAll(s[1..], pat, rep)
  }

  lemma OccursInTail(p: string, t: string)
    requires |t| > 0 && Occurs(p, t[1..])
    ensures Occurs(p, t)
  {
    var i :| 0 <= i <= |t| - 1 - |p| && OccursAt(p, t[1..], i);
    assert t[i + 1..i + 1 + |p|] == t[1..][i..i + |p|];
    assert OccursAt(p, t, i + 1);
  }

  /** Text with no occurrence of the literal comes back unchanged. */
  lemma {:induction false} ReplaceAbsent(s: string, pat: string, rep: string)
    requires |pat| > 0 && !Occurs(pat, s)
    ensures ReplaceAll(s, pat, rep) == s
    decreases |s|
  {
    if |s| >= |pat| {
      assert !OccursAt(pat, s, 0);
      if |s| > 0 {
        if Occurs(pat, s[1..]) { OccursInTail(pat, s); }
        ReplaceAbsent(s[1..], pat, rep);
      }
    }
  }

  /** Before the first occurrence, the scan moves one character on. */
  lemma ReplaceFirstStep(a: string, pat: string, b: string)
    requires |pat| > 0 && |a| > 0 && !Occurs(pat, a + pat[..|pat| - 1])
    ensures var s := a + pat + b;
      && |s| >= |pat| && s[..|pat|] != pat && s[1..] == a[1..] + pat + b
      && !Occurs(pat, a[1..] + pat[..|pat| - 1])
  {
    var s := a + pat + b;
    var w := a + pat[..|pat| - 1];
    assert s[..|pat|] == w[0..|pat|];
    assert !OccursAt(pat, w, 0);
    assert s[1..] == a[1..] + pat + b;
    var w' := a[1..] + pat[..|pat| - 1];
    if Occurs(pat, w') {
      assert w' == w[1..];
      OccursInTail(pat, w);
    }
  }

  /** The first occurrence of the literal is replaced and the text before it kept:
      if `pat` does not occur earlier (not even overlapping its own start), then
      `a + pat + b` becomes `a + rep` followed by the replacement of `b`. */
  lemma {:induction false} ReplaceFirst(a: string, pat: string, b: string, rep: string)
    requires |pat| > 0 && !Occurs(pat, a + pat[..|pat| - 1])
    ensures ReplaceAll(a + pat + b, pat, rep) == a + rep + ReplaceAll(b, pat, rep)
    decreases |a|
  {
    var s := a + pat + b;
    if |a| == 0 {
      assert s == pat + b;
      assert s[..|pat|] == pat;
      assert s[|pat|..] == b;
    } else {
      ReplaceFirstStep(a, pat, b);
      ReplaceFirst(a[1..], pat, b, rep);
      assert s[0] == a[0];
      assert [a[0]] + (a[1..] + rep + ReplaceAll(b, pat, rep)) == a + rep + ReplaceAll(b, pat, rep);
    }
  }

  // ---------------------------------------------------------------- split

  /** `s.split(sep)` for a non-empty separator. */
  function Split(s: string, sep: string): (r: seq<string>)
    requires |sep| > 0
    ensures |r| > 0
    decreases |s|
  {
    if |s| < |sep| then [s]
    else if s[..|sep|] == sep then [""] + Split(s[|sep|..], sep)
    else
      var rest := Split(s[1..], sep);
      [[s[0]] + rest[0]] + rest[1..]
  }

  lemma JoinAfterEmpty(rest: seq<string>, sep: string)
    requires |rest| > 0
    ensures Join([""] + rest, sep) == sep + Join(rest, sep)
  {
    assert ([""] + rest)[1..] == rest;
  }

  lemma JoinExtendHead(c: char, rest: seq<string>, sep: string)
    requires |rest| > 0
    ensures Join([[c] + rest[0]] + rest[1..], sep) == [c] + Join(rest, sep)
  {
    var r := [[c] + rest[0]] + rest[1..];
    if |rest| > 1 {
      assert r[1..] == rest[1..];
    }
  }

  /** Joining the pieces with the separator gives back the string. */
  lemma {:induction false} JoinSplit(s: string, sep: string)
    requires |sep| > 0
    ensures Join(Split(s, sep), sep) == s
    decreases |s|
  {
    if |s| < |sep| {
    } else if s[..|sep|] == sep {
      JoinSplit(s[|sep|..], sep);
      JoinAfterEmpty(Split(s[|sep|..], sep), sep);
      assert s == sep + s[|sep|..];
    } else {
      JoinSplit(s[1..], sep);
      JoinExtendHead(s[0], Split(s[1..], sep), sep);
      assert s == [s[0]] + s[1..];
    }
  }

  /** The first piece is a prefix of the string. */
  lemma {:induction false} SplitHeadPrefix(s: string, sep: string)
    requires |sep| > 0
    ensures var h := Split(s, sep)[0]; |h| <= |s| && s[..|h|] == h
    decreases |s|
  {
    if |s| >= |sep| && s[..|sep|] != sep {
      SplitHeadPrefix(s[1..], sep);
    }
  }

  /** No piece contains the separator. */
  lemma {:induction false} SplitPiecesFree(s: string, sep: string)
    requires |sep| > 0
    ensures forall piece :: piece in Split(s, sep) ==> !Occurs(sep, piece)
    decreases |s|
  {
    var r := Split(s, sep);
    if |s| < |sep| {
      forall piece | piece in r ensures !Occurs(sep, piece) {
        assert piece == s;
      }
    } else if s[..|sep|] == sep {
      SplitPiecesFree(s[|sep|..], sep);
      forall piece | piece in r ensures !Occurs(sep, piece) {
        if piece == "" {
        } else {
          assert piece in Split(s[|sep|..], sep);
        }
      }
    } else {
      var rest := Split(s[1..], sep);
      SplitPiecesFree(s[1..], sep);
      SplitHeadPrefix(s[1..], sep);
      var h := [s[0]] + rest[0];
      assert rest[0] in rest;
      forall i | 0 <= i <= |h| - |sep| ensures !OccursAt(sep, h, i) {
        if i == 0 {
          forall j | 0 <= j < |sep| ensures h[..|sep|][j] == s[..|sep|][j] {
            if j > 0 { assert h[j] == rest[0][j - 1] == s[1..][j - 1]; }
          }
        } else {
          assert h[i..i + |sep|] == rest[0][i - 1..i - 1 + |sep|];
          assert !OccursAt(sep, rest[0], i - 1);
        }
      }
      forall piece | piece in r ensures !Occurs(sep, piece) {
        if piece != h {
          assert piece in rest[1..];
          assert piece in rest;
        }
      }
    }
  }
  /** A string without the separator is a single piece, and a string with it is not. */
  lemma {:induction false} SplitAbsent(s: string, sep: string)
    requires |sep| > 0
    ensures Split(s, sep) == [s] <==> !Occurs(sep, s)
    decreases |s|
  {
    if !Occurs(sep, s) {
      if |s| >= |sep| {
        assert !OccursAt(sep, s, 0);
        assert s[..|sep|] != sep;
        if Occurs(sep, s[1..]) {
          OccursInTail(sep, s);
        }
        SplitAbsent(s[1..], sep);
        assert [s[0]] + s[1..] == s;
      }
    } else {
      SplitPiecesFree(s, sep);
      assert s !in Split(s, sep);
      assert s in [s];
    }
  }
}
