/**
 * The parts of Go's `strings`, `strconv`/`fmt` and `unicode/utf8` packages
 * that the modelled code calls, over `string` (a sequence of Unicode scalar
 * values). Each definition follows the Go function's documented behaviour;
 * the lemmas relate each one to an independent description of its result.
 */
module Strings {

  import opened Wrappers

  // ---------------------------------------------------------------- prefixes

  predicate HasPrefix(s: string, p: string) {
    |p| <= |s| && s[..|p|] == p
  }

  predicate HasSuffix(s: string, p: string) {
    |p| <= |s| && s[|s| - |p|..] == p
  }

  /** `sub` occurs in `s` starting at index `i`. */
  predicate OccursAt(s: string, sub: string, i: int) {
    0 <= i && i + |sub| <= |s| && s[i..i + |sub|] == sub
  }

  /** Go's `strings.Contains`, as a left-to-right scan. */
  predicate Contains(s: string, sub: string)
    decreases |s|
  {
    HasPrefix(s, sub) || (|s| > 0 && Contains(s[1..], sub))
  }

  /** The scan finds `sub` exactly when it occurs at some index. */
  lemma ContainsIff(s: string, sub: string)
    ensures Contains(s, sub) <==> exists i :: OccursAt(s, sub, i)
  {
    if Contains(s, sub) {
      var i := ContainsWitness(s, sub);
    }
    forall i | OccursAt(s, sub, i) ensures Contains(s, sub) {
      OccursContains(s, sub, i);
    }
  }

  /** When the scan succeeds, it has found an index where `sub` occurs. */
  lemma {:induction false} ContainsWitness(s: string, sub: string) returns (i: int)
    requires Contains(s, sub)
    ensures OccursAt(s, sub, i)
    decreases |s|
  {
    if HasPrefix(s, sub) {
      i := 0;
    } else {
      var j := ContainsWitness(s[1..], sub);
      assert s[1..][j..j + |sub|] == s[j + 1..j + 1 + |sub|];
      i := j + 1;
    }
  }

  /** An occurrence at any index is found by the scan. */
  lemma {:induction false} OccursContains(s: string, sub: string, i: int)
    requires OccursAt(s, sub, i)
    ensures Contains(s, sub)
    decreases i
  {
    if i > 0 {
      assert s[1..][i - 1..i - 1 + |sub|] == s[i..i + |sub|];
      OccursContains(s[1..], sub, i - 1);
    }
  }

  /** Every string contains the empty string. */
  lemma ContainsEmpty(s: string)
    ensures Contains(s, "")
  {
    assert s[..0] == "";
  }

  // ---------------------------------------------------------------- trimming

  /** Go's `strings.TrimLeft(s, cutset)`: drop leading characters of `cut`. */
  function TrimLeft(s: string, cut: set<char>): (r: string)
    ensures |r| <= |s| && r == s[|s| - |r|..]
    ensures r == [] || r[0] !in cut
    ensures forall k :: 0 <= k < |s| - |r| ==> s[k] in cut
    decreases |s|
  {
    if |s| > 0 && s[0] in cut then TrimLeft(s[1..], cut) else s
  }

  /** Go's `strings.TrimRight(s, cutset)`: drop trailing characters of `cut`. */
  function TrimRight(s: string, cut: set<char>): (r: string)
    ensures |r| <= |s| && r == s[..|r|]
    ensures r == [] || r[|r| - 1] !in cut
    ensures forall k :: |r| <= k < |s| ==> s[k] in cut
    decreases |s|
  {
    if |s| > 0 && s[|s| - 1] in cut then TrimRight(s[..|s| - 1], cut) else s
  }

  /** Go's `strings.Trim(s, cutset)`. */
  function Trim(s: string, cut: set<char>): string {
    TrimRight(TrimLeft(s, cut), cut)
  }

  /** Trimming removes a prefix and a suffix made of cut characters and nothing else. */
  lemma TrimIsSlice(s: string, cut: set<char>)
    ensures exists i, j ::
      && 0 <= i <= j <= |s| && Trim(s, cut) == s[i..j]
      && (forall k :: 0 <= k < i ==> s[k] in cut)
      && (forall k :: j <= k < |s| ==> s[k] in cut)
  {
    var l := TrimLeft(s, cut);
    var i := |s| - |l|;
    var r := TrimRight(l, cut);
    var j := i + |r|;
    assert l == s[i..] && r == l[..|r|];
    assert l[..|r|] == s[i..j];
    forall k | j <= k < |s| ensures s[k] in cut {
      assert s[k] == l[k - i];
    }
    assert Trim(s, cut) == s[i..j];
  }

  /** Trimming introduces no character. */
  lemma TrimKeepsChars(s: string, cut: set<char>, x: char)
    requires x in Trim(s, cut)
    ensures x in s
  {
    TrimIsSlice(s, cut);
    var i, j :| 0 <= i <= j <= |s| && Trim(s, cut) == s[i..j];
    var t := Trim(s, cut);
    var k :| 0 <= k < |t| && t[k] == x;
    assert s[i + k] == x;
  }

  /** The characters Go's `unicode.IsSpace` accepts (and so `strings.TrimSpace` removes). */
  const Whitespace: set<char> :=
    {'\U{9}', '\U{A}', '\U{B}', '\U{C}', '\U{D}', '\U{20}', '\U{85}', '\U{A0}', '\U{1680}', '\U{2000}', '\U{2001}', '\U{2002}', '\U{2003}', '\U{2004}', '\U{2005}', '\U{2006}', '\U{2007}', '\U{2008}', '\U{2009}', '\U{200A}', '\U{2028}', '\U{2029}', '\U{202F}', '\U{205F}', '\U{3000}'}

  /** Go's `strings.TrimSpace`. */
  function TrimSpace(s: string): string {
    Trim(s, Whitespace)
  }

  /** Empty or white space only. */
  predicate Blank(s: string) {
    forall k :: 0 <= k < |s| ==> s[k] in Whitespace
  }

  /** A blank string (empty or spaces only) trims to the empty string, and only a blank one does. */
  lemma TrimSpaceEmptyIff(s: string)
    ensures TrimSpace(s) == "" <==> forall k :: 0 <= k < |s| ==> s[k] in Whitespace
  {
    if forall k :: 0 <= k < |s| ==> s[k] in Whitespace {
      TrimLeftAll(s, Whitespace);
    }
  }

  lemma {:induction false} TrimLeftAll(s: string, cut: set<char>)
    requires forall k :: 0 <= k < |s| ==> s[k] in cut
    ensures TrimLeft(s, cut) == []
    decreases |s|
  {
    if s != [] {
      TrimLeftAll(s[1..], cut);
    }
  }

  /** Trimming a trimmed string changes nothing. */
  lemma {:induction false} TrimIdempotent(s: string, cut: set<char>)
    ensures Trim(Trim(s, cut), cut) == Trim(s, cut)
  {
    var l := TrimLeft(s, cut);
    var r := TrimRight(l, cut);
    if r != [] {
      assert r[0] == l[0] && r[0] !in cut;
      assert TrimLeft(r, cut) == r;
      assert r[|r| - 1] !in cut;
      assert TrimRight(r, cut) == r;
    } else {
      assert TrimLeft(r, cut) == r;
      assert TrimRight(r, cut) == r;
    }
    assert Trim(s, cut) == r;
    assert Trim(r, cut) == TrimRight(TrimLeft(r, cut), cut);
  }

  // ------------------------------------------------------------ letter case

  /** ASCII lower-casing of one character. */
  function LowerChar(c: char): char {
    if 'A' <= c <= 'Z' then (c as int + 32) as char else c
  }

  /** ASCII upper-casing of one character. */
  function UpperChar(c: char): char {
    if 'a' <= c <= 'z' then (c as int - 32) as char else c
  }

  /** `strings.ToLower`, restricted to ASCII letters. */
  function ToLower(s: string): (r: string)
    ensures |r| == |s|
    ensures forall k :: 0 <= k < |s| ==> r[k] == LowerChar(s[k])
  {
    seq(|s|, k requires 0 <= k < |s| => LowerChar(s[k]))
  }

  /** A set of characters that lower-casing neither enters nor leaves. */
  predicate CaseBlind(cut: set<char>) {
    forall c :: c in cut <==> LowerChar(c) in cut
  }

  lemma WhitespaceCaseBlind()
    ensures CaseBlind(Whitespace)
  {
  }

  lemma {:induction false} TrimLeftToLower(s: string, cut: set<char>)
    requires CaseBlind(cut)
    ensures TrimLeft(ToLower(s), cut) == ToLower(TrimLeft(s, cut))
    decreases |s|
  {
    if |s| > 0 {
      assert ToLower(s)[1..] == ToLower(s[1..]);
      TrimLeftToLower(s[1..], cut);
    }
  }

  lemma {:induction false} TrimRightToLower(s: string, cut: set<char>)
    requires CaseBlind(cut)
    ensures TrimRight(ToLower(s), cut) == ToLower(TrimRight(s, cut))
    decreases |s|
  {
    if |s| > 0 {
      assert ToLower(s)[..|s| - 1] == ToLower(s[..|s| - 1]);
      TrimRightToLower(s[..|s| - 1], cut);
    }
  }

  /** Trimming white space and lower-casing can be done in either order. */
  lemma TrimSpaceToLower(s: string)
    ensures TrimSpace(ToLower(s)) == ToLower(TrimSpace(s))
  {
    WhitespaceCaseBlind();
    TrimLeftToLower(s, Whitespace);
    TrimRightToLower(TrimLeft(s, Whitespace), Whitespace);
  }

  /** Lower-casing twice is lower-casing once. */
  lemma ToLowerIdempotent(s: string)
    ensures ToLower(ToLower(s)) == ToLower(s)
  {
  }

  // ---------------------------------------------------------------- splitting

  /** Go's `strings.Split(s, sep)` for a one-character separator. */
  function Split(s: string, sep: char): (r: seq<string>)
    ensures |r| >= 1
    decreases |s|
  {
    if s == [] then [""]
    else
      var rest := Split(s[1..], sep);
      if s[0] == sep then [""] + rest else [[s[0]] + rest[0]] + rest[1..]
  }

  /** Go's `strings.Join(parts, sep)` for a one-character separator. */
  function Join(parts: seq<string>, sep: char): string
    requires |parts| >= 1
    decreases |parts|
  {
    if |parts| == 1 then parts[0] else parts[0] + [sep] + Join(parts[1..], sep)
  }

  /** Split and Join are inverse: joining the pieces gives back the string. */
  lemma {:induction false} JoinSplit(s: string, sep: char)
    ensures Join(Split(s, sep), sep) == s
    decreases |s|
  {
    if s != [] {
      var rest := Split(s[1..], sep);
      JoinSplit(s[1..], sep);
      if s[0] == sep {
        assert Split(s, sep)[1..] == rest;
      } else {
        var r := Split(s, sep);
        if |rest| == 1 {
          assert r == [[s[0]] + rest[0]];
        } else {
          assert r[1..] == rest[1..];
          assert Join(rest, sep) == rest[0] + [sep] + Join(rest[1..], sep);
        }
      }
    }
  }

  /** No piece of a split contains the separator. */
  lemma {:induction false} SplitPiecesFree(s: string, sep: char)
    ensures forall p :: p in Split(s, sep) ==> sep !in p
    decreases |s|
  {
    if s != [] {
      SplitPiecesFree(s[1..], sep);
      var rest := Split(s[1..], sep);
      assert rest[0] in rest;
      forall p | p in rest[1..] ensures p in rest { }
    }
  }

  /** A string without the separator splits into itself alone. */
  lemma {:induction false} SplitNoSep(s: string, sep: char)
    requires sep !in s
    ensures Split(s, sep) == [s]
    decreases |s|
  {
    if s != [] {
      SplitNoSep(s[1..], sep);
      assert [s[0]] + s[1..] == s;
    }
  }

  /** A separator-free prefix ending at a separator is the first piece. */
  lemma {:induction false} SplitAtSep(a: string, b: string, sep: char)
    requires sep !in a
    ensures Split(a + [sep] + b, sep) == [a] + Split(b, sep)
    decreases |a|
  {
    var s := a + [sep] + b;
    if a == [] {
      assert s == [sep] + b;
      assert s[1..] == b;
    } else {
      assert s[1..] == a[1..] + [sep] + b;
      SplitAtSep(a[1..], b, sep);
      assert [a[0]] + a[1..] == a;
    }
  }

  /** Joining separator-free pieces and splitting again gives the pieces back. */
  lemma {:induction false} SplitJoin(parts: seq<string>, sep: char)
    requires |parts| >= 1 && forall k :: 0 <= k < |parts| ==> sep !in parts[k]
    ensures Split(Join(parts, sep), sep) == parts
    decreases |parts|
  {
    if |parts| == 1 {
      SplitNoSep(parts[0], sep);
    } else {
      SplitJoin(parts[1..], sep);
      SplitAtSep(parts[0], Join(parts[1..], sep), sep);
      assert [parts[0]] + parts[1..] == parts;
    }
  }

  /** The number of pieces is one more than the number of separators. */
  lemma {:induction false} SplitCount(s: string, sep: char)
    ensures |Split(s, sep)| == CountChar(s, sep) + 1
    decreases |s|
  {
    if s != [] {
      SplitCount(s[1..], sep);
    }
  }

  /** How many times `c` occurs in `s`. */
  function CountChar(s: string, c: char): nat
    decreases |s|
  {
    if s == [] then 0 else (if s[0] == c then 1 else 0) + CountChar(s[1..], c)
  }

  // -------------------------------------------------------------- replacing

  /** Go's `strings.ReplaceAll(s, pat, rep)` for a non-empty `pat`:
      leftmost, non-overlapping occurrences are replaced. */
  function ReplaceAll(s: string, pat: string, rep: string): string
    requires |pat| > 0
    decreases |s|
  {
    if HasPrefix(s, pat) then rep + ReplaceAll(s[|pat|..], pat, rep)
    else if s == [] then []
    else [s[0]] + ReplaceAll(s[1..], pat, rep)
  }

  /** Go's `strings.Count(s, pat)` for a non-empty `pat`. */
  function Count(s: string, pat: string): nat
    requires |pat| > 0
    decreases |s|
  {
    if HasPrefix(s, pat) then 1 + Count(s[|pat|..], pat)
    else if s == [] then 0
    else Count(s[1..], pat)
  }

  /** Each replaced occurrence changes the length by `|rep| - |pat|`. */
  lemma {:induction false} ReplaceAllLength(s: string, pat: string, rep: string)
    requires |pat| > 0
    ensures |ReplaceAll(s, pat, rep)| == |s| + Count(s, pat) * (|rep| - |pat|)
    decreases |s|
  {
    var k := |rep| - |pat|;
    if HasPrefix(s, pat) {
      var c := Count(s[|pat|..], pat);
      ReplaceAllLength(s[|pat|..], pat, rep);
      assert (1 + c) * k == k + c * k;
    } else if s != [] {
      ReplaceAllLength(s[1..], pat, rep);
    }
  }

  /** With nothing to replace, ReplaceAll returns its input. */
  lemma {:induction false} ReplaceAllAbsent(s: string, pat: string, rep: string)
    requires |pat| > 0 && !Contains(s, pat)
    ensures ReplaceAll(s, pat, rep) == s
    decreases |s|
  {
    if s != [] {
      ReplaceAllAbsent(s[1..], pat, rep);
    }
  }

  /** Replacing one character by another maps the string character by character. */
  lemma {:induction false} ReplaceCharByChar(s: string, c: char, d: char)
    ensures |ReplaceAll(s, [c], [d])| == |s|
    ensures forall k :: 0 <= k < |s| ==>
      ReplaceAll(s, [c], [d])[k] == (if s[k] == c then d else s[k])
    decreases |s|
  {
    if s != [] {
      ReplaceCharByChar(s[1..], c, d);
      assert HasPrefix(s, [c]) <==> s[0] == c;
    }
  }

  /** Replacing a character by nothing deletes every occurrence of it. */
  lemma {:induction false} ReplaceCharByNothing(s: string, c: char)
    ensures c !in ReplaceAll(s, [c], "")
    ensures |ReplaceAll(s, [c], "")| == |s| - CountChar(s, c)
    decreases |s|
  {
    if s != [] {
      ReplaceCharByNothing(s[1..], c);
      assert HasPrefix(s, [c]) <==> s[0] == c;
    }
  }

  /** `s` with every occurrence of `c` taken out, the rest in order. */
  function Drop(s: string, c: char): (r: string)
    ensures c !in r
    ensures |r| == |s| - CountChar(s, c)
    decreases |s|
  {
    if s == [] then [] else (if s[0] == c then [] else [s[0]]) + Drop(s[1..], c)
  }

  /** Replacing a single character by nothing is dropping it. */
  lemma {:induction false} ReplaceCharByNothingIsDrop(s: string, c: char)
    ensures ReplaceAll(s, [c], "") == Drop(s, c)
    decreases |s|
  {
    if s != [] {
      ReplaceCharByNothingIsDrop(s[1..], c);
      assert HasPrefix(s, [c]) <==> s[0] == c;
    }
  }

  /** Replacing introduces only characters of the replacement. */
  lemma {:induction false} ReplaceAllChars(s: string, pat: string, rep: string, x: char)
    requires |pat| > 0 && x !in s && x !in rep
    ensures x !in ReplaceAll(s, pat, rep)
    decreases |s|
  {
    if HasPrefix(s, pat) {
      assert s[|pat|..] == s[|pat|..];
      assert forall k :: 0 <= k < |s| - |pat| ==> s[|pat|..][k] == s[|pat| + k];
      ReplaceAllChars(s[|pat|..], pat, rep, x);
    } else if s != [] {
      assert forall k :: 0 <= k < |s| - 1 ==> s[1..][k] == s[1 + k];
      ReplaceAllChars(s[1..], pat, rep, x);
    }
  }

  /** Text before any character that starts the pattern is kept as it is. */
  lemma {:induction false} ReplaceAllPlainPrefix(a: string, t: string, pat: string, rep: string)
    requires |pat| > 0 && pat[0] !in a
    ensures ReplaceAll(a + t, pat, rep) == a + ReplaceAll(t, pat, rep)
    decreases |a|
  {
    if a == [] {
      assert a + t == t;
    } else {
      var s := a + t;
      assert s[0] == a[0] && !HasPrefix(s, pat);
      assert s[1..] == a[1..] + t;
      ReplaceAllPlainPrefix(a[1..], t, pat, rep);
      assert [a[0]] + (a[1..] + ReplaceAll(t, pat, rep)) == a + ReplaceAll(t, pat, rep);
    }
  }

  /** An occurrence at the front is replaced and the scan resumes after it. */
  lemma ReplaceAllAtFront(pat: string, t: string, rep: string)
    requires |pat| > 0
    ensures ReplaceAll(pat + t, pat, rep) == rep + ReplaceAll(t, pat, rep)
  {
    assert (pat + t)[..|pat|] == pat;
    assert (pat + t)[|pat|..] == t;
  }

  /** A string in which the pattern's first character does not occur is left alone. */
  lemma ReplaceAllUntouched(b: string, pat: string, rep: string)
    requires |pat| > 0 && pat[0] !in b
    ensures ReplaceAll(b, pat, rep) == b
  {
    ReplaceAllPlainPrefix(b, [], pat, rep);
    assert b + [] == b;
  }

  // ----------------------------------------------------------------- numbers

  function DigitChar(d: nat): (c: char)
    requires d < 10
    ensures IsDigit(c) && DigitValue(c) == d
  {
    ('0' as int + d) as char
  }

  predicate IsDigit(c: char) {
    '0' <= c <= '9'
  }

  function DigitValue(c: char): nat
    requires IsDigit(c)
  {
    c as int - '0' as int
  }

  /** Decimal digits of a natural number, without leading zeros (`"0"` for zero). */
  function NatToString(n: nat): (r: string)
    ensures |r| >= 1
    ensures forall k :: 0 <= k < |r| ==> IsDigit(r[k])
    decreases n
  {
    if n < 10 then [DigitChar(n)] else NatToString(n / 10) + [DigitChar(n % 10)]
  }

  /** Go's `fmt.Sprintf("%d", n)`. */
  function IntToString(n: int): string {
    if n < 0 then "-" + NatToString(-n) else NatToString(n)
  }

  /** The value of a string of decimal digits. */
  function DigitsValue(s: string): nat
    requires forall k :: 0 <= k < |s| ==> IsDigit(s[k])
    decreases |s|
  {
    if s == [] then 0 else DigitsValue(s[..|s| - 1]) * 10 + DigitValue(s[|s| - 1])
  }

  predicate AllDigits(s: string) {
    forall k :: 0 <= k < |s| ==> IsDigit(s[k])
  }

  /** Decimal integer syntax: an optional `-` and at least one digit. */
  function ParseInt(s: string): Option<int> {
    if |s| > 0 && s[0] == '-' then
      (if |s| > 1 && AllDigits(s[1..]) then Some(-(DigitsValue(s[1..]) as int)) else None)
    else if |s| > 0 && AllDigits(s) then Some(DigitsValue(s) as int)
    else None
  }

  lemma {:induction false} NatToStringValue(n: nat)
    ensures DigitsValue(NatToString(n)) == n
    decreases n
  {
    if n >= 10 {
      NatToStringValue(n / 10);
      var r := NatToString(n);
      assert r[..|r| - 1] == NatToString(n / 10);
    }
  }

  /** `%d` formatting parses back to the number it printed. */
  lemma IntToStringRoundTrip(n: int)
    ensures ParseInt(IntToString(n)) == Some(n)
  {
    if n < 0 {
      NatToStringValue(-n);
      assert IntToString(n)[1..] == NatToString(-n);
    } else {
      NatToStringValue(n);
    }
  }

  // ------------------------------------------------------------------ UTF-8

  /** Bytes one character takes in UTF-8. */
  function Utf8Width(c: char): nat {
    if c as int < 0x80 then 1 else if c as int < 0x800 then 2 else if c as int < 0x10000 then 3 else 4
  }

  /** Go's `len(s)`: the UTF-8 byte length of a string. */
  function Utf8Len(s: string): (n: nat)
    ensures n >= |s|
    ensures n <= 4 * |s|
    decreases |s|
  {
    if s == [] then 0 else Utf8Width(s[0]) + Utf8Len(s[1..])
  }
}
