/**
 * The string operations the data layer relies on, with JavaScript's meaning:
 * `indexOf`/`includes`, `replace` with a string pattern, `trim`,
 * `toLowerCase` (ASCII letters only), `Number.prototype.toString` and
 * `parseInt` (base 10).
 */
module Text {
  import opened Wrappers

  // ---------------------------------------------------------------- search

  /** `pat` occurs in `s` starting at index `i`. */
  predicate OccursAt(s: string, pat: string, i: int) {
    0 <= i && i + |pat| <= |s| && s[i..i + |pat|] == pat
  }

  /** The first index at or after `from` where `pat` occurs in `s`. */
  function IndexFrom(s: string, pat: string, from: nat): (r: Option<nat>)
    decreases |s| - from
    ensures r.Some? ==> from <= r.value && OccursAt(s, pat, r.value)
    ensures r.Some? ==> forall j :: from <= j < r.value ==> !OccursAt(s, pat, j)
    ensures r.None? ==> forall j :: from <= j ==> !OccursAt(s, pat, j)
  {
    if from + |pat| > |s| then None
    else if s[from..from + |pat|] == pat then Some(from)
    else IndexFrom(s, pat, from + 1)
  }

  /** `s.indexOf(pat)`, with -1 as None. */
  function IndexOf(s: string, pat: string): (r: Option<nat>)
    ensures r.Some? ==> OccursAt(s, pat, r.value) && forall j :: 0 <= j < r.value ==> !OccursAt(s, pat, j)
    ensures r.None? <==> forall j :: !OccursAt(s, pat, j)
  {
    IndexFrom(s, pat, 0)
  }

  /** `s.includes(pat)`. */
  predicate Contains(s: string, pat: string)
    ensures Contains(s, pat) <==> exists j :: OccursAt(s, pat, j)
  {
    IndexOf(s, pat).Some?
  }

  /** `s.startsWith(p)`. */
  predicate StartsWith(s: string, p: string) {
    |p| <= |s| && s[..|p|] == p
  }

  /** An empty query is contained in every string. */
  lemma EmptyContained(s: string)
    ensures Contains(s, "")
  {
    assert OccursAt(s, "", 0);
  }

  /**
   * `s.replace(pat, rep)` with a string pattern: only the first occurrence
   * is replaced; without an occurrence `s` is returned unchanged.
   */
  function ReplaceFirst(s: string, pat: string, rep: string): (r: string)
    ensures IndexOf(s, pat).None? ==> r == s
    ensures IndexOf(s, pat).Some? ==>
      var i := IndexOf(s, pat).value;
      r == s[..i] + rep + s[i + |pat|..]
  {
    match IndexOf(s, pat)
    case None => s
    case Some(i) => s[..i] + rep + s[i + |pat|..]
  }

  /** When the text before a placeholder has no ':', the placeholder is the first match of ':'-led patterns. */
  lemma {:induction false} ReplaceAfterColonFree(p: string, key: string, q: string, rep: string)
    requires ':' !in p
    ensures ReplaceFirst(p + ":" + key + q, ":" + key, rep) == p + rep + q
  {
    var s := p + ":" + key + q;
    var pat := ":" + key;
    assert OccursAt(s, pat, |p|) by {
      assert s[|p|..|p| + |pat|] == pat;
    }
    forall j | 0 <= j < |p|
      ensures !OccursAt(s, pat, j)
    {
      assert s[j] == p[j] != ':';
      assert pat[0] == ':';
      assert s[j..j + |pat|][0] == s[j];
    }
    var i := IndexOf(s, pat).value;
    assert i == |p|;
    assert s[..i] == p;
    assert s[i + |pat|..] == q;
  }

  // ---------------------------------------------------------------- case

  /** `toLowerCase` on one character, for ASCII letters. */
  function LowerChar(c: char): char {
    if 'A' <= c <= 'Z' then (c as int + 32) as char else c
  }

  /** `s.toLowerCase()` for ASCII text. */
  function Lower(s: string): (r: string)
    ensures |r| == |s| && forall i :: 0 <= i < |s| ==> r[i] == LowerChar(s[i])
  {
    seq(|s|, i requires 0 <= i < |s| => LowerChar(s[i]))
  }

  /** `a.toLowerCase() === b.toLowerCase()`. */
  predicate EqualsIgnoringCase(a: string, b: string) {
    Lower(a) == Lower(b)
  }

  /** `s.toLowerCase().includes(q.toLowerCase())`. */
  predicate ContainsIgnoringCase(s: string, q: string) {
    Contains(Lower(s), Lower(q))
  }

  // ---------------------------------------------------------------- trim

  /** The characters `String.prototype.trim` removes: white space and line terminators. */
  predicate IsWhitespace(c: char) {
    var n := c as int;
    n == 0x09 || n == 0x0A || n == 0x0B || n == 0x0C || n == 0x0D || n == 0x20 ||
    n == 0xA0 || n == 0x1680 || (0x2000 <= n <= 0x200A) || n == 0x2028 || n == 0x2029 ||
    n == 0x202F || n == 0x205F || n == 0x3000 || n == 0xFEFF
  }

  /** `s.trimStart()`: the suffix left after dropping leading white space. */
  function TrimStart(s: string): (r: string)
    ensures |r| <= |s| && r == s[|s| - |r|..]
    ensures r == [] || !IsWhitespace(r[0])
    ensures forall i :: 0 <= i < |s| - |r| ==> IsWhitespace(s[i])
  {
    if s != [] && IsWhitespace(s[0]) then TrimStart(s[1..]) else s
  }

  /** `s.trimEnd()`: the prefix left after dropping trailing white space. */
  function TrimEnd(s: string): (r: string)
    ensures |r| <= |s| && r == s[..|r|]
    ensures r == [] || !IsWhitespace(r[|r| - 1])
    ensures forall i :: |r| <= i < |s| ==> IsWhitespace(s[i])
  {
    if s != [] && IsWhitespace(s[|s| - 1]) then TrimEnd(s[..|s| - 1]) else s
  }

  /** `s.trim()`. */
  function Trim(s: string): string {
    TrimEnd(TrimStart(s))
  }

  /** A string of white space only trims to nothing at the start. */
  lemma {:induction false} AllSpaceTrimsAway(s: string)
    requires forall i :: 0 <= i < |s| ==> IsWhitespace(s[i])
    ensures TrimStart(s) == []
  {
    if s != [] {
      assert IsWhitespace(s[0]);
      AllSpaceTrimsAway(s[1..]);
    }
  }

  /** A non-space character at index `j` survives `trimStart`, shifted left by what was dropped. */
  lemma TrimStartKeepsAt(s: string, j: int)
    requires 0 <= j < |s| && !IsWhitespace(s[j])
    ensures |s| - |TrimStart(s)| <= j && TrimStart(s)[j - (|s| - |TrimStart(s)|)] == s[j]
  {
  }

  /** A non-space character at index `j` is still at `j` after `trimEnd`. */
  lemma TrimEndKeepsAt(s: string, j: int)
    requires 0 <= j < |s| && !IsWhitespace(s[j])
    ensures j < |TrimEnd(s)| && TrimEnd(s)[j] == s[j]
  {
  }

  /** A non-space character survives `trim`. */
  lemma TrimKeepsAt(s: string, j: int)
    requires 0 <= j < |s| && !IsWhitespace(s[j])
    ensures s[j] in Trim(s)
  {
    TrimStartKeepsAt(s, j);
    var t := TrimStart(s);
    var k := j - (|s| - |t|);
    TrimEndKeepsAt(t, k);
    assert TrimEnd(t)[k] == s[j];
  }

  /** A string is empty after trimming exactly when it consists of white space only. */
  lemma TrimEmptyIff(s: string)
    ensures Trim(s) == "" <==> forall i :: 0 <= i < |s| ==> IsWhitespace(s[i])
  {
    if forall i :: 0 <= i < |s| ==> IsWhitespace(s[i]) {
      AllSpaceTrimsAway(s);
    } else {
      var j :| 0 <= j < |s| && !IsWhitespace(s[j]);
      TrimKeepsAt(s, j);
    }
  }

  // ---------------------------------------------------------------- numbers

  predicate IsDigit(c: char) {
    '0' <= c <= '9'
  }

  predicate AllDigits(s: string) {
    forall i :: 0 <= i < |s| ==> IsDigit(s[i])
  }

  function DigitChar(d: nat): (c: char)
    requires d < 10
    ensures IsDigit(c) && c as int - '0' as int == d
  {
    ('0' as int + d) as char
  }

  /** The decimal digits of `n`, most significant first, without leading zeros. */
  function NatToString(n: nat): (r: string)
    ensures |r| >= 1 && AllDigits(r)
    decreases n
  {
    if n < 10 then [DigitChar(n)] else NatToString(n / 10) + [DigitChar(n % 10)]
  }

  /** `n.toString()` for an integer `n`. */
  function IntToString(n: int): (r: string)
    ensures ':' !in r
  {
    if n < 0 then "-" + NatToString(-n) else NatToString(n)
  }

  /** The value of a run of decimal digits. */
  function DigitsValue(s: string): nat
    requires AllDigits(s)
  {
    if s == [] then 0 else DigitsValue(s[..|s| - 1]) * 10 + (s[|s| - 1] as int - '0' as int)
  }

  /** The length of the run of digits that starts `s`. */
  function LeadingDigits(s: string): (k: nat)
    ensures k <= |s| && AllDigits(s[..k]) && (k < |s| ==> !IsDigit(s[k]))
  {
    if s != [] && IsDigit(s[0]) then
      var j := LeadingDigits(s[1..]);
      DigitsExtend(s, j);
      1 + j
    else 0
  }

  lemma DigitsExtend(s: string, j: nat)
    requires s != [] && IsDigit(s[0]) && j < |s| && AllDigits(s[1..][..j])
    ensures AllDigits(s[..j + 1])
  {
    forall i | 0 < i <= j
      ensures IsDigit(s[i])
    {
      assert s[i] == s[1..][..j][i - 1];
    }
  }

  /** The longest run of digits that starts `t`, read as a number; None when there is none. */
  function ParseDigits(t: string): Option<nat> {
    var k := LeadingDigits(t);
    if k == 0 then None else Some(DigitsValue(t[..k]))
  }

  /** An optional sign, then digits. */
  function ParseSigned(t: string): Option<int> {
    if t != [] && t[0] == '-' then
      match ParseDigits(t[1..])
      case None => None
      case Some(m) => Some(-(m as int))
    else if t != [] && t[0] == '+' then
      match ParseDigits(t[1..])
      case None => None
      case Some(m) => Some(m as int)
    else
      match ParseDigits(t)
      case None => None
      case Some(m) => Some(m as int)
  }

  /**
   * `parseInt(s)` read in base 10: leading white space is skipped, an optional
   * sign is read, then the longest run of digits; None stands for NaN (no
   * digit). Called without a radix, `parseInt` reads a `0x`/`0X` prefix as
   * hexadecimal; that branch is not modelled. The services only ever send ids
   * rendered by `IntToString`, which never start so.
   */
  function ParseInt(s: string): Option<int> {
    ParseSigned(TrimStart(s))
  }

  lemma {:induction false} NatToStringValue(n: nat)
    ensures DigitsValue(NatToString(n)) == n
    decreases n
  {
    if n >= 10 {
      var s := NatToString(n);
      assert s[..|s| - 1] == NatToString(n / 10);
      NatToStringValue(n / 10);
    }
  }

  /** A non-empty run of digits is read whole by `LeadingDigits`. */
  lemma LeadingDigitsOfDigits(d: string)
    requires AllDigits(d)
    ensures LeadingDigits(d) == |d|
  {
  }

  /** Text that starts with a non-space is left alone by `trimStart`. */
  lemma TrimStartNoSpace(s: string)
    requires s != [] && !IsWhitespace(s[0])
    ensures TrimStart(s) == s
  {
  }

  /** The digits of `m` are read back as `m`. */
  lemma DigitsParse(m: nat)
    ensures ParseDigits(NatToString(m)) == Some(m)
  {
    var digits := NatToString(m);
    LeadingDigitsOfDigits(digits);
    assert digits[..|digits|] == digits;
    NatToStringValue(m);
  }

  /** Parsing what `toString` printed gives the number back: ids survive the trip through a URL parameter. */
  lemma ParseIntRoundTrip(n: int)
    ensures ParseInt(IntToString(n)) == Some(n)
  {
    if n < 0 {
      var s := "-" + NatToString(-n);
      assert s[0] == '-' && s[1..] == NatToString(-n);
      TrimStartNoSpace(s);
      DigitsParse(-n);
    } else {
      var s := NatToString(n);
      assert IsDigit(s[0]);
      TrimStartNoSpace(s);
      DigitsParse(n);
    }
  }
}
