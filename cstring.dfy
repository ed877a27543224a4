/** Character and C-string helpers shared by the models.
    They give the observable effect of the C library and mutt string routines
    that the core calls (isspace, tolower, strcasecmp, strtoul, mutt_str_copy,
    mutt_str_startswith, mutt_istr_equal, the atoi family), on character
    sequences in the "C" locale. */
module CString {

  const NUL: char := '\0'
  const INT_MIN: int := -0x8000_0000
  const INT_MAX: int := 0x7FFF_FFFF
  const UINT_MAX: int := 0xFFFF_FFFF
  const ULONG_MAX: int := 0xFFFF_FFFF_FFFF_FFFF

  /** isspace(): space, \t, \n, \v, \f, \r. */
  predicate IsSpace(c: char) { c == ' ' || 9 <= c as int <= 13 }

  predicate IsDigit(c: char) { '0' <= c <= '9' }

  function ToLower(c: char): char
  {
    if 'A' <= c <= 'Z' then (c as int + 32) as char else c
  }

  /** The string with every ASCII letter in lower case. */
  function Lower(s: string): (r: string)
    ensures |r| == |s|
    ensures forall i :: 0 <= i < |s| ==> r[i] == ToLower(s[i])
  {
    seq(|s|, i requires 0 <= i < |s| => ToLower(s[i]))
  }

  /** mutt_istr_equal: equal when letter case is ignored. */
  predicate IEqual(a: string, b: string) { Lower(a) == Lower(b) }

  /** mutt_istr_startswith: s begins with prefix when letter case is ignored. */
  predicate IStartsWith(s: string, prefix: string) { Lower(prefix) <= Lower(s) }

  /** A C string stored in a character block: the characters before the first NUL. */
  function CStr(s: seq<char>): (r: string)
    ensures r <= s && NUL !in r
    ensures |r| < |s| ==> s[|r|] == NUL
    ensures NUL in s ==> |r| < |s|
  {
    if s == [] || s[0] == NUL then [] else [s[0]] + CStr(s[1..])
  }

  /** The C string that starts inside another one is the rest of it. */
  lemma {:induction false} CStrSuffix(s: seq<char>, at: nat)
    requires at <= |CStr(s)|
    ensures CStr(s[at..]) == CStr(s)[at..]
  {
    if at > 0 {
      assert s[at..] == s[1..][at - 1..];
      CStrSuffix(s[1..], at - 1);
    }
  }

  /** mutt_str_copy(dest, src, dsize) and snprintf(dest, dsize, "%s", src):
      at most dsize - 1 characters of src are kept. */
  function Copy(src: string, dsize: nat): (r: string)
    requires dsize > 0
    ensures r <= src && |r| < dsize
    ensures |src| < dsize ==> r == src
    ensures |src| >= dsize ==> |r| == dsize - 1
  {
    if |src| < dsize then src else src[..dsize - 1]
  }

  /** Number of leading characters of s that satisfy isspace(), as SKIPWS skips them. */
  function LeadingSpaces(s: string): (n: nat)
    ensures n <= |s|
    ensures forall i :: 0 <= i < n ==> IsSpace(s[i])
    ensures n < |s| ==> !IsSpace(s[n])
  {
    if s != [] && IsSpace(s[0]) then 1 + LeadingSpaces(s[1..]) else 0
  }

  /** SKIPWS stops at the first character that is not white space. */
  lemma {:induction false} LeadingSpacesUnique(s: string, n: nat)
    requires n <= |s| && forall i :: 0 <= i < n ==> IsSpace(s[i])
    requires n == |s| || !IsSpace(s[n])
    ensures LeadingSpaces(s) == n
  {
    if n > 0 {
      LeadingSpacesUnique(s[1..], n - 1);
    }
  }

  /** Number of leading decimal digits of s. */
  function LeadingDigits(s: string): (n: nat)
    ensures n <= |s|
    ensures forall i :: 0 <= i < n ==> IsDigit(s[i])
    ensures n < |s| ==> !IsDigit(s[n])
  {
    if s != [] && IsDigit(s[0]) then 1 + LeadingDigits(s[1..]) else 0
  }

  // ----- Longest common prefix -----

  function Lcp(a: string, b: string): string
  {
    if a != [] && b != [] && a[0] == b[0] then [a[0]] + Lcp(a[1..], b[1..]) else []
  }

  /** Lcp(a, b) is a prefix of both and cannot be extended. */
  lemma {:induction false} LcpIsLongestCommonPrefix(a: string, b: string)
    ensures Lcp(a, b) <= a && Lcp(a, b) <= b
    ensures var n := |Lcp(a, b)|; n == |a| || n == |b| || a[n] != b[n]
  {
    if a != [] && b != [] && a[0] == b[0] {
      LcpIsLongestCommonPrefix(a[1..], b[1..]);
    }
  }

  /** A common prefix that cannot be extended is the Lcp. */
  lemma LcpUnique(a: string, b: string, n: nat)
    requires n <= |a| && n <= |b| && a[..n] == b[..n]
    requires n == |a| || n == |b| || a[n] != b[n]
    ensures Lcp(a, b) == a[..n]
  {
    LcpIsLongestCommonPrefix(a, b);
  }

  /** Every common prefix of a and b is a prefix of their Lcp. */
  lemma LcpIsGreatest(a: string, b: string, p: string)
    requires p <= a && p <= b
    ensures p <= Lcp(a, b)
  {
    LcpIsLongestCommonPrefix(a, b);
  }

  // ----- Decimal numbers -----

  function DigitValue(c: char): nat
  {
    if IsDigit(c) then c as int - '0' as int else 0
  }

  /** The value of a string of decimal digits. */
  function DecimalValue(ds: string): nat
  {
    if ds == [] then 0 else DecimalValue(ds[..|ds| - 1]) * 10 + DigitValue(ds[|ds| - 1])
  }

  function DigitChar(d: nat): char
    requires d < 10
  {
    ('0' as int + d) as char
  }

  /** printf("%d") of a non-negative number. */
  function NatToDecimal(n: nat): (r: string)
    ensures r != [] && forall i :: 0 <= i < |r| ==> IsDigit(r[i])
  {
    if n < 10 then [DigitChar(n)] else NatToDecimal(n / 10) + [DigitChar(n % 10)]
  }

  /** Reading back a printed number gives the number. */
  lemma {:induction false} DecimalRoundTrip(n: nat)
    ensures DecimalValue(NatToDecimal(n)) == n
  {
    var r := NatToDecimal(n);
    if n >= 10 {
      DecimalRoundTrip(n / 10);
      assert r[..|r| - 1] == NatToDecimal(n / 10);
    }
  }

  /** What the strto* family reads from a string: optional white space, an
      optional sign and the longest run of digits. `end` is the index of the
      first unread character, as eptr gives it; it is 0 when no
      digits were found (no conversion). */
  datatype NumberScan = NumberScan(negative: bool, magnitude: nat, end: nat)

  function ScanNumber(s: string): (r: NumberScan)
    ensures r.end <= |s|
    ensures r.end > 0 ==> IsDigit(s[r.end - 1])
  {
    var i := LeadingSpaces(s);
    var signed := i < |s| && (s[i] == '+' || s[i] == '-');
    var j := if signed then i + 1 else i;
    var k := LeadingDigits(s[j..]);
    if k == 0 then NumberScan(false, 0, 0)
    else NumberScan(signed && s[i] == '-', DecimalValue(s[j..j + k]), j + k)
  }

  /** strtoul() with a 64-bit unsigned long: a magnitude beyond ULONG_MAX reads
      as ULONG_MAX, a negated number wraps modulo 2^64 (-m reads as 2^64 - m). */
  function StrToUl(s: string): (r: int)
    ensures 0 <= r <= ULONG_MAX
  {
    var sc := ScanNumber(s);
    if sc.magnitude > ULONG_MAX then ULONG_MAX
    else if sc.negative && sc.magnitude > 0 then ULONG_MAX + 1 - sc.magnitude
    else sc.magnitude
  }

  /** mutt_str_atoi_full: the whole string is one number in the range of int. */
  function AtoiFull(s: string): (r: Option<int>)
    ensures r.Some? ==> INT_MIN <= r.value <= INT_MAX
  {
    var sc := ScanNumber(s);
    var v: int := if sc.negative then -(sc.magnitude as int) else sc.magnitude;
    if sc.end == 0 || sc.end != |s| || v < INT_MIN || v > INT_MAX then None else Some(v)
  }

  /** mutt_str_atoui_full: the whole string is read by strtoull without range
      error and the result fits in unsigned int. */
  function AtouiFull(s: string): (r: Option<nat>)
    ensures r.Some? ==> r.value <= UINT_MAX
  {
    var sc := ScanNumber(s);
    if sc.end == 0 || sc.end != |s| || sc.magnitude > ULONG_MAX then None
    else
      var v := if sc.negative && sc.magnitude > 0 then ULONG_MAX + 1 - sc.magnitude else sc.magnitude;
      if v > UINT_MAX then None else Some(v)
  }

  /** All characters of a printed number are read back by the atoi family. */
  lemma PrintedNumberScans(n: nat)
    ensures ScanNumber(NatToDecimal(n)) == NumberScan(false, n, |NatToDecimal(n)|)
  {
    var r := NatToDecimal(n);
    LeadingDigitsAll(r);
    DecimalRoundTrip(n);
    assert !IsSpace(r[0]);
    LeadingSpacesStop(r);
    assert r[0..] == r;
    assert r[0..|r|] == r;
  }

  lemma LeadingDigitsAll(s: string)
    requires forall i :: 0 <= i < |s| ==> IsDigit(s[i])
    ensures LeadingDigits(s) == |s|
  {
  }

  lemma LeadingSpacesStop(s: string)
    requires s != [] && !IsSpace(s[0])
    ensures LeadingSpaces(s) == 0
  {
  }

  /** mutt_str_atoi_full reads back every number printed with "%d" that fits in int. */
  lemma {:induction false} AtoiFullReadsPrinted(n: nat)
    requires n <= INT_MAX
    ensures AtoiFull(NatToDecimal(n)) == Some(n)
  {
    PrintedNumberScans(n);
  }

  /** A minus sign before a printed number is read as its negation. */
  lemma NegativeNumberScans(n: nat)
    ensures var t := "-" + NatToDecimal(n); ScanNumber(t) == NumberScan(true, n, |t|)
  {
    var d := NatToDecimal(n);
    var t := "-" + d;
    LeadingSpacesStop(t);
    assert t[1..] == d;
    LeadingDigitsAll(d);
    DecimalRoundTrip(n);
    assert t[1..1 + |d|] == d;
  }

  /** mutt_str_atoi_full reads "-N" as -N for every N that fits in int. */
  lemma AtoiFullReadsNegative(n: nat)
    requires n <= INT_MAX
    ensures AtoiFull("-" + NatToDecimal(n)) == Some(-(n as int))
  {
    NegativeNumberScans(n);
  }

  // ----- Case-insensitive ordering (strcasecmp) -----

  /** Lexicographic order on character codes. */
  predicate LexLe(a: string, b: string)
    decreases |a|
  {
    a == [] || (b != [] && (a[0] < b[0] || (a[0] == b[0] && LexLe(a[1..], b[1..]))))
  }

  lemma {:induction false} LexLeTotal(a: string, b: string)
    ensures LexLe(a, b) || LexLe(b, a)
    decreases |a|
  {
    if a != [] && b != [] && a[0] == b[0] {
      LexLeTotal(a[1..], b[1..]);
    }
  }

  lemma {:induction false} LexLeTransitive(a: string, b: string, c: string)
    requires LexLe(a, b) && LexLe(b, c)
    ensures LexLe(a, c)
    decreases |a|
  {
    if a != [] && b != [] && c != [] && a[0] == b[0] == c[0] {
      LexLeTransitive(a[1..], b[1..], c[1..]);
    }
  }

  /** mutt_istr_cmp(a, b) <= 0. */
  predicate IstrLe(a: string, b: string) { LexLe(Lower(a), Lower(b)) }

  datatype Option<T> = None | Some(value: T)
}
