/**
 * The JavaScript string operations the pages rely on, stated on `seq<char>`:
 * `toLowerCase` (ASCII letters only), `includes`, `trim`, `startsWith`/`endsWith`,
 * the decimal rendering of a non-negative integer and `padStart`.
 */
module Text {

  // ---------------------------------------------------------------------------
  // Case folding and substring search
  // ---------------------------------------------------------------------------

  predicate IsUpper(c: char) { 'A' <= c <= 'Z' }

  /** `toLowerCase` on one character: only the 26 ASCII capitals change. */
  function LowerChar(c: char): (r: char)
    ensures !IsUpper(r)
    ensures r != c ==> IsUpper(c)
  {
    if IsUpper(c) then (c as int + 32) as char else c
  }

  /** `toLowerCase` on a string, character by character. */
  function Lower(s: string): (r: string)
    ensures |r| == |s|
    ensures forall i :: 0 <= i < |s| ==> r[i] == LowerChar(s[i])
  {
    seq(|s|, i requires 0 <= i < |s| => LowerChar(s[i]))
  }

  /** `sub` occurs in `s` starting at offset `k`. */
  predicate MatchesAt(s: string, sub: string, k: int)
  {
    0 <= k && k + |sub| <= |s| && s[k..k + |sub|] == sub
  }

  /** `s.includes(sub)`: there is an offset at which `sub` occurs. Only a pattern no longer than
      the string can occur, and a prefix always does. */
  predicate Contains(s: string, sub: string)
    ensures Contains(s, sub) ==> |sub| <= |s|
    ensures StartsWith(s, sub) ==> Contains(s, sub)
  {
    assert StartsWith(s, sub) ==> MatchesAt(s, sub, 0);
    exists k :: 0 <= k <= |s| - |sub| && MatchesAt(s, sub, k)
  }

  /** Every string includes the empty string (offset 0). */
  lemma ContainsEmpty(s: string)
    ensures Contains(s, "")
  {
    assert MatchesAt(s, "", 0);
  }

  /** A pattern that occurs has a first offset: one where it matches and no earlier one does. */
  lemma FirstMatch(s: string, sub: string) returns (k: nat)
    requires Contains(s, sub)
    ensures MatchesAt(s, sub, k)
    ensures forall j :: 0 <= j < k ==> !MatchesAt(s, sub, j)
  {
    var m :| 0 <= m <= |s| - |sub| && MatchesAt(s, sub, m);
    k := 0;
    while !MatchesAt(s, sub, k)
      invariant k <= m
      invariant forall j :: 0 <= j < k ==> !MatchesAt(s, sub, j)
      decreases m - k
    {
      k := k + 1;
    }
  }

  /** Lower-casing keeps an occurrence where it is. */
  lemma LowerKeepsMatch(s: string, sub: string, k: int)
    requires MatchesAt(s, sub, k)
    ensures MatchesAt(Lower(s), Lower(sub), k)
  {
    forall i | 0 <= i < |sub| ensures Lower(s)[k..k + |sub|][i] == Lower(sub)[i] {
      assert s[k..k + |sub|][i] == sub[i];
    }
  }

  /** Lower-casing both sides keeps every occurrence. */
  lemma ContainsLower(s: string, sub: string)
    requires Contains(s, sub)
    ensures Contains(Lower(s), Lower(sub))
  {
    var k :| 0 <= k <= |s| - |sub| && MatchesAt(s, sub, k);
    LowerKeepsMatch(s, sub, k);
  }

  /** `s.toLowerCase().includes(term.toLowerCase())`, the search test of the pages: an exact
      occurrence is found, and only a term no longer than the text can be. */
  predicate IncludesIgnoringCase(s: string, term: string)
    ensures Contains(s, term) ==> IncludesIgnoringCase(s, term)
    ensures IncludesIgnoringCase(s, term) ==> |term| <= |s|
  {
    if Contains(s, term) then
      ContainsLower(s, term);
      Contains(Lower(s), Lower(term))
    else
      Contains(Lower(s), Lower(term))
  }

  /** An empty search term is found in every string. */
  lemma EmptyTermIncluded(s: string)
    ensures IncludesIgnoringCase(s, "")
  {
    ContainsEmpty(Lower(s));
  }

  /** Lower-casing twice is lower-casing once. */
  lemma LowerIdempotent(s: string)
    ensures Lower(Lower(s)) == Lower(s)
  {
  }

  /** The search ignores case on both sides: lower-casing the text or the term first
      changes nothing. */
  lemma IncludesIgnoresCase(s: string, term: string)
    ensures IncludesIgnoringCase(Lower(s), term) == IncludesIgnoringCase(s, term)
    ensures IncludesIgnoringCase(s, Lower(term)) == IncludesIgnoringCase(s, term)
  {
    LowerIdempotent(s);
    LowerIdempotent(term);
  }

  // ---------------------------------------------------------------------------
  // trim
  // ---------------------------------------------------------------------------

  /** ECMAScript's WhiteSpace and LineTerminator code points, which `trim` removes. */
  predicate IsSpace(c: char)
  {
    c == '\t' || c == '\n' || c == '\U{B}' || c == '\U{C}' || c == '\r' || c == ' '
    || c == '\U{A0}' || c == '\U{1680}' || ('\U{2000}' <= c <= '\U{200A}')
    || c == '\U{2028}' || c == '\U{2029}' || c == '\U{202F}' || c == '\U{205F}'
    || c == '\U{3000}' || c == '\U{FEFF}'
  }

  predicate AllSpace(s: string)
  {
    forall i :: 0 <= i < |s| ==> IsSpace(s[i])
  }

  /** Drops the leading white space: the result is a suffix of `s`, everything cut off is space,
      and the result does not start with space. */
  function TrimStart(s: string): (r: string)
    ensures |r| <= |s| && r == s[|s| - |r|..]
    ensures AllSpace(s[..|s| - |r|])
    ensures r != [] ==> !IsSpace(r[0])
  {
    if |s| > 0 && IsSpace(s[0]) then
      var r := TrimStart(s[1..]);
      var cut := |s| - |r|;
      assert s[1..][cut - 1..] == s[cut..];
      assert AllSpace(s[..cut]) by {
        forall i | 0 < i < cut ensures IsSpace(s[..cut][i]) {
          assert s[..cut][i] == s[1..][..cut - 1][i - 1];
        }
      }
      r
    else s
  }

  /** Drops the trailing white space: the result is a prefix of `s`, everything cut off is space,
      and the result does not end with space. */
  function TrimEnd(s: string): (r: string)
    ensures |r| <= |s| && r == s[..|r|]
    ensures AllSpace(s[|r|..])
    ensures r != [] ==> !IsSpace(r[|r| - 1])
  {
    if |s| > 0 && IsSpace(s[|s| - 1]) then TrimEnd(s[..|s| - 1]) else s
  }

  /** `r` sits in `s` at offset `i` with nothing but white space before and after it. */
  predicate SpaceFramed(s: string, r: string, i: int)
  {
    0 <= i <= |s| - |r| && r == s[i..i + |r|] && AllSpace(s[..i]) && AllSpace(s[i + |r|..])
  }

  /** `s.trim()`: no white space is left at either end. */
  function Trim(s: string): (r: string)
    ensures |r| <= |s|
    ensures r != [] ==> !IsSpace(r[0]) && !IsSpace(r[|r| - 1])
  {
    TrimEnd(TrimStart(s))
  }

  /** What `trim` returns is a slice of the string with only white space around it. */
  lemma TrimFramed(s: string)
    ensures exists i :: SpaceFramed(s, Trim(s), i)
  {
    var t := TrimStart(s);
    var r := TrimEnd(t);
    assert r == Trim(s);
    var i := |s| - |t|;
    assert SpaceFramed(s, r, i) by {
      assert t == s[i..];
      assert r == t[..|r|];
      assert s[i..i + |r|] == t[..|r|];
      assert s[i + |r|..] == t[|r|..];
    }
  }

  /** `s.trim()` is empty exactly when `s` is all white space (in particular when `s` is empty). */
  lemma TrimEmptyIff(s: string)
    ensures Trim(s) == [] <==> AllSpace(s)
  {
    var t := TrimStart(s);
    if Trim(s) == [] {
      assert AllSpace(t[0..]);
      assert t == [];
      forall i | 0 <= i < |s| ensures IsSpace(s[i]) {
        assert s[i] == s[..|s| - |t|][i];
      }
    }
  }

  /** A string that neither starts nor ends with white space is its own trim. */
  lemma TrimUnchanged(s: string)
    requires s != [] && !IsSpace(s[0]) && !IsSpace(s[|s| - 1])
    ensures Trim(s) == s
  {
    assert TrimStart(s) == s;
  }

  /** Trimming twice is trimming once. */
  lemma TrimIdempotent(s: string)
    ensures Trim(Trim(s)) == Trim(s)
  {
    var r := Trim(s);
    if r != [] {
      assert TrimStart(r) == r;
      assert TrimEnd(r) == r;
    }
  }

  // ---------------------------------------------------------------------------
  // Prefixes and suffixes
  // ---------------------------------------------------------------------------

  predicate StartsWith(s: string, p: string) { |p| <= |s| && s[..|p|] == p }

  predicate EndsWith(s: string, p: string) { |p| <= |s| && s[|s| - |p|..] == p }

  // ---------------------------------------------------------------------------
  // Decimal numerals (`String(n)` for a non-negative integer) and `padStart`
  // ---------------------------------------------------------------------------

  predicate IsDigit(c: char) { '0' <= c <= '9' }

  predicate AllDigits(s: string) { forall i :: 0 <= i < |s| ==> IsDigit(s[i]) }

  function DigitChar(d: nat): (c: char)
    requires d < 10
    ensures IsDigit(c)
  {
    ('0' as int + d) as char
  }

  function DigitValue(c: char): (d: nat)
    requires IsDigit(c)
    ensures d < 10
  {
    c as int - '0' as int
  }

  /** The value of a string of decimal digits, most significant first (the empty string reads 0). */
  function ParseDigits(s: string): nat
    requires AllDigits(s)
  {
    if s == [] then 0 else ParseDigits(s[..|s| - 1]) * 10 + DigitValue(s[|s| - 1])
  }

  /** `String(n)`: the decimal numeral of `n`, without leading zeros. */
  function NatToString(n: nat): (r: string)
    ensures |r| >= 1 && AllDigits(r)
    ensures n < 10 <==> |r| == 1
    ensures n < 100 ==> |r| <= 2
    ensures |r| > 1 ==> r[0] != '0'
    decreases n
  {
    if n < 10 then [DigitChar(n)] else NatToString(n / 10) + [DigitChar(n % 10)]
  }

  /** Reading the numeral back gives the number. */
  lemma {:induction false} ParseNatToString(n: nat)
    ensures ParseDigits(NatToString(n)) == n
    decreases n
  {
    var r := NatToString(n);
    if n >= 10 {
      ParseNatToString(n / 10);
      assert r[..|r| - 1] == NatToString(n / 10);
    }
  }

  /** `s.padStart(width, "0")`: left-pads with zeros up to `width` characters. */
  function PadStartZero(s: string, width: nat): (r: string)
    ensures |r| == if |s| >= width then |s| else width
    ensures EndsWith(r, s)
    ensures forall i :: 0 <= i < |r| - |s| ==> r[i] == '0'
  {
    if |s| >= width then s else seq(width - |s|, _ => '0') + s
  }

  /** `${n} ${noun}${n !== 1 ? 's' : ''}`, the result counts of the search pages. */
  function CountPhrase(n: nat, noun: string): (r: string)
    ensures StartsWith(r, NatToString(n) + " ")
    ensures n == 1 ==> EndsWith(r, noun)
    ensures n != 1 ==> EndsWith(r, noun + "s")
  {
    var head := NatToString(n) + " ";
    var tail := noun + (if n != 1 then "s" else "");
    assert (head + tail)[..|head|] == head;
    assert (head + tail)[|head + tail| - |tail|..] == tail;
    head + tail
  }

  /** The phrase starts with the numeral of `n`, which reads back as `n`, followed by a space. */
  lemma CountPhraseReadsBack(n: nat, noun: string)
    ensures var r, k := CountPhrase(n, noun), |NatToString(n)|;
      k < |r| && AllDigits(r[..k]) && r[k] == ' ' && ParseDigits(r[..k]) == n
  {
    var r, k := CountPhrase(n, noun), |NatToString(n)|;
    assert r[..k] == NatToString(n);
    ParseNatToString(n);
  }

  /** For a noun that does not already end in 's', the phrase ends in 's' exactly when the
      count is not one. */
  lemma CountPhrasePlural(n: nat, noun: string)
    requires noun != [] && noun[|noun| - 1] != 's'
    ensures var r := CountPhrase(n, noun); r[|r| - 1] == 's' <==> n != 1
  {
  }
}
