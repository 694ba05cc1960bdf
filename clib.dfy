/** The C library routines the LUT-library reader relies on: strtok (the
    splitting of a line into tokens on " \t\n"), atoi and atof.  Each is
    modelled as a function on strings, together with the facts the reader's
    proofs need about it. */
module CLib {

  /** The delimiter set the reader hands to strtok: space, tab and newline. */
  predicate IsDelim(c: char) {
    c == ' ' || c == '\t' || c == '\n'
  }

  /** The characters C's isspace accepts; atoi and atof skip them first. */
  predicate IsSpace(c: char) {
    c == ' ' || c == '\t' || c == '\n' || c == '\r' || c as int == 11 || c as int == 12
  }

  predicate IsDigit(c: char) {
    '0' <= c <= '9'
  }

  function DigitValue(c: char): nat
    requires IsDigit(c)
  {
    c as int - '0' as int
  }

  /** A token as strtok returns it: non-empty and free of delimiters. */
  predicate IsWord(t: string) {
    t != [] && forall j :: 0 <= j < |t| ==> !IsDelim(t[j])
  }

  // ---------------------------------------------------------------------
  // strtok
  // ---------------------------------------------------------------------

  /** Length of the leading run of non-delimiter characters of s. */
  function WordLength(s: string): (n: nat)
    ensures n <= |s|
    ensures forall j :: 0 <= j < n ==> !IsDelim(s[j])
    ensures n < |s| ==> IsDelim(s[n])
  {
    if s == [] || IsDelim(s[0]) then 0 else 1 + WordLength(s[1..])
  }

  /** The tokens that successive calls strtok(_, " \t\n") return for the
      line s, in order: the maximal runs of non-delimiter characters. */
  function Tokens(s: string): (ts: seq<string>)
    ensures forall j :: 0 <= j < |ts| ==> IsWord(ts[j])
    decreases |s|
  {
    if s == [] then []
    else if IsDelim(s[0]) then Tokens(s[1..])
    else
      var n := WordLength(s);
      [s[..n]] + Tokens(s[n..])
  }

  /** The tokens written out with one space between neighbours. */
  function Join(ts: seq<string>): string {
    if ts == [] then []
    else if |ts| == 1 then ts[0]
    else ts[0] + [' '] + Join(ts[1..])
  }

  lemma {:induction false} WordLengthOfWord(w: string, rest: string)
    requires forall j :: 0 <= j < |w| ==> !IsDelim(w[j])
    requires rest == [] || IsDelim(rest[0])
    ensures WordLength(w + rest) == |w|
  {
    if w != [] {
      assert (w + rest)[1..] == w[1..] + rest;
      WordLengthOfWord(w[1..], rest);
    }
  }

  /** Splitting a line made of tokens separated by single spaces gives the
      tokens back. */
  lemma {:induction false} TokensOfJoin(ts: seq<string>)
    requires forall j :: 0 <= j < |ts| ==> IsWord(ts[j])
    ensures Tokens(Join(ts)) == ts
  {
    if ts == [] {
    } else if |ts| == 1 {
      var w := ts[0];
      WordLengthOfWord(w, []);
      assert w + [] == w;
      assert w[..|w|] == w && w[|w|..] == [];
    } else {
      var w := ts[0];
      var rest := Join(ts[1..]);
      var s := w + [' '] + rest;
      assert s == w + ([' '] + rest);
      WordLengthOfWord(w, [' '] + rest);
      assert s[..|w|] == w;
      assert s[|w|..] == [' '] + rest;
      assert ([' '] + rest)[1..] == rest;
      TokensOfJoin(ts[1..]);
      assert ts == [w] + ts[1..];
    }
  }

  // ---------------------------------------------------------------------
  // atoi and atof
  // ---------------------------------------------------------------------

  /** s without its leading isspace characters. */
  function SkipSpace(s: string): (t: string)
    ensures |t| <= |s|
    ensures t == [] || !IsSpace(t[0])
  {
    if s != [] && IsSpace(s[0]) then SkipSpace(s[1..]) else s
  }

  /** Length of the leading run of decimal digits of s. */
  function DigitRun(s: string): (n: nat)
    ensures n <= |s|
    ensures forall j :: 0 <= j < n ==> IsDigit(s[j])
    ensures n < |s| ==> !IsDigit(s[n])
  {
    if s != [] && IsDigit(s[0]) then 1 + DigitRun(s[1..]) else 0
  }

  /** The value of a string of decimal digits, most significant first. */
  function Decimal(ds: string): nat
    requires forall j :: 0 <= j < |ds| ==> IsDigit(ds[j])
  {
    if ds == [] then 0 else 10 * Decimal(ds[..|ds| - 1]) + DigitValue(ds[|ds| - 1])
  }

  /** The value of the leading digits of s (0 when there are none). */
  function LeadingNumber(s: string): nat {
    Decimal(s[..DigitRun(s)])
  }

  /** atoi: leading white space, an optional sign, then the longest run of
      digits; no digits give 0. */
  function Atoi(s: string): int {
    var t := SkipSpace(s);
    if t != [] && t[0] == '-' then -(LeadingNumber(t[1..]) as int)
    else if t != [] && t[0] == '+' then LeadingNumber(t[1..])
    else LeadingNumber(t)
  }

  function Pow10(m: nat): (p: nat)
    ensures p >= 1
  {
    if m == 0 then 1 else 10 * Pow10(m - 1)
  }

  /** The value of an unsigned decimal "digits[.digits]" prefix of t. */
  function UnsignedDecimal(t: string): real {
    var n := DigitRun(t);
    var whole := Decimal(t[..n]) as real;
    if n < |t| && t[n] == '.' then
      var f := t[n + 1..];
      var m := DigitRun(f);
      whole + Decimal(f[..m]) as real / Pow10(m) as real
    else whole
  }

  /** atof: leading white space, an optional sign, then a decimal number
      with an optional fraction; no digits give 0. */
  function Atof(s: string): real {
    var t := SkipSpace(s);
    if t != [] && t[0] == '-' then -UnsignedDecimal(t[1..])
    else if t != [] && t[0] == '+' then UnsignedDecimal(t[1..])
    else UnsignedDecimal(t)
  }

  // ---------------------------------------------------------------------
  // Decimal numerals
  // ---------------------------------------------------------------------

  /** The decimal numeral of n, without sign or leading zeros. */
  function NatString(n: nat): (s: string)
    ensures s != [] && forall j :: 0 <= j < |s| ==> IsDigit(s[j])
    decreases n
  {
    (if n < 10 then [] else NatString(n / 10)) + [('0' as int + n % 10) as char]
  }

  lemma {:induction false} DigitRunOfDigits(s: string)
    requires forall j :: 0 <= j < |s| ==> IsDigit(s[j])
    ensures DigitRun(s) == |s|
  {
    if s != [] {
      DigitRunOfDigits(s[1..]);
    }
  }

  lemma {:induction false} DecimalOfNatString(n: nat)
    ensures Decimal(NatString(n)) == n
    decreases n
  {
    var s := NatString(n);
    var pre := if n < 10 then [] else NatString(n / 10);
    assert s[..|s| - 1] == pre;
    if n >= 10 {
      DecimalOfNatString(n / 10);
    }
  }

  /** atoi reads back the numeral of every natural number. */
  lemma AtoiOfNatString(n: nat)
    ensures Atoi(NatString(n)) == n
  {
    var s := NatString(n);
    assert IsDigit(s[0]);
    assert SkipSpace(s) == s;
    DigitRunOfDigits(s);
    assert s[..|s|] == s;
    DecimalOfNatString(n);
    assert LeadingNumber(s) == n;
  }

  /** atof reads back the numeral of every natural number as that number. */
  lemma AtofOfNatString(n: nat)
    ensures Atof(NatString(n)) == n as real
  {
    var s := NatString(n);
    assert IsDigit(s[0]);
    assert SkipSpace(s) == s;
    DigitRunOfDigits(s);
    assert s[..|s|] == s;
    DecimalOfNatString(n);
    assert LeadingNumber(s) == n;
  }
}
