/**
 Text primitives the command-line front end relies on: decimal rendering and
 parsing of integers, fixed-width justification, joining, and the
 lexicographic order on strings that breaks ties between todo IDs.
 */
module Text {

  datatype Option<T> = None | Some(value: T)

  predicate IsDigit(c: char) {
    '0' <= c <= '9'
  }

  predicate AllDigits(s: string) {
    forall i :: 0 <= i < |s| ==> IsDigit(s[i])
  }

  function DigitChar(d: nat): (c: char)
    requires d < 10
    ensures IsDigit(c) && DigitValue(c) == d
  {
    (('0' as int) + d) as char
  }

  function DigitValue(c: char): nat
    requires IsDigit(c)
  {
    (c as int) - ('0' as int)
  }

  /** Decimal digits of `n`, most significant first, without leading zeros. */
  function NatToString(n: nat): (s: string)
    ensures |s| > 0 && AllDigits(s)
    ensures s[0] == '0' ==> n == 0
  {
    if n < 10 then [DigitChar(n)]
    else NatToString(n / 10) + [DigitChar(n % 10)]
  }

  /** The number written by a string of decimal digits. */
  function DigitsValue(s: string): nat
    requires AllDigits(s)
  {
    if s == [] then 0
    else 10 * DigitsValue(s[..|s| - 1]) + DigitValue(s[|s| - 1])
  }

  /** Ruby's Integer#to_s: an optional minus sign, then the decimal digits. */
  function IntToString(n: int): (s: string)
    ensures |s| > 0
    ensures (s[0] == '-') <==> n < 0
    ensures forall i :: 0 <= i < |s| ==> IsDigit(s[i]) || (i == 0 && s[i] == '-')
  {
    if n < 0 then "-" + NatToString(-n) else NatToString(n)
  }

  predicate IsOctalDigit(c: char) {
    '0' <= c <= '7'
  }

  predicate AllOctal(s: string) {
    forall i :: 0 <= i < |s| ==> IsOctalDigit(s[i])
  }

  /** The number written by a string of octal digits. */
  function OctalValue(s: string): nat
    requires AllOctal(s)
  {
    if s == [] then 0
    else 8 * OctalValue(s[..|s| - 1]) + ((s[|s| - 1] as int) - ('0' as int))
  }

  /**
   The magnitude part of Ruby's Integer(): decimal digits, except that a
   leading zero followed by more digits makes the numeral octal (so "010" is
   8 and "08" is rejected).
   */
  function ParseUnsigned(s: string): Option<nat>
  {
    if s == [] || !AllDigits(s) then None
    else if |s| > 1 && s[0] == '0' then
      if AllOctal(s) then Some(OctalValue(s)) else None
    else Some(DigitsValue(s))
  }

  /**
   Parses an integer priority as Ruby's Integer() does for plain numerals: an
   optional '-' followed by at least one digit, octal when it has a leading
   zero. Anything else (for example "qsf", "-" or "") is rejected.
   */
  function ParseInt(s: string): (r: Option<int>)
    ensures r.Some? ==> |s| > 0 && (s[0] == '-' ==> |s| > 1) && forall i :: 0 < i < |s| ==> IsDigit(s[i])
    ensures r.Some? ==> (r.value < 0 ==> s[0] == '-')
    ensures |s| > 0 && AllDigits(s) && (s[0] != '0' || |s| == 1) ==> r == Some(DigitsValue(s) as int)
    ensures |s| > 1 && s[0] == '-' && AllDigits(s[1..]) && (s[1] != '0' || |s| == 2) ==>
      r == Some(-(DigitsValue(s[1..]) as int))
    ensures r.Some? ==> s[0] == '-' || IsDigit(s[0])
    ensures |s| > 1 && s[0] == '0' && AllDigits(s) ==>
      r == (if AllOctal(s) then Some(OctalValue(s) as int) else None)
    ensures |s| > 2 && s[0] == '-' && s[1] == '0' && AllDigits(s[1..]) ==>
      r == (if AllOctal(s[1..]) then Some(-(OctalValue(s[1..]) as int)) else None)
  {
    if |s| > 0 && s[0] == '-' then
      match ParseUnsigned(s[1..]) {
        case Some(v) => Some(-(v as int))
        case None => None
      }
    else
      match ParseUnsigned(s) {
        case Some(v) => Some(v as int)
        case None => None
      }
  }

  /** Spellings that show which numerals are accepted and how a leading zero reads. */
  lemma ParseIntExamples()
    ensures ParseInt("010") == Some(8) && ParseInt("-010") == Some(-8)
    ensures ParseInt("08") == None && ParseInt("0") == Some(0)
    ensures ParseInt("x1") == None && ParseInt("+1") == None && ParseInt("-") == None
  {
    assert OctalValue("010") == 8 by {
      assert "010"[..2] == "01" && "01"[..1] == "0" && "0"[..0] == "";
    }
    assert "-010"[1..] == "010";
    assert !AllOctal("08") by { assert !IsOctalDigit("08"[1]); }
    assert !IsDigit('x') && !IsDigit('+');
  }

  lemma {:induction false} DigitsValueOfNatToString(n: nat)
    ensures DigitsValue(NatToString(n)) == n
  {
    if n >= 10 {
      var s := NatToString(n);
      assert s[..|s| - 1] == NatToString(n / 10);
      DigitsValueOfNatToString(n / 10);
    }
  }

  /** Rendering an integer and parsing it back gives the same integer. */
  lemma ParseIntOfIntToString(n: int)
    ensures ParseInt(IntToString(n)) == Some(n)
  {
    if n < 0 {
      var s := IntToString(n);
      assert s[1..] == NatToString(-n);
      DigitsValueOfNatToString(-n);
    } else {
      DigitsValueOfNatToString(n);
    }
  }

  function Spaces(n: nat): (s: string)
    ensures |s| == n && forall i :: 0 <= i < n ==> s[i] == ' '
  {
    seq(n, _ => ' ')
  }

  /** Ruby's String#rjust(w): pad on the left with spaces to width w, never truncate. */
  function RightJustify(s: string, w: nat): (r: string)
    ensures |r| == if |s| < w then w else |s|
    ensures r[|r| - |s|..] == s
    ensures forall i :: 0 <= i < |r| - |s| ==> r[i] == ' '
  {
    if |s| < w then Spaces(w - |s|) + s else s
  }

  /** Ruby's String#ljust(w): pad on the right with spaces to width w, never truncate. */
  function LeftJustify(s: string, w: nat): (r: string)
    ensures |r| == if |s| < w then w else |s|
    ensures r[..|s|] == s
    ensures forall i :: |s| <= i < |r| ==> r[i] == ' '
  {
    if |s| < w then s + Spaces(w - |s|) else s
  }

  /** Ruby's Array#join(sep): the parts in order with `sep` between neighbours. */
  function Join(parts: seq<string>, sep: string): string
  {
    if parts == [] then ""
    else if |parts| == 1 then parts[0]
    else parts[0] + sep + Join(parts[1..], sep)
  }

  /**
   A join is empty for no parts; otherwise it starts with the first part,
   ends with the last, and has the separator right after the first part
   when there is more than one.
   */
  lemma {:induction false} JoinEnds(parts: seq<string>, sep: string)
    ensures parts == [] ==> Join(parts, sep) == ""
    ensures parts != [] ==> |parts[0]| <= |Join(parts, sep)| && Join(parts, sep)[..|parts[0]|] == parts[0]
    ensures parts != [] ==>
      |parts[|parts| - 1]| <= |Join(parts, sep)| &&
      Join(parts, sep)[|Join(parts, sep)| - |parts[|parts| - 1]|..] == parts[|parts| - 1]
    ensures |parts| > 1 ==>
      |parts[0]| + |sep| <= |Join(parts, sep)| &&
      Join(parts, sep)[|parts[0]|..|parts[0]| + |sep|] == sep
  {
    if |parts| > 1 {
      JoinEnds(parts[1..], sep);
      assert parts[1..][|parts[1..]| - 1] == parts[|parts| - 1];
      var rest := Join(parts[1..], sep);
      assert Join(parts, sep) == parts[0] + sep + rest;
    }
  }

  /** Joining two non-empty lists of parts puts one separator between their joins. */
  lemma {:induction false} JoinAppend(a: seq<string>, b: seq<string>, sep: string)
    requires a != [] && b != []
    ensures Join(a + b, sep) == Join(a, sep) + sep + Join(b, sep)
  {
    if |a| == 1 {
      assert (a + b)[1..] == b;
    } else {
      assert (a + b)[1..] == a[1..] + b;
      JoinAppend(a[1..], b, sep);
    }
  }

  /** Ruby's String#<=> "less than": bytewise (here: code point) lexicographic order. */
  predicate LexLess(a: string, b: string)
  {
    if a == [] then b != []
    else if b == [] then false
    else if a[0] != b[0] then a[0] < b[0]
    else LexLess(a[1..], b[1..])
  }

  lemma {:induction false} LexLessIrreflexive(a: string)
    ensures !LexLess(a, a)
  {
    if a != [] {
      LexLessIrreflexive(a[1..]);
    }
  }

  lemma {:induction false} LexLessAsymmetric(a: string, b: string)
    ensures LexLess(a, b) ==> !LexLess(b, a)
  {
    if a != [] && b != [] && a[0] == b[0] {
      LexLessAsymmetric(a[1..], b[1..]);
    }
  }

  lemma {:induction false} LexLessTransitive(a: string, b: string, c: string)
    requires LexLess(a, b) && LexLess(b, c)
    ensures LexLess(a, c)
  {
    if a != [] && b != [] && c != [] && a[0] == b[0] && b[0] == c[0] {
      LexLessTransitive(a[1..], b[1..], c[1..]);
    }
  }

  /** Any two different strings are ordered one way or the other. */
  lemma {:induction false} LexLessTotal(a: string, b: string)
    requires a != b
    ensures LexLess(a, b) || LexLess(b, a)
  {
    if a != [] && b != [] && a[0] == b[0] {
      assert a == [a[0]] + a[1..] && b == [b[0]] + b[1..];
      LexLessTotal(a[1..], b[1..]);
    }
  }
}
