/** Printing whole numbers in decimal and reading them back the way the C++ library does. */
module Decimal {
  import opened StreamTypes

  predicate IsDigit(c: char) { '0' <= c <= '9' }
  predicate AllDigits(s: string) { forall i :: 0 <= i < |s| ==> IsDigit(s[i]) }
  predicate IsSpace(c: char) { c == ' ' || ('\t' <= c <= '\r') }

  function DigitChar(d: nat): (c: char)
    requires d < 10
    ensures IsDigit(c) && DigitOf(c) == d
  {
    '0' + d as char
  }

  function DigitOf(c: char): nat { if IsDigit(c) then (c - '0') as nat else 0 }

  function Print(n: nat): (s: string)
    ensures |s| >= 1 && AllDigits(s)
  {
    if n < 10 then [DigitChar(n)] else Print(n / 10) + [DigitChar(n % 10)]
  }

  /** A sign in front of a negative number. */
  function PrintInt(n: int): string { if n < 0 then ['-'] + Print(-n) else Print(n) }

  function Value(s: string): nat {
    if s == "" then 0 else 10 * Value(s[..|s| - 1]) + DigitOf(s[|s| - 1])
  }

  lemma {:induction false} ValueOfPrint(n: nat)
    ensures Value(Print(n)) == n
  {
    var s := Print(n);
    if n < 10 {
      assert s[..0] == "" && Value("") == 0;
    } else {
      ValueOfPrint(n / 10);
      assert s[..|s| - 1] == Print(n / 10);
    }
  }

  lemma {:induction false} PrintIsInjective(a: nat, b: nat)
    requires Print(a) == Print(b)
    ensures a == b
  {
    ValueOfPrint(a);
    ValueOfPrint(b);
  }

  // ---- reading ---------------------------------------------------------------------------------

  function DropSpaces(s: string): (r: string)
    ensures s != "" && !IsSpace(s[0]) ==> r == s
  {
    if s != "" && IsSpace(s[0]) then DropSpaces(s[1..]) else s
  }

  /** The digits a string begins with. */
  function LeadingDigits(s: string): (d: string)
    ensures AllDigits(d) && d <= s && (|d| < |s| ==> !IsDigit(s[|d|]))
  {
    if s == "" || !IsDigit(s[0]) then "" else [s[0]] + LeadingDigits(s[1..])
  }

  /** What the number-reading functions see: spaces, a sign, digits, and anything after them ignored. */
  datatype Scanned = NotANumber | Number(negative: bool, magnitude: nat)

  function Scan(s: string): Scanned {
    var t := DropSpaces(s);
    var signed := t != "" && (t[0] == '-' || t[0] == '+');
    var digits := LeadingDigits(if signed then t[1..] else t);
    if digits == "" then NotANumber else Number(signed && t[0] == '-', Value(digits))
  }

  /** `std::stoull` (and `std::stoul` where long is 64 bits): out of range is no number, a minus sign wraps. */
  function Stoull(s: string): Option<U64> {
    match Scan(s)
    case NotANumber => None
    case Number(negative, m) =>
      if m >= 0x1_0000_0000_0000_0000 then None
      else if negative && m > 0 then Some(0x1_0000_0000_0000_0000 - m) else Some(m)
  }

  function Signed(negative: bool, m: int): int { if negative then -m else m }

  function Stoi(s: string): Option<I32> {
    match Scan(s)
    case NotANumber => None
    case Number(negative, m) =>
      var v := Signed(negative, m);
      if -0x8000_0000 <= v < 0x8000_0000 then Some(v) else None
  }

  function Stol(s: string): Option<int> {
    match Scan(s)
    case NotANumber => None
    case Number(negative, m) =>
      var v := Signed(negative, m);
      if -0x8000_0000_0000_0000 <= v < 0x8000_0000_0000_0000 then Some(v) else None
  }

  lemma {:induction false} LeadingDigitsStop(d: string, rest: string)
    requires AllDigits(d) && (rest == "" || !IsDigit(rest[0]))
    ensures LeadingDigits(d + rest) == d
  {
    if d == "" {
      assert d + rest == rest;
    } else {
      LeadingDigitsStop(d[1..], rest);
      assert (d + rest)[1..] == d[1..] + rest;
    }
  }

  /** A printed number is read back, whatever follows it, as long as that is not a digit. */
  lemma {:induction false} ScanOfPrint(n: nat, rest: string)
    requires rest == "" || !IsDigit(rest[0])
    ensures Scan(Print(n) + rest) == Number(false, n)
  {
    var s := Print(n) + rest;
    assert s[0] == Print(n)[0];
    LeadingDigitsStop(Print(n), rest);
    ValueOfPrint(n);
  }

  lemma {:induction false} ScanOfSigned(digits: string, rest: string)
    requires digits != "" && AllDigits(digits) && (rest == "" || !IsDigit(rest[0]))
    ensures Scan((['-'] + digits) + rest) == Number(true, Value(digits))
  {
    var t := (['-'] + digits) + rest;
    assert DropSpaces(t) == t && t[1..] == digits + rest;
    LeadingDigitsStop(digits, rest);
  }

  lemma {:induction false} ScanOfPrintInt(n: int, rest: string)
    requires rest == "" || !IsDigit(rest[0])
    ensures Scan(PrintInt(n) + rest) == Number(n < 0, if n < 0 then -n else n)
  {
    if n < 0 {
      ValueOfPrint(-n);
      ScanOfSigned(Print(-n), rest);
    } else {
      ScanOfPrint(n, rest);
    }
  }

  lemma {:induction false} PrintReadsBack(n: nat)
    ensures Stoull(Print(n)) == if n < 0x1_0000_0000_0000_0000 then Some(n) else None
    ensures Stoi(Print(n)) == if n < 0x8000_0000 then Some(n) else None
    ensures Stol(Print(n)) == if n < 0x8000_0000_0000_0000 then Some(n) else None
  {
    ScanOfPrint(n, "");
    assert Print(n) + "" == Print(n);
  }

  lemma {:induction false} PrintIntReadsBack(n: I32)
    ensures Stoi(PrintInt(n)) == Some(n)
  {
    ScanOfPrintInt(n, "");
    assert PrintInt(n) + "" == PrintInt(n);
  }
}
