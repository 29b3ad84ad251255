/** `a=ptime`: microseconds written as a decimal count of milliseconds and read back. */
module PacketTime {
  import opened StreamTypes
  import opened Counting
  import opened Decimal

  function ThreeDigits(n: nat): string
    requires n < 1000
  {
    [DigitChar(n / 100), DigitChar(n / 10 % 10), DigitChar(n % 10)]
  }

  function StripZeros(s: string): string {
    if s != "" && s[|s| - 1] == '0' then StripZeros(s[..|s| - 1]) else s
  }

  /** Three decimals, trailing zeros and then a trailing point dropped. */
  function Format(ptimeUs: nat): string {
    var out := StripZeros(Print(ptimeUs / 1000) + ['.'] + ThreeDigits(ptimeUs % 1000));
    if out != "" && out[|out| - 1] == '.' then out[..|out| - 1] else out
  }

  /** A decimal numeral: its sign, its digits as one number, and how many of them follow the point. */
  datatype Numeral = NotANumeral | Numeral(negative: bool, digits: nat, places: nat)

  function Read(s: string): Numeral {
    var t := DropSpaces(s);
    var signed := t != "" && (t[0] == '-' || t[0] == '+');
    ReadDigits(if signed then t[1..] else t, signed && t[0] == '-')
  }

  function ReadDigits(s: string, negative: bool): Numeral {
    var whole := LeadingDigits(s);
    var rest := s[|whole|..];
    var fraction := if rest != "" && rest[0] == '.' then LeadingDigits(rest[1..]) else "";
    if whole == "" && fraction == "" then NotANumeral else Numeral(negative, Value(whole + fraction), |fraction|)
  }

  function Pow10(n: nat): (p: nat)
    ensures p >= 1
  {
    if n == 0 then 1 else 10 * Pow10(n - 1)
  }

  function Rounded(a: nat, b: nat): nat
    requires b >= 1
  {
    (2 * a + b) / (2 * b)
  }

  /** More than nothing and at most a second, to the nearest microsecond; anything else is refused. */
  function Parse(s: string): Option<U32> {
    match Read(s)
    case NotANumeral => None
    case Numeral(negative, digits, places) =>
      if negative || digits == 0 || digits > 1000 * Pow10(places) then None
      else
        var us := Rounded(1000 * digits, Pow10(places));
        RoundedIsSmall(digits, Pow10(places));
        Some(us)
  }

  lemma {:induction false} RoundedIsSmall(digits: nat, scale: nat)
    requires scale >= 1 && digits <= 1000 * scale
    ensures Rounded(1000 * digits, scale) <= 1_000_000
  {
    var r := Rounded(1000 * digits, scale);
    assert 2 * scale * r <= 2 * (1000 * digits) + scale <= (2 * scale) * 1_000_000 + scale;
    if r >= 1_000_001 {
      MultiplesInOrder(1_000_001, r, 2 * scale);
    }
  }

  // ---- the round trip --------------------------------------------------------------------------

  lemma {:induction false} StripNothing(s: string)
    requires s != "" && s[|s| - 1] != '0'
    ensures StripZeros(s) == s
  {
  }

  lemma {:induction false} StripOne(s: string)
    ensures StripZeros(s + ['0']) == StripZeros(s)
  {
  }

  lemma {:induction false} DigitIsZero(d: nat)
    requires d < 10
    ensures DigitChar(d) == '0' <==> d == 0
  {
  }

  /** What is printed: the whole milliseconds, then up to three decimals ending in a digit other than zero. */
  lemma {:induction false} FormatForms(us: nat) returns (q: nat, a: nat, b: nat, c: nat)
    ensures us == 1000 * q + 100 * a + 10 * b + c && a < 10 && b < 10 && c < 10
    ensures Format(us) ==
        if a == b == c == 0 then Print(q)
        else if b == c == 0 then Print(q) + ['.'] + [DigitChar(a)]
        else if c == 0 then Print(q) + ['.'] + [DigitChar(a), DigitChar(b)]
        else Print(q) + ['.'] + [DigitChar(a), DigitChar(b), DigitChar(c)]
  {
    hide StripZeros, Print, DigitChar, ThreeDigits;
    q, a, b, c := DigitsOf(us);
    ThreeDigitsStrip(Print(q) + ['.'], a, b, c);
    PointIsDropped(q);
  }

  lemma {:induction false} DigitsOf(us: nat) returns (q: nat, a: nat, b: nat, c: nat)
    ensures us == 1000 * q + 100 * a + 10 * b + c && a < 10 && b < 10 && c < 10
    ensures q == us / 1000 && ThreeDigits(us % 1000) == [DigitChar(a), DigitChar(b), DigitChar(c)]
  {
    var r := us % 1000;
    q, a, b, c := us / 1000, r / 100, r / 10 % 10, r % 10;
  }

  lemma {:induction false} PointIsDropped(q: nat)
    ensures var point := Print(q) + ['.']; point[..|point| - 1] == Print(q)
  {
  }

  lemma {:induction false} ThreeDigitsStrip(point: string, a: nat, b: nat, c: nat)
    requires a < 10 && b < 10 && c < 10 && point != "" && point[|point| - 1] == '.'
    ensures StripZeros(point + [DigitChar(a), DigitChar(b), DigitChar(c)]) ==
        if a == b == c == 0 then point
        else if b == c == 0 then point + [DigitChar(a)]
        else if c == 0 then point + [DigitChar(a), DigitChar(b)]
        else point + [DigitChar(a), DigitChar(b), DigitChar(c)]
  {
    hide StripZeros;
    var one, two := point + [DigitChar(a)], point + [DigitChar(a), DigitChar(b)];
    var three := point + [DigitChar(a), DigitChar(b), DigitChar(c)];
    assert three == two + [DigitChar(c)] && two == one + [DigitChar(b)];
    DigitIsZero(a);
    DigitIsZero(b);
    DigitIsZero(c);
    if c != 0 {
      StripNothing(three);
    } else {
      StripOne(two);
      if b != 0 {
        StripNothing(two);
      } else {
        StripOne(one);
        if a != 0 {
          StripNothing(one);
        } else {
          StripOne(point);
          StripNothing(point);
        }
      }
    }
  }

  lemma {:induction false} ValueAppend(s: string, c: char)
    ensures Value(s + [c]) == 10 * Value(s) + DigitOf(c)
  {
  }

  lemma {:induction false} ReadUnsigned(s: string)
    requires s != "" && IsDigit(s[0])
    ensures Read(s) == ReadDigits(s, false)
  {
  }

  lemma {:induction false} ReadWhole(q: nat)
    ensures Read(Print(q)) == Numeral(false, q, 0)
  {
    hide Print, Value, LeadingDigits, Read;
    LeadingDigitsStop(Print(q), "");
    assert Print(q) + "" == Print(q);
    ValueOfPrint(q);
    ReadUnsigned(Print(q));
  }

  lemma {:induction false} ReadFraction(q: nat, fraction: string)
    requires fraction != "" && AllDigits(fraction)
    ensures Read(Print(q) + ['.'] + fraction) == Numeral(false, Value(Print(q) + fraction), |fraction|)
  {
    hide Print, Value, LeadingDigits, Read;
    var t := Print(q) + ['.'] + fraction;
    var rest := ['.'] + fraction;
    assert t == Print(q) + rest && t[0] == Print(q)[0] && t[|Print(q)|..] == rest && rest[1..] == fraction;
    LeadingDigitsStop(Print(q), rest);
    LeadingDigitsStop(fraction, "");
    assert fraction + "" == fraction;
    ReadUnsigned(t);
  }

  lemma {:induction false} RoundedIsExact(us: nat, scale: nat)
    requires scale >= 1
    ensures Rounded(us * scale, scale) == us
  {
    ModUnique(2 * (us * scale) + scale, us, scale, 2 * scale);
  }

  lemma {:induction false} ParseOfNumeral(s: string, digits: nat, places: nat, us: nat)
    requires Read(s) == Numeral(false, digits, places) && 1000 * digits == us * Pow10(places)
    ensures Parse(s) == if 1 <= us <= 1_000_000 then Some(us) else None
  {
    hide Read, Pow10, Rounded;
    RoundedIsExact(us, Pow10(places));
    if us <= 1_000_000 {
      MultiplesInOrder(us, 1_000_000, Pow10(places));
    } else {
      MultiplesInOrder(1_000_001, us, Pow10(places));
    }
  }

  /** Every packet time the parser can accept survives being printed; none other is accepted. */
  lemma {:induction false} PacketTimeReadsBack(us: nat)
    ensures Parse(Format(us)) == if 1 <= us <= 1_000_000 then Some(us) else None
  {
    hide Print, Value, Read, Format, Parse;
    var q, a, b, c := FormatForms(us);
    ValueOfPrint(q);
    assert Pow10(0) == 1 && Pow10(1) == 10 && Pow10(2) == 100 && Pow10(3) == 1000;
    if a == b == c == 0 {
      ReadWhole(q);
      ParseOfNumeral(Format(us), q, 0, us);
    } else if b == 0 && c == 0 {
      ReadFraction(q, [DigitChar(a)]);
      ValueAppend(Print(q), DigitChar(a));
      ParseOfNumeral(Format(us), 10 * q + a, 1, us);
    } else if c == 0 {
      ReadFraction(q, [DigitChar(a), DigitChar(b)]);
      ValueOfTwo(q, a, b);
      ParseOfNumeral(Format(us), 100 * q + 10 * a + b, 2, us);
    } else {
      ReadFraction(q, [DigitChar(a), DigitChar(b), DigitChar(c)]);
      ValueOfTwo(q, a, b);
      ValueAppend(Print(q) + [DigitChar(a), DigitChar(b)], DigitChar(c));
      assert Print(q) + [DigitChar(a), DigitChar(b)] + [DigitChar(c)] ==
        Print(q) + [DigitChar(a), DigitChar(b), DigitChar(c)];
      ParseOfNumeral(Format(us), 1000 * q + 100 * a + 10 * b + c, 3, us);
    }
  }

  lemma {:induction false} ValueOfTwo(q: nat, a: nat, b: nat)
    requires a < 10 && b < 10
    ensures Value(Print(q) + [DigitChar(a), DigitChar(b)]) == 100 * q + 10 * a + b
  {
    hide Print, Value;
    ValueOfPrint(q);
    ValueAppend(Print(q), DigitChar(a));
    ValueAppend(Print(q) + [DigitChar(a)], DigitChar(b));
    assert Print(q) + [DigitChar(a)] + [DigitChar(b)] == Print(q) + [DigitChar(a), DigitChar(b)];
  }
}
