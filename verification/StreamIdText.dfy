/** A stream identifier as text (packages/aes67-core/Shared/Types.cpp): thirty-two hex digits in five groups. */
module StreamIdText {
  import opened StreamTypes
  import opened Decimal
  import opened JsonEscape

  // ---- sixteen bytes and the number they make --------------------------------------------------

  function Pow256(n: nat): (p: nat)
    ensures p >= 1
  {
    if n == 0 then 1 else 256 * Pow256(n - 1)
  }

  function BytesOf(n: nat, count: nat): (b: seq<U8>)
    ensures |b| == count
  {
    if count == 0 then [] else BytesOf(n / 256, count - 1) + [n % 256]
  }

  function Number(b: seq<U8>): (n: nat)
    ensures n < Pow256(|b|)
  {
    if b == [] then 0 else 256 * Number(b[..|b| - 1]) + b[|b| - 1]
  }

  lemma {:induction false} NumberOfBytes(n: nat, count: nat)
    requires n < Pow256(count)
    ensures Number(BytesOf(n, count)) == n
  {
    if count > 0 {
      NumberOfBytes(n / 256, count - 1);
      var b := BytesOf(n, count);
      assert b[..|b| - 1] == BytesOf(n / 256, count - 1);
    }
  }

  lemma {:induction false} SixteenBytes()
    ensures Pow256(16) == 0x1_0000_0000_0000_0000_0000_0000_0000_0000
  {
    assert Pow256(4) == 0x1_0000_0000;
    assert Pow256(8) == 0x1_0000_0000_0000_0000;
    assert Pow256(12) == 0x1_0000_0000_0000_0000_0000_0000;
  }

  // ---- writing ---------------------------------------------------------------------------------

  function HexPair(byte: U8): string { [HexChar(byte / 16), HexChar(byte % 16)] }

  predicate DashBefore(i: nat) { i == 4 || i == 6 || i == 8 || i == 10 }

  function TextFrom(b: seq<U8>, i: nat): string
    requires i <= |b|
    decreases |b| - i
  {
    if i == |b| then "" else (if DashBefore(i) then "-" else "") + HexPair(b[i]) + TextFrom(b, i + 1)
  }

  function IdText(id: StreamId): string { TextFrom(BytesOf(id, 16), 0) }

  method ToString(id: StreamId) returns (out: string)
    ensures out == IdText(id)
  {
    hide HexPair, BytesOf;
    var b := BytesOf(id, 16);
    out := "";
    for i := 0 to 16
      invariant out + TextFrom(b, i) == IdText(id)
    {
      assert TextFrom(b, i) == (if DashBefore(i) then "-" else "") + HexPair(b[i]) + TextFrom(b, i + 1);
      if DashBefore(i) { out := out + "-"; }
      out := out + HexPair(b[i]);
    }
  }

  // ---- reading ---------------------------------------------------------------------------------

  function WithoutDashes(s: string): string {
    if s == "" then "" else if s[0] == '-' then WithoutDashes(s[1..]) else [s[0]] + WithoutDashes(s[1..])
  }

  /**
    Two characters as a base-16 number: a blank or a plus may come first, what follows a digit is
    ignored, and no minus is left by then.
   */
  function ByteOf(a: char, b: char): Option<U8> {
    if IsHex(a) then Some(if IsHex(b) then 16 * HexOf(a) + HexOf(b) else HexOf(a))
    else if !IsHex(b) then None
    else if IsSpace(a) || a == '+' then Some(HexOf(b))
    else None
  }

  function ReadBytes(s: string): Option<seq<U8>>
    requires |s| % 2 == 0
  {
    if s == "" then Some([])
    else match ByteOf(s[0], s[1])
      case None => None
      case Some(byte) =>
        match ReadBytes(s[2..])
        case None => None
        case Some(rest) => Some([byte] + rest)
  }

  /** Text of any other length is the null identifier; a pair that is no number throws (here: nothing). */
  function ParseId(s: string): Option<StreamId> {
    var digits := WithoutDashes(s);
    if |digits| != 32 then Some(NULL_ID)
    else match ReadBytes(digits)
      case None => None
      case Some(b) => if |b| == 16 then SixteenBytes(); Some(Number(b)) else None
  }

  method FromString(s: string) returns (id: Option<StreamId>)
    ensures id == ParseId(s)
  {
    var cleaned := WithoutDashes(s);
    if |cleaned| != 32 { return Some(NULL_ID); }
    hide ReadBytes;
    var uuid: seq<U8> := [];
    assert cleaned[2 * 0..] == cleaned;
    PrependNothing(ReadBytes(cleaned));
    for i := 0 to 16
      invariant |uuid| == i
      invariant ReadBytes(cleaned) == Prepended(uuid, ReadBytes(cleaned[2 * i..]))
    {
      var byte := ByteOf(cleaned[2 * i], cleaned[2 * i + 1]);
      ReadPair(cleaned, i, uuid);
      if byte.None? { return None; }
      uuid := uuid + [byte.value];
    }
    NothingToRead(cleaned, uuid);
    SixteenBytes();
    return Some(Number(uuid));
  }

  function Prepended(b: seq<U8>, rest: Option<seq<U8>>): Option<seq<U8>> {
    match rest case None => None case Some(r) => Some(b + r)
  }

  lemma {:induction false} PrependNothing(rest: Option<seq<U8>>)
    ensures Prepended([], rest) == rest
  {
    if rest.Some? { assert [] + rest.value == rest.value; }
  }

  lemma {:induction false} NothingToRead(s: string, b: seq<U8>)
    requires |s| == 32
    ensures Prepended(b, ReadBytes(s[2 * 16..])) == Some(b)
  {
    assert s[32..] == "" && b + [] == b;
  }

  lemma {:induction false} ReadPair(s: string, i: nat, b: seq<U8>)
    requires |s| == 32 && i < 16
    ensures Prepended(b, ReadBytes(s[2 * i..])) ==
      match ByteOf(s[2 * i], s[2 * i + 1]) case None => None case Some(byte) => Prepended(b + [byte],
        ReadBytes(s[2 * (i + 1)..]))
  {
    hide ByteOf;
    var rest := s[2 * i..];
    assert rest[0] == s[2 * i] && rest[1] == s[2 * i + 1] && rest[2..] == s[2 * (i + 1)..];
    var next := ReadBytes(rest[2..]);
    if next.Some? && ByteOf(s[2 * i], s[2 * i + 1]).Some? {
      var byte := ByteOf(s[2 * i], s[2 * i + 1]).value;
      assert b + ([byte] + next.value) == (b + [byte]) + next.value;
    }
  }

  // ---- the round trip --------------------------------------------------------------------------

  function HexOfBytes(b: seq<U8>): string { if b == [] then "" else HexPair(b[0]) + HexOfBytes(b[1..]) }

  lemma {:induction false} HexDigitsAreHex(d: nat)
    requires d < 16
    ensures IsHex(HexChar(d)) && HexChar(d) != '-'
  {
  }

  lemma {:induction false} PairStays(x: char, y: char, rest: string)
    requires x != '-' && y != '-'
    ensures WithoutDashes([x, y] + rest) == [x, y] + WithoutDashes(rest)
    ensures WithoutDashes("-" + ([x, y] + rest)) == [x, y] + WithoutDashes(rest)
  {
  }

  lemma {:induction false} DashesGo(b: seq<U8>, i: nat)
    requires i <= |b|
    ensures WithoutDashes(TextFrom(b, i)) == HexOfBytes(b[i..])
    decreases |b| - i
  {
    hide WithoutDashes, HexChar;
    if i < |b| {
      DashesGo(b, i + 1);
      HexDigitsAreHex(b[i] / 16);
      HexDigitsAreHex(b[i] % 16);
      var pair, rest := HexPair(b[i]), TextFrom(b, i + 1);
      PairStays(pair[0], pair[1], rest);
      assert b[i..][1..] == b[i + 1..] && "" + pair == pair && "-" + pair + rest == "-" + (pair + rest);
    } else {
      NothingStays();
    }
  }

  lemma {:induction false} NothingStays()
    ensures WithoutDashes("") == ""
  {
  }

  lemma {:induction false} BytesReadBack(b: seq<U8>)
    ensures |HexOfBytes(b)| == 2 * |b| && ReadBytes(HexOfBytes(b)) == Some(b)
  {
    if b == [] {
    } else {
      BytesReadBack(b[1..]);
      HexDigitsAreHex(b[0] / 16);
      HexDigitsAreHex(b[0] % 16);
      var s := HexOfBytes(b);
      assert s[2..] == HexOfBytes(b[1..]) && b == [b[0]] + b[1..];
    }
  }

  /** Every identifier is read back from its own text. */
  lemma {:induction false} IdReadsBack(id: StreamId)
    ensures ParseId(IdText(id)) == Some(id)
  {
    var b := BytesOf(id, 16);
    DashesGo(b, 0);
    assert b[0..] == b;
    BytesReadBack(b);
    SixteenBytes();
    NumberOfBytes(id, 16);
  }

  /** The text holds nothing that would be escaped, or mistaken for a bracket. */
  lemma {:induction false} TextIsPlain(b: seq<U8>, i: nat)
    requires i <= |b|
    ensures forall k :: 0 <= k < |TextFrom(b, i)| ==> TextFrom(b, i)[k] == '-' || IsHex(TextFrom(b, i)[k])
    decreases |b| - i
  {
    if i < |b| {
      TextIsPlain(b, i + 1);
      HexDigitsAreHex(b[i] / 16);
      HexDigitsAreHex(b[i] % 16);
    }
  }
}
