/**
  What the writers do to a string inside quotes, and the reader's undoing of it
  (packages/aes67-core/NetworkEngine/JsonEscape.h).
 */
module JsonEscape {

  const BACKSPACE: char := 8 as char
  const FORM_FEED: char := 12 as char

  function HexChar(d: nat): (c: char)
    requires d < 16
    ensures HexOf(c) == d
  {
    if d < 10 then '0' + d as char else 'a' + (d - 10) as char
  }

  predicate IsHex(c: char) { '0' <= c <= '9' || 'a' <= c <= 'f' || 'A' <= c <= 'F' }

  function HexOf(c: char): (d: nat)
    ensures d < 16
  {
    if '0' <= c <= '9' then (c - '0') as nat
    else if 'a' <= c <= 'f' then (c - 'a') as nat + 10
    else if 'A' <= c <= 'F' then (c - 'A') as nat + 10
    else 0
  }

  function EscapeChar(c: char): (r: string)
    ensures r != ""
  {
    if c == '"' then ['\\', '"']
    else if c == '\\' then ['\\', '\\']
    else if c == BACKSPACE then ['\\', 'b']
    else if c == FORM_FEED then ['\\', 'f']
    else if c == '\n' then ['\\', 'n']
    else if c == '\r' then ['\\', 'r']
    else if c == '\t' then ['\\', 't']
    else if c < ' ' then ['\\', 'u', '0', '0', HexChar(c as nat / 16), HexChar(c as nat % 16)]
    else [c]
  }

  function Escape(s: string): string { if s == "" then "" else EscapeChar(s[0]) + Escape(s[1..]) }

  function HexValue(s: string): nat
    requires |s| == 4
  {
    4096 * HexOf(s[0]) + 256 * HexOf(s[1]) + 16 * HexOf(s[2]) + HexOf(s[3])
  }

  /** What one escape stands for, and how much of the text it takes; text that is no escape of ours is kept. */
  function UnescapeOne(s: string): (r: (string, nat))
    requires s != ""
    ensures 1 <= r.1 <= |s|
  {
    if s[0] != '\\' || |s| == 1 then ([s[0]], 1)
    else match s[1]
      case '"' => ("\"", 2)
      case '\\' => ("\\", 2)
      case '/' => ("/", 2)
      case 'b' => ([BACKSPACE], 2)
      case 'f' => ([FORM_FEED], 2)
      case 'n' => ("\n", 2)
      case 'r' => ("\r", 2)
      case 't' => ("\t", 2)
      case 'u' =>
        if |s| >= 6 && (forall i :: 2 <= i < 6 ==> IsHex(s[i])) && HexValue(s[2..6]) <= 0x7F
        then ([HexValue(s[2..6]) as char], 6)
        else ("\\u", 2)
      case c => (['\\', c], 2)
  }

  function Unescape(s: string): string
    decreases |s|
  {
    if s == "" then "" else UnescapeOne(s).0 + Unescape(s[UnescapeOne(s).1..])
  }

  // ---- the two loops ---------------------------------------------------------------------------

  method JsonEscape(s: string) returns (out: string)
    ensures out == Escape(s)
  {
    hide EscapeChar;
    out := "";
    for i := 0 to |s|
      invariant out + Escape(s[i..]) == Escape(s)
    {
      assert s[i..][0] == s[i] && s[i..][1..] == s[i + 1..];
      out := out + EscapeChar(s[i]);
    }
    assert s[|s|..] == "";
  }

  method JsonUnescape(s: string) returns (out: string)
    ensures out == Unescape(s)
  {
    hide UnescapeOne;
    out := "";
    var i := 0;
    while i < |s|
      invariant i <= |s|
      invariant out + Unescape(s[i..]) == Unescape(s)
    {
      var step := UnescapeOne(s[i..]);
      assert s[i..][step.1..] == s[i + step.1..];
      out := out + step.0;
      i := i + step.1;
    }
    assert s[i..] == "";
  }

  // ---- the round trip --------------------------------------------------------------------------

  lemma {:induction false} ControlUnescapes(c: char, rest: string)
    requires c < ' '
    ensures UnescapeOne(['\\', 'u', '0', '0', HexChar(c as nat / 16), HexChar(c as nat % 16)] + rest) == ([c], 6)
  {
  }

  lemma {:induction false} CharUnescapes(c: char, rest: string)
    ensures UnescapeOne(EscapeChar(c) + rest) == ([c], |EscapeChar(c)|)
  {
    if c < ' ' { ControlUnescapes(c, rest); }
  }

  /** Every string comes back, whatever characters are in it. */
  lemma {:induction false} UnescapeUndoesEscape(s: string)
    ensures Unescape(Escape(s)) == s
  {
    hide EscapeChar, UnescapeOne;
    if s == "" {
    } else {
      var first, rest := EscapeChar(s[0]), Escape(s[1..]);
      CharUnescapes(s[0], rest);
      assert (first + rest)[|first|..] == rest;
      UnescapeUndoesEscape(s[1..]);
    }
  }

  /** The escaped text holds no control character, and every quote in it stands behind a backslash. */
  lemma {:induction false} EscapedIsClean(s: string, i: nat)
    requires i < |Escape(s)|
    ensures Escape(s)[i] >= ' '
    ensures Escape(s)[i] == '"' ==> i > 0 && Escape(s)[i - 1] == '\\'
  {
    var first := EscapeChar(s[0]);
    if i >= |first| { EscapedIsClean(s[1..], i - |first|); }
  }

  /** Escaping brings in no character but the backslash, a few letters and hex digits. */
  lemma {:induction false} EscapeAvoids(s: string, c: char)
    requires c !in s && c in "{}[]"
    ensures c !in Escape(s)
  {
    if s == "" {
    } else {
      EscapeAvoids(s[1..], c);
      assert s[0] != c && c !in EscapeChar(s[0]);
    }
  }
}
