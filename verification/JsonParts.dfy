/**
  Reading a string field out of any part of a document the writers made, a part cut out of the middle
  of a value included: what a string pattern captures is always a whole escaped string.
 */
module JsonParts {
  import opened StreamTypes
  import opened Decimal
  import opened Text
  import opened JsonEscape
  import opened JsonFields
  import opened JsonDocument

  ghost predicate IsEscaped(r: string) { exists raw: string :: r == Escape(raw) }

  /** If the key matches where a text begins and a string is captured there, the string is a whole one. */
  ghost predicate TidyAt(s: string, key: string) {
    s != "" && s[0] == '"' && StartsKey(s[1..], key) ==>
      var r := Capture(QuotedText, ValueOf(s[1..], key));
      r.Some? ==> IsEscaped(r.value)
  }

  /** And so wherever it matches. */
  ghost predicate Tidy(s: string, key: string) {
    s == "" || (TidyAt(s, key) && Tidy(s[1..], key))
  }

  // ---- every document is tidy ------------------------------------------------------------------

  lemma {:induction false} TidyPlain(w: string, s: string, key: string)
    requires '"' !in w && Tidy(s, key)
    ensures Tidy(w + s, key)
  {
    hide StartsKey;
    if w == "" {
      assert w + s == s;
    } else {
      assert (w + s)[1..] == w[1..] + s;
      TidyPlain(w[1..], s, key);
    }
  }

  lemma {:induction false} TidyQuote(s: string, key: string)
    requires !StartsKey(s, key) && Tidy(s, key)
    ensures Tidy(['"'] + s, key)
  {
    assert (['"'] + s)[1..] == s;
  }

  lemma {:induction false} TidyEscaped(raw: string, rest: string, key: string)
    requires IsKey(key) && Ends(rest) && Tidy(rest, key)
    ensures Tidy(Escape(raw) + ['"'] + rest, key)
    decreases |raw|
  {
    hide StartsKey, Tidy, EscapeChar, Ends;
    var s := Escape(raw) + ['"'] + rest;
    if raw == "" {
      assert s == ['"'] + rest;
      EndsIsNoKey(rest, key);
      TidyQuote(rest, key);
    } else {
      var next := Escape(raw[1..]) + ['"'] + rest;
      TidyEscaped(raw[1..], rest, key);
      assert s == EscapeChar(raw[0]) + next;
      TidyUnit(raw[0], raw[1..], rest, key);
    }
  }

  lemma {:induction false} TidyUnit(c: char, raw: string, rest: string, key: string)
    requires IsKey(key) && Ends(rest) && Tidy(Escape(raw) + ['"'] + rest, key)
    ensures Tidy(EscapeChar(c) + (Escape(raw) + ['"'] + rest), key)
  {
    hide StartsKey, Tidy, Escape, Ends, EscapeChar;
    var next := Escape(raw) + ['"'] + rest;
    if c == '"' {
      QuoteUnit();
      NoKeyInside(raw, rest, key);
      TidyQuote(next, key);
      assert EscapeChar(c) + next == ['\\'] + (['"'] + next);
      TidyPlain(['\\'], ['"'] + next, key);
    } else {
      UnitHasNoQuote(c);
      TidyPlain(EscapeChar(c), next, key);
    }
  }

  lemma {:induction false} TidyText(raw: string, rest: string, key: string)
    requires IsKey(key) && Ends(rest) && Tidy(rest, key)
    ensures Tidy(Quoted(raw) + rest, key)
  {
    hide StartsKey, Tidy, Escape, Ends;
    var inside := Escape(raw) + ['"'] + rest;
    assert Quoted(raw) + rest == ['"'] + inside;
    NoKeyInside(raw, rest, key);
    TidyEscaped(raw, rest, key);
    TidyQuote(inside, key);
  }

  /** A bare value says something. */
  predicate Solid(v: Value) {
    match v
    case Text(_) => true
    case Bare(text) => text != "" && !IsSpace(text[0])
    case Object(members, _) => forall m :: m in members ==> Solid(m.value)
  }

  lemma {:induction false} ValueIsWhole(v: Value, rest: string)
    requires Good(v) && Solid(v)
    ensures var r := Capture(QuotedText, DropSpaces(Render(v) + rest)); r.Some? ==> IsEscaped(r.value)
  {
    hide Escape, ReadQuoted;
    var s := Render(v) + rest;
    if v.Text? {
      ReadQuotedText(v.raw, rest);
      assert s[0] == '"' && s[1..] == Escape(v.raw) + ['"'] + rest;
    } else {
      assert s[0] == Render(v)[0];
      if v.Bare? { assert v.text[0] in v.text; }
    }
  }

  lemma {:induction false} TidyKey(m: Member, rest: string, key: string)
    requires IsKey(m.key) && IsKey(key) && Good(m.value) && Solid(m.value)
    ensures TidyAt(RenderMember(m) + rest, key)
  {
    hide StartsKey, Render, Good, Solid, Capture, ValueOf;
    var value := Render(m.value) + rest;
    var t := m.key + ['"'] + (": " + value);
    assert RenderMember(m) + rest == ['"'] + t && (['"'] + t)[1..] == t;
    if m.key == key {
      KeyIsAt(key, value);
      ValueIsWhole(m.value, rest);
    } else {
      WordHasNoQuote(m.key);
      OtherKey(m.key, ": " + value, key);
    }
  }

  lemma {:induction false} TidyFromHere(s: string, key: string)
    requires s != "" && TidyAt(s, key) && Tidy(s[1..], key)
    ensures Tidy(s, key)
  {
  }

  lemma {:induction false} TidyColon(value: string, key: string)
    requires IsKey(key) && Tidy(value, key)
    ensures Tidy(['"'] + (": " + value), key)
  {
    hide Tidy, StartsKey;
    TidyPlain(": ", value, key);
    NotAWord(": " + value, key);
    TidyQuote(": " + value, key);
  }

  lemma {:induction false} TidyMember(m: Member, rest: string, key: string)
    requires IsKey(m.key) && IsKey(key) && Good(m.value) && Solid(m.value) && Ends(rest) && Tidy(rest, key)
    ensures Tidy(RenderMember(m) + rest, key)
    decreases m, 4
  {
    hide Tidy, TidyAt, Render, Good, Solid, Ends, IsKey;
    var value := Render(m.value) + rest;
    var s, colon := RenderMember(m) + rest, ['"'] + (": " + value);
    TidyValue(m.value, rest, key);
    TidyColon(value, key);
    KeyHasNoQuote(m.key);
    TidyPlain(m.key, colon, key);
    TidyKey(m, rest, key);
    assert s[1..] == m.key + colon;
    TidyFromHere(s, key);
  }

  lemma {:induction false} KeyHasNoQuote(key: string)
    requires IsKey(key)
    ensures '"' !in key
  {
  }

  lemma {:induction false} TidyValue(v: Value, rest: string, key: string)
    requires IsKey(key) && Good(v) && Solid(v) && Ends(rest) && Tidy(rest, key)
    ensures Tidy(Render(v) + rest, key)
    decreases v, 3
  {
    hide Tidy, Ends, IsKey, Quoted, Spaces;
    match v
    case Text(raw) => TidyText(raw, rest, key);
    case Bare(text) => TidyPlain(text, rest, key);
    case Object(members, indent) =>
      var head, inside := "{\n" + Spaces(indent + 2), RenderMembers(members, indent);
      SpacesHaveNoQuote(indent + 2);
      SpacesHaveNoQuote(indent);
      assert Render(v) + rest == head + (inside + (Closing(indent) + rest));
      TidyPlain(Closing(indent), rest, key);
      ClosingEnds(indent, rest);
      TidyMembers(members, indent, Closing(indent) + rest, key);
      TidyPlain(head, inside + (Closing(indent) + rest), key);
  }

  lemma {:induction false} TidyMembers(members: seq<Member>, indent: nat, rest: string, key: string)
    requires members != [] && GoodMembers(members) && (forall m :: m in members ==> Solid(m.value))
    requires IsKey(key) && Ends(rest) && Tidy(rest, key)
    ensures Tidy(RenderMembers(members, indent) + rest, key)
    decreases members, 5
  {
    hide Tidy, Ends, IsKey, Render, RenderMembers, RenderMember, Good, Solid, Spaces;
    var m := members[0];
    if |members| == 1 {
      OneMember(members, indent, rest);
      TidyMember(m, rest, key);
    } else {
      MoreMembers(members, indent, rest);
      var next := RenderMembers(members[1..], indent) + rest;
      var comma := Spaces(indent + 2) + next;
      TidyMembers(members[1..], indent, rest, key);
      SpacesHaveNoQuote(indent + 2);
      TidyPlain(Spaces(indent + 2), next, key);
      TidyPlain(",\n", comma, key);
      CommaEnds(comma);
      TidyMember(m, ",\n" + comma, key);
    }
  }

  // ---- a part sees what the whole sees ---------------------------------------------------------

  lemma {:induction false} DropSpacesGrows(s: string, b: string)
    requires DropSpaces(s) != ""
    ensures DropSpaces(s + b) == DropSpaces(s) + b
  {
    if IsSpace(s[0]) {
      assert (s + b)[1..] == s[1..] + b;
      DropSpacesGrows(s[1..], b);
    } else {
      assert (s + b)[0] == s[0];
    }
  }

  lemma {:induction false} ReadQuotedGrows(s: string, b: string)
    requires ReadQuoted(s).Some?
    ensures ReadQuoted(s + b) == ReadQuoted(s)
    decreases |s|
  {
    assert (s + b)[0] == s[0];
    if s[0] == '"' {
    } else if s[0] != '\\' {
      assert (s + b)[1..] == s[1..] + b;
      ReadQuotedGrows(s[1..], b);
    } else {
      assert (s + b)[2..] == s[2..] + b && (s + b)[..2] == s[..2] && (s + b)[1] == s[1];
      ReadQuotedGrows(s[2..], b);
    }
  }

  lemma {:induction false} KeyGrows(s: string, b: string, key: string)
    requires StartsKey(s, key)
    ensures StartsKey(s + b, key)
    ensures Capture(QuotedText, ValueOf(s, key)).Some? ==>
      Capture(QuotedText, ValueOf(s + b, key)) == Capture(QuotedText, ValueOf(s, key))
  {
    var after := s[|key| + 1..];
    assert (s + b)[|key| + 1..] == after + b && (s + b)[|key|] == s[|key|];
    DropSpacesGrows(after, b);
    var colon := DropSpaces(after);
    assert (colon + b)[1..] == colon[1..] + b;
    var value := DropSpaces(colon[1..]);
    if value != "" {
      DropSpacesGrows(colon[1..], b);
      assert value[0] == (value + b)[0] && (value + b)[1..] == value[1..] + b;
      if ReadQuoted(value[1..]).Some? { ReadQuotedGrows(value[1..], b); }
    }
  }

  lemma {:induction false} TidyTail(a: string, s: string, key: string)
    requires Tidy(a + s, key)
    ensures Tidy(s, key)
  {
    hide TidyAt;
    if a == "" {
      assert a + s == s;
    } else {
      assert (a + s)[1..] == a[1..] + s;
      TidyTail(a[1..], s, key);
    }
  }

  lemma {:induction false} FrontIsWhole(u: string, b: string, key: string)
    requires Tidy(u + b, key) && Search(u, key, QuotedText).Some?
    ensures IsEscaped(Search(u, key, QuotedText).value)
    decreases |u|
  {
    hide Capture, StartsKey, ValueOf, IsEscaped;
    assert (u + b)[0] == u[0] && (u + b)[1..] == u[1..] + b;
    if u[0] == '"' && StartsKey(u[1..], key) && Capture(QuotedText, ValueOf(u[1..], key)).Some? {
      KeyGrows(u[1..], b, key);
    } else {
      FrontIsWhole(u[1..], b, key);
    }
  }

  /** u is cut out of s. */
  ghost predicate PartOf(u: string, s: string) { exists a, b :: s == a + u + b }

  /** What a string field of any part of a tidy text gives is a whole string of it, as it was before it was escaped. */
  lemma {:induction false} PartGivesWholeStrings(u: string, s: string, key: string) returns (raw: string)
    requires PartOf(u, s) && Tidy(s, key) && IsWord(key) && ExtractString(u, key).Some?
    ensures MatchField(u, key, QuotedText) == Some(Escape(raw)) && ExtractString(u, key) == Some(raw)
  {
    hide Tidy, Search;
    var a, b :| s == a + u + b;
    assert s == a + (u + b);
    TidyTail(a, u + b, key);
    FrontIsWhole(u, b, key);
    raw :| Search(u, key, QuotedText).value == Escape(raw);
    UnescapeUndoesEscape(raw);
  }

  lemma {:induction false} PartOfPart(u: string, v: string, s: string)
    requires PartOf(u, v) && PartOf(v, s)
    ensures PartOf(u, s)
  {
    var a, b :| v == a + u + b;
    var c, d :| s == c + v + d;
    assert s == (c + a) + u + (b + d);
  }

  // ---- text that ends at its first brace -------------------------------------------------------

  predicate Shut(s: string) { s == "" || (s[|s| - 1] == '}' && '}' !in s[..|s| - 1]) }

  lemma {:induction false} ShutTail(s: string)
    requires Shut(s) && s != ""
    ensures Shut(s[1..])
  {
    if |s| > 1 {
      var t := s[1..];
      assert t[..|t| - 1] == s[1..|s| - 1] && s[1..|s| - 1] == s[..|s| - 1][1..];
    }
  }

  lemma {:induction false} ShutSuffix(s: string, k: nat)
    requires Shut(s) && k <= |s|
    ensures Shut(s[k..])
  {
    if k == 0 {
      assert s[0..] == s;
    } else {
      ShutTail(s);
      ShutSuffix(s[1..], k - 1);
      assert s[1..][k - 1..] == s[k..];
    }
  }

  lemma {:induction false} ShutDropSpaces(s: string)
    requires Shut(s)
    ensures Shut(DropSpaces(s))
  {
    hide Shut;
    if s != "" && IsSpace(s[0]) {
      ShutTail(s);
      ShutDropSpaces(s[1..]);
    }
  }

  lemma {:induction false} QuotedInShut(s: string)
    requires Shut(s) && ReadQuoted(s).Some?
    ensures '}' !in ReadQuoted(s).value
    decreases |s|
  {
    if s[0] == '"' {
    } else if s[0] != '\\' {
      ShutTail(s);
      QuotedInShut(s[1..]);
      assert s[0] == s[..|s| - 1][0];
    } else {
      ShutSuffix(s, 2);
      QuotedInShut(s[2..]);
      assert s[0] == s[..|s| - 1][0] && s[1] == s[..|s| - 1][1];
    }
  }

  lemma {:induction false} ValueInShut(s: string, key: string)
    requires Shut(s) && StartsKey(s, key) && Capture(QuotedText, ValueOf(s, key)).Some?
    ensures '}' !in Capture(QuotedText, ValueOf(s, key)).value
  {
    hide Shut;
    ShutSuffix(s, |key| + 1);
    ShutDropSpaces(s[|key| + 1..]);
    var colon := DropSpaces(s[|key| + 1..]);
    ShutTail(colon);
    ShutDropSpaces(colon[1..]);
    ShutTail(ValueOf(s, key));
    QuotedInShut(ValueOf(s, key)[1..]);
  }

  lemma {:induction false} SearchInShut(s: string, key: string)
    requires Shut(s) && Search(s, key, QuotedText).Some?
    ensures '}' !in Search(s, key, QuotedText).value
  {
    hide Shut, StartsKey, Capture, ValueOf;
    ShutTail(s);
    if s[0] == '"' && StartsKey(s[1..], key) && Capture(QuotedText, ValueOf(s[1..], key)).Some? {
      ValueInShut(s[1..], key);
    } else {
      SearchInShut(s[1..], key);
    }
  }

  lemma {:induction false} EscapeKeepsBrace(raw: string)
    requires '}' in raw
    ensures '}' in Escape(raw)
  {
    if raw[0] == '}' {
      assert EscapeChar('}')[0] == '}' && Escape(raw)[0] == '}';
    } else {
      EscapeKeepsBrace(raw[1..]);
      var i :| 0 <= i < |Escape(raw[1..])| && Escape(raw[1..])[i] == '}';
      assert Escape(raw)[|EscapeChar(raw[0])| + i] == '}';
    }
  }

  /** No string read from a part that ends at its first closing brace holds one. */
  lemma {:induction false} NoBraceIsRead(u: string, s: string, key: string)
    requires Shut(u) && PartOf(u, s) && Tidy(s, key) && IsWord(key)
    ensures ExtractString(u, key).Some? ==> '}' !in ExtractString(u, key).value
  {
    hide Shut, PartOf, Tidy, Search, Escape;
    if ExtractString(u, key).Some? {
      var raw := PartGivesWholeStrings(u, s, key);
      SearchInShut(u, key);
      if '}' in raw { EscapeKeepsBrace(raw); }
    }
  }

  /** The text taken for an object: cut out of the text searched, ending at its first closing brace. */
  lemma {:induction false} BracedPart(s: string, key: string)
    requires Search(s, key, UpToBrace).Some?
    ensures var u := ['{'] + Search(s, key, UpToBrace).value + ['}']; Shut(u) && PartOf(u, s)
  {
    hide StartsKey, Capture, ValueOf, Shut;
    assert s == [s[0]] + s[1..];
    if s[0] == '"' && StartsKey(s[1..], key) && Capture(UpToBrace, ValueOf(s[1..], key)).Some? {
      var a := ValueIsPart(s[1..], key);
      var v := ValueOf(s[1..], key);
      var r, b := BraceCapture(v);
      var u := ['{'] + r + ['}'];
      assert s == ([s[0]] + a) + u + b;
    } else {
      BracedPart(s[1..], key);
      var u := ['{'] + Search(s[1..], key, UpToBrace).value + ['}'];
      var a, b :| s[1..] == a + u + b;
      assert s == ([s[0]] + a) + u + b;
    }
  }

  lemma {:induction false} BraceCapture(v: string) returns (r: string, b: string)
    requires Capture(UpToBrace, v).Some?
    ensures Capture(UpToBrace, v) == Some(r) && Shut(['{'] + r + ['}']) && v == ['{'] + r + ['}'] + b
  {
    hide Find;
    var i := Find(v, '}').value;
    r, b := v[1..i], v[i + 1..];
    var u := ['{'] + r + ['}'];
    assert u[..|u| - 1] == ['{'] + r;
    assert forall k :: 0 <= k < |r| ==> r[k] == v[1 + k];
  }

  lemma {:induction false} DropSpacesIsTail(s: string) returns (a: string)
    ensures s == a + DropSpaces(s)
  {
    if s != "" && IsSpace(s[0]) {
      a := DropSpacesIsTail(s[1..]);
      assert s == [s[0]] + s[1..];
      a := [s[0]] + a;
    } else {
      a := "";
      assert "" + s == s;
    }
  }

  lemma {:induction false} ValueIsPart(s: string, key: string) returns (a: string)
    requires StartsKey(s, key)
    ensures s == a + ValueOf(s, key)
  {
    hide DropSpaces;
    var after := s[|key| + 1..];
    var b := DropSpacesIsTail(after);
    var colon := DropSpaces(after);
    var c := DropSpacesIsTail(colon[1..]);
    a := s[..|key| + 1] + b + [colon[0]] + c;
    assert s == s[..|key| + 1] + after;
    assert colon == [colon[0]] + colon[1..];
  }
}
