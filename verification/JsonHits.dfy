/** How often a key begins in a text, and in any part cut out of it. */
module JsonHits {
  import opened StreamTypes
  import opened JsonEscape
  import opened JsonFields
  import opened JsonDocument
  import opened JsonParts

  function Hits(s: string, key: string): nat {
    if s == "" then 0 else (if s[0] == '"' && StartsKey(s[1..], key) then 1 else 0) + Hits(s[1..], key)
  }

  // ---- documents -------------------------------------------------------------------------------

  lemma {:induction false} HitsPlain(w: string, s: string, key: string)
    requires '"' !in w
    ensures Hits(w + s, key) == Hits(s, key)
  {
    hide StartsKey;
    if w == "" {
      assert w + s == s;
    } else {
      assert (w + s)[1..] == w[1..] + s;
      HitsPlain(w[1..], s, key);
    }
  }

  lemma {:induction false} HitsQuote(s: string, key: string)
    requires !StartsKey(s, key)
    ensures Hits(['"'] + s, key) == Hits(s, key)
  {
    assert (['"'] + s)[1..] == s;
  }

  lemma {:induction false} HitsEscaped(raw: string, rest: string, key: string)
    requires IsKey(key) && Ends(rest)
    ensures Hits(Escape(raw) + ['"'] + rest, key) == Hits(rest, key)
    decreases |raw|
  {
    hide StartsKey, Hits, EscapeChar, Ends;
    var s := Escape(raw) + ['"'] + rest;
    if raw == "" {
      assert s == ['"'] + rest;
      EndsIsNoKey(rest, key);
      HitsQuote(rest, key);
    } else {
      var next := Escape(raw[1..]) + ['"'] + rest;
      HitsEscaped(raw[1..], rest, key);
      assert s == EscapeChar(raw[0]) + next;
      HitsUnit(raw[0], raw[1..], rest, key);
    }
  }

  lemma {:induction false} HitsUnit(c: char, raw: string, rest: string, key: string)
    requires IsKey(key) && Ends(rest)
    ensures var next := Escape(raw) + ['"'] + rest; Hits(EscapeChar(c) + next, key) == Hits(next, key)
  {
    hide StartsKey, Hits, Escape, Ends, EscapeChar;
    var next := Escape(raw) + ['"'] + rest;
    if c == '"' {
      QuoteUnit();
      NoKeyInside(raw, rest, key);
      HitsQuote(next, key);
      assert EscapeChar(c) + next == ['\\'] + (['"'] + next);
      HitsPlain(['\\'], ['"'] + next, key);
    } else {
      UnitHasNoQuote(c);
      HitsPlain(EscapeChar(c), next, key);
    }
  }

  lemma {:induction false} HitsText(raw: string, rest: string, key: string)
    requires IsKey(key) && Ends(rest)
    ensures Hits(Quoted(raw) + rest, key) == Hits(rest, key)
  {
    hide StartsKey, Hits, Escape, Ends;
    var inside := Escape(raw) + ['"'] + rest;
    assert Quoted(raw) + rest == ['"'] + inside;
    NoKeyInside(raw, rest, key);
    HitsQuote(inside, key);
    HitsEscaped(raw, rest, key);
  }

  lemma {:induction false} HitsHere(s: string, key: string)
    ensures Hits(['"'] + s, key) == (if StartsKey(s, key) then 1 else 0) + Hits(s, key)
  {
    hide StartsKey;
    assert (['"'] + s)[1..] == s;
  }

  lemma {:induction false} HitsKey(word: string, value: string, key: string)
    requires IsKey(word) && IsKey(key)
    ensures Hits(['"'] + word + ['"'] + (": " + value), key) == (if word == key then 1 else 0) + Hits(value, key)
  {
    hide StartsKey, Hits;
    var colon := ": " + value;
    var t := word + ['"'] + colon;
    WordHasNoQuote(word);
    assert ['"'] + word + ['"'] + colon == ['"'] + t;
    HitsHere(t, key);
    if word == key { KeyIsAt(key, value); } else { OtherKey(word, colon, key); }
    assert t == word + (['"'] + colon);
    HitsPlain(word, ['"'] + colon, key);
    NotAWord(colon, key);
    HitsHere(colon, key);
    HitsPlain(": ", value, key);
  }

  lemma {:induction false} HitsMember(m: Member, rest: string, key: string)
    requires IsKey(m.key) && Good(m.value) && Lacks(m.value, key) && IsKey(key) && Ends(rest)
    ensures Hits(RenderMember(m) + rest, key) == (if m.key == key then 1 else 0) + Hits(rest, key)
    decreases m, 4
  {
    hide Hits, Ends, IsKey, Render, Good, Lacks;
    var value := Render(m.value) + rest;
    assert RenderMember(m) + rest == ['"'] + m.key + ['"'] + (": " + value);
    HitsKey(m.key, value, key);
    HitsValue(m.value, rest, key);
  }

  lemma {:induction false} HitsValue(v: Value, rest: string, key: string)
    requires Good(v) && Lacks(v, key) && IsKey(key) && Ends(rest)
    ensures Hits(Render(v) + rest, key) == Hits(rest, key)
    decreases v, 3
  {
    hide Hits, Ends, IsKey, Quoted, Spaces;
    match v
    case Text(raw) => HitsText(raw, rest, key);
    case Bare(text) => HitsPlain(text, rest, key);
    case Object(members, indent) =>
      var head, inside := "{\n" + Spaces(indent + 2), RenderMembers(members, indent);
      SpacesHaveNoQuote(indent + 2);
      SpacesHaveNoQuote(indent);
      assert Render(v) + rest == head + (inside + (Closing(indent) + rest));
      HitsPlain(head, inside + (Closing(indent) + rest), key);
      ClosingEnds(indent, rest);
      HitsMembers(members, indent, Closing(indent) + rest, key);
      HitsPlain(Closing(indent), rest, key);
  }

  lemma {:induction false} HitsMembers(members: seq<Member>, indent: nat, rest: string, key: string)
    requires members != [] && GoodMembers(members) && MembersLack(members, key) && IsKey(key) && Ends(rest)
    ensures Hits(RenderMembers(members, indent) + rest, key) == Hits(rest, key)
    decreases members, 5
  {
    hide Hits, Ends, IsKey, Render, RenderMembers, RenderMember, Good, Lacks, Spaces;
    var m := members[0];
    if |members| == 1 {
      OneMember(members, indent, rest);
      HitsMember(m, rest, key);
    } else {
      MoreMembers(members, indent, rest);
      var next := RenderMembers(members[1..], indent) + rest;
      var comma := Spaces(indent + 2) + next;
      CommaEnds(comma);
      HitsMember(m, ",\n" + comma, key);
      HitsPlain(",\n", comma, key);
      SpacesHaveNoQuote(indent + 2);
      HitsPlain(Spaces(indent + 2), next, key);
      HitsMembers(members[1..], indent, rest, key);
    }
  }

  lemma {:induction false} HitsBefore(members: seq<Member>, indent: nat, i: nat, rest: string, key: string)
    requires i <= |members| && GoodMembers(members[..i]) && MembersLack(members[..i], key) && IsKey(key)
    ensures Hits(Before(members, indent, i) + rest, key) == Hits(rest, key)
    decreases i
  {
    hide Hits, RenderMember, Spaces, Good, Lacks, IsKey, Ends;
    if i == 0 {
      assert "" + rest == rest;
    } else {
      var m, next := members[0], Before(members[1..], indent, i - 1) + rest;
      var comma := Spaces(indent + 2) + next;
      assert Before(members, indent, i) + rest == RenderMember(m) + (",\n" + comma);
      assert m in members[..i] && members[1..][..i - 1] == members[..i][1..];
      CommaEnds(comma);
      HitsMember(m, ",\n" + comma, key);
      HitsPlain(",\n", comma, key);
      SpacesHaveNoQuote(indent + 2);
      HitsPlain(Spaces(indent + 2), next, key);
      HitsBefore(members[1..], indent, i - 1, rest, key);
    }
  }

  // ---- parts -----------------------------------------------------------------------------------

  /** A key that begins in a part begins in the whole. */
  lemma {:induction false} HitsOfParts(u: string, v: string, key: string)
    ensures Hits(u, key) + Hits(v, key) <= Hits(u + v, key)
  {
    hide StartsKey;
    if u == "" {
      assert u + v == v;
    } else {
      assert (u + v)[0] == u[0] && (u + v)[1..] == u[1..] + v;
      HitsOfParts(u[1..], v, key);
      if StartsKey(u[1..], key) { KeyGrows(u[1..], v, key); }
    }
  }

  lemma {:induction false} NoHitNoField(u: string, key: string, p: Pattern)
    requires Hits(u, key) == 0
    ensures Search(u, key, p) == None
  {
    hide StartsKey, Capture, ValueOf;
    if u == "" {
    } else {
      NoHitNoField(u[1..], key, p);
    }
  }

  /** A string captured in the beginning of a text is captured in the text. */
  lemma {:induction false} SearchGrows(u: string, v: string, key: string)
    requires Search(u, key, QuotedText).Some?
    ensures Search(u + v, key, QuotedText).Some?
  {
    hide StartsKey, Capture, ValueOf;
    assert (u + v)[0] == u[0] && (u + v)[1..] == u[1..] + v;
    if u[0] == '"' && StartsKey(u[1..], key) && Capture(QuotedText, ValueOf(u[1..], key)).Some? {
      KeyGrows(u[1..], v, key);
    } else {
      SearchGrows(u[1..], v, key);
    }
  }
}
