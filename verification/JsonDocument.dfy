/** Documents made by the writers: a field reader finds its own key and never text inside a value. */
module JsonDocument {
  import opened StreamTypes
  import opened Decimal
  import opened Text
  import opened JsonEscape
  import opened JsonFields

  /** What may follow a value: not a word, not a quote, not a colon. */
  predicate Ends(rest: string) {
    && rest != "" && !IsWordChar(rest[0]) && rest[0] != '"'
    && DropSpaces(rest) != "" && DropSpaces(rest)[0] != ':'
  }

  predicate IsKey(key: string) { key != "" && IsWord(key) }

  predicate Good(v: Value) {
    match v
    case Text(_) => true
    case Bare(text) => '"' !in text
    case Object(members, _) => members != [] && forall m :: m in members ==> IsKey(m.key) && Good(m.value)
  }

  predicate GoodMembers(members: seq<Member>) { forall m :: m in members ==> IsKey(m.key) && Good(m.value) }

  /** The key is nowhere in the value, at any depth. */
  predicate Lacks(v: Value, key: string) {
    v.Object? ==> forall m :: m in v.members ==> m.key != key && Lacks(m.value, key)
  }

  predicate MembersLack(members: seq<Member>, key: string) {
    forall m :: m in members ==> m.key != key && Lacks(m.value, key)
  }

  // ---- passing over text -----------------------------------------------------------------------

  lemma {:induction false} SkipPlain(w: string, s: string, key: string, p: Pattern)
    requires '"' !in w
    ensures Search(w + s, key, p) == Search(s, key, p)
  {
    hide StartsKey, Capture;
    if w == "" {
      assert w + s == s;
    } else {
      assert (w + s)[1..] == w[1..] + s;
      SkipPlain(w[1..], s, key, p);
    }
  }

  lemma {:induction false} SkipQuote(s: string, key: string, p: Pattern)
    requires !StartsKey(s, key)
    ensures Search(['"'] + s, key, p) == Search(s, key, p)
  {
  }

  lemma {:induction false} NotAWord(s: string, key: string)
    requires IsKey(key) && s != "" && !IsWordChar(s[0])
    ensures !StartsKey(s, key)
  {
  }

  lemma {:induction false} OtherKey(word: string, rest: string, key: string)
    requires '"' !in word && IsKey(key) && word != key
    ensures !StartsKey(word + ['"'] + rest, key)
  {
    var s := word + ['"'] + rest;
    assert s[|word|] == '"' && s[..|word|] == word;
    if |key| < |word| { assert s[|key|] == word[|key|]; }
  }

  /** From the opening quote of a value, or from any quote inside it, no key begins. */
  lemma {:induction false} NoKeyInside(raw: string, rest: string, key: string)
    requires IsKey(key) && Ends(rest)
    ensures !StartsKey(Escape(raw) + ['"'] + rest, key)
  {
    hide Escape;
    var e := Escape(raw);
    var s := e + ['"'] + rest;
    assert s[|e|] == '"';
    if |key| < |e| {
      EscapedIsClean(raw, |key|);
      assert s[|key|] == e[|key|] && s[|key| - 1] == e[|key| - 1];
    } else if |key| == |e| {
      assert s[|key| + 1..] == rest;
    }
  }

  lemma {:induction false} SkipEscaped(raw: string, rest: string, key: string, p: Pattern)
    requires IsKey(key) && Ends(rest)
    ensures Search(Escape(raw) + ['"'] + rest, key, p) == Search(rest, key, p)
    decreases |raw|
  {
    hide StartsKey, Search, EscapeChar, Ends;
    var s := Escape(raw) + ['"'] + rest;
    if raw == "" {
      assert s == ['"'] + rest;
      assert !StartsKey(rest, key) by { EndsIsNoKey(rest, key); }
      SkipQuote(rest, key, p);
    } else {
      var next := Escape(raw[1..]) + ['"'] + rest;
      SkipEscaped(raw[1..], rest, key, p);
      assert s == EscapeChar(raw[0]) + next;
      SkipUnit(raw[0], raw[1..], rest, key, p);
    }
  }

  lemma {:induction false} EndsIsNoKey(rest: string, key: string)
    requires IsKey(key) && Ends(rest)
    ensures !StartsKey(rest, key)
  {
  }

  lemma {:induction false} SkipUnit(c: char, raw: string, rest: string, key: string, p: Pattern)
    requires IsKey(key) && Ends(rest)
    ensures var next := Escape(raw) + ['"'] + rest; Search(EscapeChar(c) + next, key, p) == Search(next, key, p)
  {
    hide StartsKey, Search, Escape, Ends;
    var next := Escape(raw) + ['"'] + rest;
    if c == '"' {
      NoKeyInside(raw, rest, key);
      SkipQuote(next, key, p);
      assert EscapeChar(c) + next == ['\\'] + (['"'] + next);
      SkipPlain(['\\'], ['"'] + next, key, p);
    } else {
      assert '"' !in EscapeChar(c);
      SkipPlain(EscapeChar(c), next, key, p);
    }
  }

  lemma {:induction false} SkipText(raw: string, rest: string, key: string, p: Pattern)
    requires IsKey(key) && Ends(rest)
    ensures Search(Quoted(raw) + rest, key, p) == Search(rest, key, p)
  {
    hide StartsKey, Search, Escape, Ends;
    var inside := Escape(raw) + ['"'] + rest;
    assert Quoted(raw) + rest == ['"'] + inside;
    NoKeyInside(raw, rest, key);
    SkipQuote(inside, key, p);
    SkipEscaped(raw, rest, key, p);
  }

  lemma {:induction false} WordHasNoQuote(word: string)
    requires IsWord(word)
    ensures '"' !in word
  {
  }

  lemma {:induction false} SkipKey(word: string, rest: string, key: string, p: Pattern)
    requires IsKey(word) && IsKey(key) && word != key
    ensures Search(['"'] + word + ['"'] + (": " + rest), key, p) == Search(rest, key, p)
  {
    hide StartsKey, Search;
    var colon := ": " + rest;
    WordHasNoQuote(word);
    OtherKey(word, colon, key);
    assert ['"'] + word + ['"'] + colon == ['"'] + (word + ['"'] + colon);
    SkipQuote(word + ['"'] + colon, key, p);
    assert word + ['"'] + colon == word + (['"'] + colon);
    SkipPlain(word, ['"'] + colon, key, p);
    NotAWord(colon, key);
    SkipQuote(colon, key, p);
    SkipPlain(": ", rest, key, p);
  }

  // ---- passing over values ---------------------------------------------------------------------

  /** The end of an object, whatever comes after it. */
  function Closing(indent: nat): string { "\n" + Spaces(indent) + "}" }

  lemma {:induction false} DropSpacesPast(w: string, s: string)
    requires forall i :: 0 <= i < |w| ==> IsSpace(w[i])
    ensures DropSpaces(w + s) == DropSpaces(s)
  {
    if w == "" {
      assert w + s == s;
    } else {
      assert (w + s)[1..] == w[1..] + s;
      DropSpacesPast(w[1..], s);
    }
  }

  lemma {:induction false} ClosingEnds(indent: nat, rest: string)
    ensures Ends(Closing(indent) + rest)
  {
    hide Spaces;
    var w := "\n" + Spaces(indent);
    assert Closing(indent) + rest == w + ("}" + rest);
    DropSpacesPast(w, "}" + rest);
  }

  lemma {:induction false} CommaEnds(rest: string)
    ensures Ends(",\n" + rest)
  {
  }

  lemma {:induction false} SpacesHaveNoQuote(n: nat)
    ensures '"' !in Spaces(n)
  {
  }

  lemma {:induction false} SkipValue(v: Value, rest: string, key: string, p: Pattern)
    requires Good(v) && Lacks(v, key) && IsKey(key) && Ends(rest)
    ensures Search(Render(v) + rest, key, p) == Search(rest, key, p)
    decreases v, 3
  {
    hide Search, Ends, IsKey, Quoted, Spaces;
    match v
    case Text(raw) => SkipText(raw, rest, key, p);
    case Bare(text) => SkipPlain(text, rest, key, p);
    case Object(members, indent) =>
      var head, inside := "{\n" + Spaces(indent + 2), RenderMembers(members, indent);
      SpacesHaveNoQuote(indent + 2);
      SpacesHaveNoQuote(indent);
      assert Render(v) + rest == head + (inside + (Closing(indent) + rest));
      SkipPlain(head, inside + (Closing(indent) + rest), key, p);
      ClosingEnds(indent, rest);
      SkipMembers(members, indent, Closing(indent) + rest, key, p);
      SkipPlain(Closing(indent), rest, key, p);
  }

  lemma {:induction false} SkipMember(m: Member, rest: string, key: string, p: Pattern)
    requires IsKey(m.key) && Good(m.value) && m.key != key && Lacks(m.value, key) && IsKey(key) && Ends(rest)
    ensures Search(RenderMember(m) + rest, key, p) == Search(rest, key, p)
    decreases m, 4
  {
    hide Search, Ends, IsKey, Render, Good, Lacks;
    var value := Render(m.value) + rest;
    assert RenderMember(m) + rest == ['"'] + m.key + ['"'] + (": " + value);
    SkipKey(m.key, value, key, p);
    SkipValue(m.value, rest, key, p);
  }

  lemma {:induction false} Reassociate(a: string, b: string, c: string, d: string, e: string)
    ensures (a + (b + c + d)) + e == a + (b + (c + (d + e)))
    ensures b + (c + (d + e)) == (b + c) + (d + e)
  {
  }

  lemma {:induction false} OneMember(members: seq<Member>, indent: nat, rest: string)
    requires |members| == 1
    ensures RenderMembers(members, indent) + rest == RenderMember(members[0]) + rest
  {
  }

  lemma {:induction false} MoreMembers(members: seq<Member>, indent: nat, rest: string)
    requires |members| > 1
    ensures RenderMembers(members, indent) + rest
         == RenderMember(members[0]) + (",\n" + (Spaces(indent + 2) + (RenderMembers(members[1..], indent) + rest)))
  {
  }

  lemma {:induction false} SkipMembers(members: seq<Member>, indent: nat, rest: string, key: string, p: Pattern)
    requires members != [] && GoodMembers(members) && MembersLack(members, key) && IsKey(key) && Ends(rest)
    ensures Search(RenderMembers(members, indent) + rest, key, p) == Search(rest, key, p)
    decreases members, 5
  {
    hide Search, Ends, IsKey, Render, RenderMembers, RenderMember, Good, Lacks, Spaces;
    var m := members[0];
    if |members| == 1 {
      OneMember(members, indent, rest);
      SkipMember(m, rest, key, p);
    } else {
      MoreMembers(members, indent, rest);
      var next := RenderMembers(members[1..], indent) + rest;
      var comma := Spaces(indent + 2) + next;
      CommaEnds(comma);
      SkipMember(m, ",\n" + comma, key, p);
      SkipPlain(",\n", comma, key, p);
      SpacesHaveNoQuote(indent + 2);
      SkipPlain(Spaces(indent + 2), next, key, p);
      SkipMembers(members[1..], indent, rest, key, p);
    }
  }

  /** A field the document does not have is not found, whatever its strings say. */
  lemma {:induction false} AbsentIsNotFound(members: seq<Member>, indent: nat, key: string, p: Pattern)
    requires members != [] && GoodMembers(members) && MembersLack(members, key) && IsKey(key)
    ensures Search(Render(Object(members, indent)), key, p) == None
  {
    hide Ends, Good, Lacks, RenderMembers, Spaces, StartsKey, Capture;
    ObjectText(members, indent, "");
    var head, tail := "{\n" + Spaces(indent + 2), Closing(indent) + "";
    SpacesHaveNoQuote(indent + 2);
    SpacesHaveNoQuote(indent);
    SkipPlain(head, RenderMembers(members, indent) + tail, key, p);
    ClosingEnds(indent, "");
    SkipMembers(members, indent, tail, key, p);
    SkipPlain(Closing(indent), "", key, p);
    assert Render(Object(members, indent)) + "" == Render(Object(members, indent));
  }

  lemma {:induction false} ObjectText(members: seq<Member>, indent: nat, rest: string)
    ensures Render(Object(members, indent)) + rest
         == ("{\n" + Spaces(indent + 2)) + (RenderMembers(members, indent) + (Closing(indent) + rest))
  {
  }

  // ---- finding a field -------------------------------------------------------------------------

  /** The text between an object's braces. */
  function Inside(members: seq<Member>, indent: nat): string {
    "\n" + Spaces(indent + 2) + RenderMembers(members, indent) + ("\n" + Spaces(indent))
  }

  lemma {:induction false} ObjectIsBraced(members: seq<Member>, indent: nat)
    ensures Render(Object(members, indent)) == ['{'] + Inside(members, indent) + ['}']
  {
  }

  /** The text before the first such character, or all of it. */
  predicate UpToFirst(s: string, c: char, r: string) { r <= s && c !in r && (r == s || s[|r|] == c) }

  /** What a reader with that pattern takes from a value. */
  ghost predicate Reads(v: Value, p: Pattern, r: string) {
    match p
    case QuotedText => v.Text? && r == Escape(v.raw)
    case Digits => v == Bare(r) && r != "" && AllDigits(r)
    case SignedDigits =>
      v == Bare(r) && ((r != "" && AllDigits(r)) || (|r| > 1 && r[0] == '-' && AllDigits(r[1..])))
    case Boolean => v == Bare(r) && (r == "true" || r == "false")
    case UpToBrace => v.Object? && UpToFirst(Inside(v.members, v.indent), '}', r) && r != ""
    case UpToBracket => v == Bare(['['] + r + [']']) && ']' !in r
  }

  lemma {:induction false} ReadQuotedText(raw: string, rest: string)
    ensures ReadQuoted(Escape(raw) + ['"'] + rest) == Some(Escape(raw))
    decreases |raw|
  {
    hide EscapeChar;
    if raw == "" {
      assert Escape(raw) + ['"'] + rest == ['"'] + rest;
    } else {
      var next := Escape(raw[1..]) + ['"'] + rest;
      assert Escape(raw) + ['"'] + rest == EscapeChar(raw[0]) + next;
      ReadQuotedText(raw[1..], rest);
      ReadQuotedUnit(raw[0], next, Escape(raw[1..]));
    }
  }

  lemma {:induction false} ReadQuotedPlain(w: string, next: string, r: string)
    requires ReadQuoted(next) == Some(r) && forall i :: 0 <= i < |w| ==> w[i] != '"' && w[i] != '\\'
    ensures ReadQuoted(w + next) == Some(w + r)
  {
    if w == "" {
      assert w + next == next && w + r == r;
    } else {
      ReadQuotedPlain(w[1..], next, r);
      assert (w + next)[1..] == w[1..] + next && [w[0]] + (w[1..] + r) == w + r;
    }
  }

  /** An escape is a backslash, one character that is no line break, and plain characters. */
  lemma {:induction false} UnitShape(c: char)
    ensures var e := EscapeChar(c);
      if e[0] == '\\'
      then |e| >= 2 && e[1] != '\n' && e[1] != '\r' && forall i :: 2 <= i < |e| ==> e[i] != '"' && e[i] != '\\'
      else forall i :: 0 <= i < |e| ==> e[i] != '"' && e[i] != '\\'
  {
  }

  lemma {:induction false} ReadQuotedUnit(c: char, next: string, r: string)
    requires ReadQuoted(next) == Some(r)
    ensures ReadQuoted(EscapeChar(c) + next) == Some(EscapeChar(c) + r)
  {
    hide EscapeChar;
    UnitShape(c);
    var e := EscapeChar(c);
    if e[0] == '\\' {
      var s, plain := e + next, e[2..];
      assert s[2..] == plain + next && s[..2] == e[..2] && s[1] == e[1];
      ReadQuotedPlain(plain, next, r);
      assert e[..2] + (plain + r) == e + r;
    } else {
      ReadQuotedPlain(e, next, r);
    }
  }

  lemma {:induction false} EndsIsNoDigit(rest: string)
    requires Ends(rest)
    ensures rest != "" && !IsDigit(rest[0])
  {
  }

  lemma {:induction false} ReadsCapture(v: Value, p: Pattern, r: string, rest: string)
    requires Reads(v, p, r) && Ends(rest)
    ensures Capture(p, DropSpaces(Render(v) + rest)) == Some(r)
  {
    hide Escape, Inside, Ends, ReadQuoted, LeadingDigits, Find;
    var s := Render(v) + rest;
    EndsIsNoDigit(rest);
    match p
    case QuotedText =>
      ReadQuotedText(v.raw, rest);
      assert s[0] == '"' && s[1..] == r + ['"'] + rest;
    case Digits => LeadingDigitsStop(r, rest);
    case SignedDigits =>
      if r[0] == '-' {
        LeadingDigitsStop(r[1..], rest);
        assert s[1..] == r[1..] + rest && ['-'] + r[1..] == r;
      } else {
        LeadingDigitsStop(r, rest);
      }
    case Boolean =>
      assert s[0] == r[0];
    case UpToBrace =>
      ObjectIsBraced(v.members, v.indent);
      BraceComesFirst(Inside(v.members, v.indent), r, rest);
    case UpToBracket => FindClose('[', r, ']', rest);
  }

  lemma {:induction false} BraceComesFirst(inside: string, r: string, rest: string)
    requires UpToFirst(inside, '}', r) && r != ""
    ensures Capture(UpToBrace, ['{'] + inside + ['}'] + rest) == Some(r)
  {
    hide Find;
    var after := if r == inside then rest else inside[|r| + 1..] + ['}'] + rest;
    assert ['{'] + inside + ['}'] + rest == ['{'] + r + ['}'] + after;
    FindClose('{', r, '}', after);
  }

  lemma {:induction false} FindClose(open: char, r: string, close: char, rest: string)
    requires close !in r && open != close
    ensures var s := [open] + r + [close] + rest; Find(s, close) == Some(|r| + 1) && s[1..|r| + 1] == r && s[0] == open
  {
    hide Find;
    var s := [open] + r + [close] + rest;
    assert s == ([open] + r) + [close] + rest && close !in [open] + r;
    SplitHead([open] + r, close, rest);
  }

  lemma {:induction false} KeyIsAt(key: string, value: string)
    ensures var t := key + ['"'] + (": " + value); StartsKey(t, key) && ValueOf(t, key) == DropSpaces(value)
  {
  }

  lemma {:induction false} HitMember(m: Member, rest: string, p: Pattern, r: string)
    requires IsKey(m.key) && Reads(m.value, p, r) && Ends(rest)
    ensures Search(RenderMember(m) + rest, m.key, p) == Some(r)
  {
    hide Capture, Reads, Render, Ends, StartsKey, ValueOf;
    var value := Render(m.value) + rest;
    var t := m.key + ['"'] + (": " + value);
    assert RenderMember(m) + rest == ['"'] + t;
    assert (['"'] + t)[1..] == t;
    KeyIsAt(m.key, value);
    ReadsCapture(m.value, p, r, rest);
  }

  lemma {:induction false} FindAmongMembers(members: seq<Member>, indent: nat, i: nat, rest: string, p: Pattern,
        r: string)
    requires i < |members| && GoodMembers(members) && MembersLack(members[..i], members[i].key)
    requires Reads(members[i].value, p, r) && Ends(rest)
    ensures Search(RenderMembers(members, indent) + rest, members[i].key, p) == Some(r)
    decreases |members|
  {
    hide Search, Ends, Render, RenderMembers, RenderMember, Good, Lacks, Spaces, Reads, IsKey;
    var m, key := members[0], members[i].key;
    if |members| == 1 {
      OneMember(members, indent, rest);
      HitMember(m, rest, p, r);
    } else {
      MoreMembers(members, indent, rest);
      var next := RenderMembers(members[1..], indent) + rest;
      var comma := Spaces(indent + 2) + next;
      CommaEnds(comma);
      if i == 0 {
        HitMember(m, ",\n" + comma, p, r);
      } else {
        assert m in members[..i] && members[1..][..i - 1] == members[..i][1..];
        SkipMember(m, ",\n" + comma, key, p);
        SkipPlain(",\n", comma, key, p);
        SpacesHaveNoQuote(indent + 2);
        SkipPlain(Spaces(indent + 2), next, key, p);
        FindAmongMembers(members[1..], indent, i - 1, rest, p, r);
      }
    }
  }

  /** The field a reader asks for is the one it gets, whatever stands in the strings before it. */
  lemma {:induction false} FieldIsFound(lead: string, members: seq<Member>, indent: nat, i: nat, p: Pattern, r: string)
    requires i < |members| && GoodMembers(members) && MembersLack(members[..i], members[i].key) && '"' !in lead
    requires Reads(members[i].value, p, r)
    ensures MatchField(lead + Render(Object(members, indent)), members[i].key, p) == Some(r)
  {
    hide Search, Ends, Render, RenderMembers, Good, Lacks, Spaces, Reads;
    ObjectText(members, indent, "");
    var key, text := members[i].key, Render(Object(members, indent));
    assert members[i] in members;
    var head, tail := "{\n" + Spaces(indent + 2), Closing(indent) + "";
    assert text + "" == text;
    SkipPlain(lead, text, key, p);
    SpacesHaveNoQuote(indent + 2);
    SkipPlain(head, RenderMembers(members, indent) + tail, key, p);
    ClosingEnds(indent, "");
    FindAmongMembers(members, indent, i, tail, p, r);
  }

  // ---- an object cut short ---------------------------------------------------------------------

  /** The members before the i-th, each with the comma after it. */
  function Before(members: seq<Member>, indent: nat, i: nat): string
    requires i <= |members|
  {
    if i == 0 then ""
    else RenderMember(members[0]) + (",\n" + (Spaces(indent + 2) + Before(members[1..], indent, i - 1)))
  }

  lemma {:induction false} MembersFrom(members: seq<Member>, indent: nat, i: nat)
    requires i < |members|
    ensures RenderMembers(members, indent) == Before(members, indent, i) + RenderMembers(members[i..], indent)
    decreases i
  {
    hide RenderMember, Spaces;
    if i == 0 {
      assert members[0..] == members;
      assert "" + RenderMembers(members, indent) == RenderMembers(members, indent);
    } else {
      var rest := members[1..];
      MembersFrom(rest, indent, i - 1);
      assert rest[i - 1..] == members[i..];
      MoreMembers(members, indent, "");
      assert RenderMembers(members, indent) + "" == RenderMembers(members, indent);
      assert RenderMembers(rest, indent) + "" == RenderMembers(rest, indent);
      Reassociate(RenderMember(members[0]), ",\n", Spaces(indent + 2), Before(rest, indent, i - 1),
        RenderMembers(members[i..], indent));
      assert ",\n" + Spaces(indent + 2) + Before(rest, indent, i - 1) ==
        ",\n" + (Spaces(indent + 2) + Before(rest, indent, i - 1));
    }
  }

  /** A text member whose value never ends. */
  function Cut(key: string, part: string): string { ['"'] + key + ['"'] + (": " + (['"'] + Escape(part))) }

  lemma {:induction false} UnclosedIsNotRead(part: string)
    ensures ReadQuoted(Escape(part) + ['}']) == None
    decreases |part|
  {
    hide EscapeChar;
    if part == "" {
      assert Escape(part) + ['}'] == ['}'];
      assert ['}'][1..] == "";
    } else {
      var e, next := EscapeChar(part[0]), Escape(part[1..]) + ['}'];
      UnclosedIsNotRead(part[1..]);
      assert Escape(part) + ['}'] == e + next;
      UnitShape(part[0]);
      if e[0] == '\\' {
        assert (e + next)[2..] == e[2..] + next && (e + next)[1] == e[1];
        UnclosedPlain(e[2..], next);
      } else {
        UnclosedPlain(e, next);
      }
    }
  }

  lemma {:induction false} UnclosedPlain(w: string, next: string)
    requires ReadQuoted(next) == None && forall i :: 0 <= i < |w| ==> w[i] != '"' && w[i] != '\\'
    ensures ReadQuoted(w + next) == None
  {
    if w == "" {
      assert w + next == next;
    } else {
      UnclosedPlain(w[1..], next);
      assert (w + next)[1..] == w[1..] + next;
    }
  }

  lemma {:induction false} NoKeyInOpen(part: string, key: string)
    requires IsKey(key)
    ensures !StartsKey(Escape(part) + ['}'], key)
  {
    hide Escape;
    var e := Escape(part);
    var s := e + ['}'];
    if |key| < |e| {
      EscapedIsClean(part, |key|);
      assert s[|key|] == e[|key|] && s[|key| - 1] == e[|key| - 1];
    }
  }

  lemma {:induction false} OpenIsNotSearched(part: string, key: string, p: Pattern)
    requires IsKey(key)
    ensures Search(Escape(part) + ['}'], key, p) == None
    decreases |part|
  {
    hide StartsKey, EscapeChar, Capture;
    var s := Escape(part) + ['}'];
    if part == "" {
      assert s == ['}'] && s[1..] == "";
    } else {
      var e, next := EscapeChar(part[0]), Escape(part[1..]) + ['}'];
      assert s == e + next;
      OpenIsNotSearched(part[1..], key, p);
      if part[0] == '"' {
        QuoteUnit();
        NoKeyInOpen(part[1..], key);
        SkipQuote(next, key, p);
        assert e + next == ['\\'] + (['"'] + next);
        SkipPlain(['\\'], ['"'] + next, key, p);
      } else {
        UnitHasNoQuote(part[0]);
        SkipPlain(e, next, key, p);
      }
    }
  }

  lemma {:induction false} QuoteUnit()
    ensures EscapeChar('"') == ['\\', '"']
  {
  }

  lemma {:induction false} UnitHasNoQuote(c: char)
    requires c != '"'
    ensures '"' !in EscapeChar(c)
  {
  }

  lemma {:induction false} CutIsNotFound(key: string, part: string)
    requires IsKey(key)
    ensures Search(Cut(key, part) + ['}'], key, QuotedText) == None
  {
    hide StartsKey, ValueOf, ReadQuoted, Escape;
    var inside := Escape(part) + ['}'];
    var value := ['"'] + inside;
    var t := key + ['"'] + (": " + value);
    assert Cut(key, part) + ['}'] == ['"'] + t;
    KeyIsAt(key, value);
    UnclosedIsNotRead(part);
    assert value[1..] == inside && DropSpaces(value) == value && (['"'] + t)[1..] == t;
    WordHasNoQuote(key);
    assert t == key + (['"'] + (": " + value));
    SkipPlain(key, ['"'] + (": " + value), key, QuotedText);
    NotAWord(": " + value, key);
    SkipQuote(": " + value, key, QuotedText);
    SkipPlain(": ", value, key, QuotedText);
    NoKeyInOpen(part, key);
    SkipQuote(inside, key, QuotedText);
    OpenIsNotSearched(part, key, QuotedText);
  }

  lemma {:induction false} SkipBefore(members: seq<Member>, indent: nat, i: nat, rest: string, key: string, p: Pattern)
    requires i < |members| && GoodMembers(members[..i]) && MembersLack(members[..i], key) && IsKey(key)
    ensures Search(Before(members, indent, i) + rest, key, p) == Search(rest, key, p)
    decreases i
  {
    hide Search, RenderMember, Spaces, Good, Lacks, IsKey, Ends;
    if i == 0 {
      assert "" + rest == rest;
    } else {
      var m, next := members[0], Before(members[1..], indent, i - 1) + rest;
      var comma := Spaces(indent + 2) + next;
      assert Before(members, indent, i) + rest == RenderMember(m) + (",\n" + comma);
      assert m in members[..i] && members[1..][..i - 1] == members[..i][1..];
      CommaEnds(comma);
      SkipMember(m, ",\n" + comma, key, p);
      SkipPlain(",\n", comma, key, p);
      SpacesHaveNoQuote(indent + 2);
      SkipPlain(Spaces(indent + 2), next, key, p);
      SkipBefore(members[1..], indent, i - 1, rest, key, p);
    }
  }

  /** The inside of an object up to a place in the value of its i-th member. */
  function InsideCut(members: seq<Member>, indent: nat, i: nat, part: string): string
    requires i < |members|
  {
    "\n" + Spaces(indent + 2) + (Before(members, indent, i) + Cut(members[i].key, part))
  }

  /** A string field cut off before its closing quote is not read at all. */
  lemma {:induction false} CutFieldIsNotFound(members: seq<Member>, indent: nat, i: nat, part: string)
    requires i < |members| && GoodMembers(members) && MembersLack(members[..i], members[i].key)
    ensures ExtractString(['{'] + InsideCut(members, indent, i, part) + ['}'], members[i].key) == None
  {
    hide Search, Spaces, Before, Cut, Good, Lacks, IsKey;
    var key := members[i].key;
    assert members[i] in members;
    var head := "{\n" + Spaces(indent + 2);
    var rest := Cut(key, part) + ['}'];
    assert ['{'] + InsideCut(members, indent, i, part) + ['}'] == head + (Before(members, indent, i) + rest);
    SpacesHaveNoQuote(indent + 2);
    SkipPlain(head, Before(members, indent, i) + rest, key, QuotedText);
    SkipBefore(members, indent, i, rest, key, QuotedText);
    CutIsNotFound(key, part);
  }
}
