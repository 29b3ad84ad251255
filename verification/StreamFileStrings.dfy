/** What the counters of the file's reader see of a list of streams: the strings in it, and nothing else. */
module StreamFileStrings {
  import opened StreamTypes
  import opened Decimal
  import opened JsonEscape
  import opened JsonFields
  import opened JsonDocument
  import opened StreamConfig
  import opened StreamConfigRoundTrip
  import opened StreamFile
  import StreamIdText

  // ---- texts a counter cannot tell apart -------------------------------------------------------

  ghost predicate Alike(a: string, b: string, open: char, close: char)
    requires open != close
  {
    Net(a, open, close) == Net(b, open, close) && Low(a, open, close) == Low(b, open, close)
  }

  lemma {:induction false} AlikeConcat(a: string, b: string, c: string, d: string, open: char, close: char)
    requires open != close && Alike(a, b, open, close) && Alike(c, d, open, close)
    ensures Alike(a + c, b + d, open, close)
  {
    hide Net, Low;
    NetOfConcat(a, c, open, close);
    NetOfConcat(b, d, open, close);
  }

  lemma {:induction false} BalancedIsEmpty(s: string, open: char, close: char)
    requires open != close && Balanced(s, open, close)
    ensures Alike(s, "", open, close)
  {
  }

  /** Text the counter passes over may stand on either side. */
  lemma {:induction false} AlikeBetween(before: string, s: string, after: string, t: string, open: char, close: char)
    requires open != close && Balanced(before, open, close) && Balanced(after, open, close) && Alike(s, t, open, close)
    ensures Alike(before + s + after, t, open, close)
  {
    hide Net, Low;
    BalancedIsEmpty(before, open, close);
    BalancedIsEmpty(after, open, close);
    AlikeConcat(before, "", s, t, open, close);
    AlikeConcat(before + s, "" + t, after, "", open, close);
    assert "" + t + "" == t;
  }

  lemma {:induction false} UnitIsAlike(c: char, open: char, close: char)
    requires Pair(open, close)
    ensures Alike(EscapeChar(c), [c], open, close)
  {
    hide Net, Low;
    if c == open || c == close {
      assert EscapeChar(c) == [c];
    } else {
      assert open !in EscapeChar(c) && close !in EscapeChar(c);
      PlainIsBalanced(EscapeChar(c), open, close);
      PlainIsBalanced([c], open, close);
    }
  }

  lemma {:induction false} EscapeIsAlike(raw: string, open: char, close: char)
    requires Pair(open, close)
    ensures Alike(Escape(raw), raw, open, close)
  {
    hide Alike, EscapeChar;
    if raw == "" {
      SelfAlike("", open, close);
    } else {
      UnitIsAlike(raw[0], open, close);
      EscapeIsAlike(raw[1..], open, close);
      AlikeConcat(EscapeChar(raw[0]), [raw[0]], Escape(raw[1..]), raw[1..], open, close);
      assert [raw[0]] + raw[1..] == raw;
    }
  }

  lemma {:induction false} SelfAlike(s: string, open: char, close: char)
    requires open != close
    ensures Alike(s, s, open, close)
  {
  }

  // ---- the strings of a value ------------------------------------------------------------------

  /** The strings of a value in order, in braces where it is an object. */
  function Strings(v: Value): string
    decreases v, 0
  {
    match v
    case Text(raw) => raw
    case Bare(_) => ""
    case Object(members, _) => ['{'] + StringsOf(members) + ['}']
  }

  function StringsOf(members: seq<Member>): string
    decreases members, 1
  {
    if members == [] then "" else Strings(members[0].value) + StringsOf(members[1..])
  }

  ghost predicate Neutral(v: Value, open: char, close: char)
    requires open != close
  {
    match v
    case Text(_) => true
    case Bare(text) => Balanced(text, open, close)
    case Object(members, _) => NeutralMembers(members, open, close)
  }

  ghost predicate NeutralMembers(members: seq<Member>, open: char, close: char)
    requires open != close
  {
    forall m :: m in members ==> IsWord(m.key) && Neutral(m.value, open, close)
  }

  lemma {:induction false} TextIsAlike(raw: string, open: char, close: char)
    requires Pair(open, close)
    ensures Alike(Quoted(raw), raw, open, close)
  {
    hide Alike, Escape, Balanced;
    EscapeIsAlike(raw, open, close);
    PlainIsBalanced(['"'], open, close);
    AlikeBetween(['"'], Escape(raw), ['"'], raw, open, close);
  }

  lemma {:induction false} ValueIsAlike(v: Value, open: char, close: char)
    requires Pair(open, close) && Neutral(v, open, close)
    ensures Alike(Render(v), Strings(v), open, close)
    decreases v, 0
  {
    hide Alike, Quoted, Balanced;
    match v
    case Text(raw) => TextIsAlike(raw, open, close);
    case Bare(text) => BalancedIsEmpty(text, open, close);
    case Object(members, indent) =>
      MembersAreAlike(members, indent, open, close);
      InsideIsAlike(members, indent, open, close);
      ObjectIsBraced(members, indent);
      SelfAlike(['{'], open, close);
      SelfAlike(['}'], open, close);
      AlikeConcat(['{'], ['{'], Inside(members, indent), StringsOf(members), open, close);
      AlikeConcat(['{'] + Inside(members, indent), ['{'] + StringsOf(members), ['}'], ['}'], open, close);
  }

  lemma {:induction false} InsideIsAlike(members: seq<Member>, indent: nat, open: char, close: char)
    requires Pair(open, close) && Alike(RenderMembers(members, indent), StringsOf(members), open, close)
    ensures Alike(Inside(members, indent), StringsOf(members), open, close)
  {
    hide Alike, Balanced, RenderMembers, Spaces, StringsOf;
    var head, tail := "\n" + Spaces(indent + 2), "\n" + Spaces(indent);
    PlainIsBalanced(head, open, close);
    PlainIsBalanced(tail, open, close);
    AlikeBetween(head, RenderMembers(members, indent), tail, StringsOf(members), open, close);
  }

  lemma {:induction false} MemberIsAlike(m: Member, open: char, close: char)
    requires Pair(open, close) && IsWord(m.key) && Alike(Render(m.value), Strings(m.value), open, close)
    ensures Alike(RenderMember(m), Strings(m.value), open, close)
  {
    hide Alike, Balanced, Render, Strings;
    var head := ['"'] + m.key + ['"'] + ": ";
    PlainIsBalanced(head, open, close);
    PlainIsBalanced("", open, close);
    AlikeBetween(head, Render(m.value), "", Strings(m.value), open, close);
    assert RenderMember(m) == head + Render(m.value) + "";
  }

  lemma {:induction false} MembersAreAlike(members: seq<Member>, indent: nat, open: char, close: char)
    requires Pair(open, close) && NeutralMembers(members, open, close)
    ensures Alike(RenderMembers(members, indent), StringsOf(members), open, close)
    decreases members, 1
  {
    hide Alike, Balanced, Render, RenderMember, Strings, Spaces, Neutral;
    if members == [] {
      SelfAlike("", open, close);
    } else {
      var m := members[0];
      ValueIsAlike(m.value, open, close);
      MemberIsAlike(m, open, close);
      MembersAreAlike(members[1..], indent, open, close);
      var rest := RenderMembers(members[1..], indent);
      var comma := if |members| == 1 then "" else ",\n" + Spaces(indent + 2);
      PlainIsBalanced(comma, open, close);
      PlainIsBalanced("", open, close);
      AlikeBetween(comma, rest, "", StringsOf(members[1..]), open, close);
      AlikeConcat(RenderMember(m), Strings(m.value), comma + rest + "", StringsOf(members[1..]), open, close);
      assert RenderMembers(members, indent) == RenderMember(m) + (comma + rest + "");
    }
  }

  // ---- the strings of a stream -----------------------------------------------------------------

  function SdpStrings(s: SdpSession): string {
    s.sessionName + s.sessionInfo + s.originUsername + s.originAddress + s.connectionAddress
    + s.encoding + s.sourceAddress + s.ptpMasterMac + s.mediaClockType + s.direction
  }

  lemma {:induction false} StringsConcat(a: seq<Member>, b: seq<Member>)
    ensures StringsOf(a + b) == StringsOf(a) + StringsOf(b)
  {
    hide Strings;
    if a == [] {
      assert a + b == b;
    } else {
      assert (a + b)[1..] == a[1..] + b;
      StringsConcat(a[1..], b);
    }
  }

  lemma {:induction false} FiveStrings(a: Member, b: Member, c: Member, d: Member, e: Member)
    ensures StringsOf([a, b, c, d, e]) ==
      Strings(a.value) + Strings(b.value) + Strings(c.value) + Strings(d.value) + Strings(e.value)
  {
    hide Strings;
    assert [a, b, c, d, e][1..] == [b, c, d, e] && [b, c, d, e][1..] == [c, d, e];
    assert [c, d, e][1..] == [d, e] && [d, e][1..] == [e] && [e][1..] == [];
    assert StringsOf([e]) == Strings(e.value);
    assert StringsOf([d, e]) == Strings(d.value) + Strings(e.value);
    assert StringsOf([c, d, e]) == Strings(c.value) + (Strings(d.value) + Strings(e.value));
    assert StringsOf([b, c, d, e]) == Strings(b.value) + (Strings(c.value) + (Strings(d.value) + Strings(e.value)));
  }

  lemma {:induction false} StringsOfSdp(s: SdpSession)
    ensures StringsOf(SdpMembers(s)) == SdpStrings(s)
  {
    hide StringsOf, Print, PrintInt;
    var a, b, c, d := SessionMembers(s), AddressMembers(s), FormatMembers(s), ClockMembers(s);
    FiveStrings(a[0], a[1], a[2], a[3], a[4]);
    FiveStrings(b[0], b[1], b[2], b[3], b[4]);
    FiveStrings(c[0], c[1], c[2], c[3], c[4]);
    FiveStrings(d[0], d[1], d[2], d[3], d[4]);
    StringsConcat(a, b);
    StringsConcat(a + b, c);
    StringsConcat(a + b + c, d);
    assert StringsOf(a) == s.sessionName + s.sessionInfo + s.originUsername;
    assert StringsOf(b) == s.originAddress + s.connectionAddress;
    assert StringsOf(c) == s.encoding;
    assert StringsOf(d) == s.sourceAddress + s.ptpMasterMac + s.mediaClockType + s.direction;
  }

  lemma {:induction false} FourStrings(a: Member, b: Member, c: Member, d: Member)
    ensures StringsOf([a, b, c, d]) == Strings(a.value) + Strings(b.value) + Strings(c.value) + Strings(d.value)
  {
    hide Strings;
    var none := Member("", Bare(""));
    FiveStrings(none, a, b, c, d);
    NoString();
    assert [none, a, b, c, d][1..] == [a, b, c, d];
    assert StringsOf([none, a, b, c, d]) == "" + StringsOf([a, b, c, d]);
    assert "" + StringsOf([a, b, c, d]) == StringsOf([a, b, c, d]) && "" + Strings(a.value) == Strings(a.value);
  }

  lemma {:induction false} NoString()
    ensures Strings(Bare("")) == ""
  {
  }

  lemma {:induction false} StringsOfMapping(m: ChannelMapping)
    ensures StringsOf(MappingMembers(m)) == StreamIdText.IdText(m.streamId) + m.streamName
  {
    hide StringsOf, Print, NumberList, StreamIdText.IdText;
    var ms, none := MappingMembers(m), Member("", Bare(""));
    FourStrings(ms[0], ms[1], ms[2], ms[3]);
    FourStrings(ms[4], ms[5], ms[6], none);
    StringsConcat([ms[0], ms[1], ms[2], ms[3]], [ms[4], ms[5], ms[6], none]);
    StringsConcat(ms, [none]);
    assert ms + [none] == [ms[0], ms[1], ms[2], ms[3]] + [ms[4], ms[5], ms[6], none];
    JustOne(none);
    var id, name := StreamIdText.IdText(m.streamId), m.streamName;
    assert StringsOf([ms[0], ms[1], ms[2], ms[3]]) == id + name + "" + "" == id + name;
    assert StringsOf([ms[4], ms[5], ms[6], none]) == "" + "" + "" + "" == "";
    assert StringsOf(ms) + "" == StringsOf(ms) && (id + name) + "" == id + name;
  }

  lemma {:induction false} JustOne(m: Member)
    ensures StringsOf([m]) == Strings(m.value)
  {
    hide Strings;
    var none: seq<Member> := [];
    assert [m][1..] == none && StringsOf(none) == "";
    assert Strings(m.value) + "" == Strings(m.value);
  }

  lemma {:induction false} FrontStrings(c: PersistedConfig)
    ensures StringsOf(ConfigMembers(c)[..5]) == c.description
  {
    hide StringsOf, Print, SdpMembers, MappingMembers;
    var ms := ConfigMembers(c);
    FiveStrings(ms[0], ms[1], ms[2], ms[3], ms[4]);
    assert ms[..5] == [ms[0], ms[1], ms[2], ms[3], ms[4]];
    assert "" + "" + c.description + "" + "" == c.description;
  }

  lemma {:induction false} BackStrings(c: PersistedConfig)
    ensures StringsOf(ConfigMembers(c)[5..]) ==
      c.networkInterface + Strings(Object(SdpMembers(c.sdp), 6)) + Strings(Object(MappingMembers(c.mapping), 6))
  {
    hide StringsOf, Print, SdpMembers, MappingMembers;
    var ms := ConfigMembers(c);
    FourStrings(ms[5], ms[6], ms[7], ms[8]);
    assert ms[5..] == [ms[5], ms[6], ms[7], ms[8]];
    assert "" + c.networkInterface == c.networkInterface;
  }

  lemma {:induction false} Regroup(a: string, b: string, c: string, d: string)
    ensures a + (b + c + d) == a + b + c + d
  {
  }

  lemma {:induction false} StringsOfConfig(c: PersistedConfig)
    ensures StringsOf(ConfigMembers(c)) ==
      c.description + c.networkInterface + (['{'] + SdpStrings(c.sdp) + ['}'])
      + (['{'] + (StreamIdText.IdText(c.mapping.streamId) + c.mapping.streamName) + ['}'])
  {
    hide StringsOf, ConfigMembers, SdpMembers, MappingMembers, SdpStrings, StreamIdText.IdText;
    var ms := ConfigMembers(c);
    ConfigKeysDiffer(c);
    FrontStrings(c);
    BackStrings(c);
    StringsConcat(ms[..5], ms[5..]);
    assert ms[..5] + ms[5..] == ms;
    StringsOfSdp(c.sdp);
    StringsOfMapping(c.mapping);
    Regroup(c.description, c.networkInterface, Strings(Object(SdpMembers(c.sdp), 6)),
      Strings(Object(MappingMembers(c.mapping), 6)));
  }

  // ---- numbers, flags and routes are neutral ---------------------------------------------------

  lemma {:induction false} NumberIsNeutral(n: nat, open: char, close: char)
    requires Pair(open, close)
    ensures Neutral(NumberValue(n), open, close)
  {
    hide Balanced, Print;
    NumberIsBalanced(n, open, close);
  }

  lemma {:induction false} IntegerIsNeutral(n: int, open: char, close: char)
    requires Pair(open, close)
    ensures Neutral(IntegerValue(n), open, close)
  {
    hide Balanced;
    PlainIsBalanced(PrintInt(n), open, close);
  }

  lemma {:induction false} SessionIsNeutral(s: SdpSession, open: char, close: char)
    requires Pair(open, close)
    ensures NeutralMembers(SessionMembers(s), open, close)
  {
    hide NumberValue, Balanced, IsWord;
    SessionIsGood(s);
    NumberIsNeutral(s.sessionId, open, close);
    NumberIsNeutral(s.sessionVersion, open, close);
  }

  lemma {:induction false} AddressIsNeutral(s: SdpSession, open: char, close: char)
    requires Pair(open, close)
    ensures NeutralMembers(AddressMembers(s), open, close)
  {
    hide NumberValue, Balanced, IsWord;
    AddressIsGood(s);
    NumberIsNeutral(s.ttl, open, close);
    NumberIsNeutral(s.port, open, close);
    NumberIsNeutral(s.payloadType, open, close);
  }

  lemma {:induction false} FormatIsNeutral(s: SdpSession, open: char, close: char)
    requires Pair(open, close)
    ensures NeutralMembers(FormatMembers(s), open, close)
  {
    hide NumberValue, Balanced, IsWord;
    FormatIsGood(s);
    NumberIsNeutral(s.sampleRate, open, close);
    NumberIsNeutral(s.numChannels, open, close);
    NumberIsNeutral(s.ptimeUs, open, close);
    NumberIsNeutral(s.framecount, open, close);
  }

  lemma {:induction false} ClockIsNeutral(s: SdpSession, open: char, close: char)
    requires Pair(open, close)
    ensures NeutralMembers(ClockMembers(s), open, close)
  {
    hide IntegerValue, Balanced, IsWord;
    ClockIsGood(s);
    IntegerIsNeutral(s.ptpDomain, open, close);
  }

  lemma {:induction false} SdpIsNeutral(s: SdpSession, open: char, close: char)
    requires Pair(open, close)
    ensures NeutralMembers(SdpMembers(s), open, close)
  {
    hide SessionMembers, AddressMembers, FormatMembers, ClockMembers, Neutral, IsWord;
    SessionIsNeutral(s, open, close);
    AddressIsNeutral(s, open, close);
    FormatIsNeutral(s, open, close);
    ClockIsNeutral(s, open, close);
  }

  lemma {:induction false} MappingIsNeutral(m: ChannelMapping, open: char, close: char)
    requires Pair(open, close)
    ensures NeutralMembers(MappingMembers(m), open, close)
  {
    hide NumberValue, Balanced, NumberList, Flat, IsWord, StreamIdText.IdText;
    MappingIsGood(m);
    NumberIsNeutral(m.streamChannelCount, open, close);
    NumberIsNeutral(m.streamChannelOffset, open, close);
    NumberIsNeutral(m.deviceChannelStart, open, close);
    NumberIsNeutral(m.deviceChannelCount, open, close);
    RoutesAreBalanced(m, open, close);
  }

  lemma {:induction false} TextIsNeutral(raw: string, open: char, close: char)
    requires open != close
    ensures Neutral(Value.Text(raw), open, close)
  {
  }

  lemma {:induction false} ObjectIsNeutral(ms: seq<Member>, indent: nat, open: char, close: char)
    requires open != close && NeutralMembers(ms, open, close)
    ensures Neutral(Object(ms, indent), open, close)
  {
  }

  lemma {:induction false} ConfigIsNeutral(c: PersistedConfig, open: char, close: char)
    requires Pair(open, close)
    ensures NeutralMembers(ConfigMembers(c), open, close)
  {
    hide NumberValue, FlagValue, Neutral, SdpMembers, MappingMembers, GoodMembers, NeutralMembers;
    ConfigIsGood(c);
    SdpIsNeutral(c.sdp, open, close);
    ObjectIsNeutral(SdpMembers(c.sdp), 6, open, close);
    MappingIsNeutral(c.mapping, open, close);
    ObjectIsNeutral(MappingMembers(c.mapping), 6, open, close);
    TextIsNeutral(c.description, open, close);
    TextIsNeutral(c.networkInterface, open, close);
    NumberIsNeutral(c.createdTimestamp, open, close);
    NumberIsNeutral(c.modifiedTimestamp, open, close);
    NumberIsNeutral(c.jitterBufferDepth, open, close);
    FlagIsNeutral(c.enabled, open, close);
    FlagIsNeutral(c.isTransmit, open, close);
    ByIndex(ConfigMembers(c), open, close);
  }

  lemma {:induction false} FlagIsNeutral(b: bool, open: char, close: char)
    requires Pair(open, close)
    ensures Neutral(FlagValue(b), open, close)
  {
    hide Balanced;
    FlagIsBalanced(b, open, close);
  }

  lemma {:induction false} ByIndex(ms: seq<Member>, open: char, close: char)
    requires open != close && GoodMembers(ms) && forall i :: 0 <= i < |ms| ==> Neutral(ms[i].value, open, close)
    ensures NeutralMembers(ms, open, close)
  {
  }

  // ---- what a caller can look at ---------------------------------------------------------------

  /** The strings of one stream, in the order they are written. */
  function StreamStrings(c: PersistedConfig): string {
    c.description + c.networkInterface + SdpStrings(c.sdp) + c.mapping.streamName
  }

  function AllStrings(cs: seq<PersistedConfig>): string {
    if cs == [] then "" else StreamStrings(cs[0]) + AllStrings(cs[1..])
  }

  /** No brace in the strings of the nested objects; any others pair up. */
  ghost predicate Paired(c: PersistedConfig) {
    && SdpAvoids(c.sdp, '{') && SdpAvoids(c.sdp, '}') && '{' !in c.mapping.streamName && '}' !in c.mapping.streamName
    && Balanced(c.description + c.networkInterface, '{', '}')
  }

  lemma {:induction false} SdpStringsAvoid(s: SdpSession, c: char)
    ensures SdpAvoids(s, c) <==> c !in SdpStrings(s)
  {
  }

  /** Without a closing character a text only lifts the counter, and does not iff it has no opening one. */
  lemma {:induction false} OnlyUp(s: string, open: char, close: char)
    requires open != close && close !in s
    ensures Low(s, open, close) == 0 <= Net(s, open, close)
    ensures Net(s, open, close) == 0 <==> open !in s
  {
    if s == "" {
    } else {
      OnlyUp(s[1..], open, close);
      assert s == [s[0]] + s[1..];
    }
  }

  lemma {:induction false} InBraces(s: string)
    requires '}' !in s
    ensures var t := ['{'] + s + ['}'];
      Net(t, '{', '}') == Net(s, '{', '}') && Low(t, '{', '}') == 0 <= Net(s, '{', '}')
        && (Net(s, '{', '}') == 0 <==> '{' !in s)
  {
    hide Net, Low;
    OnlyUp(s, '{', '}');
    One('{', '{', '}');
    One('}', '{', '}');
    NetOfConcat(['{'], s, '{', '}');
    NetOfConcat(['{'] + s, ['}'], '{', '}');
  }

  lemma {:induction false} ThreeParts(d: string, x: string, y: string)
    requires Low(x, '{', '}') == 0 <= Net(x, '{', '}') && Low(y, '{', '}') == 0 <= Net(y, '{', '}')
    ensures Balanced(d + x + y, '{', '}') <==> Balanced(d, '{', '}') && Net(x, '{', '}') == 0 && Net(y, '{', '}') == 0
  {
    hide Net, Low;
    NetOfConcat(d, x, '{', '}');
    NetOfConcat(d + x, y, '{', '}');
    LowIsReached(d, '{', '}');
  }

  /** The brace counter takes a stream as a whole, and its readers with it, iff its braces pair up. */
  lemma {:induction false} PairedIsCountable(c: PersistedConfig)
    ensures Unbraced(c) && Countable(c) <==> Paired(c)
  {
    hide Net, Low, Inside, ConfigMembers, SdpAvoids, SdpStrings, StringsOf, StreamIdText.IdText, NeutralMembers;
    ConfigIsNeutral(c, '{', '}');
    MembersAreAlike(ConfigMembers(c), 4, '{', '}');
    InsideIsAlike(ConfigMembers(c), 4, '{', '}');
    StringsOfConfig(c);
    SdpStringsAvoid(c.sdp, '{');
    SdpStringsAvoid(c.sdp, '}');
    IdIsClean(c.mapping.streamId, '{');
    IdIsClean(c.mapping.streamId, '}');
    if Unbraced(c) {
      var d, sdp, names := c.description + c.networkInterface, SdpStrings(c.sdp),
        StreamIdText.IdText(c.mapping.streamId) + c.mapping.streamName;
      InBraces(sdp);
      InBraces(names);
      ThreeParts(d, ['{'] + sdp + ['}'], ['{'] + names + ['}']);
    }
  }

  lemma {:induction false} ConfigIsAlike(c: PersistedConfig)
    ensures Alike(ConfigText(c), StreamStrings(c), '[', ']')
  {
    hide Net, Low, Render, ConfigMembers, SdpStrings, StringsOf, StreamIdText.IdText, NeutralMembers, Balanced, Alike;
    ConfigIsNeutral(c, '[', ']');
    ObjectIsNeutral(ConfigMembers(c), 4, '[', ']');
    ValueIsAlike(Object(ConfigMembers(c), 4), '[', ']');
    StringsOfConfig(c);
    var d, sdp, id, name := c.description + c.networkInterface, SdpStrings(c.sdp),
      StreamIdText.IdText(c.mapping.streamId), c.mapping.streamName;
    IdIsClean(c.mapping.streamId, '[');
    IdIsClean(c.mapping.streamId, ']');
    PlainIsBalanced(['{'], '[', ']');
    PlainIsBalanced(['}'], '[', ']');
    PlainIsBalanced(['{'] + id, '[', ']');
    PlainIsBalanced("", '[', ']');
    SelfAlike(d, '[', ']');
    SelfAlike(sdp, '[', ']');
    SelfAlike(name, '[', ']');
    AlikeBetween(['{'], sdp, ['}'], sdp, '[', ']');
    AlikeBetween(['{'] + id, name, ['}'], name, '[', ']');
    AlikeConcat(d, d, ['{'] + sdp + ['}'], sdp, '[', ']');
    AlikeConcat(d + (['{'] + sdp + ['}']), d + sdp, ['{'] + id + name + ['}'], name, '[', ']');
    var all := d + (['{'] + sdp + ['}']) + (['{'] + id + name + ['}']);
    AlikeBetween(['{'], all, ['}'], d + sdp + name, '[', ']');
    assert ['{'] + (id + name) + ['}'] == ['{'] + id + name + ['}'];
    assert Strings(Object(ConfigMembers(c), 4)) == ['{'] + all + ['}'];
    AlikeIsTransitive(ConfigText(c), ['{'] + all + ['}'], d + sdp + name);
  }

  lemma {:induction false} AlikeIsTransitive(a: string, b: string, c: string)
    requires Alike(a, b, '[', ']') && Alike(b, c, '[', ']')
    ensures Alike(a, c, '[', ']')
  {
  }

  lemma {:induction false} TextsAreAlike(cs: seq<PersistedConfig>)
    ensures Alike(StreamTexts(cs), AllStrings(cs), '[', ']')
    decreases |cs|
  {
    hide Alike, Balanced, ConfigText, StreamStrings;
    if cs == [] {
      SelfAlike("", '[', ']');
    } else {
      ConfigIsAlike(cs[0]);
      TextsAreAlike(cs[1..]);
      var comma := if |cs| == 1 then "" else ",\n";
      PlainIsBalanced("    ", '[', ']');
      PlainIsBalanced(comma, '[', ']');
      AlikeBetween("    ", ConfigText(cs[0]), comma, StreamStrings(cs[0]), '[', ']');
      AlikeConcat("    " + ConfigText(cs[0]) + comma, StreamStrings(cs[0]), StreamTexts(cs[1..]), AllStrings(cs[1..]),
        '[', ']');
      assert StreamTexts(cs) == "    " + ConfigText(cs[0]) + comma + StreamTexts(cs[1..]);
    }
  }

  lemma {:induction false} ContentIsAlike(cs: seq<PersistedConfig>)
    ensures Alike(Content(cs), AllStrings(cs), '[', ']')
  {
    hide Alike, Balanced, StreamTexts, AllStrings;
    TextsAreAlike(cs);
    PlainIsBalanced("\n", '[', ']');
    PlainIsBalanced("\n  ", '[', ']');
    AlikeBetween("\n", StreamTexts(cs), "\n  ", AllStrings(cs), '[', ']');
  }

  /**
    What makes a list of valid streams loadable, said of its strings: in each stream the braces pair up,
    with none in the nested objects, and through the whole list the brackets pair up.
   */
  lemma {:induction false} LoadableIff(cs: seq<PersistedConfig>)
    ensures Loadable(cs) <==>
      (forall i :: 0 <= i < |cs| ==> cs[i].IsValid() && Paired(cs[i])) && Balanced(AllStrings(cs), '[', ']')
  {
    hide Net, Low, Content, AllStrings, Paired, Unbraced, Countable, PersistedConfig.IsValid;
    ContentIsAlike(cs);
    forall i | 0 <= i < |cs|
      ensures Unbraced(cs[i]) && Countable(cs[i]) <==> Paired(cs[i])
    {
      PairedIsCountable(cs[i]);
    }
  }

  lemma {:induction false} StreamsAreSkippedNotRefused(objects: seq<string>, resolve: Option<string> -> string)
    ensures !ConfigsFrom(objects, resolve).Rejected?
  {
    hide ConfigFromJson;
    if objects == [] {
    } else {
      StreamsAreSkippedNotRefused(objects[1..], resolve);
    }
  }

  /** The whole file is refused iff a bracket in its strings stays open: then no stream at all comes back. */
  lemma {:induction false} OpenBracketRefusesFile(cs: seq<PersistedConfig>, resolve: Option<string> -> string)
    ensures FromJson(ToJson(cs), resolve) == Rejected <==>
      Low(AllStrings(cs), '[', ']') == 0 < Net(AllStrings(cs), '[', ']')
  {
    hide StreamsContent, ToJson, ConfigsFrom, SplitObjects, Content, AllStrings, Net, Low;
    ContentIsAlike(cs);
    ContentIsFound(cs);
    var content := StreamsContent(ToJson(cs));
    if content.Some? { StreamsAreSkippedNotRefused(SplitObjects(content.value, 0, ""), resolve); }
  }
}
