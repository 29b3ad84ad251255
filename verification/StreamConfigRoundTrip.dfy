/** Saving streams and loading them again: every persisted field of every stream comes back. */
module StreamConfigRoundTrip {
  import opened StreamTypes
  import opened Decimal
  import opened Text
  import opened JsonEscape
  import opened JsonFields
  import opened JsonDocument
  import opened ChannelMapper
  import opened StreamConfig
  import StreamIdText

  // ---- one field of an object ------------------------------------------------------------------

  /** No key stands before itself, on any level, so the first match of a key is its own. */
  ghost predicate Unambiguous(ms: seq<Member>) {
    GoodMembers(ms) && forall i, j :: 0 <= i < j < |ms| ==> ms[i].key != ms[j].key && Lacks(ms[i].value, ms[j].key)
  }

  lemma {:induction false} FieldOf(lead: string, ms: seq<Member>, indent: nat, i: nat, p: Pattern, r: string)
    requires i < |ms| && Unambiguous(ms) && Reads(ms[i].value, p, r) && '"' !in lead
    ensures MatchField(lead + Render(Object(ms, indent)), ms[i].key, p) == Some(r)
  {
    hide MatchField, Render, Reads, Good, Lacks, IsKey;
    assert MembersLack(ms[..i], ms[i].key);
    FieldIsFound(lead, ms, indent, i, p, r);
  }

  lemma {:induction false} TextOf(lead: string, ms: seq<Member>, indent: nat, i: nat, raw: string)
    requires i < |ms| && Unambiguous(ms) && ms[i].value == Value.Text(raw) && '"' !in lead
    ensures ExtractString(lead + Render(Object(ms, indent)), ms[i].key) == Some(raw)
  {
    hide MatchField, Render, Unambiguous;
    FieldOf(lead, ms, indent, i, QuotedText, Escape(raw));
    UnescapeUndoesEscape(raw);
  }

  lemma {:induction false} NumberOf(lead: string, ms: seq<Member>, indent: nat, i: nat, n: U64)
    requires i < |ms| && Unambiguous(ms) && ms[i].value == NumberValue(n) && '"' !in lead
    ensures ExtractUInt64(lead + Render(Object(ms, indent)), ms[i].key) == Some(n)
  {
    hide MatchField, Render, Unambiguous, Print, Stoull;
    FieldOf(lead, ms, indent, i, Digits, Print(n));
    PrintReadsBack(n);
  }

  lemma {:induction false} NarrowOf(lead: string, ms: seq<Member>, indent: nat, i: nat, n: U64, max: nat, fallback: nat)
    requires i < |ms| && Unambiguous(ms) && ms[i].value == NumberValue(n) && '"' !in lead && n <= max
    ensures NarrowOr(lead + Render(Object(ms, indent)), ms[i].key, max, fallback) == n
  {
    hide ExtractUInt64, Render, Unambiguous, NumberValue;
    NumberOf(lead, ms, indent, i, n);
  }

  lemma {:induction false} IntegerOf(lead: string, ms: seq<Member>, indent: nat, i: nat, n: I32)
    requires i < |ms| && Unambiguous(ms) && ms[i].value == IntegerValue(n) && '"' !in lead
    ensures ExtractInt(lead + Render(Object(ms, indent)), ms[i].key) == Some(n)
  {
    hide MatchField, Render, Unambiguous, Print, Stoi;
    var r := PrintInt(n);
    if n < 0 { assert r[1..] == Print(-(n as int)); }
    FieldOf(lead, ms, indent, i, SignedDigits, r);
    PrintIntReadsBack(n);
  }

  lemma {:induction false} FlagOf(lead: string, ms: seq<Member>, indent: nat, i: nat, b: bool)
    requires i < |ms| && Unambiguous(ms) && ms[i].value == FlagValue(b) && '"' !in lead
    ensures ExtractBool(lead + Render(Object(ms, indent)), ms[i].key) == Some(b)
  {
    hide MatchField, Render, Unambiguous;
    FieldOf(lead, ms, indent, i, Boolean, if b then "true" else "false");
  }

  lemma {:induction false} ObjectOf(lead: string, ms: seq<Member>, indent: nat, i: nat, inner: seq<Member>,
        innerIndent: nat)
    requires i < |ms| && Unambiguous(ms) && ms[i].value == Object(inner, innerIndent) && '"' !in lead
    requires '}' !in Inside(inner, innerIndent)
    ensures ObjectField(lead + Render(Object(ms, indent)), ms[i].key) == Some(Render(Object(inner, innerIndent)))
  {
    hide MatchField, Render, Unambiguous, Inside;
    InsideIsLong(inner, innerIndent);
    FieldOf(lead, ms, indent, i, UpToBrace, Inside(inner, innerIndent));
    ObjectIsBraced(inner, innerIndent);
  }

  lemma {:induction false} InsideIsLong(members: seq<Member>, indent: nat)
    ensures Inside(members, indent) != "" && Inside(members, indent)[0] == '\n'
  {
  }

  // ---- the keys --------------------------------------------------------------------------------

  lemma {:induction false} NumberIsGood(n: nat)
    ensures Good(NumberValue(n))
  {
  }

  lemma {:induction false} FlagIsGood(b: bool)
    ensures Good(FlagValue(b))
  {
  }

  lemma {:induction false} TextIsGood(raw: string)
    ensures Good(Value.Text(raw))
  {
  }

  lemma {:induction false} IntegerIsGood(n: int)
    ensures Good(IntegerValue(n))
  {
  }

  lemma {:induction false} SessionKeys()
    ensures IsKey("sessionName") && IsKey("sessionInfo") && IsKey("sessionID") && IsKey("sessionVersion")
      && IsKey("originUsername")
  {
  }

  lemma {:induction false} AddressKeys()
    ensures IsKey("originAddress") && IsKey("connectionAddress") && IsKey("ttl") && IsKey("port")
      && IsKey("payloadType")
  {
  }

  lemma {:induction false} FormatKeys()
    ensures IsKey("encoding") && IsKey("sampleRate") && IsKey("numChannels") && IsKey("ptimeUs") && IsKey("framecount")
  {
  }

  lemma {:induction false} ClockKeys()
    ensures IsKey("sourceAddress") && IsKey("ptpDomain") && IsKey("ptpMasterMAC") && IsKey("mediaClockType")
      && IsKey("direction")
  {
  }

  lemma {:induction false} MappingKeys()
    ensures IsKey("streamID") && IsKey("streamName") && IsKey("streamChannelCount") && IsKey("streamChannelOffset")
  {
  }

  lemma {:induction false} DeviceKeys()
    ensures IsKey("deviceChannelStart") && IsKey("deviceChannelCount") && IsKey("routes")
  {
  }

  lemma {:induction false} ConfigKeys()
    ensures IsKey("enabled") && IsKey("isTransmit") && IsKey("description") && IsKey("createdTimestamp")
      && IsKey("modifiedTimestamp")
    ensures IsKey("jitterBufferDepth") && IsKey("networkInterface") && IsKey("sdp") && IsKey("mapping")
  {
  }

  lemma {:induction false} SessionIsGood(s: SdpSession)
    ensures GoodMembers(SessionMembers(s))
  {
    hide IsKey, NumberValue;
    SessionKeys();
    NumberIsGood(s.sessionId);
    NumberIsGood(s.sessionVersion);
  }

  lemma {:induction false} AddressIsGood(s: SdpSession)
    ensures GoodMembers(AddressMembers(s))
  {
    hide IsKey, NumberValue;
    AddressKeys();
    NumberIsGood(s.ttl);
    NumberIsGood(s.port);
    NumberIsGood(s.payloadType);
  }

  lemma {:induction false} FormatIsGood(s: SdpSession)
    ensures GoodMembers(FormatMembers(s))
  {
    hide IsKey, NumberValue;
    FormatKeys();
    NumberIsGood(s.sampleRate);
    NumberIsGood(s.numChannels);
    NumberIsGood(s.ptimeUs);
    NumberIsGood(s.framecount);
  }

  lemma {:induction false} ClockIsGood(s: SdpSession)
    ensures GoodMembers(ClockMembers(s))
  {
    hide IsKey, IntegerValue;
    ClockKeys();
    IntegerIsGood(s.ptpDomain);
  }

  lemma {:induction false} SdpIsGood(s: SdpSession)
    ensures GoodMembers(SdpMembers(s))
  {
    hide SessionMembers, AddressMembers, FormatMembers, ClockMembers, IsKey, Good;
    SessionIsGood(s);
    AddressIsGood(s);
    FormatIsGood(s);
    ClockIsGood(s);
  }

  lemma {:induction false} SdpKeysDiffer(s: SdpSession)
    ensures |SdpMembers(s)| == 20 && forall i, j :: 0 <= i < j < 20 ==> SdpMembers(s)[i].key != SdpMembers(s)[j].key
  {
    hide NumberValue, IntegerValue;
  }

  lemma {:induction false} SdpIsFlat(s: SdpSession)
    ensures forall i :: 0 <= i < |SdpMembers(s)| ==> !SdpMembers(s)[i].value.Object?
  {
  }

  lemma {:induction false} SdpIsUnambiguous(s: SdpSession)
    ensures Unambiguous(SdpMembers(s))
  {
    hide GoodMembers, SdpMembers;
    SdpIsGood(s);
    SdpKeysDiffer(s);
    SdpIsFlat(s);
  }

  // ---- the session -----------------------------------------------------------------------------

  /** What of a session is in the file; the rest comes back as it is by default. */
  function PersistedSdp(s: SdpSession): SdpSession {
    var d := BlankSession;
    SdpSession(s.sessionName, s.sessionInfo, s.sessionId, s.sessionVersion, s.originUsername, s.originAddress,
      d.originNetworkType, d.originAddressType, s.connectionAddress, d.connectionType, d.connectionNetwork, s.ttl,
      d.timeStart, d.timeStop, d.mediaType, s.port, d.transport, s.payloadType, s.encoding, s.sampleRate, s.numChannels,
      s.ptimeUs, s.framecount, s.sourceAddress, s.ptpDomain, s.ptpMasterMac, d.ptpTraceable, s.mediaClockType, d.dscp,
      s.direction, d.customAttributes)
  }

  function SdpText(s: SdpSession): string { Render(Object(SdpMembers(s), 6)) }

  lemma {:induction false} SdpParts(s: SdpSession)
    ensures |SdpMembers(s)| == 20
      && |SessionMembers(s)| == |AddressMembers(s)| == |FormatMembers(s)| == |ClockMembers(s)| == 5
    ensures forall i :: 0 <= i < 5 ==> SdpMembers(s)[i] == SessionMembers(s)[i]
    ensures forall i :: 5 <= i < 10 ==> SdpMembers(s)[i] == AddressMembers(s)[i - 5]
    ensures forall i :: 10 <= i < 15 ==> SdpMembers(s)[i] == FormatMembers(s)[i - 10]
    ensures forall i :: 15 <= i < 20 ==> SdpMembers(s)[i] == ClockMembers(s)[i - 15]
  {
    hide NumberValue, IntegerValue;
  }

  lemma {:induction false} SdpTextOf(s: SdpSession, i: nat, m: Member)
    requires i < |SdpMembers(s)| && SdpMembers(s)[i] == m && m.value.Text?
    ensures ExtractString(SdpText(s), m.key) == Some(m.value.raw)
  {
    hide SdpMembers, Unambiguous, ExtractString, Render;
    SdpIsUnambiguous(s);
    TextOf("", SdpMembers(s), 6, i, m.value.raw);
    assert "" + SdpText(s) == SdpText(s);
  }

  lemma {:induction false} SdpNumberOf(s: SdpSession, i: nat, key: string, n: U64, max: nat, fallback: nat)
    requires i < |SdpMembers(s)| && SdpMembers(s)[i] == Member(key, NumberValue(n)) && n <= max
    ensures ExtractUInt64(SdpText(s), key) == Some(n) && NarrowOr(SdpText(s), key, max, fallback) == n
  {
    hide SdpMembers, Unambiguous, ExtractUInt64, Render, NumberValue;
    SdpIsUnambiguous(s);
    NumberOf("", SdpMembers(s), 6, i, n);
    assert "" + SdpText(s) == SdpText(s);
  }

  lemma {:induction false} SessionReadsBack(s: SdpSession)
    ensures ExtractString(SdpText(s), "sessionName") == Some(s.sessionName)
    ensures ExtractString(SdpText(s), "sessionInfo") == Some(s.sessionInfo)
    ensures ExtractUInt64(SdpText(s), "sessionID") == Some(s.sessionId)
    ensures ExtractUInt64(SdpText(s), "sessionVersion") == Some(s.sessionVersion)
    ensures ExtractString(SdpText(s), "originUsername") == Some(s.originUsername)
  {
    hide SdpMembers, ExtractString, ExtractUInt64, NarrowOr, SdpText, NumberValue;
    SdpParts(s);
    var ms := SessionMembers(s);
    SdpTextOf(s, 0, ms[0]);
    SdpTextOf(s, 1, ms[1]);
    SdpNumberOf(s, 2, "sessionID", s.sessionId, 0xFFFF_FFFF_FFFF_FFFF, 0);
    SdpNumberOf(s, 3, "sessionVersion", s.sessionVersion, 0xFFFF_FFFF_FFFF_FFFF, 0);
    SdpTextOf(s, 4, ms[4]);
  }

  lemma {:induction false} AddressReadsBack(s: SdpSession)
    ensures ExtractString(SdpText(s), "originAddress") == Some(s.originAddress)
    ensures ExtractString(SdpText(s), "connectionAddress") == Some(s.connectionAddress)
    ensures NarrowOr(SdpText(s), "ttl", 0xFF, BlankSession.ttl) == s.ttl
    ensures NarrowOr(SdpText(s), "port", 0xFFFF, BlankSession.port) == s.port
    ensures NarrowOr(SdpText(s), "payloadType", 0xFF, BlankSession.payloadType) == s.payloadType
  {
    hide SdpMembers, ExtractString, ExtractUInt64, NarrowOr, SdpText, NumberValue;
    SdpParts(s);
    var ms := AddressMembers(s);
    SdpTextOf(s, 5, ms[0]);
    SdpTextOf(s, 6, ms[1]);
    SdpNumberOf(s, 7, "ttl", s.ttl, 0xFF, BlankSession.ttl);
    SdpNumberOf(s, 8, "port", s.port, 0xFFFF, BlankSession.port);
    SdpNumberOf(s, 9, "payloadType", s.payloadType, 0xFF, BlankSession.payloadType);
  }

  lemma {:induction false} FormatReadsBack(s: SdpSession)
    ensures ExtractString(SdpText(s), "encoding") == Some(s.encoding)
    ensures NarrowOr(SdpText(s), "sampleRate", 0xFFFF_FFFF, BlankSession.sampleRate) == s.sampleRate
    ensures NarrowOr(SdpText(s), "numChannels", 0xFFFF, BlankSession.numChannels) == s.numChannels
    ensures PacketTimeOf(SdpText(s)) == s.ptimeUs
    ensures NarrowOr(SdpText(s), "framecount", 0xFFFF_FFFF, BlankSession.framecount) == s.framecount
  {
    hide SdpMembers, ExtractString, ExtractUInt64, NarrowOr, SdpText, NumberValue;
    SdpParts(s);
    var ms := FormatMembers(s);
    SdpTextOf(s, 10, ms[0]);
    SdpNumberOf(s, 11, "sampleRate", s.sampleRate, 0xFFFF_FFFF, BlankSession.sampleRate);
    SdpNumberOf(s, 12, "numChannels", s.numChannels, 0xFFFF, BlankSession.numChannels);
    SdpNumberOf(s, 13, "ptimeUs", s.ptimeUs, 0xFFFF_FFFF, 0);
    SdpNumberOf(s, 14, "framecount", s.framecount, 0xFFFF_FFFF, BlankSession.framecount);
  }

  lemma {:induction false} ClockReadsBack(s: SdpSession)
    ensures ExtractString(SdpText(s), "sourceAddress") == Some(s.sourceAddress)
    ensures ExtractInt(SdpText(s), "ptpDomain") == Some(s.ptpDomain)
    ensures ExtractString(SdpText(s), "ptpMasterMAC") == Some(s.ptpMasterMac)
    ensures ExtractString(SdpText(s), "mediaClockType") == Some(s.mediaClockType)
    ensures ExtractString(SdpText(s), "direction") == Some(s.direction)
  {
    hide SdpMembers, ExtractString, ExtractInt, Unambiguous, IntegerValue, Render;
    SdpParts(s);
    var ms := ClockMembers(s);
    SdpTextOf(s, 15, ms[0]);
    SdpIsUnambiguous(s);
    IntegerOf("", SdpMembers(s), 6, 16, s.ptpDomain);
    assert "" + SdpText(s) == SdpText(s);
    SdpTextOf(s, 17, ms[2]);
    SdpTextOf(s, 18, ms[3]);
    SdpTextOf(s, 19, ms[4]);
  }

  lemma {:induction false} SdpReadsBack(s: SdpSession)
    ensures SdpFromJson(SdpText(s)) == PersistedSdp(s)
  {
    hide ExtractString, ExtractUInt64, ExtractInt, NarrowOr, PacketTimeOf, SdpText;
    SessionReadsBack(s);
    AddressReadsBack(s);
    FormatReadsBack(s);
    ClockReadsBack(s);
  }

  // ---- the mapping -----------------------------------------------------------------------------

  function Prints(ns: seq<nat>): seq<string> { if ns == [] then [] else [Print(ns[0])] + Prints(ns[1..]) }

  lemma {:induction false} RunsOfNumber(n: nat, rest: string)
    requires rest == "" || !IsDigit(rest[0])
    ensures DigitRuns(Print(n) + rest) == [Print(n)] + DigitRuns(rest)
  {
    hide Print, LeadingDigits;
    var s := Print(n) + rest;
    LeadingDigitsStop(Print(n), rest);
    assert s[0] == Print(n)[0] && s[|Print(n)|..] == rest;
  }

  lemma {:induction false} RunsOfList(ns: seq<nat>)
    ensures DigitRuns(NumberList(ns)) == Prints(ns)
  {
    hide Print, LeadingDigits;
    if |ns| == 1 {
      RunsOfNumber(ns[0], "");
      assert Print(ns[0]) + "" == Print(ns[0]) && Prints(ns[1..]) == [];
    } else if |ns| > 1 {
      var rest := NumberList(ns[1..]);
      assert Print(ns[0]) + ", " + rest == Print(ns[0]) + (", " + rest);
      RunsOfNumber(ns[0], ", " + rest);
      assert (", " + rest)[1..] == " " + rest && (" " + rest)[1..] == rest;
      RunsOfList(ns[1..]);
    }
  }

  lemma {:induction false} NumbersOfPrints(ns: seq<nat>)
    requires forall i :: 0 <= i < |ns| ==> ns[i] < 0x1_0000
    ensures Numbers(Prints(ns)) == Some(ns)
  {
    hide Print, Stoi;
    if ns == [] {
    } else {
      PrintReadsBack(ns[0]);
      NumbersOfPrints(ns[1..]);
      assert Prints(ns)[1..] == Prints(ns[1..]) && [ns[0]] + ns[1..] == ns;
    }
  }

  lemma {:induction false} RoutesOfFlat(routes: seq<ChannelRoute>)
    ensures Routes(Flat(routes)) == routes
    ensures forall i :: 0 <= i < |Flat(routes)| ==> Flat(routes)[i] < 0x1_0000
  {
    if routes == [] {
    } else {
      RoutesOfFlat(routes[1..]);
      assert Flat(routes)[2..] == Flat(routes[1..]);
    }
  }

  /** A list of numbers is digits, commas and blanks. */
  lemma {:induction false} NumberListIsPlain(ns: seq<nat>)
    ensures forall i :: 0 <= i < |NumberList(ns)| ==>
      IsDigit(NumberList(ns)[i]) || NumberList(ns)[i] == ',' || NumberList(ns)[i] == ' '
  {
    hide Print;
    if |ns| > 1 { NumberListIsPlain(ns[1..]); }
  }

  function MappingText(m: ChannelMapping): string { Render(Object(MappingMembers(m), 6)) }

  lemma {:induction false} RoutesAreGood(m: ChannelMapping)
    ensures Good(Bare(['['] + NumberList(Flat(m.routes)) + [']'])) && ']' !in NumberList(Flat(m.routes))
  {
    hide NumberList, Flat;
    NumberListIsPlain(Flat(m.routes));
  }

  lemma {:induction false} MappingIsGood(m: ChannelMapping)
    ensures GoodMembers(MappingMembers(m))
  {
    hide IsKey, NumberValue, NumberList, Flat;
    MappingKeys();
    DeviceKeys();
    NumberIsGood(m.streamChannelCount);
    NumberIsGood(m.streamChannelOffset);
    NumberIsGood(m.deviceChannelStart);
    NumberIsGood(m.deviceChannelCount);
    RoutesAreGood(m);
  }

  lemma {:induction false} MappingIsUnambiguous(m: ChannelMapping)
    ensures Unambiguous(MappingMembers(m))
  {
    hide GoodMembers, NumberValue, NumberList, StreamIdText.IdText;
    MappingIsGood(m);
    MappingKeysDiffer(m);
  }

  lemma {:induction false} MappingKeysDiffer(m: ChannelMapping)
    ensures var ms := MappingMembers(m);
      |ms| == 7 && forall i, j :: 0 <= i < j < 7 ==> ms[i].key != ms[j].key && !ms[i].value.Object?
  {
  }

  lemma {:induction false} RoutesReadBack(m: ChannelMapping)
    ensures RoutesFromJson(MappingText(m)) == Read(m.routes)
  {
    hide MatchField, Render, Unambiguous, NumberList, Flat, DigitRuns, Numbers, Routes;
    MappingIsUnambiguous(m);
    RoutesAreGood(m);
    var r := NumberList(Flat(m.routes));
    FieldOf("", MappingMembers(m), 6, 6, UpToBracket, r);
    assert "" + MappingText(m) == MappingText(m);
    RunsOfList(Flat(m.routes));
    RoutesOfFlat(m.routes);
    NumbersOfPrints(Flat(m.routes));
  }

  /** The six fields before the routes, from any object that begins with them. */
  lemma {:induction false} MappingFieldsRead(m: ChannelMapping, ms: seq<Member>)
    requires Unambiguous(ms) && |ms| >= 6 && ms[..6] == MappingMembers(m)[..6]
    ensures var text := Render(Object(ms, 6));
      && ExtractString(text, "streamID") == Some(StreamIdText.IdText(m.streamId))
      && ExtractString(text, "streamName") == Some(m.streamName)
      && NarrowOr(text, "streamChannelCount", 0xFFFF, 0) == m.streamChannelCount
      && NarrowOr(text, "streamChannelOffset", 0xFFFF, 0) == m.streamChannelOffset
      && NarrowOr(text, "deviceChannelStart", 0xFFFF, 0) == m.deviceChannelStart
      && NarrowOr(text, "deviceChannelCount", 0xFFFF, 0) == m.deviceChannelCount
  {
    hide ExtractString, NarrowOr, Render, Unambiguous, StreamIdText.IdText, NumberValue, NumberList;
    var text := Render(Object(ms, 6));
    assert forall i :: 0 <= i < 6 ==> ms[i] == ms[..6][i] == MappingMembers(m)[i];
    assert "" + text == text;
    TextOf("", ms, 6, 0, StreamIdText.IdText(m.streamId));
    TextOf("", ms, 6, 1, m.streamName);
    NarrowOf("", ms, 6, 2, m.streamChannelCount, 0xFFFF, 0);
    NarrowOf("", ms, 6, 3, m.streamChannelOffset, 0xFFFF, 0);
    NarrowOf("", ms, 6, 4, m.deviceChannelStart, 0xFFFF, 0);
    NarrowOf("", ms, 6, 5, m.deviceChannelCount, 0xFFFF, 0);
  }

  lemma {:induction false} MappingReadsBack(m: ChannelMapping)
    ensures MappingFromJson(MappingText(m)) == Read(m)
  {
    hide ExtractString, NarrowOr, RoutesFromJson, Render, Unambiguous, StreamIdText.IdText, StreamIdText.ParseId,
         MappingMembers;
    MappingIsUnambiguous(m);
    MappingKeysDiffer(m);
    MappingFieldsRead(m, MappingMembers(m));
    StreamIdText.IdReadsBack(m.streamId);
    RoutesReadBack(m);
  }

  // ---- text without braces ---------------------------------------------------------------------

  predicate Avoids(s: string, c: char) { c !in s }

  lemma {:induction false} MemberAvoids(m: Member, c: char)
    requires c in "{}[]" && IsWord(m.key) && Avoids(Render(m.value), c)
    ensures Avoids(RenderMember(m), c)
  {
  }

  lemma {:induction false} MembersAvoid(ms: seq<Member>, indent: nat, c: char)
    requires c in "{}[]" && forall m :: m in ms ==> IsWord(m.key) && Avoids(Render(m.value), c)
    ensures Avoids(RenderMembers(ms, indent), c)
    decreases |ms|
  {
    hide Render, RenderMember, Spaces, IsWord;
    if ms == [] {
    } else {
      MemberAvoids(ms[0], c);
      if |ms| > 1 { MembersAvoid(ms[1..], indent, c); }
    }
  }

  lemma {:induction false} InsideAvoids(ms: seq<Member>, indent: nat, c: char)
    requires c in "{}[]" && forall m :: m in ms ==> IsWord(m.key) && Avoids(Render(m.value), c)
    ensures c !in Inside(ms, indent)
  {
    hide Render, RenderMembers, Spaces, IsWord;
    MembersAvoid(ms, indent, c);
  }

  lemma {:induction false} NumberAvoids(n: nat, c: char)
    requires c in "{}[]"
    ensures Avoids(Render(NumberValue(n)), c)
  {
  }

  lemma {:induction false} IntegerAvoids(n: int, c: char)
    requires c in "{}[]"
    ensures Avoids(Render(IntegerValue(n)), c)
  {
  }

  lemma {:induction false} TextAvoids(raw: string, c: char)
    requires c in "{}[]" && c !in raw
    ensures Avoids(Render(Value.Text(raw)), c)
  {
    hide Escape;
    EscapeAvoids(raw, c);
  }

  /** None of the session's saved strings holds that character. */
  predicate SdpAvoids(s: SdpSession, c: char) {
    && c !in s.sessionName && c !in s.sessionInfo && c !in s.originUsername && c !in s.originAddress
    && c !in s.connectionAddress && c !in s.encoding && c !in s.sourceAddress && c !in s.ptpMasterMac
    && c !in s.mediaClockType && c !in s.direction
  }

  ghost predicate MembersClean(ms: seq<Member>, c: char) {
    forall m :: m in ms ==> IsWord(m.key) && Avoids(Render(m.value), c)
  }

  lemma {:induction false} SessionClean(s: SdpSession, c: char)
    requires c in "{}[]" && SdpAvoids(s, c)
    ensures MembersClean(SessionMembers(s), c)
  {
    hide IsWord, NumberValue, Render;
    SessionIsGood(s);
    TextAvoids(s.sessionName, c);
    TextAvoids(s.sessionInfo, c);
    NumberAvoids(s.sessionId, c);
    NumberAvoids(s.sessionVersion, c);
    TextAvoids(s.originUsername, c);
  }

  lemma {:induction false} AddressClean(s: SdpSession, c: char)
    requires c in "{}[]" && SdpAvoids(s, c)
    ensures MembersClean(AddressMembers(s), c)
  {
    hide IsWord, NumberValue, Render;
    AddressIsGood(s);
    TextAvoids(s.originAddress, c);
    TextAvoids(s.connectionAddress, c);
    NumberAvoids(s.ttl, c);
    NumberAvoids(s.port, c);
    NumberAvoids(s.payloadType, c);
  }

  lemma {:induction false} FormatClean(s: SdpSession, c: char)
    requires c in "{}[]" && SdpAvoids(s, c)
    ensures MembersClean(FormatMembers(s), c)
  {
    hide IsWord, NumberValue, Render;
    FormatIsGood(s);
    TextAvoids(s.encoding, c);
    NumberAvoids(s.sampleRate, c);
    NumberAvoids(s.numChannels, c);
    NumberAvoids(s.ptimeUs, c);
    NumberAvoids(s.framecount, c);
  }

  lemma {:induction false} ClockClean(s: SdpSession, c: char)
    requires c in "{}[]" && SdpAvoids(s, c)
    ensures MembersClean(ClockMembers(s), c)
  {
    hide IsWord, IntegerValue, Render;
    ClockIsGood(s);
    TextAvoids(s.sourceAddress, c);
    IntegerAvoids(s.ptpDomain, c);
    TextAvoids(s.ptpMasterMac, c);
    TextAvoids(s.mediaClockType, c);
    TextAvoids(s.direction, c);
  }

  lemma {:induction false} SdpClean(s: SdpSession, c: char)
    requires c in "{}[]" && SdpAvoids(s, c)
    ensures MembersClean(SdpMembers(s), c) && c !in Inside(SdpMembers(s), 6)
  {
    hide SessionMembers, AddressMembers, FormatMembers, ClockMembers, IsWord, Avoids, Inside;
    SessionClean(s, c);
    AddressClean(s, c);
    FormatClean(s, c);
    ClockClean(s, c);
    InsideAvoids(SdpMembers(s), 6, c);
  }

  lemma {:induction false} IdIsClean(id: StreamId, c: char)
    requires c in "{}[]"
    ensures c !in StreamIdText.IdText(id)
  {
    hide StreamIdText.TextFrom;
    StreamIdText.TextIsPlain(StreamIdText.BytesOf(id, 16), 0);
  }

  /** Of the mapping only the list of routes is written with brackets. */
  lemma {:induction false} MappingClean(m: ChannelMapping, c: char)
    requires c in "{}" && c !in m.streamName
    ensures MembersClean(MappingMembers(m), c) && c !in Inside(MappingMembers(m), 6)
  {
    hide IsWord, NumberValue, Render, StreamIdText.IdText, Inside, NumberList, Flat;
    MappingIsGood(m);
    IdIsClean(m.streamId, c);
    TextAvoids(StreamIdText.IdText(m.streamId), c);
    TextAvoids(m.streamName, c);
    NumberAvoids(m.streamChannelCount, c);
    NumberAvoids(m.streamChannelOffset, c);
    NumberAvoids(m.deviceChannelStart, c);
    NumberAvoids(m.deviceChannelCount, c);
    RoutesAvoid(m, c);
    InsideAvoids(MappingMembers(m), 6, c);
  }

  lemma {:induction false} RoutesAvoid(m: ChannelMapping, c: char)
    requires c in "{}"
    ensures Avoids(Render(Bare(['['] + NumberList(Flat(m.routes)) + [']'])), c)
  {
    hide NumberList, Flat;
    NumberListIsPlain(Flat(m.routes));
  }

  // ---- one stream ------------------------------------------------------------------------------

  /** Nothing inside the two nested objects closes them early. */
  predicate Unbraced(c: PersistedConfig) { SdpAvoids(c.sdp, '}') && '}' !in c.mapping.streamName }

  lemma {:induction false} ConfigIsGood(c: PersistedConfig)
    ensures GoodMembers(ConfigMembers(c))
  {
    hide GoodMembers, IsKey, Good, NumberValue, FlagValue, SdpMembers, MappingMembers;
    ConfigKeys();
    FlagIsGood(c.enabled);
    FlagIsGood(c.isTransmit);
    TextIsGood(c.description);
    TextIsGood(c.networkInterface);
    NumberIsGood(c.createdTimestamp);
    NumberIsGood(c.modifiedTimestamp);
    NumberIsGood(c.jitterBufferDepth);
    ObjectsAreGood(c);
    GoodByIndex(ConfigMembers(c));
  }

  lemma {:induction false} GoodByIndex(ms: seq<Member>)
    requires forall i :: 0 <= i < |ms| ==> IsKey(ms[i].key) && Good(ms[i].value)
    ensures GoodMembers(ms)
  {
  }

  lemma {:induction false} ObjectsAreGood(c: PersistedConfig)
    ensures Good(Object(SdpMembers(c.sdp), 6)) && Good(Object(MappingMembers(c.mapping), 6))
  {
    hide SdpMembers, MappingMembers, IsKey;
    SdpIsGood(c.sdp);
    SdpKeysDiffer(c.sdp);
    MappingIsGood(c.mapping);
    MappingKeysDiffer(c.mapping);
  }

  lemma {:induction false} NoSdpKeyIsMapping(s: SdpSession)
    ensures forall i :: 0 <= i < |SdpMembers(s)| ==> SdpMembers(s)[i].key != "mapping"
  {
  }

  lemma {:induction false} SdpLacksMapping(s: SdpSession)
    ensures Lacks(Object(SdpMembers(s), 6), "mapping")
  {
    hide SdpMembers;
    SdpIsFlat(s);
    NoSdpKeyIsMapping(s);
  }

  lemma {:induction false} ConfigIsUnambiguous(c: PersistedConfig)
    ensures Unambiguous(ConfigMembers(c))
  {
    hide GoodMembers, NumberValue, SdpMembers, MappingMembers, Lacks;
    ConfigIsGood(c);
    ConfigKeysDiffer(c);
    SdpLacksMapping(c.sdp);
    var ms := ConfigMembers(c);
    forall i, j | 0 <= i < j < |ms|
      ensures Lacks(ms[i].value, ms[j].key)
    {
      if i < 7 { FlatLacks(ms[i].value, ms[j].key); }
    }
  }

  lemma {:induction false} FlatLacks(v: Value, key: string)
    requires !v.Object?
    ensures Lacks(v, key)
  {
  }

  lemma {:induction false} ConfigKeysDiffer(c: PersistedConfig)
    ensures var ms := ConfigMembers(c);
      && |ms| == 9 && (forall i, j :: 0 <= i < j < 9 ==> ms[i].key != ms[j].key)
      && (forall i :: 0 <= i < 7 ==> !ms[i].value.Object?)
  {
    hide SdpMembers, MappingMembers;
  }

  /** What comes back of a saved stream: everything in the file, with the interface resolved anew. */
  function Restored(c: PersistedConfig, resolve: Option<string> -> string): PersistedConfig {
    PersistedConfig(PersistedSdp(c.sdp), c.mapping, c.enabled, c.isTransmit, c.description, c.createdTimestamp,
      c.modifiedTimestamp, c.jitterBufferDepth, resolve(Some(c.networkInterface)))
  }

  lemma {:induction false} ConfigFieldsReadBack(lead: string, c: PersistedConfig)
    requires '"' !in lead
    ensures var json := lead + ConfigText(c);
      && ExtractBool(json, "enabled") == Some(c.enabled) && ExtractBool(json, "isTransmit") == Some(c.isTransmit)
      && ExtractString(json, "description") == Some(c.description)
      && ExtractUInt64(json, "createdTimestamp") == Some(c.createdTimestamp)
      && ExtractUInt64(json, "modifiedTimestamp") == Some(c.modifiedTimestamp)
      && ExtractUInt64(json, "jitterBufferDepth") == Some(c.jitterBufferDepth)
      && ExtractString(json, "networkInterface") == Some(c.networkInterface)
  {
    hide ExtractBool, ExtractString, ExtractUInt64, Render, Unambiguous, NumberValue, FlagValue, SdpMembers,
         MappingMembers;
    ConfigIsUnambiguous(c);
    var ms := ConfigMembers(c);
    FlagOf(lead, ms, 4, 0, c.enabled);
    FlagOf(lead, ms, 4, 1, c.isTransmit);
    TextOf(lead, ms, 4, 2, c.description);
    NumberOf(lead, ms, 4, 3, c.createdTimestamp);
    NumberOf(lead, ms, 4, 4, c.modifiedTimestamp);
    NumberOf(lead, ms, 4, 5, c.jitterBufferDepth);
    TextOf(lead, ms, 4, 6, c.networkInterface);
  }

  lemma {:induction false} ConfigObjectsReadBack(lead: string, c: PersistedConfig)
    requires '"' !in lead && Unbraced(c)
    ensures var json := lead + ConfigText(c);
      && ObjectField(json, "sdp") == Some(SdpText(c.sdp))
      && ObjectField(json, "mapping") == Some(MappingText(c.mapping))
  {
    hide ObjectField, Render, Unambiguous, NumberValue, FlagValue, SdpMembers, MappingMembers, Inside, SdpAvoids,
         MembersClean;
    ConfigIsUnambiguous(c);
    var ms := ConfigMembers(c);
    SdpClean(c.sdp, '}');
    ObjectOf(lead, ms, 4, 7, SdpMembers(c.sdp), 6);
    MappingClean(c.mapping, '}');
    ObjectOf(lead, ms, 4, 8, MappingMembers(c.mapping), 6);
  }

  /** One saved stream, with whatever plain text stands before it, comes back field for field. */
  lemma {:induction false} ConfigReadsBack(lead: string, c: PersistedConfig, resolve: Option<string> -> string)
    requires '"' !in lead && Unbraced(c) && c.IsValid()
    ensures ConfigFromJson(lead + ConfigText(c), resolve) == Read(Restored(c, resolve))
  {
    hide ExtractBool, ExtractString, ExtractUInt64, ObjectField, ConfigText, SdpText, MappingText, Unbraced,
         SdpFromJson,
         MappingFromJson, ValidMapping;
    ConfigFieldsReadBack(lead, c);
    ConfigObjectsReadBack(lead, c);
    SdpReadsBack(c.sdp);
    MappingReadsBack(c.mapping);
  }

  // ---- a closing brace in a name ---------------------------------------------------------------

  lemma {:induction false} EscapeConcat(a: string, b: string)
    ensures Escape(a + b) == Escape(a) + Escape(b)
  {
    hide EscapeChar;
    if a == "" {
      assert a + b == b;
    } else {
      assert (a + b)[1..] == a[1..] + b;
      EscapeConcat(a[1..], b);
      assert EscapeChar(a[0]) + (Escape(a[1..]) + Escape(b)) == Escape(a) + Escape(b);
    }
  }

  lemma {:induction false} BeforeAvoids(ms: seq<Member>, indent: nat, i: nat, c: char)
    requires i <= |ms| && c in "{}[]" && MembersClean(ms[..i], c)
    ensures c !in Before(ms, indent, i)
    decreases i
  {
    hide Render, RenderMember, Spaces, IsWord;
    if i == 0 {
    } else {
      assert ms[0] in ms[..i] && ms[1..][..i - 1] == ms[..i][1..];
      MemberAvoids(ms[0], c);
      BeforeAvoids(ms[1..], indent, i - 1, c);
    }
  }

  lemma {:induction false} CutAvoids(key: string, part: string)
    requires IsWord(key) && '}' !in part
    ensures '}' !in Cut(key, part)
  {
    hide Escape;
    EscapeAvoids(part, '}');
  }

  lemma {:induction false} BracedText(key: string, part: string, more: string)
    ensures var text := RenderMember(Member(key, Value.Text(part + ['}'] + more)));
      exists after :: text == Cut(key, part) + (['}'] + after)
  {
    hide Escape;
    var raw := part + ['}'] + more;
    EscapeConcat(part + ['}'], more);
    EscapeConcat(part, ['}']);
    BraceIsPlain();
    var after := Escape(more) + ['"'];
    assert Quoted(raw) == ['"'] + (Escape(part) + ['}'] + Escape(more)) + ['"'];
    assert RenderMember(Member(key, Value.Text(raw))) == Cut(key, part) + (['}'] + after);
  }

  lemma {:induction false} BraceIsPlain()
    ensures Escape(['}']) == ['}']
  {
  }

  /** The object ends for its reader at the first brace in one of its strings. */
  lemma {:induction false} CutComesFirst(ms: seq<Member>, indent: nat, i: nat, part: string, more: string)
    requires i < |ms| && ms[i].value == Value.Text(part + ['}'] + more) && '}' !in part && IsWord(ms[i].key)
    requires MembersClean(ms[..i], '}')
    ensures UpToFirst(Inside(ms, indent), '}', InsideCut(ms, indent, i, part)) && InsideCut(ms, indent, i, part) != ""
  {
    hide Spaces, Before, Cut, RenderMember, RenderMembers, MembersClean, IsWord;
    MembersFrom(ms, indent, i);
    BracedText(ms[i].key, part, more);
    var after :| RenderMember(ms[i]) == Cut(ms[i].key, part) + (['}'] + after);
    var tail := MembersStart(ms[i..], indent);
    BeforeAvoids(ms, indent, i, '}');
    CutAvoids(ms[i].key, part);
    var r := InsideCut(ms, indent, i, part);
    var rest := after + tail + ("\n" + Spaces(indent));
    assert Inside(ms, indent) == r + (['}'] + rest);
    assert '}' !in r && r != "";
  }

  lemma {:induction false} MembersStart(ms: seq<Member>, indent: nat) returns (tail: string)
    requires ms != []
    ensures RenderMembers(ms, indent) == RenderMember(ms[0]) + tail
  {
    hide RenderMember;
    tail := RenderTail(ms, indent);
  }

  /** The first of an object's strings that holds a closing brace, and the text before that brace. */
  lemma {:induction false} FirstBraced(ms: seq<Member>, k: nat) returns (i: nat, part: string, more: string)
    requires k < |ms| && ms[k].value.Text? && '}' in ms[k].value.raw
    requires forall j :: 0 <= j < |ms| && !ms[j].value.Text? ==> Avoids(Render(ms[j].value), '}')
    requires forall m :: m in ms ==> IsWord(m.key)
    ensures i < |ms| && ms[i].value == Value.Text(part + ['}'] + more) && '}' !in part && MembersClean(ms[..i], '}')
  {
    hide Render, IsWord;
    i := 0;
    while !(ms[i].value.Text? && '}' in ms[i].value.raw)
      invariant i <= k && MembersClean(ms[..i], '}')
      decreases k - i
    {
      if ms[i].value.Text? { TextAvoids(ms[i].value.raw, '}'); }
      assert ms[..i + 1] == ms[..i] + [ms[i]];
      i := i + 1;
    }
    part, more := FirstBrace(ms[i].value.raw);
  }

  lemma {:induction false} FirstBrace(raw: string) returns (part: string, more: string)
    requires '}' in raw
    ensures raw == part + ['}'] + more && '}' !in part
  {
    var at := Find(raw, '}').value;
    part, more := raw[..at], raw[at + 1..];
  }

  lemma {:induction false} NonTextAvoids(s: SdpSession)
    ensures forall j :: 0 <= j < |SdpMembers(s)| && !SdpMembers(s)[j].value.Text? ==>
      Avoids(Render(SdpMembers(s)[j].value), '}')
  {
    hide Render, NumberValue, IntegerValue, Avoids;
    NumberAvoids(s.sessionId, '}');
    NumberAvoids(s.sessionVersion, '}');
    NumberAvoids(s.ttl, '}');
    NumberAvoids(s.port, '}');
    NumberAvoids(s.payloadType, '}');
    NumberAvoids(s.sampleRate, '}');
    NumberAvoids(s.numChannels, '}');
    NumberAvoids(s.ptimeUs, '}');
    NumberAvoids(s.framecount, '}');
    IntegerAvoids(s.ptpDomain, '}');
  }

  lemma {:induction false} SomeBraced(s: SdpSession) returns (k: nat)
    requires !SdpAvoids(s, '}')
    ensures k < |SdpMembers(s)| && SdpMembers(s)[k].value.Text? && '}' in SdpMembers(s)[k].value.raw
  {
    hide SdpMembers, NumberValue, IntegerValue;
    SdpParts(s);
    k :=
      if '}' in s.sessionName then 0 else if '}' in s.sessionInfo then 1 else if '}' in s.originUsername then 4
      else if '}' in s.originAddress then 5 else if '}' in s.connectionAddress then 6 else if '}' in s.encoding then 10
      else if '}' in s.sourceAddress then 15 else if '}' in s.ptpMasterMac then 17
        else if '}' in s.mediaClockType then 18 else 19;
  }

  lemma {:induction false} BracedSessionWasRead(text: string, s: SdpSession, i: nat)
    requires SdpFromJson(text) == PersistedSdp(s) && i < |SessionMembers(s)|
    requires SessionMembers(s)[i].value.Text? && '}' in SessionMembers(s)[i].value.raw
    ensures ExtractString(text, SessionMembers(s)[i].key).Some?
  {
    hide ExtractString, ExtractUInt64, ExtractInt, NarrowOr, PacketTimeOf, Print, PrintInt;
  }

  lemma {:induction false} BracedAddressWasRead(text: string, s: SdpSession, i: nat)
    requires SdpFromJson(text) == PersistedSdp(s) && i < |AddressMembers(s)|
    requires AddressMembers(s)[i].value.Text? && '}' in AddressMembers(s)[i].value.raw
    ensures ExtractString(text, AddressMembers(s)[i].key).Some?
  {
    hide ExtractString, ExtractUInt64, ExtractInt, NarrowOr, PacketTimeOf, Print, PrintInt;
  }

  lemma {:induction false} BracedFormatWasRead(text: string, s: SdpSession, i: nat)
    requires SdpFromJson(text) == PersistedSdp(s) && i < |FormatMembers(s)|
    requires FormatMembers(s)[i].value.Text? && '}' in FormatMembers(s)[i].value.raw
    ensures ExtractString(text, FormatMembers(s)[i].key).Some?
  {
    hide ExtractString, ExtractUInt64, ExtractInt, NarrowOr, PacketTimeOf, Print, PrintInt;
  }

  lemma {:induction false} BracedClockWasRead(text: string, s: SdpSession, i: nat)
    requires SdpFromJson(text) == PersistedSdp(s) && i < |ClockMembers(s)|
    requires ClockMembers(s)[i].value.Text? && '}' in ClockMembers(s)[i].value.raw
    ensures ExtractString(text, ClockMembers(s)[i].key).Some?
  {
    hide ExtractString, ExtractUInt64, ExtractInt, NarrowOr, PacketTimeOf, Print, PrintInt;
  }

  /** A session read from some text has a string with a brace only if the text gave it: no default holds one. */
  lemma {:induction false} BracedWasRead(text: string, s: SdpSession, i: nat)
    requires SdpFromJson(text) == PersistedSdp(s) && i < |SdpMembers(s)|
    requires SdpMembers(s)[i].value.Text? && '}' in SdpMembers(s)[i].value.raw
    ensures ExtractString(text, SdpMembers(s)[i].key).Some?
  {
    hide SdpMembers, SessionMembers, AddressMembers, FormatMembers, ClockMembers, SdpFromJson, PersistedSdp,
         ExtractString;
    SdpParts(s);
    if i < 5 {
      BracedSessionWasRead(text, s, i);
    } else if i < 10 {
      BracedAddressWasRead(text, s, i - 5);
    } else if i < 15 {
      BracedFormatWasRead(text, s, i - 10);
    } else {
      BracedClockWasRead(text, s, i - 15);
    }
  }

  lemma {:induction false} WordsOf(ms: seq<Member>)
    requires GoodMembers(ms)
    ensures forall m :: m in ms ==> IsWord(m.key)
  {
  }

  lemma {:induction false} LacksBefore(ms: seq<Member>, i: nat)
    requires Unambiguous(ms) && i < |ms|
    ensures GoodMembers(ms) && MembersLack(ms[..i], ms[i].key)
  {
  }

  /** The text the reader takes for an object whose strings hold a closing brace, and the field it then misses. */
  lemma {:induction false} BracedObject(lead: string, ms: seq<Member>, indent: nat, at: nat, inner: seq<Member>,
        innerIndent: nat, k: nat)
    returns (text: string, i: nat)
    requires '"' !in lead && at < |ms| && Unambiguous(ms) && ms[at].value == Object(inner, innerIndent)
      && Unambiguous(inner)
    requires k < |inner| && inner[k].value.Text? && '}' in inner[k].value.raw
    requires forall j :: 0 <= j < |inner| && !inner[j].value.Text? ==> Avoids(Render(inner[j].value), '}')
    ensures ObjectField(lead + Render(Object(ms, indent)), ms[at].key) == Some(text)
    ensures i < |inner| && inner[i].value.Text? && '}' in inner[i].value.raw
      && ExtractString(text, inner[i].key) == None
  {
    hide MatchField, ExtractString, Render, Inside, InsideCut, Unambiguous, MembersClean, IsWord, Avoids, UpToFirst;
    LacksBefore(inner, k);
    WordsOf(inner);
    var part, more;
    i, part, more := FirstBraced(inner, k);
    LacksBefore(inner, i);
    CutComesFirst(inner, innerIndent, i, part, more);
    var r := InsideCut(inner, innerIndent, i, part);
    FieldOf(lead, ms, indent, at, UpToBrace, r);
    CutFieldIsNotFound(inner, innerIndent, i, part);
    text := ['{'] + r + ['}'];
    assert (part + ['}'] + more)[|part|] == '}';
  }

  lemma {:induction false} BracedSessionIsLost(lead: string, c: PersistedConfig, resolve: Option<string> -> string)
    requires '"' !in lead && !SdpAvoids(c.sdp, '}')
    ensures ConfigFromJson(lead + ConfigText(c), resolve) != Read(Restored(c, resolve))
  {
    hide ObjectField, ExtractString, ExtractBool, ExtractUInt64, Render, Unambiguous, SdpMembers, MappingMembers,
         SdpFromJson,
         MappingFromJson, PersistedSdp, ValidMapping, NumberValue, FlagValue, Avoids;
    var k := SomeBraced(c.sdp);
    ConfigIsUnambiguous(c);
    SdpIsUnambiguous(c.sdp);
    NonTextAvoids(c.sdp);
    var text, i := BracedObject(lead, ConfigMembers(c), 4, 7, SdpMembers(c.sdp), 6, k);
    if SdpFromJson(text) == PersistedSdp(c.sdp) { BracedWasRead(text, c.sdp, i); }
  }

  lemma {:induction false} MappingNonText(m: ChannelMapping)
    ensures forall j :: 0 <= j < |MappingMembers(m)| && !MappingMembers(m)[j].value.Text? ==>
      Avoids(Render(MappingMembers(m)[j].value), '}')
    ensures '}' !in StreamIdText.IdText(m.streamId)
  {
    hide Render, NumberValue, NumberList, Flat, StreamIdText.IdText, Avoids;
    NumberAvoids(m.streamChannelCount, '}');
    NumberAvoids(m.streamChannelOffset, '}');
    NumberAvoids(m.deviceChannelStart, '}');
    NumberAvoids(m.deviceChannelCount, '}');
    RoutesAvoid(m, '}');
    IdIsClean(m.streamId, '}');
  }

  lemma {:induction false} BracedMappingIsLost(lead: string, c: PersistedConfig, resolve: Option<string> -> string)
    requires '"' !in lead && '}' in c.mapping.streamName
    ensures ConfigFromJson(lead + ConfigText(c), resolve) != Read(Restored(c, resolve))
  {
    hide ObjectField, ExtractString, ExtractBool, ExtractUInt64, Render, Unambiguous, SdpMembers, SdpFromJson,
         RoutesFromJson,
         NarrowOr, PersistedSdp, ValidMapping, Print, FlagValue, Avoids, NumberList, StreamIdText.IdText,
           StreamIdText.ParseId;
    ConfigIsUnambiguous(c);
    MappingIsUnambiguous(c.mapping);
    MappingNonText(c.mapping);
    var text, i := BracedObject(lead, ConfigMembers(c), 4, 8, MappingMembers(c.mapping), 6, 1);
    assert i == 1;
  }

  /**
    The reader of one stream gives back what was written exactly when no string inside its two nested
    objects holds a closing brace; opening braces, brackets and the stream's own strings do it no harm.
   */
  lemma {:induction false} ConfigReadsBackIff(lead: string, c: PersistedConfig, resolve: Option<string> -> string)
    requires '"' !in lead && c.IsValid()
    ensures ConfigFromJson(lead + ConfigText(c), resolve) == Read(Restored(c, resolve)) <==> Unbraced(c)
  {
    hide ConfigFromJson, ConfigText, Restored, SdpAvoids, PersistedConfig.IsValid;
    if Unbraced(c) {
      ConfigReadsBack(lead, c, resolve);
    } else if !SdpAvoids(c.sdp, '}') {
      BracedSessionIsLost(lead, c, resolve);
    } else {
      BracedMappingIsLost(lead, c, resolve);
    }
  }

  // ---- files in the older layout ---------------------------------------------------------------

  function IntegerList(ns: seq<int>): string {
    if ns == [] then "" else if |ns| == 1 then PrintInt(ns[0]) else PrintInt(ns[0]) + ", " + IntegerList(ns[1..])
  }

  function PrintInts(ns: seq<int>): seq<string> { if ns == [] then [] else [PrintInt(ns[0])] + PrintInts(ns[1..]) }

  lemma {:induction false} SignedRunsOfDigits(digits: string, rest: string)
    requires digits != "" && AllDigits(digits) && (rest == "" || !IsDigit(rest[0]))
    ensures SignedRuns(digits + rest) == [digits] + SignedRuns(rest)
  {
    hide LeadingDigits;
    LeadingDigitsStop(digits, rest);
    assert (digits + rest)[0] == digits[0] && (digits + rest)[|digits|..] == rest;
  }

  lemma {:induction false} SignedRunsOfMinus(digits: string, rest: string)
    requires digits != "" && AllDigits(digits) && (rest == "" || !IsDigit(rest[0]))
    ensures SignedRuns(['-'] + digits + rest) == [['-'] + digits] + SignedRuns(rest)
  {
    hide LeadingDigits;
    LeadingDigitsStop(digits, rest);
    var s := ['-'] + digits + rest;
    assert s[0] == '-' && s[1..] == digits + rest && s[1 + |digits|..] == rest;
  }

  lemma {:induction false} SignedRunsOfNumber(n: int, rest: string)
    requires rest == "" || !IsDigit(rest[0])
    ensures SignedRuns(PrintInt(n) + rest) == [PrintInt(n)] + SignedRuns(rest)
  {
    hide Print, SignedRuns;
    if n < 0 { SignedRunsOfMinus(Print(-n), rest); } else { SignedRunsOfDigits(Print(n), rest); }
  }

  lemma {:induction false} SignedRunsOfList(ns: seq<int>)
    ensures SignedRuns(IntegerList(ns)) == PrintInts(ns)
  {
    hide PrintInt, LeadingDigits;
    if |ns| == 1 {
      SignedRunsOfNumber(ns[0], "");
      assert PrintInt(ns[0]) + "" == PrintInt(ns[0]) && PrintInts(ns[1..]) == [];
    } else if |ns| > 1 {
      var rest := IntegerList(ns[1..]);
      assert PrintInt(ns[0]) + ", " + rest == PrintInt(ns[0]) + (", " + rest);
      SignedRunsOfNumber(ns[0], ", " + rest);
      assert (", " + rest)[1..] == " " + rest && (" " + rest)[1..] == rest;
      SignedRunsOfList(ns[1..]);
    }
  }

  lemma {:induction false} NumbersOfInts(ns: seq<int>)
    requires forall i :: 0 <= i < |ns| ==> -0x8000_0000 <= ns[i] < 0x8000_0000
    ensures Numbers(PrintInts(ns)) == Some(ns)
  {
    hide PrintInt, Stoi;
    if ns == [] {
    } else {
      PrintIntReadsBack(ns[0]);
      NumbersOfInts(ns[1..]);
      assert PrintInts(ns)[1..] == PrintInts(ns[1..]) && [ns[0]] + ns[1..] == ns;
    }
  }

  lemma {:induction false} HeadOrTail(ns: seq<int>, first: U16, r: ChannelRoute)
    requires ns != [] && ns[0] < 0x1_0000
    ensures r in RoutesInOrder(ns, first) <==>
      (ns[0] >= 0 && r == ChannelRoute(first, ns[0])) || r in RoutesInOrder(ns[1..], (first + 1) % 0x1_0000)
  {
    hide RoutesInOrder;
    var tail := RoutesInOrder(ns[1..], (first + 1) % 0x1_0000);
    assert RoutesInOrder(ns, first) == (if ns[0] >= 0 then [ChannelRoute(first, ns[0])] else []) + tail by {
      OrderStep(ns, first);
    }
  }

  lemma {:induction false} OrderStep(ns: seq<int>, first: U16)
    requires ns != [] && ns[0] < 0x1_0000
    ensures RoutesInOrder(ns, first) ==
      (if ns[0] >= 0 then [ChannelRoute(first, ns[0])] else []) + RoutesInOrder(ns[1..], (first + 1) % 0x1_0000)
    ensures RoutesInOrder([], first) == []
  {
  }

  /** Stream channel i goes to the i-th number, and nowhere if that is negative. */
  lemma {:induction false} InOrderMeans(ns: seq<int>, first: nat, r: ChannelRoute)
    requires first < 0x1_0000 && first + |ns| <= 0x1_0000 && forall i :: 0 <= i < |ns| ==> ns[i] < 0x1_0000
    ensures r in RoutesInOrder(ns, first) <==>
      first <= r.streamChannel < first + |ns| && ns[r.streamChannel - first] == r.deviceChannel
    decreases |ns|
  {
    hide RoutesInOrder;
    if ns == [] {
      OrderStep([0], first);
    } else {
      var rest := ns[1..];
      HeadOrTail(ns, first, r);
      if rest == [] {
        OrderStep([0], (first + 1) % 0x1_0000);
      } else {
        InOrderMeans(rest, first + 1, r);
      }
      if r.streamChannel > first && r.streamChannel < first + |ns| {
        assert rest[r.streamChannel - first - 1] == ns[r.streamChannel - first];
      }
    }
  }

  lemma {:induction false} OldListReads(json: string, ns: seq<int>, r: ChannelRoute)
    requires MatchField(json, "routes", UpToBracket) == None
    requires MatchField(json, "channelMap", UpToBracket) == Some(IntegerList(ns))
    requires |ns| <= 0x1_0000 && forall i :: 0 <= i < |ns| ==> -0x8000_0000 <= ns[i] < 0x1_0000
    ensures RoutesFromJson(json).Read?
    ensures r in RoutesFromJson(json).value <==> r.streamChannel < |ns| && ns[r.streamChannel] == r.deviceChannel
  {
    hide MatchField, IntegerList, SignedRuns, Numbers, RoutesInOrder;
    SignedRunsOfList(ns);
    NumbersOfInts(ns);
    InOrderMeans(ns, 0, r);
  }

  /** A mapping as files from before routes hold it: the same fields, with a channel map in place of the routes. */
  function OldMembers(m: ChannelMapping, ns: seq<int>): seq<Member> {
    MappingMembers(m)[..6] + [Member("channelMap", Bare(['['] + IntegerList(ns) + [']']))]
  }

  function OldText(m: ChannelMapping, ns: seq<int>): string { Render(Object(OldMembers(m, ns), 6)) }

  lemma {:induction false} IntegerListIsPlain(ns: seq<int>)
    ensures '"' !in IntegerList(ns) && ']' !in IntegerList(ns)
  {
    hide Print;
    if |ns| <= 1 {
    } else {
      IntegerListIsPlain(ns[1..]);
    }
  }

  lemma {:induction false} OldKeys()
    ensures IsKey("channelMap") && IsKey("routes")
  {
  }

  lemma {:induction false} OldKeysDiffer(m: ChannelMapping)
    ensures forall i :: 0 <= i < 6 ==>
      var x := MappingMembers(m)[i]; x.key != "channelMap" && x.key != "routes" && !x.value.Object?
  {
    hide Print, NumberList, StreamIdText.IdText;
  }

  lemma {:induction false} OldIsUnambiguous(m: ChannelMapping, ns: seq<int>)
    ensures |OldMembers(m, ns)| == 7 && Unambiguous(OldMembers(m, ns)) && GoodMembers(OldMembers(m, ns))
    ensures MembersLack(OldMembers(m, ns), "routes")
  {
    hide MappingMembers, IntegerList, IsKey;
    MappingIsGood(m);
    MappingKeysDiffer(m);
    OldKeysDiffer(m);
    OldKeys();
    IntegerListIsPlain(ns);
    var ms, old_ := MappingMembers(m), OldMembers(m, ns);
    assert forall i :: 0 <= i < 6 ==> old_[i] == ms[i] && ms[i] in ms;
    GoodByIndex(old_);
    forall i | 0 <= i < 7
      ensures old_[i].key != "routes" && !old_[i].value.Object?
    {
      assert "channelMap"[0] != "routes"[0];
    }
  }

  lemma {:induction false} OldRoutesAreFound(m: ChannelMapping, ns: seq<int>)
    ensures MatchField(OldText(m, ns), "routes", UpToBracket) == None
    ensures MatchField(OldText(m, ns), "channelMap", UpToBracket) == Some(IntegerList(ns))
  {
    hide Render, Unambiguous, MembersLack, GoodMembers, MappingMembers, IntegerList, Search, IsKey;
    OldKeys();
    OldIsUnambiguous(m, ns);
    IntegerListIsPlain(ns);
    MappingKeysDiffer(m);
    var old_ := OldMembers(m, ns);
    AbsentIsNotFound(old_, 6, "routes", UpToBracket);
    FieldOf("", old_, 6, 6, UpToBracket, IntegerList(ns));
    assert "" + OldText(m, ns) == OldText(m, ns);
  }

  /**
    A file from before routes keeps its patch: the mapping comes back with every field it had and, for
    routes, stream channel i on the i-th device channel of the older list, nowhere where that is negative.
   */
  lemma {:induction false} OldLayoutReads(m: ChannelMapping, ns: seq<int>, r: ChannelRoute)
    requires |ns| <= 0x1_0000 && forall i :: 0 <= i < |ns| ==> -0x8000_0000 <= ns[i] < 0x1_0000
    ensures var read := MappingFromJson(OldText(m, ns));
      && read.Read? && read.value == m.(routes := read.value.routes)
      && (r in read.value.routes <==> r.streamChannel < |ns| && ns[r.streamChannel] == r.deviceChannel)
  {
    hide ExtractString, NarrowOr, RoutesFromJson, Render, Unambiguous, StreamIdText.IdText, StreamIdText.ParseId,
         MappingMembers, IntegerList, GoodMembers, MembersLack;
    OldIsUnambiguous(m, ns);
    MappingKeysDiffer(m);
    MappingFieldsRead(m, OldMembers(m, ns));
    StreamIdText.IdReadsBack(m.streamId);
    OldRoutesAreFound(m, ns);
    OldListReads(OldText(m, ns), ns, r);
  }
}
