/**
  Saved streams that were not written here today: older files and files edited by hand.  Whatever fields a
  document has, and in whatever order, each is read for itself and the others take their defaults.
 */
module SavedFields {
  import opened StreamTypes
  import opened Decimal
  import opened JsonEscape
  import opened JsonFields
  import opened JsonDocument
  import opened StreamConfig
  import opened StreamConfigRoundTrip

  // ---- a field, wherever it stands -------------------------------------------------------------

  ghost predicate Has(ms: seq<Member>, key: string) { exists i :: 0 <= i < |ms| && ms[i].key == key }

  ghost function Field(ms: seq<Member>, key: string): Value
    requires Has(ms, key)
  {
    var i :| 0 <= i < |ms| && ms[i].key == key;
    ms[i].value
  }

  lemma {:induction false} FieldReads(ms: seq<Member>, indent: nat, key: string, p: Pattern, r: string)
    requires Unambiguous(ms) && Has(ms, key) && Reads(Field(ms, key), p, r)
    ensures MatchField(Render(Object(ms, indent)), key, p) == Some(r)
  {
    hide MatchField, Render, Unambiguous, Reads;
    var i :| 0 <= i < |ms| && ms[i].key == key && ms[i].value == Field(ms, key);
    FieldOf("", ms, indent, i, p, r);
    assert "" + Render(Object(ms, indent)) == Render(Object(ms, indent));
  }

  lemma {:induction false} NoField(ms: seq<Member>, indent: nat, key: string, p: Pattern)
    requires ms != [] && Unambiguous(ms) && IsKey(key) && !Has(ms, key)
    requires forall i :: 0 <= i < |ms| ==> Lacks(ms[i].value, key)
    ensures MatchField(Render(Object(ms, indent)), key, p) == None
  {
    hide Render, Lacks, Search, GoodMembers;
    AbsentIsNotFound(ms, indent, key, p);
  }

  // ---- the kinds of value ----------------------------------------------------------------------

  predicate Numeral(v: Value) { v.Bare? && v.text != "" && AllDigits(v.text) }

  predicate SignedNumeral(v: Value) {
    v.Bare? && v.text != "" && AllDigits(if v.text[0] == '-' then v.text[1..] else v.text) && v.text != "-"
  }

  predicate Flag(v: Value) { v == Bare("true") || v == Bare("false") }

  function SignedValue(text: string): int
    requires text != ""
  {
    if text[0] == '-' then -(Decimal.Value(text[1..]) as int) else Decimal.Value(text)
  }

  lemma {:induction false} DigitsRead(text: string)
    requires text != "" && AllDigits(text)
    ensures Stoull(text) == if Decimal.Value(text) < 0x1_0000_0000_0000_0000 then Some(Decimal.Value(text)) else None
    ensures Stoi(text) == if Decimal.Value(text) < 0x8000_0000 then Some(Decimal.Value(text)) else None
  {
    hide Decimal.Value;
    LeadingDigitsStop(text, "");
    assert text + "" == text && !IsSpace(text[0]);
  }

  lemma {:induction false} SignedRead(text: string)
    requires SignedNumeral(Bare(text))
    ensures var n := SignedValue(text); Stoi(text) == if -0x8000_0000 <= n < 0x8000_0000 then Some(n) else None
  {
    hide Decimal.Value, Scan;
    if text[0] == '-' {
      ScanOfSigned(text[1..], "");
      assert (['-'] + text[1..]) + "" == text;
    } else {
      DigitsRead(text);
    }
  }

  // ---- what the fields of a document say -------------------------------------------------------

  ghost function TextOr(ms: seq<Member>, key: string, otherwise: string): string {
    if Has(ms, key) && Field(ms, key).Text? then Field(ms, key).raw else otherwise
  }

  /** A number that does not fit its field is as good as none. */
  ghost function NumberAt(ms: seq<Member>, key: string, max: nat): Option<nat> {
    if Has(ms, key) && Numeral(Field(ms, key)) && Decimal.Value(Field(ms, key).text) <= max
    then Some(Decimal.Value(Field(ms, key).text)) else None
  }

  ghost function NumberFrom(ms: seq<Member>, key: string, max: nat, otherwise: nat): (n: nat)
    requires otherwise <= max
    ensures n <= max
  {
    if NumberAt(ms, key, max).Some? then NumberAt(ms, key, max).value else otherwise
  }

  ghost function IntegerFrom(ms: seq<Member>, key: string, otherwise: I32): I32 {
    if Has(ms, key) && SignedNumeral(Field(ms, key)) && -0x8000_0000 <= SignedValue(Field(ms, key).text) < 0x8000_0000
    then SignedValue(Field(ms, key).text) else otherwise
  }

  ghost function FlagFrom(ms: seq<Member>, key: string, otherwise: bool): bool {
    if Has(ms, key) && Flag(Field(ms, key)) then Field(ms, key) == Bare("true") else otherwise
  }

  /** Microseconds, or the milliseconds of a file from before there were any. */
  ghost function PacketTimeFrom(ms: seq<Member>): U32 {
    if NumberAt(ms, "ptimeUs", 0xFFFF_FFFF).Some? then NumberAt(ms, "ptimeUs", 0xFFFF_FFFF).value
    else if NumberAt(ms, "ptime", 0xFFFF_FFFF).Some?
    then NumberAt(ms, "ptime", 0xFFFF_FFFF).value * 1000 % 0x1_0000_0000
    else 1000
  }

  ghost function SessionFrom(ms: seq<Member>): SdpSession {
    SdpSession(
      TextOr(ms, "sessionName", ""), TextOr(ms, "sessionInfo", ""),
        NumberFrom(ms, "sessionID", 0xFFFF_FFFF_FFFF_FFFF, 0),
      NumberFrom(ms, "sessionVersion", 0xFFFF_FFFF_FFFF_FFFF, 0), TextOr(ms, "originUsername", "-"),
      TextOr(ms, "originAddress", ""), "IN", "IP4", TextOr(ms, "connectionAddress", ""), "IN", "IP4",
      NumberFrom(ms, "ttl", 255, 32), 0, 0, "audio", NumberFrom(ms, "port", 65535, 5004), "RTP/AVP",
      NumberFrom(ms, "payloadType", 255, 97), TextOr(ms, "encoding", "L24"),
      NumberFrom(ms, "sampleRate", 0xFFFF_FFFF, 48000), NumberFrom(ms, "numChannels", 65535, 2), PacketTimeFrom(ms),
      NumberFrom(ms, "framecount", 0xFFFF_FFFF, 0), TextOr(ms, "sourceAddress", ""), IntegerFrom(ms, "ptpDomain", 0),
      TextOr(ms, "ptpMasterMAC", ""), false, TextOr(ms, "mediaClockType", "direct=0"), -1,
      TextOr(ms, "direction", "recvonly"), map[])
  }

  predicate TextKey(key: string) {
    || key == "sessionName" || key == "sessionInfo" || key == "originUsername" || key == "originAddress"
    || key == "connectionAddress" || key == "encoding" || key == "sourceAddress" || key == "ptpMasterMAC"
    || key == "mediaClockType" || key == "direction" || key == "description" || key == "networkInterface"
  }

  predicate NumberKey(key: string) {
    || key == "sessionID" || key == "sessionVersion" || key == "ttl" || key == "port" || key == "payloadType"
    || key == "sampleRate" || key == "numChannels" || key == "ptimeUs" || key == "ptime" || key == "framecount"
    || key == "createdTimestamp" || key == "modifiedTimestamp" || key == "jitterBufferDepth"
  }

  /** Each field known by name holds the kind of value it should. */
  ghost predicate Typed(ms: seq<Member>) {
    forall i :: 0 <= i < |ms| ==>
      && (TextKey(ms[i].key) ==> ms[i].value.Text?) && (NumberKey(ms[i].key) ==> Numeral(ms[i].value))
      && (ms[i].key == "ptpDomain" ==> SignedNumeral(ms[i].value))
      && (ms[i].key == "enabled" || ms[i].key == "isTransmit" ==> Flag(ms[i].value))
  }

  ghost predicate Free(ms: seq<Member>, key: string) { forall i :: 0 <= i < |ms| ==> Lacks(ms[i].value, key) }

  lemma {:induction false} TextReads(ms: seq<Member>, indent: nat, key: string, otherwise: string)
    requires ms != [] && Unambiguous(ms) && Typed(ms) && Free(ms, key) && TextKey(key) && IsKey(key)
    ensures ExtractString(Render(Object(ms, indent)), key) ==
      if Has(ms, key) then Some(TextOr(ms, key, otherwise)) else None
    ensures Or(ExtractString(Render(Object(ms, indent)), key), otherwise) == TextOr(ms, key, otherwise)
  {
    hide MatchField, Render, Unambiguous, TextKey, NumberKey, IsKey, Lacks;
    if Has(ms, key) {
      var v := Field(ms, key);
      FieldReads(ms, indent, key, QuotedText, Escape(v.raw));
      UnescapeUndoesEscape(v.raw);
    } else {
      NoField(ms, indent, key, QuotedText);
    }
  }

  lemma {:induction false} NumberReads(ms: seq<Member>, indent: nat, key: string, max: nat)
    requires ms != [] && Unambiguous(ms) && Typed(ms) && Free(ms, key) && NumberKey(key) && IsKey(key)
    requires max < 0x1_0000_0000_0000_0000
    ensures Narrow(ExtractUInt64(Render(Object(ms, indent)), key), max) == NumberAt(ms, key, max)
  {
    hide MatchField, Render, Unambiguous, TextKey, NumberKey, IsKey, Lacks, Stoull, Decimal.Value;
    if Has(ms, key) {
      var v := Field(ms, key);
      FieldReads(ms, indent, key, Digits, v.text);
      DigitsRead(v.text);
    } else {
      NoField(ms, indent, key, Digits);
    }
  }

  lemma {:induction false} NumberOrReads(ms: seq<Member>, indent: nat, key: string, max: nat, otherwise: nat)
    requires ms != [] && Unambiguous(ms) && Typed(ms) && Free(ms, key) && NumberKey(key) && IsKey(key)
    requires otherwise <= max < 0x1_0000_0000_0000_0000
    ensures NarrowOr(Render(Object(ms, indent)), key, max, otherwise) == NumberFrom(ms, key, max, otherwise)
    ensures max == 0xFFFF_FFFF_FFFF_FFFF ==>
      Or(ExtractUInt64(Render(Object(ms, indent)), key), otherwise) == NumberFrom(ms, key, max, otherwise)
  {
    hide ExtractUInt64, Render, Unambiguous, TextKey, NumberKey, IsKey, Free, Typed, NumberAt;
    NumberReads(ms, indent, key, max);
  }

  lemma {:induction false} IntegerReads(ms: seq<Member>, indent: nat, otherwise: I32)
    requires ms != [] && Unambiguous(ms) && Typed(ms) && Free(ms, "ptpDomain") && IsKey("ptpDomain")
    ensures Or(ExtractInt(Render(Object(ms, indent)), "ptpDomain"), otherwise) ==
      IntegerFrom(ms, "ptpDomain", otherwise)
  {
    hide MatchField, Render, Unambiguous, TextKey, NumberKey, IsKey, Lacks, Stoi, SignedValue;
    if Has(ms, "ptpDomain") {
      var v := Field(ms, "ptpDomain");
      SignedIsRead(v);
      FieldReads(ms, indent, "ptpDomain", SignedDigits, v.text);
      SignedRead(v.text);
    } else {
      NoField(ms, indent, "ptpDomain", SignedDigits);
    }
  }

  lemma {:induction false} SignedIsRead(v: Value)
    requires SignedNumeral(v)
    ensures Reads(v, SignedDigits, v.text)
  {
  }

  lemma {:induction false} FlagIs(ms: seq<Member>, indent: nat, key: string)
    requires ms != [] && Unambiguous(ms) && Typed(ms) && Free(ms, key) && IsKey(key)
    requires key == "enabled" || key == "isTransmit"
    ensures ExtractBool(Render(Object(ms, indent)), key) ==
      if Has(ms, key) then Some(FlagFrom(ms, key, true)) else None
  {
    hide MatchField, Render, Unambiguous, TextKey, NumberKey, IsKey, Lacks;
    if Has(ms, key) {
      var v := Field(ms, key);
      FieldReads(ms, indent, key, Boolean, v.text);
    } else {
      NoField(ms, indent, key, Boolean);
    }
  }

  // ---- a session -------------------------------------------------------------------------------

  predicate Plain(ms: seq<Member>) { forall i :: 0 <= i < |ms| ==> !ms[i].value.Object? }

  lemma {:induction false} PlainIsFree(ms: seq<Member>)
    requires Plain(ms)
    ensures forall key :: Free(ms, key)
  {
  }

  lemma {:induction false} LegacyKey()
    ensures IsKey("ptime")
  {
  }

  lemma {:induction false} NamesRead(ms: seq<Member>, indent: nat)
    requires ms != [] && Unambiguous(ms) && Typed(ms) && Plain(ms)
    ensures var text, from := Render(Object(ms, indent)), SessionFrom(ms);
      && Or(ExtractString(text, "sessionName"), "") == from.sessionName
      && Or(ExtractString(text, "sessionInfo"), "") == from.sessionInfo
      && Or(ExtractUInt64(text, "sessionID"), 0) == from.sessionId
      && Or(ExtractUInt64(text, "sessionVersion"), 0) == from.sessionVersion
      && Or(ExtractString(text, "originUsername"), "-") == from.originUsername
  {
    hide ExtractString, ExtractUInt64, Render, Unambiguous, Typed, IsKey, TextOr, NumberFrom, Free, NarrowOr,
         PacketTimeFrom, IntegerFrom;
    PlainIsFree(ms);
    SessionKeys();
    TextReads(ms, indent, "sessionName", "");
    TextReads(ms, indent, "sessionInfo", "");
    NumberOrReads(ms, indent, "sessionID", 0xFFFF_FFFF_FFFF_FFFF, 0);
    NumberOrReads(ms, indent, "sessionVersion", 0xFFFF_FFFF_FFFF_FFFF, 0);
    TextReads(ms, indent, "originUsername", "-");
  }

  lemma {:induction false} AddressesRead(ms: seq<Member>, indent: nat)
    requires ms != [] && Unambiguous(ms) && Typed(ms) && Plain(ms)
    ensures var text, from := Render(Object(ms, indent)), SessionFrom(ms);
      && Or(ExtractString(text, "originAddress"), "") == from.originAddress
      && Or(ExtractString(text, "connectionAddress"), "") == from.connectionAddress
      && NarrowOr(text, "ttl", 0xFF, 32) == from.ttl && NarrowOr(text, "port", 0xFFFF, 5004) == from.port
      && NarrowOr(text, "payloadType", 0xFF, 97) == from.payloadType
  {
    hide ExtractString, ExtractUInt64, Render, Unambiguous, Typed, IsKey, TextOr, NumberFrom, Free, NarrowOr,
         PacketTimeFrom, IntegerFrom;
    PlainIsFree(ms);
    AddressKeys();
    TextReads(ms, indent, "originAddress", "");
    TextReads(ms, indent, "connectionAddress", "");
    NumberOrReads(ms, indent, "ttl", 0xFF, 32);
    NumberOrReads(ms, indent, "port", 0xFFFF, 5004);
    NumberOrReads(ms, indent, "payloadType", 0xFF, 97);
  }

  lemma {:induction false} PacketTimeReads(ms: seq<Member>, indent: nat)
    requires ms != [] && Unambiguous(ms) && Typed(ms) && Plain(ms)
    ensures PacketTimeOf(Render(Object(ms, indent))) == PacketTimeFrom(ms)
  {
    hide ExtractUInt64, Render, Unambiguous, Typed, IsKey, Free, NumberAt;
    PlainIsFree(ms);
    FormatKeys();
    LegacyKey();
    NumberReads(ms, indent, "ptimeUs", 0xFFFF_FFFF);
    NumberReads(ms, indent, "ptime", 0xFFFF_FFFF);
  }

  lemma {:induction false} FormatsRead(ms: seq<Member>, indent: nat)
    requires ms != [] && Unambiguous(ms) && Typed(ms) && Plain(ms)
    ensures var text, from := Render(Object(ms, indent)), SessionFrom(ms);
      && Or(ExtractString(text, "encoding"), "L24") == from.encoding
      && NarrowOr(text, "sampleRate", 0xFFFF_FFFF, 48000) == from.sampleRate
      && NarrowOr(text, "numChannels", 0xFFFF, 2) == from.numChannels
      && NarrowOr(text, "framecount", 0xFFFF_FFFF, 0) == from.framecount
      && Or(ExtractString(text, "sourceAddress"), "") == from.sourceAddress
  {
    hide ExtractString, ExtractUInt64, Render, Unambiguous, Typed, IsKey, TextOr, NumberFrom, Free, NarrowOr,
         PacketTimeFrom, IntegerFrom;
    PlainIsFree(ms);
    FormatKeys();
    ClockKeys();
    TextReads(ms, indent, "encoding", "L24");
    NumberOrReads(ms, indent, "sampleRate", 0xFFFF_FFFF, 48000);
    NumberOrReads(ms, indent, "numChannels", 0xFFFF, 2);
    NumberOrReads(ms, indent, "framecount", 0xFFFF_FFFF, 0);
    TextReads(ms, indent, "sourceAddress", "");
  }

  lemma {:induction false} ClocksRead(ms: seq<Member>, indent: nat)
    requires ms != [] && Unambiguous(ms) && Typed(ms) && Plain(ms)
    ensures var text, from := Render(Object(ms, indent)), SessionFrom(ms);
      && Or(ExtractInt(text, "ptpDomain"), 0) == from.ptpDomain
      && Or(ExtractString(text, "ptpMasterMAC"), "") == from.ptpMasterMac
      && Or(ExtractString(text, "mediaClockType"), "direct=0") == from.mediaClockType
      && Or(ExtractString(text, "direction"), "recvonly") == from.direction
  {
    hide ExtractString, ExtractInt, Render, Unambiguous, Typed, IsKey, TextOr, NumberFrom, Free,
         PacketTimeFrom, IntegerFrom;
    PlainIsFree(ms);
    ClockKeys();
    IntegerReads(ms, indent, 0);
    TextReads(ms, indent, "ptpMasterMAC", "");
    TextReads(ms, indent, "mediaClockType", "direct=0");
    TextReads(ms, indent, "direction", "recvonly");
  }

  /** Whatever fields a saved session has, in any order, each is read for itself and the rest are the defaults. */
  lemma {:induction false} SessionReads(ms: seq<Member>, indent: nat)
    requires ms != [] && Unambiguous(ms) && Typed(ms) && Plain(ms)
    ensures SdpFromJson(Render(Object(ms, indent))) == SessionFrom(ms)
  {
    hide ExtractString, ExtractUInt64, ExtractInt, NarrowOr, PacketTimeOf, Render, Unambiguous, Typed, TextOr,
         NumberFrom, IntegerFrom, PacketTimeFrom;
    NamesRead(ms, indent);
    AddressesRead(ms, indent);
    PacketTimeReads(ms, indent);
    FormatsRead(ms, indent);
    ClocksRead(ms, indent);
  }

  // ---- a stream --------------------------------------------------------------------------------

  /** The fields of a stream are none of those of its session or mapping. */
  ghost predicate Apart(ms: seq<Member>) {
    && Free(ms, "enabled") && Free(ms, "isTransmit") && Free(ms, "description") && Free(ms, "createdTimestamp")
    && Free(ms, "modifiedTimestamp") && Free(ms, "jitterBufferDepth") && Free(ms, "networkInterface")
    && Free(ms, "sdp") && Free(ms, "mapping")
  }

  /** A nested object that ends at the first closing brace after it begins. */
  ghost predicate Nested(v: Value) { v.Object? && '}' !in Inside(v.members, v.indent) }

  ghost predicate NestedSession(v: Value) {
    Nested(v) && v.members != [] && Unambiguous(v.members) && Typed(v.members) && Plain(v.members)
  }

  lemma {:induction false} ObjectReads(ms: seq<Member>, indent: nat, key: string)
    requires ms != [] && Unambiguous(ms) && Free(ms, key) && IsKey(key)
    requires Has(ms, key) ==> Nested(Field(ms, key))
    ensures ObjectField(Render(Object(ms, indent)), key) == if Has(ms, key) then Some(Render(Field(ms, key))) else None
  {
    hide MatchField, Render, Unambiguous, Inside, IsKey, Lacks;
    if Has(ms, key) {
      var v := Field(ms, key);
      var i :| 0 <= i < |ms| && ms[i].key == key && ms[i].value == v;
      ObjectOf("", ms, indent, i, v.members, v.indent);
      assert "" + Render(Object(ms, indent)) == Render(Object(ms, indent));
    } else {
      NoField(ms, indent, key, UpToBrace);
    }
  }

  /** The role a stream is saved with; a file that has none is judged by the direction announced. */
  ghost function RoleFrom(ms: seq<Member>, direction: string): bool {
    FlagFrom(ms, "isTransmit", direction == "sendonly" || direction == "sendrecv")
  }

  ghost function SessionIn(ms: seq<Member>): SdpSession {
    if Has(ms, "sdp") && Field(ms, "sdp").Object? then SessionFrom(Field(ms, "sdp").members) else BlankSession
  }

  lemma {:induction false} SessionInReads(ms: seq<Member>, indent: nat)
    requires ms != [] && Unambiguous(ms) && Apart(ms) && (Has(ms, "sdp") ==> NestedSession(Field(ms, "sdp")))
    ensures var text := ObjectField(Render(Object(ms, indent)), "sdp");
      SessionIn(ms) == match text case None => BlankSession case Some(inner) => SdpFromJson(inner)
  {
    hide ObjectField, Render, Unambiguous, Inside, IsKey, Free, SdpFromJson, SessionFrom, Typed, Plain;
    ConfigKeys();
    ObjectReads(ms, indent, "sdp");
    if Has(ms, "sdp") {
      var v := Field(ms, "sdp");
      assert v == Object(v.members, v.indent);
      SessionReads(v.members, v.indent);
    }
  }

  lemma {:induction false} RoleReads(ms: seq<Member>, indent: nat, sdp: SdpSession)
    requires ms != [] && Unambiguous(ms) && Typed(ms) && Apart(ms)
    ensures RoleOf(Render(Object(ms, indent)), sdp) == RoleFrom(ms, sdp.direction)
    ensures Or(ExtractBool(Render(Object(ms, indent)), "enabled"), true) == FlagFrom(ms, "enabled", true)
  {
    hide ExtractBool, Render, Unambiguous, IsKey, Free;
    ConfigKeys();
    FlagIs(ms, indent, "isTransmit");
    FlagIs(ms, indent, "enabled");
  }

  /** A stream as its document says it: whatever fields it has, in any order, the rest as they are by default. */
  ghost function StreamFrom(ms: seq<Member>, mapping: ChannelMapping, interface: string): PersistedConfig {
    PersistedConfig(SessionIn(ms), mapping, FlagFrom(ms, "enabled", true), RoleFrom(ms, SessionIn(ms).direction),
      TextOr(ms, "description", ""), NumberFrom(ms, "createdTimestamp", 0xFFFF_FFFF_FFFF_FFFF, 0),
      NumberFrom(ms, "modifiedTimestamp", 0xFFFF_FFFF_FFFF_FFFF, 0),
      NumberFrom(ms, "jitterBufferDepth", 0xFFFF_FFFF_FFFF_FFFF, 0), interface)
  }

  ghost predicate StreamDocument(ms: seq<Member>) {
    && ms != [] && Unambiguous(ms) && Typed(ms) && Apart(ms)
    && (Has(ms, "sdp") ==> NestedSession(Field(ms, "sdp"))) && (Has(ms, "mapping") ==> Nested(Field(ms, "mapping")))
  }

  lemma {:induction false} DetailsRead(ms: seq<Member>, indent: nat)
    requires ms != [] && Unambiguous(ms) && Typed(ms) && Apart(ms)
    ensures var text := Render(Object(ms, indent));
      && Or(ExtractString(text, "description"), "") == TextOr(ms, "description", "")
      && Or(ExtractUInt64(text, "createdTimestamp"), 0) ==
           NumberFrom(ms, "createdTimestamp", 0xFFFF_FFFF_FFFF_FFFF, 0)
      && Or(ExtractUInt64(text, "modifiedTimestamp"), 0) ==
           NumberFrom(ms, "modifiedTimestamp", 0xFFFF_FFFF_FFFF_FFFF, 0)
      && Or(ExtractUInt64(text, "jitterBufferDepth"), 0) ==
           NumberFrom(ms, "jitterBufferDepth", 0xFFFF_FFFF_FFFF_FFFF, 0)
      && ExtractString(text, "networkInterface") ==
           if Has(ms, "networkInterface") then Some(TextOr(ms, "networkInterface", "")) else None
  {
    hide ExtractString, ExtractUInt64, Render, Unambiguous, Typed, IsKey, TextOr, NumberFrom, Free, NarrowOr, Has;
    ConfigKeys();
    TextReads(ms, indent, "description", "");
    NumberOrReads(ms, indent, "createdTimestamp", 0xFFFF_FFFF_FFFF_FFFF, 0);
    NumberOrReads(ms, indent, "modifiedTimestamp", 0xFFFF_FFFF_FFFF_FFFF, 0);
    NumberOrReads(ms, indent, "jitterBufferDepth", 0xFFFF_FFFF_FFFF_FFFF, 0);
    TextReads(ms, indent, "networkInterface", "");
  }

  /** And so of a whole stream, if what it says can be used; one without a mapping has the blank one. */
  lemma {:induction false} StreamReads(ms: seq<Member>, indent: nat, resolve: Option<string> -> string)
    requires StreamDocument(ms)
    requires Has(ms, "mapping") ==> MappingFromJson(Render(Field(ms, "mapping"))).Read?
    ensures
      var mapping :=
        if Has(ms, "mapping") then MappingFromJson(Render(Field(ms, "mapping"))).value
        else ChannelMapping(0, "", 0, 0, 0, 0, []);
      var interface :=
        resolve(if Has(ms, "networkInterface") then Some(TextOr(ms, "networkInterface", "")) else None);
      var c := StreamFrom(ms, mapping, interface);
      ConfigFromJson(Render(Object(ms, indent)), resolve) == if c.IsValid() then Read(c) else Rejected
  {
    hide ExtractString, ExtractUInt64, ExtractBool, Render, Unambiguous, Typed, Apart, TextOr, NumberFrom, FlagFrom,
         Has,
         ObjectField, MappingFromJson, SdpFromJson, SessionIn, RoleOf, RoleFrom, NestedSession, IsKey, Nested;
    assert Free(ms, "mapping") by { ApartMapping(ms); }
    ConfigKeys();
    SessionInReads(ms, indent);
    ObjectReads(ms, indent, "mapping");
    RoleReads(ms, indent, SessionIn(ms));
    DetailsRead(ms, indent);
  }

  lemma {:induction false} ApartMapping(ms: seq<Member>)
    requires Apart(ms)
    ensures Free(ms, "mapping")
  {
  }
}
