/**
  One saved stream (packages/aes67-core/NetworkEngine/StreamConfig.cpp).  Resolving an
  interface name to an address asks the operating system, so it is a parameter.
 */
module StreamConfig {
  import opened StreamTypes
  import opened Decimal
  import opened JsonFields
  import opened ChannelMapper
  import StreamIdText

  datatype PersistedConfig = PersistedConfig(
    sdp: SdpSession, mapping: ChannelMapping, enabled: bool, isTransmit: bool, description: string,
    createdTimestamp: U64, modifiedTimestamp: U64, jitterBufferDepth: U64, networkInterface: string)
  {
    ghost predicate IsValid() { sdp.IsValid() && ValidMapping(mapping) }
  }

  const BlankMapping: ChannelMapping := ChannelMapping(NULL_ID, "", 0, 0, 0, 0, [])

  // ---- writing ---------------------------------------------------------------------------------

  function NumberValue(n: nat): Value { Bare(Print(n)) }
  function IntegerValue(n: int): Value { Bare(PrintInt(n)) }
  function FlagValue(b: bool): Value { Bare(if b then "true" else "false") }

  function SessionMembers(s: SdpSession): seq<Member> {
    [Member("sessionName", Value.Text(s.sessionName)),
     Member("sessionInfo", Value.Text(s.sessionInfo)),
     Member("sessionID", NumberValue(s.sessionId)),
     Member("sessionVersion", NumberValue(s.sessionVersion)),
     Member("originUsername", Value.Text(s.originUsername))]
  }

  function AddressMembers(s: SdpSession): seq<Member> {
    [Member("originAddress", Value.Text(s.originAddress)),
     Member("connectionAddress", Value.Text(s.connectionAddress)),
     Member("ttl", NumberValue(s.ttl)),
     Member("port", NumberValue(s.port)),
     Member("payloadType", NumberValue(s.payloadType))]
  }

  function FormatMembers(s: SdpSession): seq<Member> {
    [Member("encoding", Value.Text(s.encoding)),
     Member("sampleRate", NumberValue(s.sampleRate)),
     Member("numChannels", NumberValue(s.numChannels)),
     Member("ptimeUs", NumberValue(s.ptimeUs)),
     Member("framecount", NumberValue(s.framecount))]
  }

  function ClockMembers(s: SdpSession): seq<Member> {
    [Member("sourceAddress", Value.Text(s.sourceAddress)),
     Member("ptpDomain", IntegerValue(s.ptpDomain)),
     Member("ptpMasterMAC", Value.Text(s.ptpMasterMac)),
     Member("mediaClockType", Value.Text(s.mediaClockType)),
     Member("direction", Value.Text(s.direction))]
  }

  function SdpMembers(s: SdpSession): seq<Member> {
    SessionMembers(s) + AddressMembers(s) + FormatMembers(s) + ClockMembers(s)
  }

  /** The routes as one flat list of numbers, a stream channel and a device channel in turn. */
  function Flat(routes: seq<ChannelRoute>): seq<nat> {
    if routes == [] then [] else [routes[0].streamChannel, routes[0].deviceChannel] + Flat(routes[1..])
  }

  function NumberList(ns: seq<nat>): string {
    if ns == [] then "" else if |ns| == 1 then Print(ns[0]) else Print(ns[0]) + ", " + NumberList(ns[1..])
  }

  function MappingMembers(m: ChannelMapping): seq<Member> {
    [Member("streamID", Value.Text(StreamIdText.IdText(m.streamId))),
     Member("streamName", Value.Text(m.streamName)),
     Member("streamChannelCount", NumberValue(m.streamChannelCount)),
     Member("streamChannelOffset", NumberValue(m.streamChannelOffset)),
     Member("deviceChannelStart", NumberValue(m.deviceChannelStart)),
     Member("deviceChannelCount", NumberValue(m.deviceChannelCount)),
     Member("routes", Bare(['['] + NumberList(Flat(m.routes)) + [']']))]
  }

  function ConfigMembers(c: PersistedConfig): seq<Member> {
    [Member("enabled", FlagValue(c.enabled)),
     Member("isTransmit", FlagValue(c.isTransmit)),
     Member("description", Value.Text(c.description)),
     Member("createdTimestamp", NumberValue(c.createdTimestamp)),
     Member("modifiedTimestamp", NumberValue(c.modifiedTimestamp)),
     Member("jitterBufferDepth", NumberValue(c.jitterBufferDepth)),
     Member("networkInterface", Value.Text(c.networkInterface)),
     Member("sdp", Object(SdpMembers(c.sdp), 6)),
     Member("mapping", Object(MappingMembers(c.mapping), 6))]
  }

  function ConfigText(c: PersistedConfig): string { Render(Object(ConfigMembers(c), 4)) }

  // ---- reading ---------------------------------------------------------------------------------

  /** A reader gives a value, gives none, or throws. */
  datatype Outcome<T> = Threw | Rejected | Read(value: T)

  function Or<T>(value: Option<T>, fallback: T): T { if value.Some? then value.value else fallback }

  function NarrowOr(s: string, key: string, max: nat, fallback: nat): (r: nat)
    ensures fallback <= max ==> r <= max
  {
    Or(Narrow(ExtractUInt64(s, key), max), fallback)
  }

  /** The packet time in microseconds, or in the milliseconds older files hold. */
  function PacketTimeOf(json: string): U32 {
    match Narrow(ExtractUInt64(json, "ptimeUs"), 0xFFFF_FFFF)
    case Some(us) => us
    case None =>
      match Narrow(ExtractUInt64(json, "ptime"), 0xFFFF_FFFF)
      case Some(ms) => ms * 1000 % 0x1_0000_0000
      case None => BlankSession.ptimeUs
  }

  function SdpFromJson(json: string): SdpSession {
    var d := BlankSession;
    SdpSession(
      Or(ExtractString(json, "sessionName"), d.sessionName), Or(ExtractString(json, "sessionInfo"), d.sessionInfo),
      Or(ExtractUInt64(json, "sessionID"), d.sessionId), Or(ExtractUInt64(json, "sessionVersion"), d.sessionVersion),
      Or(ExtractString(json, "originUsername"), d.originUsername),
      Or(ExtractString(json, "originAddress"), d.originAddress),
      d.originNetworkType, d.originAddressType,
      Or(ExtractString(json, "connectionAddress"), d.connectionAddress), d.connectionType, d.connectionNetwork,
      NarrowOr(json, "ttl", 0xFF, d.ttl), d.timeStart, d.timeStop, d.mediaType,
      NarrowOr(json, "port", 0xFFFF, d.port), d.transport, NarrowOr(json, "payloadType", 0xFF, d.payloadType),
      Or(ExtractString(json, "encoding"), d.encoding), NarrowOr(json, "sampleRate", 0xFFFF_FFFF, d.sampleRate),
      NarrowOr(json, "numChannels", 0xFFFF, d.numChannels), PacketTimeOf(json),
      NarrowOr(json, "framecount", 0xFFFF_FFFF, d.framecount),
      Or(ExtractString(json, "sourceAddress"), d.sourceAddress),
      Or(ExtractInt(json, "ptpDomain"), d.ptpDomain), Or(ExtractString(json, "ptpMasterMAC"), d.ptpMasterMac),
      d.ptpTraceable,
      Or(ExtractString(json, "mediaClockType"), d.mediaClockType), d.dscp,
      Or(ExtractString(json, "direction"), d.direction),
      d.customAttributes)
  }

  /** Every run of digits, in order. */
  function DigitRuns(s: string): seq<string>
    decreases |s|
  {
    if s == "" then []
    else if IsDigit(s[0]) then [LeadingDigits(s)] + DigitRuns(s[|LeadingDigits(s)|..])
    else DigitRuns(s[1..])
  }

  /** The numbers of a list, or nothing if one is too large to be read. */
  function Numbers(runs: seq<string>): Option<seq<int>> {
    if runs == [] then Some([])
    else match (Stoi(runs[0]), Numbers(runs[1..]))
      case (Some(n), Some(rest)) => Some([n] + rest)
      case _ => None
  }

  /** Pairs of numbers; a last one without a partner is dropped. */
  function Routes(ns: seq<int>): seq<ChannelRoute> {
    if |ns| < 2 then [] else [ChannelRoute(ns[0] % 0x1_0000, ns[1] % 0x1_0000)] + Routes(ns[2..])
  }

  /** Runs of digits with the minus sign before them, for the older layout. */
  function SignedRuns(s: string): seq<string>
    decreases |s|
  {
    if s == "" then []
    else if IsDigit(s[0]) then [LeadingDigits(s)] + SignedRuns(s[|LeadingDigits(s)|..])
    else if s[0] == '-' && LeadingDigits(s[1..]) != "" then
      [['-'] + LeadingDigits(s[1..])] + SignedRuns(s[1 + |LeadingDigits(s[1..])|..])
    else SignedRuns(s[1..])
  }

  /** The older layout: one device channel per stream channel, negative for one not carried. */
  function RoutesInOrder(ns: seq<int>, streamChannel: U16): seq<ChannelRoute> {
    if ns == [] then []
    else (if ns[0] >= 0 then [ChannelRoute(streamChannel, ns[0] % 0x1_0000)] else [])
         + RoutesInOrder(ns[1..], (streamChannel + 1) % 0x1_0000)
  }

  function RoutesFromJson(json: string): Outcome<seq<ChannelRoute>> {
    match MatchField(json, "routes", UpToBracket)
    case Some(content) => (match Numbers(DigitRuns(content)) case None => Threw case Some(ns) => Read(Routes(ns)))
    case None =>
      match MatchField(json, "channelMap", UpToBracket)
      case None => Read([])
      case Some(content) =>
        match Numbers(SignedRuns(content)) case None => Threw case Some(ns) => Read(RoutesInOrder(ns, 0))
  }

  function MappingFromJson(json: string): Outcome<ChannelMapping> {
    var id :=
      match ExtractString(json, "streamID") case None => Some(NULL_ID) case Some(text) => StreamIdText.ParseId(text);
    match (id, RoutesFromJson(json))
    case (Some(streamId), Read(routes)) =>
      Read(ChannelMapping(streamId, Or(ExtractString(json, "streamName"), ""),
        NarrowOr(json, "streamChannelCount", 0xFFFF, 0), NarrowOr(json, "streamChannelOffset", 0xFFFF, 0),
        NarrowOr(json, "deviceChannelStart", 0xFFFF, 0), NarrowOr(json, "deviceChannelCount", 0xFFFF, 0), routes))
    case _ => Threw
  }

  /** The object a field holds, with its braces. */
  function ObjectField(json: string, key: string): Option<string> {
    match MatchField(json, key, UpToBrace)
    case None => None
    case Some(inside) => Some(['{'] + inside + ['}'])
  }

  /** The role is its own field; only a file without one falls back on the announced direction. */
  function RoleOf(json: string, sdp: SdpSession): bool {
    match ExtractBool(json, "isTransmit")
    case Some(b) => b
    case None => sdp.direction == "sendonly" || sdp.direction == "sendrecv"
  }

  ghost function ConfigFromJson(json: string, resolve: Option<string> -> string): Outcome<PersistedConfig> {
    var sdp := match ObjectField(json, "sdp") case None => BlankSession case Some(text) => SdpFromJson(text);
    var mapping :=
      match ObjectField(json, "mapping") case None => Read(BlankMapping) case Some(text) => MappingFromJson(text);
    match mapping
    case Threw => Threw
    case Rejected => Rejected
    case Read(m) =>
      var c := PersistedConfig(sdp, m, Or(ExtractBool(json, "enabled"), true), RoleOf(json, sdp),
        Or(ExtractString(json, "description"), ""), Or(ExtractUInt64(json, "createdTimestamp"), 0),
        Or(ExtractUInt64(json, "modifiedTimestamp"), 0), Or(ExtractUInt64(json, "jitterBufferDepth"), 0),
        resolve(ExtractString(json, "networkInterface")));
      if c.IsValid() then Read(c) else Rejected
  }
}
