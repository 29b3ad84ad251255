/**
  The session description reader and writer (packages/aes67-core/Driver/SDPParser.cpp; section 5 of
  RFC 4566, the ts-refclk forms of RFC 7273).  The wall clock a session without an id is numbered by is
  a parameter.
 */
module SdpParser {
  import opened StreamTypes
  import opened Decimal
  import opened Text
  import PacketTime

  // ---- reading ---------------------------------------------------------------------------------

  function ParseOriginLine(value: string, s: SdpSession): Option<SdpSession> {
    var parts := SplitTrimmed(value, ' ');
    if |parts| < 6 then None
    else
      var id, version := Stoull(parts[1]), Stoull(parts[2]);
      if id.None? || version.None? then None
      else Some(s.(originUsername := parts[0], sessionId := id.value, sessionVersion := version.value,
                   originNetworkType := parts[3], originAddressType := parts[4], originAddress := parts[5]))
  }

  /** An address may carry a time to live behind a slash; one that is no number counts as 32, and it is a byte. */
  function ParseConnectionLine(value: string, s: SdpSession): Option<SdpSession> {
    var parts := SplitTrimmed(value, ' ');
    if |parts| < 3 then None
    else
      var t := s.(connectionType := parts[0], connectionNetwork := parts[1]);
      match Find(parts[2], '/')
      case None => Some(t.(connectionAddress := parts[2]))
      case Some(slash) =>
        var ttl := Stoi(parts[2][slash + 1..]);
        Some(t.(connectionAddress := parts[2][..slash], ttl := if ttl.None? then 32 else ttl.value % 0x100))
  }

  function ParseTimingLine(value: string, s: SdpSession): Option<SdpSession> {
    var parts := SplitTrimmed(value, ' ');
    if |parts| < 2 then None
    else
      var start, stop := Stoull(parts[0]), Stoull(parts[1]);
      if start.None? || stop.None? then None
      else Some(s.(timeStart := start.value, timeStop := stop.value))
  }

  function ParseMediaLine(value: string, s: SdpSession): Option<SdpSession> {
    var parts := SplitTrimmed(value, ' ');
    if |parts| < 4 then None
    else
      var port, payloadType := Stoi(parts[1]), Stoi(parts[3]);
      if port.None? || !(0 <= port.value <= 65535) || payloadType.None? || !(0 <= payloadType.value <= 127) then None
      else Some(s.(mediaType := parts[0], port := port.value, transport := parts[2], payloadType := payloadType.value))
  }

  /** Validated whole; then it applies only if it describes the payload type the media line selected. */
  function ParseRtpMap(value: string, s: SdpSession): Option<SdpSession> {
    var parts := SplitTrimmed(value, ' ');
    if |parts| < 2 then None
    else
      var format := SplitTrimmed(parts[1], '/');
      if |format| < 2 then None
      else
        var payloadType, rate := Stoi(parts[0]), Stoull(format[1]);
        var channels := if |format| >= 3 then Stol(format[2]) else Some(s.numChannels);
        if payloadType.None? || rate.None? || channels.None? then None
        else if |format| >= 3 && !(1 <= channels.value <= 65535) then None
        else if payloadType.value != s.payloadType then Some(s)
        else Some(s.(encoding := format[0], sampleRate := rate.value % 0x1_0000_0000, numChannels := channels.value))
  }

  function ParsePTime(value: string, s: SdpSession): Option<SdpSession> {
    match PacketTime.Parse(value)
    case None => None
    case Some(us) => Some(s.(ptimeUs := us))
  }

  function ParseFrameCount(value: string, s: SdpSession): Option<SdpSession> {
    match Stoull(value)
    case None => None
    case Some(n) => Some(s.(framecount := n % 0x1_0000_0000))
  }

  function ParseSourceFilter(value: string, s: SdpSession): Option<SdpSession> {
    var parts := SplitTrimmed(Trim(value), ' ');
    if |parts| >= 5 then Some(s.(sourceAddress := parts[4])) else None
  }

  const REFCLK_PREFIX := "ptp=IEEE1588-2008:"
  const DOMAIN_MARK := ":domain-nmbr="

  function DropBlanks(s: string): (r: string)
    ensures s != "" && IsDigit(s[|s| - 1]) ==> r == s
  {
    if s != "" && s[|s| - 1] in " \r\n\t" then DropBlanks(s[..|s| - 1]) else s
  }

  function DomainOr(text: string, fallback: I32): I32 {
    match Stoi(text)
    case None => fallback
    case Some(n) => n
  }

  /** A grandmaster, and its domain in either of the two ways it is written, or not at all. */
  function ParseClockName(rest: string, s: SdpSession): SdpSession {
    match FindText(rest, DOMAIN_MARK)
    case Some(mark) =>
      s.(ptpMasterMac := rest[..mark], ptpDomain := DomainOr(rest[mark + |DOMAIN_MARK|..], s.ptpDomain))
    case None =>
      match FindLast(rest, ':')
      case None => s.(ptpMasterMac := rest)
      case Some(colon) =>
        var tail := rest[colon + 1..];
        if tail != "" && AllDigits(tail)
        then s.(ptpMasterMac := rest[..colon], ptpDomain := DomainOr(tail, s.ptpDomain))
        else s.(ptpMasterMac := rest)
  }

  /** Never refuses: an unknown reference clock is only not recorded. */
  function ParseRefClock(value: string, s: SdpSession): SdpSession {
    if FindText(value, "traceable").Some? then s.(ptpTraceable := true, ptpMasterMac := "")
    else match FindText(value, REFCLK_PREFIX)
      case None => s
      case Some(at) => ParseClockName(DropBlanks(value[at + |REFCLK_PREFIX|..]), s)
  }

  predicate IsDirection(key: string) {
    key == "recvonly" || key == "sendonly" || key == "sendrecv" || key == "inactive"
  }

  /** The attributes with a meaning of their own; every other one is kept as it came. */
  predicate Reserved(key: string) {
    || key == "rtpmap" || key == "ptime" || key == "framecount" || key == "source-filter"
    || key == "ts-refclk" || key == "mediaclk" || IsDirection(key)
  }

  function ParseAttribute(key: string, value: string, s: SdpSession): Option<SdpSession> {
    if key == "rtpmap" then ParseRtpMap(value, s)
    else if key == "ptime" then ParsePTime(value, s)
    else if key == "framecount" then ParseFrameCount(value, s)
    else if key == "source-filter" then ParseSourceFilter(value, s)
    else if key == "ts-refclk" then Some(ParseRefClock(value, s))
    else if key == "mediaclk" then Some(s.(mediaClockType := value))
    else if IsDirection(key) then Some(s.(direction := key))
    else Some(s.(customAttributes := s.customAttributes[key := value]))
  }

  function ParseAttributeLine(line: string, s: SdpSession): Option<SdpSession> {
    match Find(line, ':')
    case None => ParseAttribute(line, "", s)
    case Some(colon) => ParseAttribute(line[..colon], line[colon + 1..], s)
  }

  function ParseRecord(kind: char, value: string, s: SdpSession): Option<SdpSession> {
    match kind
    case 'v' => if Trim(value) == "0" then Some(s) else None
    case 'o' => ParseOriginLine(value, s)
    case 's' => Some(s.(sessionName := Trim(value)))
    case 'i' => Some(s.(sessionInfo := Trim(value)))
    case 'c' => ParseConnectionLine(value, s)
    case 't' => ParseTimingLine(value, s)
    case 'm' => ParseMediaLine(value, s)
    case 'a' => ParseAttributeLine(value, s)
    case _ => Some(s)
  }

  /** Empty lines, comments and lines that are no record are passed over. */
  function ParseLine(line: string, s: SdpSession): Option<SdpSession> {
    if line == "" || line[0] == '#' || |line| < 2 || line[1] != '=' then Some(s)
    else ParseRecord(line[0], line[2..], s)
  }

  function ParseLines(lines: seq<string>, s: SdpSession): Option<SdpSession> {
    if lines == [] then Some(s)
    else match ParseLine(lines[0], s)
      case None => None
      case Some(t) => ParseLines(lines[1..], t)
  }

  function Parse(text: string): Option<SdpSession> {
    match ParseLines(SplitLines(text), BlankSession)
    case None => None
    case Some(s) => if s.IsValid() then Some(s) else None
  }

  /** The reader's loop: one session filled in line by line. */
  method ParseString(text: string) returns (result: Option<SdpSession>)
    ensures result == Parse(text)
  {
    hide ParseLine;
    var session := BlankSession;
    var lines := SplitLines(text);
    var i := 0;
    assert lines[i..] == lines;
    while i < |lines|
      invariant i <= |lines|
      invariant ParseLines(lines[i..], session) == ParseLines(lines, BlankSession)
    {
      assert lines[i..][0] == lines[i] && lines[i..][1..] == lines[i + 1..];
      var next := ParseLine(lines[i], session);
      if next.None? { return None; }
      session := next.value;
      i := i + 1;
    }
    if !session.IsValid() { return None; }
    return Some(session);
  }

  // ---- writing ---------------------------------------------------------------------------------

  function Record(kind: char, value: string): string { [kind] + ['='] + value }

  function KeyValue(key: string, value: string): string { key + [':'] + value }

  function OriginValue(s: SdpSession, now: U64): string {
    Joined([s.originUsername, Print(if s.sessionId == 0 then now else s.sessionId), Print(s.sessionVersion),
            s.originNetworkType, s.originAddressType, s.originAddress], ' ')
  }

  function ConnectionValue(s: SdpSession): string {
    Joined([s.connectionType, s.connectionNetwork,
            if s.ttl != 0 then s.connectionAddress + ['/'] + Print(s.ttl) else s.connectionAddress], ' ')
  }

  function TimingValue(s: SdpSession): string { Joined([Print(s.timeStart), Print(s.timeStop)], ' ') }

  function MediaValue(s: SdpSession): string {
    Joined([s.mediaType, Print(s.port), s.transport, Print(s.payloadType)], ' ')
  }

  function RtpMapValue(s: SdpSession): string {
    Joined([Print(s.payloadType), Joined([s.encoding, Print(s.sampleRate), Print(s.numChannels)], '/')], ' ')
  }

  function SourceFilterValue(s: SdpSession): string {
    [' '] + Joined(["incl", "IN", "IP4", s.connectionAddress, s.sourceAddress], ' ')
  }

  /** A grandmaster is written only with its domain. */
  predicate NamesClock(s: SdpSession) { !s.ptpTraceable && s.ptpDomain >= 0 && s.ptpMasterMac != "" }

  function RefClockValue(s: SdpSession): string {
    if s.ptpTraceable then "ptp=IEEE1588-2008:traceable"
    else REFCLK_PREFIX + (s.ptpMasterMac + [':'] + PrintInt(s.ptpDomain))
  }

  const CLOCK_DOMAIN := "clock-domain"

  function ClockDomainValue(domain: I32): string { "PTPv2 " + PrintInt(domain) }

  predicate StatesDomain(s: SdpSession) { s.ptpDomain >= 0 && CLOCK_DOMAIN !in s.customAttributes }

  function When(present: bool, line: string): seq<string> { if present then [line] else [] }

  function SessionLines(s: SdpSession, now: U64): seq<string> {
    ["v=0", Record('o', OriginValue(s, now)), Record('s', s.sessionName)]
    + When(s.sessionInfo != "", Record('i', s.sessionInfo))
    + [Record('c', ConnectionValue(s)), Record('t', TimingValue(s)), Record('m', MediaValue(s)),
      Record('c', ConnectionValue(s))]
  }

  function FormatLines(s: SdpSession): seq<string> {
    [Record('a', KeyValue("rtpmap", RtpMapValue(s))), Record('a', KeyValue("ptime", PacketTime.Format(s.ptimeUs)))]
    + When(s.framecount > 0, Record('a', KeyValue("framecount", Print(s.framecount))))
    + [Record('a', s.direction)]
    + When(s.sourceAddress != "", Record('a', KeyValue("source-filter", SourceFilterValue(s))))
  }

  function ClockLines(s: SdpSession): seq<string> {
    When(s.ptpTraceable || NamesClock(s), Record('a', KeyValue("ts-refclk", RefClockValue(s))))
    + When(StatesDomain(s), Record('a', KeyValue(CLOCK_DOMAIN, ClockDomainValue(s.ptpDomain))))
    + When(s.mediaClockType != "", Record('a', KeyValue("mediaclk", s.mediaClockType)))
  }

  function CustomLine(key: string, value: string): string {
    Record('a', if value == "" then key else KeyValue(key, value))
  }

  function CustomLines(keys: seq<string>, attributes: map<string, string>): seq<string>
    requires forall k :: k in keys ==> k in attributes
  {
    if keys == [] then [] else [CustomLine(keys[0], attributes[keys[0]])] + CustomLines(keys[1..], attributes)
  }

  function Lines(s: SdpSession, now: U64): seq<string> {
    SessionLines(s, now) + FormatLines(s) + ClockLines(s)
    + CustomLines(SortedKeys(s.customAttributes.Keys), s.customAttributes)
  }

  /** Every record ends with CR LF. */
  function Generate(s: SdpSession, now: U64): string { Terminated(Lines(s, now)) }
}
