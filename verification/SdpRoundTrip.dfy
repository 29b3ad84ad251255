/** Reading back a description that was written: what survives, what is normalised, and when nothing is read. */
module SdpRoundTrip {
  import opened StreamTypes
  import opened Decimal
  import opened Text
  import opened SdpParser
  import PacketTime
  import ManagerModel

  // ---- which sessions, and what becomes of them ------------------------------------------------

  predicate OneLine(s: string) { '\n' !in s }

  /** A grandmaster's name that is not mistaken for another form of the reference clock. */
  ghost predicate ClockName(mac: string) {
    && OneLine(mac)
    && (forall i: nat :: !OccursAt(mac, "traceable", i))
    && (forall i: nat :: !OccursAt(mac, DOMAIN_MARK, i))
  }

  predicate CustomOk(key: string, value: string) { ':' !in key && OneLine(key) && OneLine(value) && !Reserved(key) }

  predicate OriginOk(s: SdpSession) {
    Token(s.originUsername) && Token(s.originNetworkType) && Token(s.originAddressType)
  }

  predicate ConnectionOk(s: SdpSession) {
    Token(s.connectionType) && Token(s.connectionNetwork) && Token(s.connectionAddress) && '/' !in s.connectionAddress
  }

  predicate NamesOk(s: SdpSession) {
    OneLine(s.sessionName) && Trimmed(s.sessionName) && OneLine(s.sessionInfo) && Trimmed(s.sessionInfo)
  }

  predicate MediaOk(s: SdpSession) {
    && Token(s.mediaType) && Token(s.transport) && s.payloadType <= 127
    && 1 <= s.ptimeUs <= 1_000_000 && IsDirection(s.direction) && (s.sourceAddress == "" || Token(s.sourceAddress))
  }

  ghost predicate ClocksOk(s: SdpSession) { OneLine(s.mediaClockType) && (NamesClock(s) ==> ClockName(s.ptpMasterMac)) }

  ghost predicate CustomsOk(s: SdpSession) {
    forall k :: k in s.customAttributes ==> CustomOk(k, s.customAttributes[k])
  }

  /** Everything a description needs, apart from the address it originates from. */
  ghost predicate WellFormedBut(s: SdpSession) {
    s.IsValid() && OriginOk(s) && ConnectionOk(s) && NamesOk(s) && MediaOk(s) && ClocksOk(s) && CustomsOk(s)
  }

  ghost predicate WellFormed(s: SdpSession) { WellFormedBut(s) && Token(s.originAddress) }

  /** What a description says of a session: the clock only if named with its domain, never the DSCP. */
  function Normal(s: SdpSession, now: U64): SdpSession {
    s.(sessionId := if s.sessionId == 0 then now else s.sessionId,
       ttl := if s.ttl == 0 then 32 else s.ttl,
       ptpDomain := if NamesClock(s) then s.ptpDomain else 0,
       ptpMasterMac := if NamesClock(s) then s.ptpMasterMac else "",
       mediaClockType := if s.mediaClockType == "" then "direct=0" else s.mediaClockType,
       dscp := -1,
       customAttributes :=
         if StatesDomain(s) then s.customAttributes[CLOCK_DOMAIN := ClockDomainValue(s.ptpDomain)]
         else s.customAttributes)
  }

  // ---- one line at a time ----------------------------------------------------------------------

  lemma {:induction false} PrintIsToken(n: nat)
    ensures Token(Print(n)) && ' ' !in Print(n) && '/' !in Print(n) && ':' !in Print(n) && '\n' !in Print(n)
  {
  }

  lemma {:induction false} RecordReads(kind: char, value: string, t: SdpSession)
    requires kind != '#'
    ensures ParseLine(Record(kind, value), t) == ParseRecord(kind, value, t)
  {
  }

  lemma {:induction false} AttributeReads(key: string, value: string, t: SdpSession)
    requires ':' !in key
    ensures ParseLine(Record('a', KeyValue(key, value)), t) == ParseAttribute(key, value, t)
  {
    hide ParseAttribute, ParseLine, Find;
    var line := KeyValue(key, value);
    RecordReads('a', line, t);
    SplitHead(key, ':', value);
    assert line[..|key|] == key && line[|key| + 1..] == value;
  }

  lemma {:induction false} FlagReads(key: string, t: SdpSession)
    requires ':' !in key
    ensures ParseLine(Record('a', key), t) == ParseAttribute(key, "", t)
  {
  }

  function SessionIdOf(s: SdpSession, now: U64): U64 { if s.sessionId == 0 then now else s.sessionId }

  function WithOrigin(t: SdpSession, s: SdpSession, now: U64): SdpSession {
    t.(originUsername := s.originUsername, sessionId := SessionIdOf(s, now), sessionVersion := s.sessionVersion,
       originNetworkType := s.originNetworkType, originAddressType := s.originAddressType,
       originAddress := s.originAddress)
  }

  lemma {:induction false} OriginReads(s: SdpSession, now: U64, t: SdpSession)
    requires OriginOk(s)
    ensures Token(s.originAddress) ==> ParseOriginLine(OriginValue(s, now), t) == Some(WithOrigin(t, s, now))
    ensures s.originAddress == "" ==> ParseOriginLine(OriginValue(s, now), t) == None
  {
    hide Print, Stoull, Joined, Split, Trim;
    var id, version := SessionIdOf(s, now), s.sessionVersion;
    PrintIsToken(id);
    PrintIsToken(version);
    PrintReadsBack(id);
    PrintReadsBack(version);
    var parts := [s.originUsername, Print(id), Print(version), s.originNetworkType, s.originAddressType,
      s.originAddress];
    if s.originAddress == "" {
      SplitJoined(parts, ' ');
    } else if Token(s.originAddress) {
      SplitTokens(parts, ' ');
    }
  }

  function WithConnection(t: SdpSession, s: SdpSession): SdpSession {
    t.(connectionType := s.connectionType, connectionNetwork := s.connectionNetwork,
       connectionAddress := s.connectionAddress, ttl := if s.ttl == 0 then t.ttl else s.ttl)
  }

  /** The address as it is written, with the ttl behind a slash unless that is zero. */
  function AddressToken(s: SdpSession): string {
    if s.ttl != 0 then s.connectionAddress + ['/'] + Print(s.ttl) else s.connectionAddress
  }

  lemma {:induction false} AddressIsToken(s: SdpSession)
    requires ConnectionOk(s)
    ensures Token(AddressToken(s)) && ' ' !in AddressToken(s)
  {
    hide Print;
    PrintIsToken(s.ttl);
  }

  lemma {:induction false} AddressSplits(s: SdpSession)
    requires ConnectionOk(s)
    ensures var address := AddressToken(s);
      if s.ttl == 0 then Find(address, '/') == None
      else
        && Find(address, '/') == Some(|s.connectionAddress|)
        && address[..|s.connectionAddress|] == s.connectionAddress
        && address[|s.connectionAddress| + 1..] == Print(s.ttl)
  {
    hide Print, Find;
    SplitHead(s.connectionAddress, '/', Print(s.ttl));
  }

  lemma {:induction false} ConnectionReads(s: SdpSession, t: SdpSession)
    requires ConnectionOk(s)
    ensures ParseConnectionLine(ConnectionValue(s), t) == Some(WithConnection(t, s))
  {
    hide Print, Stoi, Joined, SplitTrimmed, Find, Token;
    var parts := [s.connectionType, s.connectionNetwork, AddressToken(s)];
    AddressIsToken(s);
    TokensHaveNoBlank(s.connectionType);
    TokensHaveNoBlank(s.connectionNetwork);
    SplitTokens(parts, ' ');
    AddressSplits(s);
    PrintReadsBack(s.ttl);
  }

  lemma {:induction false} TokensHaveNoBlank(word: string)
    requires Token(word)
    ensures ' ' !in word
  {
  }

  lemma {:induction false} TimingReads(s: SdpSession, t: SdpSession)
    ensures ParseTimingLine(TimingValue(s), t) == Some(t.(timeStart := s.timeStart, timeStop := s.timeStop))
  {
    hide Print, Stoull, Joined, Split, Trim;
    PrintIsToken(s.timeStart);
    PrintIsToken(s.timeStop);
    PrintReadsBack(s.timeStart);
    PrintReadsBack(s.timeStop);
    SplitTokens([Print(s.timeStart), Print(s.timeStop)], ' ');
  }

  function WithMedia(t: SdpSession, s: SdpSession): SdpSession {
    t.(mediaType := s.mediaType, port := s.port, transport := s.transport, payloadType := s.payloadType)
  }

  lemma {:induction false} MediaReads(s: SdpSession, t: SdpSession)
    requires MediaOk(s)
    ensures ParseMediaLine(MediaValue(s), t) == Some(WithMedia(t, s))
  {
    hide Print, Stoi, Joined, Split, Trim;
    PrintIsToken(s.port);
    PrintIsToken(s.payloadType);
    PrintReadsBack(s.port);
    PrintReadsBack(s.payloadType);
    SplitTokens([s.mediaType, Print(s.port), s.transport, Print(s.payloadType)], ' ');
  }

  function WithFormat(t: SdpSession, s: SdpSession): SdpSession {
    t.(encoding := s.encoding, sampleRate := s.sampleRate, numChannels := s.numChannels)
  }

  lemma {:induction false} RtpMapReads(s: SdpSession, t: SdpSession)
    requires s.IsValid() && t.payloadType == s.payloadType
    ensures ParseRtpMap(RtpMapValue(s), t) == Some(WithFormat(t, s))
  {
    hide Print, Stoi, Stoull, Stol, Joined, Split, Trim;
    PrintIsToken(s.payloadType);
    PrintIsToken(s.sampleRate);
    PrintIsToken(s.numChannels);
    PrintReadsBack(s.payloadType);
    PrintReadsBack(s.sampleRate);
    PrintReadsBack(s.numChannels);
    var format := [s.encoding, Print(s.sampleRate), Print(s.numChannels)];
    SplitTokens(format, '/');
    JoinedIsToken(format, '/');
    SplitTokens([Print(s.payloadType), Joined(format, '/')], ' ');
  }

  lemma {:induction false} JoinedIsToken(parts: seq<string>, d: char)
    requires parts != [] && !IsSpace(d) && forall i :: 0 <= i < |parts| ==> Token(parts[i])
    ensures Token(Joined(parts, d)) && ' ' !in Joined(parts, d)
  {
    if |parts| > 1 { JoinedIsToken(parts[1..], d); }
  }

  lemma {:induction false} PTimeReads(s: SdpSession, t: SdpSession)
    requires 1 <= s.ptimeUs <= 1_000_000
    ensures ParsePTime(PacketTime.Format(s.ptimeUs), t) == Some(t.(ptimeUs := s.ptimeUs))
  {
    PacketTime.PacketTimeReadsBack(s.ptimeUs);
  }

  lemma {:induction false} FrameCountReads(s: SdpSession, t: SdpSession)
    ensures ParseFrameCount(Print(s.framecount), t) == Some(t.(framecount := s.framecount))
  {
    hide Print, Stoull;
    PrintReadsBack(s.framecount);
  }

  lemma {:induction false} SourceFilterReads(s: SdpSession, t: SdpSession)
    requires ConnectionOk(s) && Token(s.sourceAddress)
    ensures ParseSourceFilter(SourceFilterValue(s), t) == Some(t.(sourceAddress := s.sourceAddress))
  {
    hide Split, Trim;
    var parts := ["incl", "IN", "IP4", s.connectionAddress, s.sourceAddress];
    SplitTokens(parts, ' ');
    JoinedIsTrimmed(parts, ' ');
    TrimKeepsTrimmed(Joined(parts, ' '));
  }

  lemma {:induction false} JoinedIsTrimmed(parts: seq<string>, d: char)
    requires parts != [] && forall i :: 0 <= i < |parts| ==> Token(parts[i])
    ensures Trimmed(Joined(parts, d)) && Joined(parts, d) != ""
  {
    if |parts| > 1 { JoinedIsTrimmed(parts[1..], d); }
  }

  // ---- the reference clock ---------------------------------------------------------------------

  lemma {:induction false} CoveredIsIn(s: string, pattern: string, i: nat, k: nat)
    requires OccursAt(s, pattern, i) && i <= k < i + |pattern|
    ensures s[k] in pattern
  {
  }

  /** An occurrence that does not cover a separator lies before or after it. */
  lemma {:induction false} OccursBeside(a: string, sep: char, b: string, pattern: string, i: nat)
    requires pattern != "" && sep !in pattern && OccursAt(a + [sep] + b, pattern, i)
    ensures OccursAt(a, pattern, i) || (i > |a| && OccursAt(b, pattern, i - |a| - 1))
  {
    var s := a + [sep] + b;
    assert s[i..i + |pattern|] == pattern && s[|a|] == sep;
    if i <= |a| < i + |pattern| {
      CoveredIsIn(s, pattern, i, |a|);
    } else if i > |a| {
      assert b[i - |a| - 1..i - |a| - 1 + |pattern|] == pattern;
    } else {
      assert a[i..i + |pattern|] == pattern;
    }
  }

  lemma {:induction false} DigitsHold(digits: string, pattern: string, i: nat)
    requires AllDigits(digits) && pattern != "" && !IsDigit(pattern[0])
    ensures !OccursAt(digits, pattern, i)
  {
  }

  lemma {:induction false} PrefixIsNotTraceable(i: nat)
    ensures !OccursAt("ptp=IEEE1588-2008", "traceable", i)
  {
    var head := "ptp=IEEE1588-2008";
    assert 'r' !in head && "traceable"[1] == 'r';
    if i + 9 <= |head| { assert head[i..i + 9][1] == head[i + 1]; }
  }

  lemma {:induction false} NotTraceable(mac: string, digits: string, i: nat)
    requires ClockName(mac) && AllDigits(digits)
    ensures !OccursAt("ptp=IEEE1588-2008" + [':'] + (mac + [':'] + digits), "traceable", i)
  {
    hide OccursAt;
    var head, rest := "ptp=IEEE1588-2008", mac + [':'] + digits;
    PrefixIsNotTraceable(i);
    if OccursAt(head + [':'] + rest, "traceable", i) {
      OccursBeside(head, ':', rest, "traceable", i);
      var j := i - |head| - 1;
      assert !OccursAt(mac, "traceable", j);
      OccursBeside(mac, ':', digits, "traceable", j);
      DigitsHold(digits, "traceable", j - |mac| - 1);
    }
  }

  lemma {:induction false} NoDomainMark(mac: string, digits: string, i: nat)
    requires ClockName(mac) && AllDigits(digits) && digits != ""
    ensures !OccursAt(mac + [':'] + digits, DOMAIN_MARK, i)
  {
    var rest := mac + [':'] + digits;
    assert !OccursAt(mac, DOMAIN_MARK, i);
    assert ':' !in DOMAIN_MARK[1..];
    if i < |mac| && i + |DOMAIN_MARK| <= |rest| {
      var found := rest[i..i + |DOMAIN_MARK|];
      if i + |DOMAIN_MARK| <= |mac| {
        assert mac[i..i + |DOMAIN_MARK|] == found;
      } else {
        assert found[1..][|mac| - i - 1] == ':';
      }
    } else if i + |DOMAIN_MARK| <= |rest| {
      assert rest[i..i + |DOMAIN_MARK|][1] == rest[i + 1] == digits[i - |mac|];
    }
  }

  lemma {:induction false} ClockNameReads(mac: string, domain: I32, t: SdpSession)
    requires ClockName(mac) && domain >= 0
    ensures ParseClockName(mac + [':'] + Print(domain), t) == t.(ptpMasterMac := mac, ptpDomain := domain)
  {
    hide Print, Stoi, FindText, FindLast, ClockName, OccursAt;
    var digits := Print(domain);
    var rest := mac + [':'] + digits;
    forall i: nat
      ensures !OccursAt(rest, DOMAIN_MARK, i)
    {
      NoDomainMark(mac, digits, i);
    }
    PrintIsToken(domain);
    FindLastAt(mac, ':', digits);
    assert rest[|mac| + 1..] == digits && rest[..|mac|] == mac;
    PrintReadsBack(domain);
  }

  lemma {:induction false} RefClockReads(s: SdpSession, t: SdpSession)
    requires NamesClock(s) && ClockName(s.ptpMasterMac)
    ensures ParseRefClock(RefClockValue(s), t) == t.(ptpMasterMac := s.ptpMasterMac, ptpDomain := s.ptpDomain)
  {
    hide Print, FindText, ClockName, DropBlanks, OccursAt, ParseClockName;
    var mac, digits := s.ptpMasterMac, Print(s.ptpDomain);
    var rest := mac + [':'] + digits;
    var value := RefClockValue(s);
    assert value == "ptp=IEEE1588-2008" + [':'] + rest && value == REFCLK_PREFIX + rest;
    forall i: nat
      ensures !OccursAt(value, "traceable", i)
    {
      NotTraceable(mac, digits, i);
    }
    PrefixOccurs(REFCLK_PREFIX, rest);
    assert value[|REFCLK_PREFIX|..] == rest && rest[|rest| - 1] == digits[|digits| - 1];
    ClockNameReads(mac, s.ptpDomain, t);
  }

  lemma {:induction false} PrefixOccurs(prefix: string, rest: string)
    ensures FindText(prefix + rest, prefix) == Some(0)
  {
  }

  /** The traceable form pins no grandmaster and no domain. */
  lemma {:induction false} TraceableReads(s: SdpSession, t: SdpSession)
    requires s.ptpTraceable
    ensures ParseRefClock(RefClockValue(s), t) == t.(ptpTraceable := true, ptpMasterMac := "")
  {
    assert OccursAt("ptp=IEEE1588-2008:traceable", "traceable", 18);
  }

  // ---- attributes kept as they came ------------------------------------------------------------

  lemma {:induction false} CustomReads(key: string, value: string, t: SdpSession)
    requires CustomOk(key, value)
    ensures ParseLine(CustomLine(key, value), t) == Some(t.(customAttributes := t.customAttributes[key := value]))
  {
    hide ParseLine;
    if value == "" { FlagReads(key, t); } else { AttributeReads(key, value, t); }
  }

  ghost function Entries(keys: seq<string>, attributes: map<string, string>): map<string, string>
    requires forall k :: k in keys ==> k in attributes
  {
    map k | k in keys :: attributes[k]
  }

  lemma {:induction false} NoEntries(attributes: map<string, string>, before: map<string, string>)
    ensures before + Entries([], attributes) == before
  {
  }

  lemma {:induction false} EntriesStep(keys: seq<string>, attributes: map<string, string>, before: map<string, string>)
    requires keys != [] && forall k :: k in keys ==> k in attributes
    ensures before[keys[0] := attributes[keys[0]]] + Entries(keys[1..], attributes) ==
      before + Entries(keys, attributes)
  {
  }

  lemma {:induction false} CustomLinesRead(keys: seq<string>, attributes: map<string, string>, t: SdpSession)
    requires forall k :: k in keys ==> k in attributes && CustomOk(k, attributes[k])
    requires forall i, j :: 0 <= i < j < |keys| ==> keys[i] != keys[j]
    ensures ParseLines(CustomLines(keys, attributes), t)
         == Some(t.(customAttributes := t.customAttributes + Entries(keys, attributes)))
    decreases |keys|
  {
    hide ParseLine, CustomLine, CustomOk, Entries;
    if keys == [] {
      NoEntries(attributes, t.customAttributes);
    } else {
      var k := keys[0];
      CustomReads(k, attributes[k], t);
      var next := t.(customAttributes := t.customAttributes[k := attributes[k]]);
      CustomLinesRead(keys[1..], attributes, next);
      assert CustomLines(keys, attributes)[1..] == CustomLines(keys[1..], attributes);
      EntriesStep(keys, attributes, t.customAttributes);
    }
  }

  // ---- the whole description -------------------------------------------------------------------

  lemma {:induction false} ParseLinesConcat(a: seq<string>, b: seq<string>, t: SdpSession)
    ensures ParseLines(a + b, t) == match ParseLines(a, t) case None => None case Some(u) => ParseLines(b, u)
    decreases |a|
  {
    hide ParseLine;
    if a == [] {
      assert a + b == b;
    } else {
      assert (a + b)[1..] == a[1..] + b;
      var next := ParseLine(a[0], t);
      if next.Some? { ParseLinesConcat(a[1..], b, next.value); }
    }
  }

  lemma {:induction false} Step(lines: seq<string>, k: nat, t: SdpSession, u: SdpSession)
    requires k < |lines| && ParseLine(lines[k], t) == Some(u)
    ensures ParseLines(lines[k..], t) == ParseLines(lines[k + 1..], u)
  {
  }

  lemma {:induction false} Done(lines: seq<string>, k: nat, t: SdpSession)
    requires k == |lines|
    ensures ParseLines(lines[k..], t) == Some(t) && lines[0..] == lines
  {
  }

  lemma {:induction false} WhenReads(present: bool, line: string, t: SdpSession, u: SdpSession)
    requires present ==> ParseLine(line, t) == Some(u)
    ensures ParseLines(When(present, line), t) == Some(if present then u else t)
  {
  }

  function Named(s: SdpSession, now: U64): SdpSession {
    WithOrigin(BlankSession, s, now).(sessionName := s.sessionName)
  }

  lemma {:induction false} NamesRead(s: SdpSession, now: U64)
    requires OriginOk(s) && Token(s.originAddress) && NamesOk(s)
    ensures ParseLines(["v=0", Record('o', OriginValue(s, now)), Record('s', s.sessionName)], BlankSession) ==
      Some(Named(s, now))
  {
    hide ParseLine, OriginValue, ParseOriginLine, Trim;
    var lines := ["v=0", Record('o', OriginValue(s, now)), Record('s', s.sessionName)];
    RecordReads('v', "0", BlankSession);
    assert "v=0" == Record('v', "0");
    TrimKeepsTrimmed("0");
    Step(lines, 0, BlankSession, BlankSession);
    var t := WithOrigin(BlankSession, s, now);
    OriginReads(s, now, BlankSession);
    RecordReads('o', OriginValue(s, now), BlankSession);
    Step(lines, 1, BlankSession, t);
    RecordReads('s', s.sessionName, t);
    TrimKeepsTrimmed(s.sessionName);
    Step(lines, 2, t, Named(s, now));
    Done(lines, 3, Named(s, now));
  }

  lemma {:induction false} NoOriginRefused(s: SdpSession, now: U64, rest: seq<string>)
    requires OriginOk(s) && s.originAddress == ""
    ensures ParseLines(["v=0", Record('o', OriginValue(s, now)), Record('s', s.sessionName)] + rest, BlankSession) ==
      None
  {
    hide ParseLine, OriginValue, ParseOriginLine, Trim;
    var lines := ["v=0", Record('o', OriginValue(s, now)), Record('s', s.sessionName)] + rest;
    RecordReads('v', "0", BlankSession);
    assert "v=0" == Record('v', "0");
    TrimKeepsTrimmed("0");
    Step(lines, 0, BlankSession, BlankSession);
    OriginReads(s, now, BlankSession);
    RecordReads('o', OriginValue(s, now), BlankSession);
    assert lines[0..] == lines && lines[1..][0] == lines[1];
  }

  function Placed(t: SdpSession, s: SdpSession): SdpSession {
    WithMedia(WithConnection(t, s).(timeStart := s.timeStart, timeStop := s.timeStop), s)
  }

  lemma {:induction false} PlacesRead(s: SdpSession, t: SdpSession)
    requires ConnectionOk(s) && MediaOk(s)
    ensures ParseLines([Record('c', ConnectionValue(s)), Record('t', TimingValue(s)), Record('m', MediaValue(s)),
                        Record('c', ConnectionValue(s))], t) == Some(Placed(t, s))
  {
    hide ParseLine, ConnectionValue, TimingValue, MediaValue, ParseConnectionLine, ParseTimingLine, ParseMediaLine;
    var lines := [Record('c', ConnectionValue(s)), Record('t', TimingValue(s)), Record('m', MediaValue(s)),
                  Record('c', ConnectionValue(s))];
    var t1 := WithConnection(t, s);
    ConnectionReads(s, t);
    RecordReads('c', ConnectionValue(s), t);
    Step(lines, 0, t, t1);
    var t2 := t1.(timeStart := s.timeStart, timeStop := s.timeStop);
    TimingReads(s, t1);
    RecordReads('t', TimingValue(s), t1);
    Step(lines, 1, t1, t2);
    var t3 := WithMedia(t2, s);
    MediaReads(s, t2);
    RecordReads('m', MediaValue(s), t2);
    Step(lines, 2, t2, t3);
    ConnectionReads(s, t3);
    RecordReads('c', ConnectionValue(s), t3);
    Step(lines, 3, t3, t3);
    Done(lines, 4, t3);
  }

  function AfterSession(s: SdpSession, now: U64): SdpSession { Placed(Named(s, now).(sessionInfo := s.sessionInfo), s) }

  lemma {:induction false} SessionLinesRead(s: SdpSession, now: U64)
    requires OriginOk(s) && Token(s.originAddress) && NamesOk(s) && ConnectionOk(s) && MediaOk(s)
    ensures ParseLines(SessionLines(s, now), BlankSession) == Some(AfterSession(s, now))
  {
    hide ParseLines, ParseLine, ParseRecord, Placed;
    var names := ["v=0", Record('o', OriginValue(s, now)), Record('s', s.sessionName)];
    var info := When(s.sessionInfo != "", Record('i', s.sessionInfo));
    var places := [Record('c', ConnectionValue(s)), Record('t', TimingValue(s)), Record('m', MediaValue(s)),
                   Record('c', ConnectionValue(s))];
    var t := Named(s, now);
    NamesRead(s, now);
    InfoReads(s, t);
    PlacesRead(s, t.(sessionInfo := s.sessionInfo));
    ParseLinesConcat(names, info, BlankSession);
    ParseLinesConcat(names + info, places, BlankSession);
  }

  lemma {:induction false} InfoReads(s: SdpSession, t: SdpSession)
    requires NamesOk(s) && t.sessionInfo == ""
    ensures ParseLines(When(s.sessionInfo != "", Record('i', s.sessionInfo)), t) ==
      Some(t.(sessionInfo := s.sessionInfo))
  {
  }

  function AfterFormat(t: SdpSession, s: SdpSession): SdpSession {
    WithFormat(t, s).(ptimeUs := s.ptimeUs, framecount := s.framecount, direction := s.direction,
      sourceAddress := s.sourceAddress)
  }

  lemma {:induction false} FormatReads(s: SdpSession, t: SdpSession)
    requires s.IsValid() && MediaOk(s) && t.payloadType == s.payloadType
    ensures ParseLines([Record('a', KeyValue("rtpmap", RtpMapValue(s))),
      Record('a', KeyValue("ptime", PacketTime.Format(s.ptimeUs)))], t)
         == Some(WithFormat(t, s).(ptimeUs := s.ptimeUs))
  {
    hide ParseLine, ParseLines, Print, RtpMapValue, ParseRtpMap, ParsePTime;
    var format := [Record('a', KeyValue("rtpmap", RtpMapValue(s))),
      Record('a', KeyValue("ptime", PacketTime.Format(s.ptimeUs)))];
    var t1 := WithFormat(t, s);
    RtpMapReads(s, t);
    AttributeReads("rtpmap", RtpMapValue(s), t);
    Step(format, 0, t, t1);
    PTimeReads(s, t1);
    AttributeReads("ptime", PacketTime.Format(s.ptimeUs), t1);
    Step(format, 1, t1, t1.(ptimeUs := s.ptimeUs));
    Done(format, 2, t1.(ptimeUs := s.ptimeUs));
  }

  lemma {:induction false} FrameCountLineReads(s: SdpSession, t: SdpSession)
    requires t.framecount == 0
    ensures ParseLines(When(s.framecount > 0, Record('a', KeyValue("framecount", Print(s.framecount)))), t)
         == Some(t.(framecount := s.framecount))
  {
    hide ParseLine, ParseLines, Print, ParseFrameCount;
    FrameCountReads(s, t);
    AttributeReads("framecount", Print(s.framecount), t);
    WhenReads(s.framecount > 0, Record('a', KeyValue("framecount", Print(s.framecount))), t,
      t.(framecount := s.framecount));
  }

  lemma {:induction false} DirectionReads(s: SdpSession, t: SdpSession)
    requires IsDirection(s.direction)
    ensures ParseLines([Record('a', s.direction)], t) == Some(t.(direction := s.direction))
  {
    hide ParseLine, ParseLines;
    FlagReads(s.direction, t);
    Step([Record('a', s.direction)], 0, t, t.(direction := s.direction));
    Done([Record('a', s.direction)], 1, t.(direction := s.direction));
  }

  lemma {:induction false} SourceFilterLineReads(s: SdpSession, t: SdpSession)
    requires ConnectionOk(s) && MediaOk(s) && t.sourceAddress == ""
    ensures ParseLines(When(s.sourceAddress != "", Record('a', KeyValue("source-filter", SourceFilterValue(s)))), t)
         == Some(t.(sourceAddress := s.sourceAddress))
  {
    hide ParseLine, ParseLines, SourceFilterValue, ParseSourceFilter;
    if s.sourceAddress != "" { SourceFilterReads(s, t); }
    AttributeReads("source-filter", SourceFilterValue(s), t);
    WhenReads(s.sourceAddress != "", Record('a', KeyValue("source-filter", SourceFilterValue(s))), t,
      t.(sourceAddress := s.sourceAddress));
  }

  lemma {:induction false} FormatLinesRead(s: SdpSession, t: SdpSession)
    requires s.IsValid() && ConnectionOk(s) && MediaOk(s)
    requires t.payloadType == s.payloadType && t.framecount == 0 && t.sourceAddress == ""
    ensures ParseLines(FormatLines(s), t) == Some(AfterFormat(t, s))
  {
    hide ParseLine, ParseLines, Print, RtpMapValue, SourceFilterValue, Record, When;
    var format := [Record('a', KeyValue("rtpmap", RtpMapValue(s))),
      Record('a', KeyValue("ptime", PacketTime.Format(s.ptimeUs)))];
    var frames := When(s.framecount > 0, Record('a', KeyValue("framecount", Print(s.framecount))));
    var direction := [Record('a', s.direction)];
    var filter := When(s.sourceAddress != "", Record('a', KeyValue("source-filter", SourceFilterValue(s))));
    var t1 := WithFormat(t, s).(ptimeUs := s.ptimeUs);
    var t2 := t1.(framecount := s.framecount);
    var t3 := t2.(direction := s.direction);
    FormatReads(s, t);
    FrameCountLineReads(s, t1);
    DirectionReads(s, t2);
    SourceFilterLineReads(s, t3);
    ParseLinesConcat(format, frames, t);
    ParseLinesConcat(format + frames, direction, t);
    ParseLinesConcat(format + frames + direction, filter, t);
  }

  function WithClock(t: SdpSession, s: SdpSession): SdpSession {
    t.(ptpTraceable := s.ptpTraceable, ptpMasterMac := if NamesClock(s) then s.ptpMasterMac else "",
       ptpDomain := if NamesClock(s) then s.ptpDomain else 0)
  }

  function WithDomain(t: SdpSession, s: SdpSession): SdpSession {
    t.(customAttributes := if StatesDomain(s) then map[CLOCK_DOMAIN := ClockDomainValue(s.ptpDomain)] else map[])
  }

  function AfterClock(t: SdpSession, s: SdpSession): SdpSession {
    WithDomain(WithClock(t, s), s).(mediaClockType := if s.mediaClockType == "" then "direct=0" else s.mediaClockType)
  }

  ghost predicate NoClockYet(t: SdpSession) {
    t.ptpDomain == 0 && t.ptpMasterMac == "" && !t.ptpTraceable && t.mediaClockType == "direct=0"
      && t.customAttributes == map[]
  }

  lemma {:induction false} RefClockLineReads(s: SdpSession, t: SdpSession)
    requires ClocksOk(s) && NoClockYet(t)
    ensures ParseLines(When(s.ptpTraceable || NamesClock(s), Record('a', KeyValue("ts-refclk", RefClockValue(s)))), t)
         == Some(WithClock(t, s))
  {
    hide ParseLine, ParseLines, RefClockValue, ParseRefClock;
    AttributeReads("ts-refclk", RefClockValue(s), t);
    if NamesClock(s) {
      RefClockReads(s, t);
    } else if s.ptpTraceable {
      TraceableReads(s, t);
    }
    WhenReads(s.ptpTraceable || NamesClock(s), Record('a', KeyValue("ts-refclk", RefClockValue(s))), t,
      WithClock(t, s));
  }

  lemma {:induction false} ClockLinesRead(s: SdpSession, t: SdpSession)
    requires ClocksOk(s) && NoClockYet(t)
    ensures ParseLines(ClockLines(s), t) == Some(AfterClock(t, s))
  {
    hide ParseLine, ParseLines, RefClockValue, ClockDomainValue, ClocksOk;
    var refclk := When(s.ptpTraceable || NamesClock(s), Record('a', KeyValue("ts-refclk", RefClockValue(s))));
    RefClockLineReads(s, t);
    var t1 := WithClock(t, s);

    var domain := Record('a', KeyValue(CLOCK_DOMAIN, ClockDomainValue(s.ptpDomain)));
    var t2 := WithDomain(t1, s);
    AttributeReads(CLOCK_DOMAIN, ClockDomainValue(s.ptpDomain), t1);
    assert StatesDomain(s) ==>
      t1.customAttributes[CLOCK_DOMAIN := ClockDomainValue(s.ptpDomain)] == t2.customAttributes;
    WhenReads(StatesDomain(s), domain, t1, t2);
    ParseLinesConcat(refclk, When(StatesDomain(s), domain), t);

    var media := Record('a', KeyValue("mediaclk", s.mediaClockType));
    AttributeReads("mediaclk", s.mediaClockType, t2);
    WhenReads(s.mediaClockType != "", media, t2, t2.(mediaClockType := s.mediaClockType));
    ParseLinesConcat(refclk + When(StatesDomain(s), domain), When(s.mediaClockType != "", media), t);
  }

  // ---- every line is one line ------------------------------------------------------------------

  predicate OneLines(lines: seq<string>) { forall i :: 0 <= i < |lines| ==> OneLine(lines[i]) }

  lemma {:induction false} RecordIsOneLine(kind: char, value: string)
    requires kind != '\n' && OneLine(value)
    ensures OneLine(Record(kind, value))
  {
  }

  lemma {:induction false} AttributeIsOneLine(key: string, value: string)
    requires OneLine(key) && OneLine(value)
    ensures OneLine(Record('a', KeyValue(key, value)))
  {
  }

  lemma {:induction false} SessionIsOneLines(s: SdpSession, now: U64)
    requires OriginOk(s) && OneLine(s.originAddress) && NamesOk(s) && ConnectionOk(s) && MediaOk(s)
    ensures OneLines(SessionLines(s, now))
  {
    hide Print, Joined;
    var id := SessionIdOf(s, now);
    PrintIsToken(id);
    PrintIsToken(s.sessionVersion);
    JoinedAvoids([s.originUsername, Print(id), Print(s.sessionVersion), s.originNetworkType, s.originAddressType,
                  s.originAddress], ' ', '\n');
    PrintIsToken(s.ttl);
    var address := if s.ttl != 0 then s.connectionAddress + ['/'] + Print(s.ttl) else s.connectionAddress;
    JoinedAvoids([s.connectionType, s.connectionNetwork, address], ' ', '\n');
    PrintIsToken(s.timeStart);
    PrintIsToken(s.timeStop);
    JoinedAvoids([Print(s.timeStart), Print(s.timeStop)], ' ', '\n');
    PrintIsToken(s.port);
    PrintIsToken(s.payloadType);
    JoinedAvoids([s.mediaType, Print(s.port), s.transport, Print(s.payloadType)], ' ', '\n');
    RecordIsOneLine('o', OriginValue(s, now));
    RecordIsOneLine('s', s.sessionName);
    RecordIsOneLine('i', s.sessionInfo);
    RecordIsOneLine('c', ConnectionValue(s));
    RecordIsOneLine('t', TimingValue(s));
    RecordIsOneLine('m', MediaValue(s));
  }

  lemma {:induction false} RtpMapIsOneLine(s: SdpSession)
    requires s.IsValid() && MediaOk(s)
    ensures OneLine(RtpMapValue(s))
  {
    hide Print, Joined;
    PrintIsToken(s.payloadType);
    PrintIsToken(s.sampleRate);
    PrintIsToken(s.numChannels);
    var format := [s.encoding, Print(s.sampleRate), Print(s.numChannels)];
    JoinedAvoids(format, '/', '\n');
    JoinedAvoids([Print(s.payloadType), Joined(format, '/')], ' ', '\n');
  }

  lemma {:induction false} SourceFilterIsOneLine(s: SdpSession)
    requires ConnectionOk(s) && MediaOk(s) && s.sourceAddress != ""
    ensures OneLine(SourceFilterValue(s))
  {
    hide Joined;
    JoinedAvoids(["incl", "IN", "IP4", s.connectionAddress, s.sourceAddress], ' ', '\n');
  }

  lemma {:induction false} FormatIsOneLines(s: SdpSession)
    requires s.IsValid() && ConnectionOk(s) && MediaOk(s)
    ensures OneLines(FormatLines(s))
  {
    hide Print, PacketTime.Format, RtpMapValue, SourceFilterValue, Record, KeyValue;
    RtpMapIsOneLine(s);
    AttributeIsOneLine("rtpmap", RtpMapValue(s));
    PTimeIsOneLine(s.ptimeUs);
    AttributeIsOneLine("ptime", PacketTime.Format(s.ptimeUs));
    PrintIsToken(s.framecount);
    AttributeIsOneLine("framecount", Print(s.framecount));
    RecordIsOneLine('a', s.direction);
    if s.sourceAddress != "" {
      SourceFilterIsOneLine(s);
      AttributeIsOneLine("source-filter", SourceFilterValue(s));
    }
  }

  lemma {:induction false} PTimeIsOneLine(us: nat)
    ensures OneLine(PacketTime.Format(us))
  {
    hide Print, PacketTime.Format;
    var q, a, b, c := PacketTime.FormatForms(us);
    PrintIsToken(q);
  }

  lemma {:induction false} ClockIsOneLines(s: SdpSession)
    requires ClocksOk(s)
    ensures OneLines(ClockLines(s))
  {
    hide Print;
    if s.ptpDomain >= 0 { PrintIsToken(s.ptpDomain); }
    AttributeIsOneLine(CLOCK_DOMAIN, if s.ptpDomain >= 0 then ClockDomainValue(s.ptpDomain) else "");
    AttributeIsOneLine("mediaclk", s.mediaClockType);
    if s.ptpTraceable || NamesClock(s) { AttributeIsOneLine("ts-refclk", RefClockValue(s)); }
  }

  lemma {:induction false} CustomsAreOneLines(keys: seq<string>, attributes: map<string, string>)
    requires forall k :: k in keys ==> k in attributes && CustomOk(k, attributes[k])
    ensures OneLines(CustomLines(keys, attributes))
    decreases |keys|
  {
    if keys != [] { CustomsAreOneLines(keys[1..], attributes); }
  }

  // ---- the theorems ----------------------------------------------------------------------------

  lemma {:induction false} LinesAreOneLines(s: SdpSession, now: U64)
    requires WellFormedBut(s) && OneLine(s.originAddress)
    ensures OneLines(Lines(s, now))
  {
    hide SessionLines, FormatLines, ClockLines, CustomLines, OneLine, CustomOk;
    SessionIsOneLines(s, now);
    FormatIsOneLines(s);
    ClockIsOneLines(s);
    CustomsAreOneLines(SortedKeys(s.customAttributes.Keys), s.customAttributes);
  }

  lemma {:induction false} EntriesAreAll(s: SdpSession)
    ensures Entries(SortedKeys(s.customAttributes.Keys), s.customAttributes) == s.customAttributes
  {
  }

  lemma {:induction false} LinesRead(s: SdpSession, now: U64)
    requires WellFormed(s)
    ensures ParseLines(Lines(s, now), BlankSession) == Some(Normal(s, now))
  {
    hide ParseLines, ParseLine, SessionLines, FormatLines, ClockLines, CustomLines, CustomOk, Entries, SortedKeys,
         ClockDomainValue;
    var keys := SortedKeys(s.customAttributes.Keys);
    var t1 := AfterSession(s, now);
    var t2 := AfterFormat(t1, s);
    var t3 := AfterClock(t2, s);
    SessionLinesRead(s, now);
    FormatLinesRead(s, t1);
    ClockLinesRead(s, t2);
    forall i, j | 0 <= i < j < |keys| ensures keys[i] != keys[j] { SortedKeysAscend(s.customAttributes.Keys, i, j); }
    CustomLinesRead(keys, s.customAttributes, t3);
    EntriesAreAll(s);
    ParseLinesConcat(SessionLines(s, now), FormatLines(s), BlankSession);
    ParseLinesConcat(SessionLines(s, now) + FormatLines(s), ClockLines(s), BlankSession);
    ParseLinesConcat(SessionLines(s, now) + FormatLines(s) + ClockLines(s), CustomLines(keys, s.customAttributes),
      BlankSession);
    assert t3.customAttributes + s.customAttributes == Normal(s, now).customAttributes;
    assert t3.(customAttributes := t3.customAttributes + s.customAttributes) == Normal(s, now);
  }

  /** Writing a well-formed session and reading it back gives its normal form. */
  lemma {:induction false} GeneratedParses(s: SdpSession, now: U64)
    requires WellFormed(s)
    ensures Parse(Generate(s, now)) == Some(Normal(s, now))
  {
    hide Lines, ParseLines, Terminated, SplitLines, WellFormedBut;
    LinesAreOneLines(s, now);
    LinesReadBack(Lines(s, now));
    LinesRead(s, now);
    assert Normal(s, now).IsValid() by { NormalIsValid(s, now); }
  }

  lemma {:induction false} NormalIsValid(s: SdpSession, now: U64)
    requires WellFormed(s)
    ensures Normal(s, now).IsValid() && WellFormed(Normal(s, now))
  {
    hide OccursAt, Print, CustomOk;
    var n := Normal(s, now);
    assert OneLine("direct=0");
    if StatesDomain(s) { PrintIsToken(s.ptpDomain); ClockDomainIsCustom(s.ptpDomain); }
    forall k | k in n.customAttributes
      ensures CustomOk(k, n.customAttributes[k])
    {
    }
  }

  lemma {:induction false} ClockDomainIsCustom(domain: I32)
    requires domain >= 0
    ensures CustomOk(CLOCK_DOMAIN, ClockDomainValue(domain))
  {
  }

  /** A session is read back exactly as it was iff nothing about it is outside what a description says. */
  lemma {:induction false} ReadBackUnchangedIff(s: SdpSession, now: U64)
    requires WellFormed(s)
    ensures Parse(Generate(s, now)) == Some(s) <==>
      && SessionIdOf(s, now) == s.sessionId && s.ttl != 0 && s.mediaClockType != "" && s.dscp == -1
      && (NamesClock(s) || (s.ptpDomain == 0 && s.ptpMasterMac == "")) && !StatesDomain(s)
  {
    hide Parse, Generate, WellFormed, ClockDomainValue;
    GeneratedParses(s, now);
    assert StatesDomain(s) ==> CLOCK_DOMAIN in Normal(s, now).customAttributes;
  }

  /**
    One trip reaches the fixed point iff the session had a clock domain to state or already stated
    one: a session marked as having no PTP comes back on domain 0 and says so the next time.
   */
  lemma {:induction false} NormalFormIsFixedIff(s: SdpSession, now: U64, later: U64)
    requires WellFormed(s)
    ensures Parse(Generate(Normal(s, now), later)) == Some(Normal(s, now)) <==>
      && (SessionIdOf(s, now) != 0 || later == 0)
      && (s.ptpDomain >= 0 || CLOCK_DOMAIN in s.customAttributes)
  {
    hide Parse, Generate, WellFormed, ClockDomainValue;
    NormalIsValid(s, now);
    ReadBackUnchangedIff(Normal(s, now), later);
    assert StatesDomain(s) ==> CLOCK_DOMAIN in Normal(s, now).customAttributes;
  }

  /** A second trip always settles. */
  lemma {:induction false} TwoTripsSettle(s: SdpSession, now: U64, later: U64, last: U64)
    requires WellFormed(s) && SessionIdOf(s, now) != 0
    ensures var n := Normal(Normal(s, now), later);
      Parse(Generate(n, last)) == Some(n)
  {
    hide Parse, Generate, WellFormed, ClockDomainValue;
    NormalIsValid(s, now);
    NormalFormIsFixedIff(Normal(s, now), later, last);
  }

  /** A description that names no originating address is refused by the reader, whatever else it says. */
  lemma {:induction false} NoOriginNoSession(s: SdpSession, now: U64)
    requires WellFormedBut(s) && s.originAddress == ""
    ensures Parse(Generate(s, now)) == None
  {
    hide ParseLines, Terminated, SplitLines, FormatLines, ClockLines, CustomLines, ConnectionValue, OriginValue, Record;
    LinesAreOneLines(s, now);
    LinesReadBack(Lines(s, now));
    var names := ["v=0", Record('o', OriginValue(s, now)), Record('s', s.sessionName)];
    var rest := Lines(s, now)[3..];
    assert Lines(s, now) == names + rest;
    NoOriginRefused(s, now, rest);
  }

  /** The session of a transmit stream is one a follower can read as soon as the announcer has filled in the origin. */
  lemma {:induction false} AnnouncedTransmitReads(
      name: string, address: string, port: U16, numChannels: U16, rate: real, dscp: I32, time: U64, origin: string,
      now: U64)
    requires name != "" && OneLine(name) && Trimmed(name) && Token(address) && '/' !in address && Token(origin)
    requires port != 0 && numChannels != 0 && 1 <= rate.Floor < ManagerModel.U32_MOD
    ensures var s := ManagerModel.TxSession(name, address, port, numChannels, rate, dscp, time);
      && Parse(Generate(s, now)) == None
      && Parse(Generate(s.(originAddress := origin), now)) == Some(Normal(s.(originAddress := origin), now))
  {
    hide Parse, Generate;
    var s := ManagerModel.TxSession(name, address, port, numChannels, rate, dscp, time);
    NoOriginNoSession(s, now);
    GeneratedParses(s.(originAddress := origin), now);
  }
}
