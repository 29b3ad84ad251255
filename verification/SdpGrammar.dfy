/**
  Descriptions other writers send: every line of the grammar the reader takes (section 5 of RFC 4566, the
  clock forms of RFC 7273), spelt out, and what the reader makes of it.
 */
module SdpGrammar {
  import opened StreamTypes
  import opened Decimal
  import opened Text
  import opened SdpParser
  import opened SdpRoundTrip
  import PacketTime

  /** How a grandmaster's domain is said: not at all, as a bare number, or by name. */
  datatype Domain = Unsaid | Bare(n: nat) | Nmbr(n: nat)

  datatype Line =
    | Version(version: nat)
    | Origin(user: string, id: nat, revision: nat, network: string, addressType: string, address: string)
    | Name(text: string)
    | Info(text: string)
    | Connection(network: string, addressType: string, address: string, hops: Option<nat>)
    | Timing(start: nat, stop: nat)
    | Media(kind: string, port: nat, transport: string, format: nat, others: seq<string>)
    | RtpMap(format: nat, encoding: string, rate: nat, channels: Option<nat>)
    | PTime(us: nat)
    | FrameCount(count: nat)
    | SourceFilter(destination: string, sources: seq<string>)
    | Clock(name: string, domain: Domain)
    | Traceable
    | MediaClock(text: string)
    | Direction(word: string)
    | Custom(key: string, value: string)
    | Other(text: string)

  // ---- how a line is spelt ---------------------------------------------------------------------

  function DomainText(domain: Domain): string {
    match domain
    case Unsaid => ""
    case Bare(n) => ":" + Print(n)
    case Nmbr(n) => ":domain-nmbr=" + Print(n)
  }

  function Tail(n: Option<nat>): string { if n.None? then "" else "/" + Print(n.value) }

  function FormatParts(encoding: string, rate: nat, channels: Option<nat>): seq<string> {
    [encoding, Print(rate)] + if channels.None? then [] else [Print(channels.value)]
  }

  function Attribute(key: string, value: string): string { Record('a', KeyValue(key, value)) }

  function Spelt(line: Line): string {
    match line
    case Version(n) => Record('v', Print(n))
    case Origin(user, id, revision, network, addressType, address) =>
      Record('o', Joined([user, Print(id), Print(revision), network, addressType, address], ' '))
    case Name(text) => Record('s', text)
    case Info(text) => Record('i', text)
    case Connection(network, addressType, address, hops) =>
      Record('c', Joined([network, addressType, address + Tail(hops)], ' '))
    case Timing(start, stop) => Record('t', Joined([Print(start), Print(stop)], ' '))
    case Media(kind, port, transport, format, others) =>
      Record('m', Joined([kind, Print(port), transport, Print(format)] + others, ' '))
    case RtpMap(format, encoding, rate, channels) =>
      Attribute("rtpmap", Joined([Print(format), Joined(FormatParts(encoding, rate, channels), '/')], ' '))
    case PTime(us) => Attribute("ptime", PacketTime.Format(us))
    case FrameCount(n) => Attribute("framecount", Print(n))
    case SourceFilter(destination, sources) =>
      Attribute("source-filter", [' '] + Joined(["incl", "IN", "IP4", destination] + sources, ' '))
    case Clock(name, domain) => Attribute("ts-refclk", "ptp=IEEE1588-2008:" + (name + DomainText(domain)))
    case Traceable => Attribute("ts-refclk", "ptp=IEEE1588-2008:traceable")
    case MediaClock(text) => Attribute("mediaclk", text)
    case Direction(word) => Record('a', word)
    case Custom(key, value) => if value == "" then Record('a', key) else Attribute(key, value)
    case Other(text) => text
  }

  function SpeltAll(lines: seq<Line>): seq<string> {
    if lines == [] then [] else [Spelt(lines[0])] + SpeltAll(lines[1..])
  }

  /** No record the reader knows: an empty line, a comment, text without "x=", or another kind of record. */
  predicate Ignored(line: string) { |line| < 2 || line[0] == '#' || line[1] != '=' || line[0] !in "vosictma" }

  predicate Tokens(words: seq<string>) { forall i :: 0 <= i < |words| ==> Token(words[i]) }

  /** A name that ends in a colon and a number is taken for a name with its domain. */
  ghost predicate Numbered(name: string) {
    exists i: nat :: i + 1 < |name| && name[i] == ':' && AllDigits(name[i + 1..])
  }

  predicate BlankEnd(name: string) { name != "" && name[|name| - 1] in " \r\n\t" }

  ghost predicate Grammatical(line: Line) {
    match line
    case Origin(user, _, _, network, addressType, address) =>
      Token(user) && Token(network) && Token(addressType) && Token(address)
    case Name(text) => OneLine(text) && Trimmed(text)
    case Info(text) => OneLine(text) && Trimmed(text)
    case Connection(network, addressType, address, _) =>
      Token(network) && Token(addressType) && Token(address) && '/' !in address
    case Media(kind, _, transport, _, others) => Token(kind) && Token(transport) && Tokens(others)
    case RtpMap(_, encoding, _, _) => Token(encoding) && '/' !in encoding
    case SourceFilter(destination, sources) => Token(destination) && Tokens(sources)
    case Clock(name, domain) => ClockName(name) && (domain.Unsaid? ==> !Numbered(name) && !BlankEnd(name))
    case MediaClock(text) => OneLine(text)
    case Direction(word) => word == "recvonly" || word == "sendonly" || word == "sendrecv" || word == "inactive"
    case Custom(key, value) => CustomOk(key, value)
    case Other(text) => OneLine(text) && Ignored(text)
    case _ => true
  }

  // ---- what a line says ------------------------------------------------------------------------

  const U64_END: nat := 0x1_0000_0000_0000_0000

  /** What a line does to the session read so far; nothing if the description is refused. */
  function Says(line: Line, t: SdpSession): Option<SdpSession> {
    match line
    case Version(n) => if n == 0 then Some(t) else None
    case Origin(user, id, revision, network, addressType, address) =>
      if id >= U64_END || revision >= U64_END then None
      else Some(t.(originUsername := user, sessionId := id, sessionVersion := revision, originNetworkType := network,
                   originAddressType := addressType, originAddress := address))
    case Name(text) => Some(t.(sessionName := text))
    case Info(text) => Some(t.(sessionInfo := text))
    case Connection(network, addressType, address, hops) =>
      Some(t.(connectionType := network, connectionNetwork := addressType, connectionAddress := address,
              ttl := if hops.None? then t.ttl else if hops.value < 0x8000_0000 then hops.value % 256 else 32))
    case Timing(start, stop) =>
      if start >= U64_END || stop >= U64_END then None else Some(t.(timeStart := start, timeStop := stop))
    case Media(kind, port, transport, format, _) =>
      if port > 65535 || format > 127 then None
      else Some(t.(mediaType := kind, port := port, transport := transport, payloadType := format))
    case RtpMap(format, encoding, rate, channels) =>
      if format >= 0x8000_0000 || rate >= U64_END || (channels.Some? && !(1 <= channels.value <= 65535)) then None
      else if format != t.payloadType then Some(t)
      else Some(t.(encoding := encoding, sampleRate := rate % 0x1_0000_0000,
                   numChannels := if channels.None? then t.numChannels else channels.value))
    case PTime(us) => if 1 <= us <= 1_000_000 then Some(t.(ptimeUs := us)) else None
    case FrameCount(n) => if n >= U64_END then None else Some(t.(framecount := n % 0x1_0000_0000))
    case SourceFilter(_, sources) => if sources == [] then None else Some(t.(sourceAddress := sources[0]))
    case Clock(name, domain) =>
      Some(t.(ptpMasterMac := name,
              ptpDomain := if domain.Unsaid? || domain.n >= 0x8000_0000 then t.ptpDomain else domain.n))
    case Traceable => Some(t.(ptpTraceable := true, ptpMasterMac := ""))
    case MediaClock(text) => Some(t.(mediaClockType := text))
    case Direction(word) => Some(t.(direction := word))
    case Custom(key, value) => Some(t.(customAttributes := t.customAttributes[key := value]))
    case Other(_) => Some(t)
  }

  function SayAll(lines: seq<Line>, t: SdpSession): Option<SdpSession> {
    if lines == [] then Some(t)
    else match Says(lines[0], t)
      case None => None
      case Some(u) => SayAll(lines[1..], u)
  }

  // ---- reading one line ------------------------------------------------------------------------

  lemma {:induction false} VersionLine(l: Line, t: SdpSession)
    requires l.Version?
    ensures ParseLine(Spelt(l), t) == Says(l, t)
  {
    hide Print, ParseLine, Trim;
    var n := l.version;
    PrintIsToken(n);
    TrimKeepsTrimmed(Print(n));
    RecordReads('v', Print(n), t);
    ZeroIsZero(n);
  }

  lemma {:induction false} ZeroIsZero(n: nat)
    ensures Print(n) == "0" <==> n == 0
  {
    ValueOfPrint(n);
    ValueOfPrint(0);
  }

  lemma {:induction false} OriginLine(l: Line, t: SdpSession)
    requires l.Origin? && Grammatical(l)
    ensures ParseLine(Spelt(l), t) == Says(l, t)
  {
    hide Print, ParseLine, Joined, ParseOriginLine, Token;
    OriginParts(l, t);
    RecordReads('o', Joined([l.user, Print(l.id), Print(l.revision), l.network, l.addressType, l.address], ' '), t);
  }

  lemma {:induction false} OriginParts(l: Line, t: SdpSession)
    requires l.Origin? && Token(l.user) && Token(l.network) && Token(l.addressType) && Token(l.address)
    ensures var parts := [l.user, Print(l.id), Print(l.revision), l.network, l.addressType, l.address];
      ParseOriginLine(Joined(parts, ' '), t) == Says(l, t)
  {
    hide Print, Stoull, SplitTrimmed, Joined, Token;
    OriginSplits(l);
    PrintReadsBack(l.id);
    PrintReadsBack(l.revision);
  }

  lemma {:induction false} OriginSplits(l: Line)
    requires l.Origin? && Token(l.user) && Token(l.network) && Token(l.addressType) && Token(l.address)
    ensures var parts := [l.user, Print(l.id), Print(l.revision), l.network, l.addressType, l.address];
      SplitTrimmed(Joined(parts, ' '), ' ') == parts
  {
    hide Print, SplitTrimmed, Joined, Token;
    PrintIsToken(l.id);
    PrintIsToken(l.revision);
    TokensSplit([l.user, Print(l.id), Print(l.revision), l.network, l.addressType, l.address]);
  }

  lemma {:induction false} TokensSplit(parts: seq<string>)
    requires parts != [] && Tokens(parts)
    ensures SplitTrimmed(Joined(parts, ' '), ' ') == parts
  {
    hide SplitTrimmed, Joined;
    SplitTokens(parts, ' ');
  }

  lemma {:induction false} NameLines(l: Line, t: SdpSession)
    requires (l.Name? || l.Info?) && Grammatical(l)
    ensures ParseLine(Spelt(l), t) == Says(l, t)
  {
    hide ParseLine, Trim;
    TrimKeepsTrimmed(l.text);
    RecordReads(if l.Name? then 's' else 'i', l.text, t);
  }

  /** An address and the number behind its slash come apart again. */
  lemma {:induction false} TailSplits(address: string, hops: Option<nat>)
    requires Token(address) && '/' !in address
    ensures var word := address + Tail(hops);
      && Token(word) && ' ' !in word && (hops.None? ==> Find(word, '/') == None && word == address)
      && (hops.Some? ==>
          && Find(word, '/') == Some(|address|) && word[..|address|] == address
          && word[|address| + 1..] == Print(hops.value))
  {
    hide Print, Find;
    if hops.None? {
      assert address + Tail(hops) == address;
    } else {
      PrintIsToken(hops.value);
      SplitHead(address, '/', Print(hops.value));
      assert address + Tail(hops) == address + ['/'] + Print(hops.value);
    }
  }

  lemma {:induction false} ConnectionLine(l: Line, t: SdpSession)
    requires l.Connection? && Grammatical(l)
    ensures ParseLine(Spelt(l), t) == Says(l, t)
  {
    hide Print, Stoi, SplitTrimmed, ParseLine, Joined, Find, Token, Tail;
    var parts := [l.network, l.addressType, l.address + Tail(l.hops)];
    TailSplits(l.address, l.hops);
    TokensHaveNoBlank(l.network);
    TokensHaveNoBlank(l.addressType);
    SplitTokens(parts, ' ');
    if l.hops.Some? { PrintReadsBack(l.hops.value); }
    RecordReads('c', Joined(parts, ' '), t);
  }

  lemma {:induction false} TimingLine(l: Line, t: SdpSession)
    requires l.Timing?
    ensures ParseLine(Spelt(l), t) == Says(l, t)
  {
    hide Print, ParseLine, Joined, ParseTimingLine;
    TimingParts(l, t);
    RecordReads('t', Joined([Print(l.start), Print(l.stop)], ' '), t);
  }

  lemma {:induction false} TimingParts(l: Line, t: SdpSession)
    requires l.Timing?
    ensures ParseTimingLine(Joined([Print(l.start), Print(l.stop)], ' '), t) == Says(l, t)
  {
    hide Print, Stoull, SplitTrimmed, Joined, Token;
    PrintIsToken(l.start);
    PrintIsToken(l.stop);
    PrintReadsBack(l.start);
    PrintReadsBack(l.stop);
    TokensSplit([Print(l.start), Print(l.stop)]);
  }

  lemma {:induction false} MediaLine(l: Line, t: SdpSession)
    requires l.Media? && Grammatical(l)
    ensures ParseLine(Spelt(l), t) == Says(l, t)
  {
    hide Print, ParseLine, Joined, ParseMediaLine, Token;
    MediaParts(l, t);
    RecordReads('m', Joined([l.kind, Print(l.port), l.transport, Print(l.format)] + l.others, ' '), t);
  }

  lemma {:induction false} MediaParts(l: Line, t: SdpSession)
    requires l.Media? && Token(l.kind) && Token(l.transport) && Tokens(l.others)
    ensures var parts := [l.kind, Print(l.port), l.transport, Print(l.format)] + l.others;
      ParseMediaLine(Joined(parts, ' '), t) == Says(l, t)
  {
    hide Print, Stoi, SplitTrimmed, Joined, Token;
    PrintIsToken(l.port);
    PrintIsToken(l.format);
    PrintReadsBack(l.port);
    PrintReadsBack(l.format);
    TokensSplit([l.kind, Print(l.port), l.transport, Print(l.format)] + l.others);
  }

  lemma {:induction false} FormatSplits(encoding: string, rate: nat, channels: Option<nat>)
    requires Token(encoding) && '/' !in encoding
    ensures var parts := FormatParts(encoding, rate, channels);
      && SplitTrimmed(Joined(parts, '/'), '/') == parts && Token(Joined(parts, '/')) && ' ' !in Joined(parts, '/')
  {
    hide Print, SplitTrimmed, Joined;
    PrintIsToken(rate);
    if channels.Some? { PrintIsToken(channels.value); }
    var parts := FormatParts(encoding, rate, channels);
    SplitTokens(parts, '/');
    JoinedIsToken(parts, '/');
  }

  lemma {:induction false} RtpMapLine(l: Line, t: SdpSession)
    requires l.RtpMap? && Grammatical(l)
    ensures ParseLine(Spelt(l), t) == Says(l, t)
  {
    hide Print, Stoi, Stoull, Stol, SplitTrimmed, ParseLine, Joined, Token;
    var format := Joined(FormatParts(l.encoding, l.rate, l.channels), '/');
    FormatSplits(l.encoding, l.rate, l.channels);
    PrintIsToken(l.format);
    PrintReadsBack(l.format);
    PrintReadsBack(l.rate);
    if l.channels.Some? { PrintReadsBack(l.channels.value); }
    SplitTokens([Print(l.format), format], ' ');
    var value := Joined([Print(l.format), format], ' ');
    AttributeReads("rtpmap", value, t);
  }

  lemma {:induction false} NumberLines(l: Line, t: SdpSession)
    requires l.PTime? || l.FrameCount?
    ensures ParseLine(Spelt(l), t) == Says(l, t)
  {
    hide Print, Stoull, PacketTime.Format, PacketTime.Parse, ParseLine;
    if l.PTime? {
      PacketTime.PacketTimeReadsBack(l.us);
      AttributeReads("ptime", PacketTime.Format(l.us), t);
    } else {
      PrintReadsBack(l.count);
      AttributeReads("framecount", Print(l.count), t);
    }
  }

  lemma {:induction false} FilterLine(l: Line, t: SdpSession)
    requires l.SourceFilter? && Grammatical(l)
    ensures ParseLine(Spelt(l), t) == Says(l, t)
  {
    hide SplitTrimmed, Trim, Joined, ParseLine;
    var parts := ["incl", "IN", "IP4", l.destination] + l.sources;
    var joined := Joined(parts, ' ');
    SplitTokens(parts, ' ');
    JoinedIsTrimmed(parts, ' ');
    TrimKeepsTrimmed(joined);
    AttributeReads("source-filter", [' '] + joined, t);
  }

  lemma {:induction false} MediaClockLine(text: string, t: SdpSession)
    ensures ParseLine(Spelt(MediaClock(text)), t) == Says(MediaClock(text), t)
  {
    hide ParseLine;
    AttributeReads("mediaclk", text, t);
  }

  lemma {:induction false} DirectionLine(word: string, t: SdpSession)
    requires IsDirection(word)
    ensures ParseLine(Spelt(Direction(word)), t) == Says(Direction(word), t)
  {
    hide ParseLine;
    FlagReads(word, t);
  }

  lemma {:induction false} KeptLine(key: string, value: string, t: SdpSession)
    requires CustomOk(key, value)
    ensures ParseLine(Spelt(Custom(key, value)), t) == Says(Custom(key, value), t)
  {
    hide ParseLine, CustomOk;
    CustomReads(key, value, t);
  }

  lemma {:induction false} OtherLine(text: string, t: SdpSession)
    requires Ignored(text)
    ensures ParseLine(Spelt(Other(text)), t) == Says(Other(text), t)
  {
  }

  // ---- the reference clock ---------------------------------------------------------------------

  const CLOCK := "ptp=IEEE1588-2008"

  lemma {:induction false} NoTrace(tail: string, i: nat)
    requires 't' !in tail
    ensures !OccursAt(tail, "traceable", i)
  {
    assert i + 9 <= |tail| ==> tail[i..i + 9][0] == tail[i];
  }

  /** Neither the name nor what is said of its domain is taken for the traceable form. */
  lemma {:induction false} Untraceable(name: string, tail: string, i: nat)
    requires ClockName(name) && 't' !in tail && (tail == "" || tail[0] == ':')
    ensures !OccursAt(CLOCK + [':'] + (name + tail), "traceable", i)
  {
    hide OccursAt;
    PrefixIsNotTraceable(i);
    assert tail == "" ==> name + tail == name;
    if OccursAt(CLOCK + [':'] + (name + tail), "traceable", i) {
      OccursBeside(CLOCK, ':', name + tail, "traceable", i);
      var j := i - |CLOCK| - 1;
      assert !OccursAt(name, "traceable", j);
      if tail != "" {
        assert name + tail == name + [':'] + tail[1..];
        OccursBeside(name, ':', tail[1..], "traceable", j);
        NoTrace(tail[1..], j - |name| - 1);
      }
    }
  }

  lemma {:induction false} MarkIsFirst(name: string, digits: string)
    requires ClockName(name)
    ensures FindText(name + DOMAIN_MARK + digits, DOMAIN_MARK) == Some(|name|)
  {
    hide FindText;
    var rest := name + DOMAIN_MARK + digits;
    assert |DOMAIN_MARK| == 13 && rest[|name|..|name| + 13] == DOMAIN_MARK;
    assert OccursAt(rest, DOMAIN_MARK, |name|);
    assert ':' !in DOMAIN_MARK[1..] && rest[|name|] == ':';
    forall i: nat | i < |name|
      ensures !OccursAt(rest, DOMAIN_MARK, i)
    {
      assert !OccursAt(name, DOMAIN_MARK, i);
      if i + 13 <= |name| {
        assert rest[i..i + 13] == name[i..i + 13];
      } else if i + 13 <= |rest| {
        assert rest[i..i + 13][1..][|name| - i - 1] == ':';
      }
    }
  }

  lemma {:induction false} NumberedByLast(name: string)
    ensures var colon := FindLast(name, ':');
      Numbered(name) <==> colon.Some? && colon.value + 1 < |name| && AllDigits(name[colon.value + 1..])
  {
    hide FindLast;
    if Numbered(name) {
      var i: nat :| i + 1 < |name| && name[i] == ':' && AllDigits(name[i + 1..]);
      forall k | i < k < |name|
        ensures name[k] != ':'
      {
        assert name[k] == name[i + 1..][k - i - 1];
      }
    }
  }

  /** A name said without a domain is read as it is iff it does not end as a name with one does. */
  lemma {:induction false} NameAlone(name: string, t: SdpSession)
    requires ClockName(name)
    ensures ParseClockName(name, t) == t.(ptpMasterMac := name) <==> !Numbered(name)
  {
    hide OccursAt, Stoi, FindText, FindLast, Numbered, DomainOr;
    NumberedByLast(name);
    assert FindText(name, DOMAIN_MARK) == None;
    var colon := FindLast(name, ':');
    if Numbered(name) {
      assert |ParseClockName(name, t).ptpMasterMac| == colon.value < |name|;
    } else if colon.Some? {
      assert !(name[colon.value + 1..] != "" && AllDigits(name[colon.value + 1..]));
    }
  }

  /** The domain read: the one said, if it is a 32-bit number. */
  function DomainSaid(domain: Domain, before: I32): I32 {
    if domain.Unsaid? || domain.n >= 0x8000_0000 then before else domain.n
  }

  lemma {:induction false} DomainRest(name: string, domain: Domain, t: SdpSession)
    requires ClockName(name) && (domain.Unsaid? ==> !Numbered(name) && !BlankEnd(name))
    ensures ParseClockName(DropBlanks(name + DomainText(domain)), t) ==
      t.(ptpMasterMac := name, ptpDomain := DomainSaid(domain, t.ptpDomain))
  {
    hide Print, Stoi, ParseClockName, ClockName, Numbered, DropBlanks;
    match domain
    case Unsaid =>
      assert name + DomainText(domain) == name;
      NothingToDrop(name);
      NameAlone(name, t);
    case Bare(n) =>
      PrintReadsBack(n);
      BareReads(name, n, t);
      assert name + DomainText(domain) == (name + [':']) + Print(n);
      EndsInDigit(name + [':'], n);
    case Nmbr(n) =>
      PrintReadsBack(n);
      NmbrReads(name, n, t);
      assert name + DomainText(domain) == (name + DOMAIN_MARK) + Print(n);
      EndsInDigit(name + DOMAIN_MARK, n);
  }

  lemma {:induction false} NothingToDrop(name: string)
    requires !BlankEnd(name)
    ensures DropBlanks(name) == name
  {
  }

  lemma {:induction false} EndsInDigit(text: string, n: nat)
    ensures DropBlanks(text + Print(n)) == text + Print(n)
  {
    var s, digits := text + Print(n), Print(n);
    assert s[|s| - 1] == digits[|digits| - 1];
  }

  lemma {:induction false} BareReads(name: string, n: nat, t: SdpSession)
    requires ClockName(name)
    ensures ParseClockName(name + [':'] + Print(n), t) ==
      t.(ptpMasterMac := name, ptpDomain := DomainOr(Print(n), t.ptpDomain))
  {
    hide Print, Stoi, FindText, FindLast, ClockName, OccursAt;
    var digits := Print(n);
    var rest := name + [':'] + digits;
    forall i: nat
      ensures !OccursAt(rest, DOMAIN_MARK, i)
    {
      NoDomainMark(name, digits, i);
    }
    PrintIsToken(n);
    FindLastAt(name, ':', digits);
    assert rest[|name| + 1..] == digits && rest[..|name|] == name;
  }

  lemma {:induction false} NmbrReads(name: string, n: nat, t: SdpSession)
    requires ClockName(name)
    ensures ParseClockName(name + DOMAIN_MARK + Print(n), t) ==
      t.(ptpMasterMac := name, ptpDomain := DomainOr(Print(n), t.ptpDomain))
  {
    hide Print, Stoi, FindText, FindLast, ClockName;
    MarkIsFirst(name, Print(n));
    var rest := name + DOMAIN_MARK + Print(n);
    assert rest[|name| + |DOMAIN_MARK|..] == Print(n) && rest[..|name|] == name;
  }

  lemma {:induction false} TraceableOccurs()
    ensures OccursAt("ptp=IEEE1588-2008:traceable", "traceable", 18)
  {
  }

  lemma {:induction false} ClockLine(l: Line, t: SdpSession)
    requires (l.Clock? || l.Traceable?) && Grammatical(l)
    ensures ParseLine(Spelt(l), t) == Says(l, t)
  {
    hide ParseLine, FindText, ParseClockName, DropBlanks, OccursAt, Print, ClockName;
    if l.Traceable? {
      var value := "ptp=IEEE1588-2008:traceable";
      TraceableOccurs();
      AttributeReads("ts-refclk", value, t);
    } else {
      var rest := l.name + DomainText(l.domain);
      var value := REFCLK_PREFIX + rest;
      assert value == CLOCK + [':'] + rest;
      forall i: nat
        ensures !OccursAt(value, "traceable", i)
      {
        Untraceable(l.name, DomainText(l.domain), i);
      }
      PrefixOccurs(REFCLK_PREFIX, rest);
      assert value[|REFCLK_PREFIX|..] == rest;
      DomainRest(l.name, l.domain, t);
      AttributeReads("ts-refclk", value, t);
    }
  }

  // ---- reading a description -------------------------------------------------------------------

  /** Every line of the grammar is read as what it says. */
  lemma {:induction false} LineReads(l: Line, t: SdpSession)
    requires Grammatical(l)
    ensures ParseLine(Spelt(l), t) == Says(l, t)
  {
    hide ParseLine, Spelt, Says;
    match l
    case Version(_) => VersionLine(l, t);
    case Origin(_, _, _, _, _, _) => OriginLine(l, t);
    case Name(_) => NameLines(l, t);
    case Info(_) => NameLines(l, t);
    case Connection(_, _, _, _) => ConnectionLine(l, t);
    case Timing(_, _) => TimingLine(l, t);
    case Media(_, _, _, _, _) => MediaLine(l, t);
    case RtpMap(_, _, _, _) => RtpMapLine(l, t);
    case PTime(_) => NumberLines(l, t);
    case FrameCount(_) => NumberLines(l, t);
    case SourceFilter(_, _) => FilterLine(l, t);
    case Clock(_, _) => ClockLine(l, t);
    case Traceable => ClockLine(l, t);
    case MediaClock(text) => MediaClockLine(text, t);
    case Direction(word) => DirectionLine(word, t);
    case Custom(key, value) => KeptLine(key, value, t);
    case Other(text) => OtherLine(text, t);
  }

  ghost predicate AllGrammatical(lines: seq<Line>) { forall i :: 0 <= i < |lines| ==> Grammatical(lines[i]) }

  lemma {:induction false} LinesSay(lines: seq<Line>, t: SdpSession)
    requires AllGrammatical(lines)
    ensures ParseLines(SpeltAll(lines), t) == SayAll(lines, t)
    decreases |lines|
  {
    hide Grammatical, ParseLine, Spelt, Says;
    if lines == [] {
    } else {
      LineReads(lines[0], t);
      var next := Says(lines[0], t);
      assert SpeltAll(lines)[1..] == SpeltAll(lines[1..]);
      if next.Some? { LinesSay(lines[1..], next.value); }
    }
  }

  lemma {:induction false} TokensAreOneLine(kind: char, words: seq<string>)
    requires Tokens(words) && kind != '\n'
    ensures OneLine(Record(kind, Joined(words, ' ')))
  {
    JoinedAvoids(words, ' ', '\n');
    RecordIsOneLine(kind, Joined(words, ' '));
  }

  lemma {:induction false} RecordsAreOneLine(l: Line)
    requires Grammatical(l) && (l.Origin? || l.Connection? || l.Timing? || l.Media?)
    ensures OneLine(Spelt(l))
  {
    hide Print, Joined, Record, Token, Tail, OneLine;
    forall n: nat ensures Token(Print(n)) { PrintIsToken(n); }
    match l
    case Origin(user, id, revision, network, addressType, address) =>
      TokensAreOneLine('o', [user, Print(id), Print(revision), network, addressType, address]);
    case Connection(network, addressType, address, hops) =>
      TailSplits(address, hops);
      TokensAreOneLine('c', [network, addressType, address + Tail(hops)]);
    case Timing(start, stop) => TokensAreOneLine('t', [Print(start), Print(stop)]);
    case Media(kind, port, transport, format, others) =>
      TokensAreOneLine('m', [kind, Print(port), transport, Print(format)] + others);
  }

  lemma {:induction false} ListsAreOneLine(l: Line)
    requires Grammatical(l) && (l.RtpMap? || l.SourceFilter?)
    ensures OneLine(Spelt(l))
  {
    hide Print, Joined, Record, KeyValue, Token;
    if l.RtpMap? {
      var parts := [Print(l.format), Joined(FormatParts(l.encoding, l.rate, l.channels), '/')];
      FormatSplits(l.encoding, l.rate, l.channels);
      PrintIsToken(l.format);
      TokensAvoid(parts);
      AttributeIsOneLine("rtpmap", Joined(parts, ' '));
    } else {
      var parts := ["incl", "IN", "IP4", l.destination] + l.sources;
      WordsAreTokens();
      TokensAvoid(parts);
      AttributeIsOneLine("source-filter", [' '] + Joined(parts, ' '));
    }
  }

  lemma {:induction false} TokensAvoid(words: seq<string>)
    requires Tokens(words)
    ensures OneLine(Joined(words, ' '))
  {
    JoinedAvoids(words, ' ', '\n');
  }

  lemma {:induction false} ValuesAreOneLine(l: Line)
    requires Grammatical(l) && (l.PTime? || l.FrameCount? || l.Clock? || l.Traceable? || l.MediaClock?)
    ensures OneLine(Spelt(l))
  {
    hide Print, PacketTime.Format, Record, KeyValue, ClockName, Numbered;
    match l
    case PTime(us) => PTimeIsOneLine(us); AttributeIsOneLine("ptime", PacketTime.Format(us));
    case FrameCount(n) => PrintIsToken(n); AttributeIsOneLine("framecount", Print(n));
    case Clock(name, domain) =>
      NameIsOneLine(name);
      if !domain.Unsaid? { PrintIsToken(domain.n); }
      AttributeIsOneLine("ts-refclk", "ptp=IEEE1588-2008:" + (name + DomainText(domain)));
    case Traceable => AttributeIsOneLine("ts-refclk", "ptp=IEEE1588-2008:traceable");
    case MediaClock(text) => AttributeIsOneLine("mediaclk", text);
  }

  lemma {:induction false} PlainAreOneLine(l: Line)
    requires Grammatical(l) && (l.Version? || l.Name? || l.Info? || l.Direction? || l.Custom? || l.Other?)
    ensures OneLine(Spelt(l))
  {
    hide Print, Record, KeyValue, Trimmed, OneLine;
    match l
    case Version(n) => PrintIsToken(n); PlainIsOneLine('v', Print(n));
    case Name(text) => PlainIsOneLine('s', text);
    case Info(text) => PlainIsOneLine('i', text);
    case Direction(word) => PlainIsOneLine('a', word);
    case Custom(key, value) => PlainIsOneLine('a', key); AttributeIsOneLine(key, value);
    case Other(text) =>
  }

  lemma {:induction false} PlainIsOneLine(kind: char, value: string)
    requires kind != '\n'
    requires '\n' !in value || OneLine(value) || IsDirection(value)
    ensures OneLine(Record(kind, value))
  {
    RecordIsOneLine(kind, value);
  }

  lemma {:induction false} SpeltIsOneLine(l: Line)
    requires Grammatical(l)
    ensures OneLine(Spelt(l))
  {
    hide Grammatical, Spelt, OneLine;
    if l.Origin? || l.Connection? || l.Timing? || l.Media? {
      RecordsAreOneLine(l);
    } else if l.RtpMap? || l.SourceFilter? {
      ListsAreOneLine(l);
    } else if l.PTime? || l.FrameCount? || l.Clock? || l.Traceable? || l.MediaClock? {
      ValuesAreOneLine(l);
    } else {
      PlainAreOneLine(l);
    }
  }

  lemma {:induction false} NameIsOneLine(name: string)
    requires ClockName(name)
    ensures OneLine(name)
  {
  }

  lemma {:induction false} WordsAreTokens()
    ensures Token("incl") && Token("IN") && Token("IP4")
  {
  }

  lemma {:induction false} SpeltAreOneLines(lines: seq<Line>)
    requires AllGrammatical(lines)
    ensures OneLines(SpeltAll(lines)) && |SpeltAll(lines)| == |lines|
    decreases |lines|
  {
    hide Grammatical, Spelt, OneLine;
    if lines != [] {
      SpeltIsOneLine(lines[0]);
      SpeltAreOneLines(lines[1..]);
    }
  }

  /** A name, somewhere to receive from, and a format that can be decoded. */
  predicate Sufficient(s: SdpSession) {
    && s.sessionName != "" && s.connectionAddress != "" && s.port > 0 && s.sampleRate > 0 && s.numChannels > 0
    && (s.encoding == "L16" || s.encoding == "L24" || s.encoding == "AM824")
  }

  /** A description of the grammar, each line ended either way, is read as what its lines say, if that is a session. */
  lemma {:induction false} DescriptionReads(lines: seq<Line>, cr: seq<bool>)
    requires AllGrammatical(lines) && |cr| == |lines| == |SpeltAll(lines)|
    requires forall i :: 0 <= i < |lines| && !cr[i] ==> !EndsInCr(SpeltAll(lines)[i])
    ensures Parse(Ended(SpeltAll(lines), cr)) ==
      match SayAll(lines, BlankSession)
      case None => None
      case Some(s) => if Sufficient(s) then Some(s) else None
  {
    hide Grammatical, ParseLines, SpeltAll, SayAll, SplitLines, Ended;
    SpeltAreOneLines(lines);
    EndedReadBack(SpeltAll(lines), cr);
    LinesSay(lines, BlankSession);
  }

  predicate EndsInCr(line: string) { line != "" && line[|line| - 1] == '\r' }

  lemma {:induction false} SayConcat(a: seq<Line>, b: seq<Line>, t: SdpSession)
    ensures SayAll(a + b, t) == match SayAll(a, t) case None => None case Some(u) => SayAll(b, u)
    decreases |a|
  {
    hide Says;
    if a == [] {
      assert a + b == b;
    } else {
      assert (a + b)[1..] == a[1..] + b;
      var next := Says(a[0], t);
      if next.Some? { SayConcat(a[1..], b, next.value); }
    }
  }

  lemma {:induction false} SayOne(l: Line, t: SdpSession)
    ensures SayAll([l], t) == Says(l, t)
  {
    hide Says;
    assert [l][1..] == [];
  }

  lemma {:induction false} SpeltConcat(a: seq<Line>, b: seq<Line>)
    ensures SpeltAll(a + b) == SpeltAll(a) + SpeltAll(b)
    decreases |a|
  {
    hide Spelt;
    if a == [] {
      assert a + b == b;
    } else {
      assert (a + b)[1..] == a[1..] + b;
      SpeltConcat(a[1..], b);
    }
  }

  /** A line no description may have, whatever came before it. */
  predicate Unsound(l: Line) {
    || (l.Version? && l.version != 0)
    || (l.Media? && (l.port > 65535 || l.format > 127))
    || (l.RtpMap? && l.channels.Some? && (l.channels.value == 0 || l.channels.value > 65535))
    || (l.PTime? && (l.us == 0 || l.us > 1_000_000))
    || (l.SourceFilter? && l.sources == [])
  }

  lemma {:induction false} UnsoundSays(l: Line, t: SdpSession)
    requires Unsound(l)
    ensures Says(l, t) == None
  {
  }

  /** One such line anywhere refuses the description, an rtpmap for another format included. */
  lemma {:induction false} UnsoundIsRefused(lines: seq<Line>, i: nat)
    requires AllGrammatical(lines) && i < |lines| && Unsound(lines[i])
    ensures Parse(Terminated(SpeltAll(lines))) == None
  {
    hide Grammatical, Says, SayAll, SpeltAll, Parse, Unsound, Ended, Terminated;
    var before, after := lines[..i], lines[i + 1..];
    assert lines == before + ([lines[i]] + after);
    SayConcat(before, [lines[i]] + after, BlankSession);
    var u := SayAll(before, BlankSession);
    if u.Some? {
      SayConcat([lines[i]], after, u.value);
      SayOne(lines[i], u.value);
      UnsoundSays(lines[i], u.value);
    }
    SpeltAreOneLines(lines);
    EndedWithCr(SpeltAll(lines));
    DescriptionReads(lines, seq(|lines|, _ => true));
  }

  // ---- formats that were not selected ----------------------------------------------------------

  /** A line that makes no difference where `format` is selected: no record, or a sound rtpmap for another format. */
  predicate PassedOver(l: Line, format: nat) {
    || l.Other?
    || (l.RtpMap? && l.format != format && l.format < 0x8000_0000 && l.rate < 0x1_0000_0000_0000_0000
        && (l.channels.None? || 1 <= l.channels.value <= 65535))
  }

  /** The second sequence is the first with any number of such lines put in anywhere. */
  predicate Padded(lines: seq<Line>, padded: seq<Line>, format: nat)
    decreases |padded|
  {
    if padded == [] then lines == []
    else
      || (lines != [] && padded[0] == lines[0] && Padded(lines[1..], padded[1..], format))
      || (PassedOver(padded[0], format) && Padded(lines, padded[1..], format))
  }

  predicate NoMedia(lines: seq<Line>) { forall i :: 0 <= i < |lines| ==> !lines[i].Media? }

  lemma {:induction false} FormatStays(l: Line, t: SdpSession)
    requires !l.Media?
    ensures Says(l, t).Some? ==> Says(l, t).value.payloadType == t.payloadType
  {
  }

  lemma {:induction false} PaddingSaysNothing(lines: seq<Line>, padded: seq<Line>, t: SdpSession)
    requires NoMedia(lines) && Padded(lines, padded, t.payloadType)
    ensures SayAll(padded, t) == SayAll(lines, t)
    decreases |padded|
  {
    hide Says;
    if padded == [] {
    } else if lines != [] && padded[0] == lines[0] && Padded(lines[1..], padded[1..], t.payloadType) {
      FormatStays(lines[0], t);
      var next := Says(lines[0], t);
      if next.Some? { PaddingSaysNothing(lines[1..], padded[1..], next.value); }
    } else {
      PassedOverSays(padded[0], t);
      PaddingSaysNothing(lines, padded[1..], t);
    }
  }

  lemma {:induction false} PassedOverSays(l: Line, t: SdpSession)
    requires PassedOver(l, t.payloadType)
    ensures Says(l, t) == Some(t)
  {
  }

  /** Behind the media line, lines for formats it did not select, and lines that are no records, change nothing. */
  lemma {:induction false} OtherFormatsDoNotMatter(
      head: seq<Line>, media: Line, rest: seq<Line>, padded: seq<Line>, t: SdpSession)
    requires media.Media? && NoMedia(rest) && Padded(rest, padded, media.format)
    ensures SayAll(head + [media] + padded, t) == SayAll(head + [media] + rest, t)
  {
    hide Padded, NoMedia;
    SayConcat(head + [media], padded, t);
    SayConcat(head + [media], rest, t);
    SayConcat(head, [media], t);
    var u := SayAll(head, t);
    if u.Some? {
      SayOne(media, u.value);
      var v := Says(media, u.value);
      if v.Some? { PaddingSaysNothing(rest, padded, v.value); }
    }
  }
}
