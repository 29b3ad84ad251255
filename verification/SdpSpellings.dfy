/** A session as the lines it is written in, and the other spellings of it that are read alike. */
module SdpSpellings {
  import opened StreamTypes
  import opened Decimal
  import opened Text
  import opened SdpParser
  import opened SdpRoundTrip
  import opened SdpGrammar
  import PacketTime

  // ---- the lines a session is written as -------------------------------------------------------

  function If(present: bool, line: Line): seq<Line> { if present then [line] else [] }

  function Reach(s: SdpSession): Line {
    Connection(s.connectionType, s.connectionNetwork, s.connectionAddress, if s.ttl == 0 then None else Some(s.ttl))
  }

  function Head(s: SdpSession, now: U64): seq<Line> {
    [Version(0), Origin(s.originUsername, if s.sessionId == 0 then now else s.sessionId, s.sessionVersion,
                        s.originNetworkType, s.originAddressType, s.originAddress), Name(s.sessionName)]
    + If(s.sessionInfo != "", Info(s.sessionInfo)) + [Reach(s), Timing(s.timeStart, s.timeStop)]
  }

  function Selected(s: SdpSession, others: seq<string>): Line {
    Media(s.mediaType, s.port, s.transport, s.payloadType, others)
  }

  function Body(s: SdpSession): seq<Line> {
    [Reach(s), RtpMap(s.payloadType, s.encoding, s.sampleRate, Some(s.numChannels)), PTime(s.ptimeUs)]
    + If(s.framecount > 0, FrameCount(s.framecount)) + [Direction(s.direction)]
    + If(s.sourceAddress != "", SourceFilter(s.connectionAddress, [s.sourceAddress]))
    + If(s.ptpTraceable, Traceable)
  }

  function Customs(keys: seq<string>, attributes: map<string, string>): seq<Line>
    requires forall k :: k in keys ==> k in attributes
  {
    if keys == [] then [] else [Custom(keys[0], attributes[keys[0]])] + Customs(keys[1..], attributes)
  }

  function Marks(s: SdpSession): seq<Line> {
    If(s.ptpDomain >= 0 && "clock-domain" !in s.customAttributes,
       Custom("clock-domain", "PTPv2 " + PrintInt(s.ptpDomain)))
    + If(s.mediaClockType != "", MediaClock(s.mediaClockType))
    + Customs(SortedKeys(s.customAttributes.Keys), s.customAttributes)
  }

  /** What follows the media line, with the grandmaster's domain said in any of the three ways. */
  function Rest(s: SdpSession, domain: Domain): seq<Line> {
    Body(s) + If(NamesClock(s), Clock(s.ptpMasterMac, domain)) + Marks(s)
  }

  lemma {:induction false} CustomsAreSpelt(keys: seq<string>, attributes: map<string, string>)
    requires forall k :: k in keys ==> k in attributes
    ensures SpeltAll(Customs(keys, attributes)) == CustomLines(keys, attributes)
    decreases |keys|
  {
    hide Record, KeyValue;
    if keys != [] { CustomsAreSpelt(keys[1..], attributes); }
  }

  lemma {:induction false} SpeltEach(lines: seq<Line>)
    ensures |SpeltAll(lines)| == |lines| && forall i :: 0 <= i < |lines| ==> SpeltAll(lines)[i] == Spelt(lines[i])
    decreases |lines|
  {
    hide Spelt;
    if lines != [] { SpeltEach(lines[1..]); }
  }

  lemma {:induction false} ReachIsSpelt(s: SdpSession)
    ensures Spelt(Reach(s)) == Record('c', ConnectionValue(s))
  {
    hide Print, Joined, Record;
    assert s.ttl != 0 ==> s.connectionAddress + ("/" + Print(s.ttl)) == s.connectionAddress + ['/'] + Print(s.ttl);
    assert s.connectionAddress + "" == s.connectionAddress;
  }

  lemma {:induction false} PartsAreSpelt(s: SdpSession)
    ensures Spelt(Selected(s, [])) == Record('m', MediaValue(s))
    ensures Spelt(RtpMap(s.payloadType, s.encoding, s.sampleRate, Some(s.numChannels))) ==
      Attribute("rtpmap", RtpMapValue(s))
    ensures Spelt(SourceFilter(s.connectionAddress, [s.sourceAddress])) ==
      Attribute("source-filter", SourceFilterValue(s))
  {
    hide Print, Joined, Record, KeyValue;
    var media := [s.mediaType, Print(s.port), s.transport, Print(s.payloadType)];
    assert media + [] == media;
    assert FormatParts(s.encoding, s.sampleRate, Some(s.numChannels)) ==
      [s.encoding, Print(s.sampleRate), Print(s.numChannels)];
    assert ["incl", "IN", "IP4", s.connectionAddress] + [s.sourceAddress] ==
      ["incl", "IN", "IP4", s.connectionAddress, s.sourceAddress];
  }

  lemma {:induction false} ClockIsSpelt(s: SdpSession)
    ensures s.ptpTraceable ==> Spelt(Traceable) == Attribute("ts-refclk", RefClockValue(s))
    ensures NamesClock(s) ==>
      Spelt(Clock(s.ptpMasterMac, Bare(s.ptpDomain))) == Attribute("ts-refclk", RefClockValue(s))
  {
    hide Print, Record, KeyValue;
    assert NamesClock(s) ==>
      s.ptpMasterMac + (":" + Print(s.ptpDomain)) == s.ptpMasterMac + [':'] + PrintInt(s.ptpDomain);
  }

  lemma {:induction false} HeadIsSpelt(s: SdpSession, now: U64)
    ensures SpeltAll(Head(s, now) + [Selected(s, [])]) + [Spelt(Reach(s))] == SessionLines(s, now)
  {
    hide Record, Print, Joined, Reach, Selected, ConnectionValue, MediaValue, SpeltAll;
    SpeltEach(Head(s, now) + [Selected(s, [])]);
    ReachIsSpelt(s);
    PartsAreSpelt(s);
    assert Spelt(Version(0)) == "v=0" by { VersionIsSpelt(); }
  }

  lemma {:induction false} VersionIsSpelt()
    ensures Spelt(Version(0)) == "v=0"
  {
  }

  lemma {:induction false} IfIsSpelt(present: bool, l: Line)
    ensures SpeltAll(If(present, l)) == When(present, Spelt(l))
  {
    hide Spelt;
    assert [l][1..] == [];
  }

  lemma {:induction false} MarksAreSpelt(s: SdpSession)
    ensures SpeltAll(Marks(s)) ==
      When(StatesDomain(s), Attribute(CLOCK_DOMAIN, ClockDomainValue(s.ptpDomain)))
      + When(s.mediaClockType != "", Attribute("mediaclk", s.mediaClockType))
      + CustomLines(SortedKeys(s.customAttributes.Keys), s.customAttributes)
  {
    hide Record, KeyValue, Print, SpeltAll, SortedKeys, Customs, CustomLines;
    var keys := SortedKeys(s.customAttributes.Keys);
    var value := "PTPv2 " + PrintInt(s.ptpDomain);
    var domain := If(StatesDomain(s), Custom("clock-domain", value));
    var media := If(s.mediaClockType != "", MediaClock(s.mediaClockType));
    SpeltConcat(domain + media, Customs(keys, s.customAttributes));
    SpeltConcat(domain, media);
    IfIsSpelt(StatesDomain(s), Custom("clock-domain", value));
    IfIsSpelt(s.mediaClockType != "", MediaClock(s.mediaClockType));
    CustomsAreSpelt(keys, s.customAttributes);
  }

  lemma {:induction false} RestIsSpelt(s: SdpSession)
    ensures [Spelt(Reach(s))] + FormatLines(s) + ClockLines(s)
          + CustomLines(SortedKeys(s.customAttributes.Keys), s.customAttributes)
         == SpeltAll(Rest(s, if s.ptpDomain < 0 then Unsaid else Bare(s.ptpDomain)))
  {
    hide Record, KeyValue, Print, Joined, Reach, RefClockValue, SpeltAll, Spelt, SortedKeys, Customs, CustomLines,
         FormatLines, Body, Marks, ClockDomainValue;
    var domain := if s.ptpDomain < 0 then Unsaid else Bare(s.ptpDomain);
    var clock := Clock(s.ptpMasterMac, domain);
    SpeltConcat(Body(s) + If(NamesClock(s), clock), Marks(s));
    SpeltConcat(Body(s), If(NamesClock(s), clock));
    IfIsSpelt(NamesClock(s), clock);
    ClockIsSpelt(s);
    BodyIsSpelt(s);
    MarksAreSpelt(s);
  }

  lemma {:induction false} BodyIsSpelt(s: SdpSession)
    ensures SpeltAll(Body(s)) ==
      [Spelt(Reach(s))] + FormatLines(s) + When(s.ptpTraceable, Attribute("ts-refclk", RefClockValue(s)))
  {
    hide Record, KeyValue, Print, Reach, RtpMapValue, SourceFilterValue, RefClockValue, SpeltAll, Spelt,
         PacketTime.Format, If, When;
    var format := [Reach(s), RtpMap(s.payloadType, s.encoding, s.sampleRate, Some(s.numChannels)), PTime(s.ptimeUs)];
    var frames, direction := If(s.framecount > 0, FrameCount(s.framecount)), [Direction(s.direction)];
    var filter := If(s.sourceAddress != "", SourceFilter(s.connectionAddress, [s.sourceAddress]));
    SpeltConcat(format + frames + direction + filter, If(s.ptpTraceable, Traceable));
    SpeltConcat(format + frames + direction, filter);
    SpeltConcat(format + frames, direction);
    SpeltConcat(format, frames);
    SpeltEach(format);
    SpeltEach(direction);
    IfIsSpelt(s.framecount > 0, FrameCount(s.framecount));
    IfIsSpelt(s.sourceAddress != "", SourceFilter(s.connectionAddress, [s.sourceAddress]));
    IfIsSpelt(s.ptpTraceable, Traceable);
    SimpleAreSpelt(s);
    PartsAreSpelt(s);
    ClockIsSpelt(s);
    assert SpeltAll(format) == [Spelt(format[0]), Spelt(format[1]), Spelt(format[2])];
    assert SpeltAll(direction) == [Spelt(direction[0])];
    assert When(s.ptpTraceable, Spelt(Traceable)) == When(s.ptpTraceable, Attribute("ts-refclk", RefClockValue(s))) by {
      Absent(s.ptpTraceable, Spelt(Traceable), Attribute("ts-refclk", RefClockValue(s)));
    }
  }

  lemma {:induction false} Absent(present: bool, a: string, b: string)
    requires present ==> a == b
    ensures When(present, a) == When(present, b)
  {
  }

  lemma {:induction false} SimpleAreSpelt(s: SdpSession)
    ensures Spelt(PTime(s.ptimeUs)) == Attribute("ptime", PacketTime.Format(s.ptimeUs))
    ensures Spelt(FrameCount(s.framecount)) == Attribute("framecount", Print(s.framecount))
    ensures Spelt(Direction(s.direction)) == Record('a', s.direction)
  {
  }

  /** Every session is written as lines of the grammar, in this order. */
  lemma {:induction false} WrittenIsSpelt(s: SdpSession, now: U64)
    ensures var domain := if s.ptpDomain < 0 then Unsaid else Bare(s.ptpDomain);
      Lines(s, now) == SpeltAll(Head(s, now) + [Selected(s, [])] + Rest(s, domain))
  {
    hide SessionLines, FormatLines, ClockLines, CustomLines, SpeltAll, Spelt, Rest, Head, Selected, Reach, SortedKeys;
    var domain := if s.ptpDomain < 0 then Unsaid else Bare(s.ptpDomain);
    HeadIsSpelt(s, now);
    RestIsSpelt(s);
    SpeltConcat(Head(s, now) + [Selected(s, [])], Rest(s, domain));
  }

  // ---- the same session from other writers -----------------------------------------------------

  predicate NoClock(lines: seq<Line>) { forall i :: 0 <= i < |lines| ==> !lines[i].Clock? }

  /** No other line reads or writes the domain. */
  lemma {:induction false} DomainApart(lines: seq<Line>, t: SdpSession, domain: I32)
    requires NoClock(lines)
    ensures var u, v := SayAll(lines, t), SayAll(lines, t.(ptpDomain := domain));
      if u.None? then v == None else v == Some(u.value.(ptpDomain := domain)) && u.value.ptpDomain == t.ptpDomain
    decreases |lines|
  {
    hide Says;
    if lines == [] {
    } else {
      OneDomainApart(lines[0], t, domain);
      var next := Says(lines[0], t);
      if next.Some? { DomainApart(lines[1..], next.value, domain); }
    }
  }

  lemma {:induction false} OneDomainApart(l: Line, t: SdpSession, domain: I32)
    requires !l.Clock?
    ensures var u, v := Says(l, t), Says(l, t.(ptpDomain := domain));
      if u.None? then v == None else v == Some(u.value.(ptpDomain := domain)) && u.value.ptpDomain == t.ptpDomain
  {
  }

  /** A way to say the session's clock that is read as it is meant. */
  ghost predicate SaysDomain(s: SdpSession, domain: Domain) {
    && (NamesClock(s) && domain.Unsaid? ==> !Numbered(s.ptpMasterMac) && !BlankEnd(s.ptpMasterMac))
    && (NamesClock(s) && !domain.Unsaid? ==> domain.n == s.ptpDomain)
  }

  lemma {:induction false} HeadIsGrammatical(s: SdpSession, now: U64, others: seq<string>)
    requires OriginOk(s) && Token(s.originAddress) && NamesOk(s) && ConnectionOk(s) && MediaOk(s) && Tokens(others)
    ensures AllGrammatical(Head(s, now) + [Selected(s, others)])
  {
    hide Token, OneLine, Trimmed;
  }

  lemma {:induction false} BodyIsGrammatical(s: SdpSession)
    requires s.IsValid() && ConnectionOk(s) && MediaOk(s)
    ensures AllGrammatical(Body(s)) && NoMedia(Body(s)) && NoClock(Body(s))
  {
    hide Token;
    EncodingIsToken(s);
  }

  lemma {:induction false} EncodingIsToken(s: SdpSession)
    requires s.IsValid()
    ensures Token(s.encoding) && '/' !in s.encoding
  {
  }

  lemma {:induction false} CustomsAreGrammatical(keys: seq<string>, attributes: map<string, string>)
    requires forall k :: k in keys ==> k in attributes && CustomOk(k, attributes[k])
    ensures AllGrammatical(Customs(keys, attributes)) && NoMedia(Customs(keys, attributes))
    ensures NoClock(Customs(keys, attributes))
    decreases |keys|
  {
    hide CustomOk;
    if keys != [] { CustomsAreGrammatical(keys[1..], attributes); }
  }

  lemma {:induction false} MarksAreGrammatical(s: SdpSession)
    requires ClocksOk(s) && CustomsOk(s)
    ensures AllGrammatical(Marks(s)) && NoMedia(Marks(s)) && NoClock(Marks(s))
  {
    hide CustomOk, Customs, SortedKeys, ClockName, Print;
    CustomsAreGrammatical(SortedKeys(s.customAttributes.Keys), s.customAttributes);
    if s.ptpDomain >= 0 {
      PrintIsToken(s.ptpDomain);
      ClockDomainIsCustom(s.ptpDomain);
    }
  }

  /** The three ways of saying the clock differ at most in the domain read. */
  lemma {:induction false} ClocksSayAlike(s: SdpSession, domain: Domain, t: SdpSession)
    requires s.IsValid() && ConnectionOk(s) && MediaOk(s) && ClocksOk(s) && CustomsOk(s)
    requires NamesClock(s) && SaysDomain(s, domain) && t.ptpDomain == 0
    ensures var u, v := SayAll(Rest(s, Bare(s.ptpDomain)), t), SayAll(Rest(s, domain), t);
      if u.None? then v == None else v == Some(if domain.Unsaid? then u.value.(ptpDomain := 0) else u.value)
  {
    hide Body, Marks, Says, NoClock, ClocksOk, CustomsOk;
    BodyIsGrammatical(s);
    MarksAreGrammatical(s);
    var bare := Bare(s.ptpDomain);
    RestSays(s, bare, t);
    RestSays(s, domain, t);
    DomainApart(Body(s), t, 0);
    var u := SayAll(Body(s), t);
    if u.Some? {
      ClockSays(s.ptpMasterMac, domain, u.value);
      ClockSays(s.ptpMasterMac, bare, u.value);
      DomainApart(Marks(s), u.value.(ptpMasterMac := s.ptpMasterMac, ptpDomain := s.ptpDomain), 0);
    }
  }

  lemma {:induction false} ClockSays(name: string, domain: Domain, t: SdpSession)
    ensures Says(Clock(name, domain), t) ==
      Some(t.(ptpMasterMac := name, ptpDomain := DomainSaid(domain, t.ptpDomain)))
  {
  }

  lemma {:induction false} RestSays(s: SdpSession, domain: Domain, t: SdpSession)
    requires NamesClock(s)
    ensures SayAll(Rest(s, domain), t) ==
      match SayAll(Body(s), t)
      case None => None
      case Some(u) =>
        match Says(Clock(s.ptpMasterMac, domain), u)
        case None => None
        case Some(v) => SayAll(Marks(s), v)
  {
    hide Body, Marks, Says, SayAll;
    var clock := Clock(s.ptpMasterMac, domain);
    SayConcat(Body(s) + [clock], Marks(s), t);
    SayConcat(Body(s), [clock], t);
    var u := SayAll(Body(s), t);
    if u.Some? { SayOne(clock, u.value); }
  }

  lemma {:induction false} RestIsGrammatical(s: SdpSession, domain: Domain)
    requires WellFormed(s) && SaysDomain(s, domain)
    ensures AllGrammatical(Rest(s, domain)) && NoMedia(Rest(s, domain))
  {
    hide Body, Marks, Token, CustomOk, ClockName, NamesOk, OriginOk;
    BodyIsGrammatical(s);
    MarksAreGrammatical(s);
  }

  /** The lines of the session itself say its normal form. */
  lemma {:induction false} WrittenSays(s: SdpSession, now: U64)
    requires WellFormed(s)
    ensures var domain := if s.ptpDomain < 0 then Unsaid else Bare(s.ptpDomain);
      SayAll(Head(s, now) + [Selected(s, [])] + Rest(s, domain), BlankSession) == Some(Normal(s, now))
  {
    hide Lines, Head, Selected, Rest, SayAll, SpeltAll, ParseLines, Normal, Grammatical, WellFormedBut;
    var domain := if s.ptpDomain < 0 then Unsaid else Bare(s.ptpDomain);
    HeadFits(s, now, []);
    RestIsGrammatical(s, domain);
    WrittenIsSpelt(s, now);
    LinesRead(s, now);
    LinesSay(Head(s, now) + [Selected(s, [])] + Rest(s, domain), BlankSession);
  }

  lemma {:induction false} HeadFits(s: SdpSession, now: U64, others: seq<string>)
    requires WellFormed(s) && Tokens(others)
    ensures AllGrammatical(Head(s, now) + [Selected(s, others)]) && NoClock(Head(s, now) + [Selected(s, others)])
  {
    hide Grammatical, Token, CustomOk, ClocksOk;
    HeadIsGrammatical(s, now, others);
  }

  /** The formats a media line lists behind the one it selects say nothing. */
  lemma {:induction false} HeadSays(s: SdpSession, now: U64, others: seq<string>, t: SdpSession)
    ensures SayAll(Head(s, now) + [Selected(s, others)], t) == SayAll(Head(s, now) + [Selected(s, [])], t)
  {
    hide Head;
    SayConcat(Head(s, now), [Selected(s, others)], t);
    SayConcat(Head(s, now), [Selected(s, [])], t);
    var u := SayAll(Head(s, now), t);
    if u.Some? {
      SayOne(Selected(s, others), u.value);
      SayOne(Selected(s, []), u.value);
    }
  }

  /** What another writer's description of the session says: the domain is read as 0 if it is not said. */
  function ReadAs(s: SdpSession, now: U64, domain: Domain): SdpSession {
    if NamesClock(s) && domain.Unsaid? then Normal(s, now).(ptpDomain := 0) else Normal(s, now)
  }

  lemma {:induction false} OthersSay(s: SdpSession, now: U64, others: seq<string>, domain: Domain)
    requires WellFormed(s) && Tokens(others) && SaysDomain(s, domain)
    ensures SayAll(Head(s, now) + [Selected(s, others)] + Rest(s, domain), BlankSession) == Some(ReadAs(s, now, domain))
  {
    hide Head, Selected, SayAll, Normal, Body, Marks, NoClock, Tokens;
    var bare := if s.ptpDomain < 0 then Unsaid else Bare(s.ptpDomain);
    WrittenSays(s, now);
    HeadSays(s, now, others, BlankSession);
    SayConcat(Head(s, now) + [Selected(s, [])], Rest(s, bare), BlankSession);
    SayConcat(Head(s, now) + [Selected(s, others)], Rest(s, domain), BlankSession);
    HeadFits(s, now, others);
    DomainApart(Head(s, now) + [Selected(s, others)], BlankSession, 0);
    if NamesClock(s) {
      ClocksSayAlike(s, domain, SayAll(Head(s, now) + [Selected(s, others)], BlankSession).value);
    }
  }

  /**
    The session of a written description is also recovered from any other spelling of it: lines ended
    either way, further formats listed on the media line, the clock's domain said in any of the three
    ways, and behind the media line any lines put in for formats that were not selected.
   */
  lemma {:induction false} OtherWritersRead(s: SdpSession, now: U64, others: seq<string>, domain: Domain,
                                            padded: seq<Line>, cr: seq<bool>)
    requires WellFormed(s) && Tokens(others) && SaysDomain(s, domain)
    requires Padded(Rest(s, domain), padded, s.payloadType) && AllGrammatical(padded)
    requires var lines := Head(s, now) + [Selected(s, others)] + padded;
      && |cr| == |lines| == |SpeltAll(lines)|
      && forall i :: 0 <= i < |lines| && !cr[i] ==> !EndsInCr(SpeltAll(lines)[i])
    ensures Parse(Ended(SpeltAll(Head(s, now) + [Selected(s, others)] + padded), cr)) == Some(ReadAs(s, now, domain))
  {
    hide Head, Rest, SayAll, SpeltAll, Normal, Padded, Grammatical, Parse, Ended, WellFormedBut, NoMedia, EndsInCr,
         NoClock;
    var media := Selected(s, others);
    HeadFits(s, now, others);
    RestIsGrammatical(s, domain);
    OthersSay(s, now, others, domain);
    OtherFormatsDoNotMatter(Head(s, now), media, Rest(s, domain), padded, BlankSession);
    DescriptionReads(Head(s, now) + [media] + padded, cr);
    ReadIsValid(s, now, domain);
  }

  lemma {:induction false} ReadIsValid(s: SdpSession, now: U64, domain: Domain)
    requires WellFormed(s)
    ensures ReadAs(s, now, domain).IsValid()
  {
    hide WellFormedBut;
    NormalIsValid(s, now);
  }
}
