/**
  What the manager's operations admit, install and leave alone, said of the streams and the owner table
  without the model's own helpers: in plain numbers and plain text.
 */
module ManagerOutcomes {
  import opened StreamTypes
  import opened ChannelMapper
  import opened ManagerModel
  import opened ManagerInvariants
  import opened ManagerPolicies
  import Decimal
  import Text

  // ---- two spellings of one clock --------------------------------------------------------------

  predicate Separator(c: char) { c == '-' || c == ':' || c == '.' }

  /** The same letter in either case, or the same character. */
  predicate SameLetter(c: char, d: char) {
    || c == d || ('a' <= c <= 'z' && c as int - 32 == d as int) || ('a' <= d <= 'z' && d as int - 32 == c as int)
  }

  /** The same characters in the same order, up to case, once dashes, colons and dots are passed over. */
  predicate SameClock(a: string, b: string)
    decreases |a| + |b|
  {
    if a != "" && Separator(a[0]) then SameClock(a[1..], b)
    else if b != "" && Separator(b[0]) then SameClock(a, b[1..])
    else if a == "" || b == "" then a == b
    else SameLetter(a[0], b[0]) && SameClock(a[1..], b[1..])
  }

  lemma {:induction false} UpperIsSameLetter(c: char, d: char)
    ensures Upper(c) == Upper(d) <==> SameLetter(c, d)
  {
  }

  /** Names that normalise equally are exactly the spellings of one clock. */
  lemma {:induction false} NormalizeIffSame(a: string, b: string)
    ensures Normalize(a) == Normalize(b) <==> SameClock(a, b)
    decreases |a| + |b|
  {
    hide Upper, SameLetter;
    if a != "" && Separator(a[0]) {
      NormalizeIffSame(a[1..], b);
    } else if b != "" && Separator(b[0]) {
      NormalizeIffSame(a, b[1..]);
    } else if a == "" || b == "" {
    } else {
      UpperIsSameLetter(a[0], b[0]);
      NormalizeIffSame(a[1..], b[1..]);
      assert ([Upper(a[0])] + Normalize(a[1..]))[1..] == Normalize(a[1..]);
      assert ([Upper(b[0])] + Normalize(b[1..]))[1..] == Normalize(b[1..]);
    }
  }

  /** A separator more, anywhere, makes no other clock; nor does the case of a letter. */
  lemma {:induction false} SpellingDoesNotMatter(a: string, c: char, d: char, b: string)
    ensures Separator(c) ==> Normalize(a + [c] + b) == Normalize(a + b)
    ensures SameLetter(c, d) ==> Normalize(a + [c] + b) == Normalize(a + [d] + b)
  {
    if a == "" {
      assert a + [c] + b == [c] + b && a + [d] + b == [d] + b && a + b == b;
      assert ([c] + b)[1..] == b && ([d] + b)[1..] == b;
      UpperIsSameLetter(c, d);
    } else {
      SpellingDoesNotMatter(a[1..], c, d, b);
      assert (a + [c] + b)[1..] == a[1..] + [c] + b;
      assert (a + [d] + b)[1..] == a[1..] + [d] + b;
      assert (a + b)[1..] == a[1..] + b;
    }
  }

  /** An open stream whose description names a clock. */
  predicate Declaring(streams: map<StreamId, Managed>, id: StreamId) {
    id in streams && streams[id].sdp.ptpMasterMac != ""
  }

  /** The declared clocks of a state are one clock, and the recorded one is it. */
  ghost predicate OneClock(s: State) {
    && (s.grandmaster == "" <==> forall id :: !Declaring(s.streams, id))
    && (forall id :: Declaring(s.streams, id) ==> SameClock(s.streams[id].sdp.ptpMasterMac, s.grandmaster))
    && (forall x, y :: Declaring(s.streams, x) && Declaring(s.streams, y) ==>
        SameClock(s.streams[x].sdp.ptpMasterMac, s.streams[y].sdp.ptpMasterMac))
  }

  /** Over every policed run there is one clock. */
  lemma {:induction false} OneClockInEveryRun(start: State, ops: seq<Op>)
    requires ClocksAgree(start) && FreshRun(start, ops) && Policed(start, ops)
    ensures OneClock(RunFrom(start, ops))
  {
    hide RunFrom, FreshRun, Policed, OneClock;
    ClocksAgreeInEveryRun(start, ops);
    AgreeingIsOne(RunFrom(start, ops));
  }

  lemma {:induction false} AgreeingIsOne(s: State)
    requires ClocksAgree(s)
    ensures OneClock(s)
  {
    hide Normalize, SameClock;
    forall id | Declaring(s.streams, id)
      ensures SameClock(s.streams[id].sdp.ptpMasterMac, s.grandmaster)
    {
      NormalizeIffSame(s.streams[id].sdp.ptpMasterMac, s.grandmaster);
    }
    forall x, y | Declaring(s.streams, x) && Declaring(s.streams, y)
      ensures SameClock(s.streams[x].sdp.ptpMasterMac, s.streams[y].sdp.ptpMasterMac)
    {
      NormalizeIffSame(s.streams[x].sdp.ptpMasterMac, s.streams[y].sdp.ptpMasterMac);
    }
    assert (forall id :: !Declaring(s.streams, id)) <==> forall id :: id in s.streams ==> !Declares(s.streams[id]);
  }

  /** The first stream, in the order of identifiers, to declare a clock. */
  ghost predicate FirstDeclaring(streams: map<StreamId, Managed>, id: StreamId) {
    Declaring(streams, id) && forall x: StreamId :: x < id ==> !Declaring(streams, x)
  }

  /** The clock elected is that of the first stream that declares one. */
  lemma {:induction false} ElectedIsFirst(streams: map<StreamId, Managed>, id: StreamId)
    ensures (forall x :: !Declaring(streams, x)) ==> ElectGrandmaster(streams) == ""
    ensures FirstDeclaring(streams, id) ==> ElectGrandmaster(streams) == streams[id].sdp.ptpMasterMac
  {
    hide SortedIds, FirstDeclared;
    var ids := SortedIds(streams.Keys);
    var k := FirstOfSorted(ids, streams);
    if FirstDeclaring(streams, id) {
      var i :| 0 <= i < |ids| && ids[i] == id;
      assert k <= i;
      assert Declaring(streams, ids[k]);
    }
  }

  lemma {:induction false} FirstOfSorted(ids: seq<StreamId>, streams: map<StreamId, Managed>) returns (k: nat)
    requires forall id :: id in ids ==> id in streams
    ensures k <= |ids| && forall i :: 0 <= i < k ==> !Declaring(streams, ids[i])
    ensures if k == |ids| then FirstDeclared(ids, streams) == ""
      else Declaring(streams, ids[k]) && FirstDeclared(ids, streams) == streams[ids[k]].sdp.ptpMasterMac
  {
    if ids == [] || Declaring(streams, ids[0]) {
      return 0;
    }
    k := FirstOfSorted(ids[1..], streams);
    assert forall i :: 0 < i < k + 1 ==> ids[i] == ids[1..][i - 1];
    k := k + 1;
  }

  // ---- admission -------------------------------------------------------------------------------

  predicate Within(cap: U32, total: nat) { cap == 0 || total <= cap }

  /** What is asked of a stream before it is let in, in plain numbers. */
  ghost predicate Admissible(s: State, sdp: SdpSession, isTransmit: bool, env: Env) {
    var n, total, mac := sdp.numChannels, Total(s.streams, isTransmit) + sdp.numChannels, sdp.ptpMasterMac;
    && -1.0 <= 10.0 * (sdp.sampleRate as real - s.config.deviceRate) <= 1.0
    && 1 <= n <= 128 && n <= |set ch | 0 <= ch < |s.mapper.owners| && s.mapper.owners[ch] == 0|
    && "239." <= sdp.connectionAddress && sdp.port > 0 && env.fitsPacket && env.profileAccepts
    && Within(s.config.profileMaxTotal, total)
    && Within(if isTransmit then s.config.usableTx else s.config.usableRx, total)
    && (sdp.ptpDomain < 0 || !s.config.ptpEnabled || !s.config.requirePtpLock || env.ptpLocked)
    && (s.config.ignoreMismatch || mac == "" || s.grandmaster == "" || SameClock(s.grandmaster, mac))
  }

  lemma {:induction false} StartsWith(prefix: string, s: string)
    ensures prefix <= s <==> |prefix| <= |s| && s[..|prefix|] == prefix
  {
  }

  lemma {:induction false} AdmissionIs(s: State, sdp: SdpSession, isTransmit: bool, env: Env)
    requires Inv(s)
    ensures CanAdd(s, sdp, isTransmit, env) <==> Admissible(s, sdp, isTransmit, env)
  {
    hide Consistent, MapperMatches, StreamsFit, Normalize, SameClock, Total;
    TotalsAreSmall(s);
    StartsWith("239.", sdp.connectionAddress);
    NormalizeIffSame(s.grandmaster, sdp.ptpMasterMac);
    assert FreeChannels(s.mapper.owners) == set ch | 0 <= ch < |s.mapper.owners| && s.mapper.owners[ch] == 0;
  }

  /** A clock is judged by what it is, not by how it is spelt. */
  lemma {:induction false} SpellingIsNotJudged(s: State, sdp: SdpSession, isTransmit: bool, env: Env)
    requires sdp.ptpMasterMac != "" && s.grandmaster != "" && SameClock(s.grandmaster, sdp.ptpMasterMac)
    ensures CanAdd(s, sdp, isTransmit, env) <==> CanAdd(s, sdp.(ptpMasterMac := s.grandmaster), isTransmit, env)
  {
    hide Normalize, SameClock, FreeChannels;
    NormalizeIffSame(s.grandmaster, sdp.ptpMasterMac);
  }

  // ---- what is installed -----------------------------------------------------------------------

  /** A stream took exactly the channels of a mapping; nobody else's changed. */
  ghost predicate OwnersMoved(before: seq<StreamId>, after: seq<StreamId>, id: StreamId, m: ChannelMapping) {
    |before| == |after| == 128 && forall ch :: 0 <= ch < 128 ==>
      if Lands(m, ch) then after[ch] == id else after[ch] == if before[ch] == id then 0 else before[ch]
  }

  ghost predicate ChannelsFree(owners: seq<StreamId>, m: ChannelMapping, own: StreamId) {
    forall ch: nat :: Lands(m, ch) && ch < |owners| ==> owners[ch] == 0 || owners[ch] == own
  }

  /** Adding a receive stream: when it succeeds, and then exactly what is there that was not. */
  lemma {:induction false} AddOutcome(s: State, sdp: SdpSession, mapping: ChannelMapping, attempt: Attempt)
    requires Inv(s)
    ensures var r, id, n := AddStream(s, sdp, mapping, attempt), attempt.id, sdp.numChannels;
      var m := ChannelMapping(id, sdp.sessionName, n, mapping.streamChannelOffset, mapping.deviceChannelStart, n,
                              mapping.routes);
      var ok := && CanAdd(s, sdp, false, attempt.env) && id !in s.streams && ValidMapping(m)
                && ChannelsFree(s.mapper.owners, m, 0) && (s.config.ioActive ==> attempt.env.starts);
      && r.1 == (if ok then id else 0) && (!ok ==> r.0 == s)
      && (ok ==>
          && r.0.streams == s.streams[id := Managed(sdp, m, false, 0)]
          && OwnersMoved(s.mapper.owners, r.0.mapper.owners, id, m)
          && r.0.rx == s.rx + n && r.0.tx == s.tx && r.0.config == s.config && r.0.mapper.usable == s.mapper.usable
          && r.0.grandmaster == if s.grandmaster == "" then sdp.ptpMasterMac else s.grandmaster)
  {
    hide Total, Lands, Normalize, FreeChannels, StreamsFit, ValidMapping, NetworkOk, RateMatches;
    TotalsAreSmall(s);
    NobodyHasNull(s);
    var m := Complete(mapping, attempt.id, sdp.sessionName, sdp.numChannels);
    AddStreamKeepsInv(s, sdp, mapping, attempt);
    FreeIsNoOverlap(s.mapper.owners, m, 0);
    ValidHasId(m);
    if attempt.id !in s.streams && attempt.id != NULL_ID { UnownedBefore(s, attempt.id); }
  }

  /** What is announced of a transmit stream: L24 at the device's rate in whole hertz, payload type 97, 1 ms packets. */
  function Announced(q: TxRequest, rate: U32): SdpSession {
    SdpSession(
      q.name, "", q.time, 1, "-", "", "IN", "IP4", q.address, "IN", "IP4", 32, 0, 0, "audio", q.port, "RTP/AVP", 97,
      "L24", rate, q.numChannels, 1000, 0, "", 0, "", false, "direct=0", q.dscp, "recvonly", map[])
  }

  /**
    Creating a transmit stream under a new identifier: when it succeeds, and then exactly what is there
    that was not.
   */
  lemma {:induction false} CreateTxOutcome(s: State, q: TxRequest, sourcePort: U16, attempt: Attempt)
    requires Inv(s) && attempt.id !in s.streams
    ensures var r, id, n, hz := CreateTxStream(s, q, sourcePort, attempt), attempt.id, q.numChannels,
                                s.config.deviceRate.Floor;
      var sdp := Announced(q, if 0 <= hz < 0x1_0000_0000 then hz else 0);
      var m := ChannelMapping(id, q.name, n, q.mapping.streamChannelOffset, q.mapping.deviceChannelStart, n,
                              q.mapping.routes);
      var ok := && CanAdd(s, sdp, true, attempt.env) && ValidMapping(m)
                && ChannelsFree(s.mapper.owners, m, 0) && (s.config.ioActive ==> attempt.env.starts);
      && r.1 == (if ok then id else 0) && (!ok ==> r.0 == s)
      && (ok ==>
          && r.0.streams == s.streams[id := Managed(sdp, m, true, sourcePort)]
          && OwnersMoved(s.mapper.owners, r.0.mapper.owners, id, m)
          && r.0.tx == s.tx + n && r.0.rx == s.rx && r.0.config == s.config && r.0.mapper.usable == s.mapper.usable
          && r.0.grandmaster == s.grandmaster)
  {
    hide Total, Lands, Normalize, FreeChannels, StreamsFit, ValidMapping, NetworkOk, RateMatches;
    TotalsAreSmall(s);
    NobodyHasNull(s);
    var m := Complete(q.mapping, attempt.id, q.name, q.numChannels);
    CreateTxStreamKeepsInv(s, q, sourcePort, attempt);
    FreeIsNoOverlap(s.mapper.owners, m, 0);
    ValidHasId(m);
    if attempt.id != NULL_ID { UnownedBefore(s, attempt.id); }
  }

  lemma {:induction false} ValidHasId(m: ChannelMapping)
    ensures ValidMapping(m) ==> m.streamId != NULL_ID
  {
  }

  lemma {:induction false} NobodyHasNull(s: State)
    requires Inv(s)
    ensures NULL_ID !in s.streams && |s.mapper.owners| == 128
  {
    assert forall id :: id in s.streams ==> s.mapper.mappings[id].streamId == id && id != NULL_ID;
  }

  lemma {:induction false} UnownedBefore(s: State, id: StreamId)
    requires Inv(s) && id !in s.streams && id != NULL_ID
    ensures forall ch :: 0 <= ch < |s.mapper.owners| ==> s.mapper.owners[ch] != id
  {
  }

  lemma {:induction false} FreeIsNoOverlap(owners: seq<StreamId>, m: ChannelMapping, own: StreamId)
    ensures ChannelsFree(owners, m, own) <==> !Overlaps(owners, m, own)
  {
    hide Lands;
  }

  /**
    A remap: when it succeeds, and then exactly where the stream is, with its routes as given and its
    own name and width.
   */
  lemma {:induction false} RemapOutcome(s: State, id: StreamId, newMapping: ChannelMapping, rtpAccepts: bool)
    requires Inv(s)
    ensures var r := UpdateMapping(s, id, newMapping, rtpAccepts);
      if id !in s.streams then r == (s, false)
      else
        var was, p := s.streams[id], newMapping;
        var m := ChannelMapping(id, was.mapping.streamName, was.sdp.numChannels, p.streamChannelOffset,
                                p.deviceChannelStart, p.deviceChannelCount, p.routes);
        var ok := rtpAccepts && ValidMapping(m) && ChannelsFree(s.mapper.owners, m, id);
        && r.1 == ok && (!ok ==> r.0 == s)
        && (ok ==>
            && r.0.streams == s.streams[id := was.(mapping := m)]
            && OwnersMoved(s.mapper.owners, r.0.mapper.owners, id, m)
            && (forall ch: nat :: ch < 128 ==> (r.0.mapper.owners[ch] == id <==> Lands(newMapping, ch)))
            && r.0.rx == s.rx && r.0.tx == s.tx && r.0.config == s.config && r.0.grandmaster == s.grandmaster)
  {
    hide Total, StreamsFit, ValidMapping;
    UpdateMappingIsAtomic(s, id, newMapping, rtpAccepts);
    NobodyHasNull(s);
    if id in s.streams {
      var was := s.streams[id];
      var m := newMapping.(streamId := id, streamName := was.mapping.streamName,
        streamChannelCount := was.sdp.numChannels);
      FreeIsNoOverlap(s.mapper.owners, m, id);
      SameLanding(newMapping, m);
    }
  }

  /** The channels of a mapping: where its routes end, or the block it was given if it has none. */
  lemma {:induction false} LandsIs(m: ChannelMapping, ch: nat)
    ensures Lands(m, ch) <==>
      if m.routes == [] then m.deviceChannelStart <= ch < m.deviceChannelStart + m.deviceChannelCount
      else exists i :: 0 <= i < |m.routes| && m.routes[i].deviceChannel == ch
  {
    if m.routes == [] {
      BlockLands(m, ch);
    } else {
      assert |DeviceChannels(m)| == |m.routes|;
      assert forall i :: 0 <= i < |m.routes| ==> DeviceChannels(m)[i] == m.routes[i].deviceChannel;
    }
  }

  /** Removing a stream frees exactly its channels and takes its width from its own direction. */
  lemma {:induction false} RemoveOutcome(s: State, id: StreamId)
    requires Inv(s)
    ensures var r := RemoveStream(s, id);
      if id !in s.streams then r == (s, false)
      else
        var n := s.streams[id].sdp.numChannels;
        && r.1 && r.0.streams == s.streams - {id} && r.0.config == s.config && r.0.mapper.usable == s.mapper.usable
        && |r.0.mapper.owners| == 128
        && (forall ch :: 0 <= ch < 128 ==>
            r.0.mapper.owners[ch] == if s.mapper.owners[ch] == id then 0 else s.mapper.owners[ch])
        && r.0.rx == (if s.streams[id].isTransmit then s.rx else s.rx - n)
        && r.0.tx == (if s.streams[id].isTransmit then s.tx - n else s.tx)
  {
    hide Lands, StreamsFit, ElectGrandmaster;
    if id in s.streams {
      TotalsAreSmall(s);
      CloseKeepsInv(s, id);
      TotalsAreSmall(Closed(s, id));
      NobodyHasNull(s);
    }
  }

  lemma {:induction false} SameLanding(a: ChannelMapping, b: ChannelMapping)
    requires a.routes == b.routes && a.deviceChannelStart == b.deviceChannelStart
    requires a.deviceChannelCount == b.deviceChannelCount
    ensures forall ch: nat :: Lands(a, ch) <==> Lands(b, ch)
  {
  }

  /**
    A change of the device's rate is refused outside the range it knows, or if an open stream would no
    longer match.
   */
  lemma {:induction false} RateChangeIs(s: State, rate: real)
    ensures var r := SetDeviceSampleRate(s, rate);
      var ok := 44100.0 <= rate <= 384000.0 && forall id :: id in s.streams ==>
                  -1.0 <= 10.0 * (s.streams[id].sdp.sampleRate as real - rate) <= 1.0;
      r.1 == ok && r.0 == if ok then s.(config := s.config.(deviceRate := rate)) else s
  {
  }

  // ---- where flows go, and how wide they are ---------------------------------------------------

  function AtLeastOne(n: nat): nat { if n == 0 then 1 else n }

  /** A flow is as wide as the driver's 64, the profile and the packet allow, and no narrower. */
  lemma {:induction false} WidthIsWidest(config: Config, budgetPerFlow: U16, n: nat)
    ensures n <= PerFlow(config, budgetPerFlow) <==>
      n <= 64 && n <= AtLeastOne(config.profileMaxPerFlow) && n <= AtLeastOne(budgetPerFlow)
  {
  }

  /**
    Flow i of a group goes to the group's address with i added to its last number, while that is a
    number of a byte.
   */
  lemma {:induction false} FlowAddressIs(config: Config, q: TxRequest, prefix: string, last: nat, i: nat)
    requires !config.dolbyScheme && q.address == prefix + ['.'] + Decimal.Print(last) && last <= 255
    ensures FlowTarget(config, q, i) ==
      if last + i <= 255 then Some((prefix + ['.'] + Decimal.Print(last + i), 0)) else None
  {
    hide Decimal.Print, Text.FindLast;
    var digits := Decimal.Print(last);
    Digits(last);
    Text.FindLastAt(prefix, '.', digits);
    assert q.address[|prefix| + 1..] == digits && q.address[..|prefix| + 1] == prefix + ['.'];
    Decimal.ValueOfPrint(last);
  }

  lemma {:induction false} Digits(n: nat)
    requires n <= 255
    ensures var s := Decimal.Print(n); s != "" && '.' !in s && Decimal.AllDigits(s) && |s| <= 3
  {
    if n >= 10 {
      assert Decimal.Print(n) == Decimal.Print(n / 10) + [Decimal.DigitChar(n % 10)];
      if n >= 100 { assert Decimal.Print(n / 10) == Decimal.Print(n / 100) + [Decimal.DigitChar(n / 10 % 10)]; }
    }
  }

  /** An address whose last part is not one to three digits gives no flow anywhere to go. */
  lemma {:induction false} FlowAddressRefused(config: Config, q: TxRequest, prefix: string, last: string, i: nat)
    requires !config.dolbyScheme && '.' !in last
    requires q.address == last || (q.address == prefix + ['.'] + last && !(1 <= |last| <= 3 && Decimal.AllDigits(last)))
    ensures FlowTarget(config, q, i) == None
  {
    hide Text.FindLast, Decimal.Print, Decimal.Value;
    if q.address != last {
      Text.FindLastAt(prefix, '.', last);
      assert q.address[|prefix| + 1..] == last;
    }
  }

  /** In the Dolby scheme it keeps the address and leaves from the i-th port after the group's, shifted by the unit. */
  lemma {:induction false} FlowPortIs(config: Config, q: TxRequest, i: nat)
    requires config.dolbyScheme && q.port + 1 + config.flowPortOffset + i < 0x1_0000_0000
    ensures var port := q.port + 1 + config.flowPortOffset + i;
      FlowTarget(config, q, i) == if port <= 65535 then Some((q.address, port)) else None
  {
  }
}
