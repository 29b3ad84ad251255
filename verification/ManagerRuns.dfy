/** Short runs from start-up that show where the manager does not do what one would expect of it. */
module ManagerRuns {
  import opened StreamTypes
  import opened ChannelMapper
  import opened Counting
  import opened ManagerModel
  import opened ManagerInvariants
  import opened ManagerFlows
  import opened ManagerFollow
  import Decimal
  import Text

  const Willing: Env := Env(true, true, true, true)

  /** A two-channel source at 10.0.0.1. */
  function Source(name: string, clock: string): SdpSession {
    BlankSession.(sessionName := name, originAddress := "10.0.0.1", connectionAddress := "239.1.1.1",
      ptpMasterMac := clock)
  }

  function BlockFrom(start: U16): ChannelMapping { ChannelMapping(NULL_ID, "", 2, 0, start, 2, []) }

  /** A receive stream of the example runs once it is open. */
  function Sink(sdp: SdpSession, mapping: ChannelMapping, id: StreamId): Managed {
    Managed(sdp, Complete(mapping, id, sdp.sessionName, sdp.numChannels), false, 0)
  }

  /** The settings the example runs leave alone. */
  predicate Plain(c: Config) {
    && c.deviceRate == 48000.0 && c.profileMaxTotal == 0 && c.usableRx == 128 && c.usableTx == 128
    && !c.requirePtpLock && !c.ioActive && c.autoSinkFollow && c.profileMaxPerFlow == 8 && !c.dolbyScheme
  }

  lemma {:induction false} TwoFree(owners: seq<StreamId>, a: nat, b: nat)
    requires a != b && a < |owners| && b < |owners| && owners[a] == owners[b] == NULL_ID
    ensures |FreeChannels(owners)| >= 2
  {
    assert {a, b} <= FreeChannels(owners);
    SubsetSize({a, b}, FreeChannels(owners));
    assert |{a, b}| == 2;
  }

  /** A two-channel sink on two free channels opens. */
  lemma {:induction false} SinkOpens(s: State, sdp: SdpSession, mapping: ChannelMapping, id: StreamId, a: nat, b: nat)
    requires Inv(s) && Plain(s.config) && s.rx <= 100 && id != NULL_ID && id !in s.streams
    requires sdp.sampleRate == 48000 && sdp.numChannels == 2 && NetworkOk(sdp)
    requires ClockAgrees(s.config.ignoreMismatch, s.grandmaster, sdp.ptpMasterMac)
    requires var m := Sink(sdp, mapping, id).mapping;
      ValidMapping(m) && forall ch: nat :: Lands(m, ch) <==> ch == a || ch == b
    requires a != b && a < |s.mapper.owners| && b < |s.mapper.owners|
      && s.mapper.owners[a] == s.mapper.owners[b] == NULL_ID
    ensures var m := Sink(sdp, mapping, id);
      var t := AddStream(s, sdp, mapping, Attempt(id, Willing)).0;
      && Inv(t) && t.config == s.config && t.rx == s.rx + 2 && t.tx == s.tx
      && t.grandmaster == Adopt(s.grandmaster, sdp.ptpMasterMac)
      && t.streams == s.streams[id := m] && |t.mapper.owners| == |s.mapper.owners|
      && forall ch :: 0 <= ch < |t.mapper.owners| ==>
        t.mapper.owners[ch] == if ch == a || ch == b then id else s.mapper.owners[ch]
  {
    hide Inv, Normalize, FreeChannels, ValidMapping, Lands, NetworkOk;
    TwoFree(s.mapper.owners, a, b);
    AddStreamKeepsInv(s, sdp, mapping, Attempt(id, Willing));
    var m := Sink(sdp, mapping, id).mapping;
    assert AddStream(s, sdp, mapping, Attempt(id, Willing)).0.mapper.owners == Claimed(s.mapper.owners, m);
    var t := AddStream(s, sdp, mapping, Attempt(id, Willing)).0;
    forall ch | 0 <= ch < |t.mapper.owners|
      ensures t.mapper.owners[ch] == if ch == a || ch == b then id else s.mapper.owners[ch]
    {
      assert Lands(m, ch) <==> ch == a || ch == b;
    }
  }

  lemma {:induction false} TwoOps(start: State, a: Op, b: Op)
    ensures RunFrom(start, [a, b]) == Apply(Apply(start, a), b)
  {
    hide Apply;
    assert [a, b][..1] == [a];
    var none: seq<Op> := [];
    assert [a][..0] == none && RunFrom(start, none) == start;
    assert RunFrom(start, [a]) == Apply(start, a);
  }

  lemma {:induction false} ThreeOps(start: State, a: Op, b: Op, c: Op)
    ensures RunFrom(start, [a, b, c]) == Apply(Apply(Apply(start, a), b), c)
  {
    hide Apply;
    assert [a, b, c][..2] == [a, b];
    TwoOps(start, a, b);
  }

  // ---- a followed sink that is lost ------------------------------------------------------------

  function Crossed(): ChannelMapping { BlockFrom(0).(routes := [ChannelRoute(0, 4), ChannelRoute(1, 5)]) }

  /** A sink routed onto channels 4 and 5 with its nominal start at 0, then another stream on 0 and 1. */
  function RoutedThenBlock(): seq<Op> {
    [ OpAdd(Source("music", ""), Crossed(), Attempt(7, Willing)),
      OpAdd(Source("speech", ""), BlockFrom(0), Attempt(9, Willing)) ]
  }

  function MovedSource(): SdpSession { Source("music", "").(port := 5006) }

  lemma {:induction false} RoutesLand(id: StreamId)
    ensures var m := Sink(Source("music", ""), Crossed(), id).mapping;
      (forall ch: nat :: Lands(m, ch) <==> ch == 4 || ch == 5) && (id != NULL_ID ==> ValidMapping(m))
  {
    var m := Sink(Source("music", ""), Crossed(), id).mapping;
    assert DeviceChannels(m) == [4, 5];
  }

  lemma {:induction false} BlockOfTwo(sdp: SdpSession, start: U16, id: StreamId)
    requires start <= 100 && sdp.numChannels == 2
    ensures var m := Sink(sdp, BlockFrom(start), id).mapping;
      (forall ch: nat :: Lands(m, ch) <==> ch == start || ch == start + 1) && (id != NULL_ID ==> ValidMapping(m))
  {
    var m := Sink(sdp, BlockFrom(start), id).mapping;
    assert DeviceChannels(m) == [start, start + 1];
  }

  lemma {:induction false} RoutedThenBlockState()
    ensures var s := RunFrom(Initial(), RoutedThenBlock());
      && Inv(s) && Plain(s.config) && |s.mapper.owners| == MAX_DEVICE_CHANNELS && s.mapper.owners[0] == 9
      && s.streams == map[
        7 := Sink(Source("music", ""), Crossed(), 7),
        9 := Sink(Source("speech", ""), BlockFrom(0), 9)]
  {
    hide Inv, AddStream, Lands, ValidMapping, RunFrom;
    var ops := RoutedThenBlock();
    TwoOps(Initial(), ops[0], ops[1]);
    InitialIsExact();
    RoutesLand(7);
    BlockOfTwo(Source("speech", ""), 0, 9);
    assert "239.1.1.1"[..4] == "239.";
    SinkOpens(Initial(), ops[0].sdp, ops[0].mapping, 7, 4, 5);
    SinkOpens(Apply(Initial(), ops[0]), ops[1].sdp, ops[1].mapping, 9, 0, 1);
  }

  lemma {:induction false} SevenAndNine(ids: set<StreamId>)
    requires ids == {7, 9}
    ensures SortedIds(ids) == [7, 9]
  {
    assert |ids| == 2;
    var r := SortedIds(ids);
    assert r[0] in ids && r[1] in ids && r[0] < r[1];
  }

  lemma {:induction false} NothingTransmitted(ops: seq<Op>)
    requires forall op :: op in ops ==> !op.OpCreateTx? && !op.OpCreateFlows?
    ensures FreshRun(Initial(), ops)
  {
    hide RunFrom;
    forall i {:trigger ops[..i]} | 0 <= i < |ops|
      ensures Fresh(RunFrom(Initial(), ops[..i]), ops[i])
    {
      assert ops[i] in ops;
    }
  }

  lemma {:induction false} MovedSourceIs()
    ensures MovedSource().numChannels == 2 && MovedSource().sessionName == "music"
    ensures forall op :: op in RoutedThenBlock() ==> op.OpAdd?
  {
  }

  lemma {:induction false} OnlyMusicFollows()
    ensures var s := RunFrom(Initial(), RoutedThenBlock());
      && s.streams.Keys == {7, 9} && RoundOf(s, MovedSource()) == [Pending(7, 0, MovedSource())]
  {
    hide RunFrom, Inv, SortedIds, RoutedThenBlock;
    RoutedThenBlockState();
    var s := RunFrom(Initial(), RoutedThenBlock());
    SevenAndNine(s.streams.Keys);
    assert [7, 9][..1] == [7] && [7][..0] == [];
    assert Follows(s.streams[7], MovedSource());
    assert !Follows(s.streams[9], MovedSource());
    assert MovedSource().(sessionName := "music") == MovedSource();
  }

  /**
    The source changes its port.  Its sink was on channels 4 and 5, free for the asking, but is re-added
    on its nominal block, which the other stream holds: whatever else is answered, the sink is gone.
   */
  lemma {:induction false} FollowLosesRoutedSink(attempts: nat -> Attempt)
    ensures var s := RunFrom(Initial(), RoutedThenBlock());
      var r := FollowAnnouncement(s, MovedSource(), Announcement, attempts);
      && FreshRun(Initial(), RoutedThenBlock()) && 7 in s.streams && s.config.autoSinkFollow
      && r.1 == 0 && r.0.streams == s.streams - {7}
  {
    hide RunFrom, Inv, Resubscribe, Closed, RoutedThenBlock, MovedSource, SortedIds, PendingOf, FreshRun;
    RoutedThenBlockState();
    MovedSourceIs();
    NothingTransmitted(RoutedThenBlock());
    OnlyMusicFollows();
    var s, p := RunFrom(Initial(), RoutedThenBlock()), Pending(7, 0, MovedSource());
    OccupiedBlockLosesSink(s, p, attempts(0), 0);
    assert [p][..0] == [];
    assert ResubscribeAll(s, [p], attempts) == Resubscribe(s, p, attempts(0));
  }

  // ---- a failed group of flows that changes the clock ------------------------------------------

  /** Mismatches ignored, then two streams that declare different clocks. */
  function TwoClocks(): seq<Op> {
    [ OpConfigure(Defaults.(ignoreMismatch := true)),
      OpAdd(Source("music", "AA"), BlockFrom(0), Attempt(9, Willing)),
      OpAdd(Source("speech", "BB"), BlockFrom(2), Attempt(7, Willing)) ]
  }

  lemma {:induction false} TwoClocksState()
    ensures var s := RunFrom(Initial(), TwoClocks());
      && Inv(s) && Plain(s.config) && s.config.ignoreMismatch && s.grandmaster == "AA" && s.tx == 0
      && |s.mapper.owners| == MAX_DEVICE_CHANNELS && s.mapper.owners[4] == s.mapper.owners[5] == NULL_ID
      && s.streams == map[9 := Sink(Source("music", "AA"), BlockFrom(0), 9),
        7 := Sink(Source("speech", "BB"), BlockFrom(2), 7)]
  {
    hide Inv, AddStream, Lands, ValidMapping, RunFrom;
    var ops := TwoClocks();
    ThreeOps(Initial(), ops[0], ops[1], ops[2]);
    InitialIsExact();
    var s := Apply(Initial(), ops[0]);
    SettingsKeepInv(Initial(), ops[0]);
    BlockOfTwo(Source("music", "AA"), 0, 9);
    BlockOfTwo(Source("speech", "BB"), 2, 7);
    assert "239.1.1.1"[..4] == "239.";
    SinkOpens(s, ops[1].sdp, ops[1].mapping, 9, 0, 1);
    SinkOpens(Apply(s, ops[1]), ops[2].sdp, ops[2].mapping, 7, 2, 3);
  }

  lemma {:induction false} ClockOfTwo()
    ensures ElectGrandmaster(RunFrom(Initial(), TwoClocks()).streams) == "BB"
    ensures Normalize("AA") == "AA" && Normalize("BB") == "BB"
  {
    hide RunFrom, Inv, SortedIds, TwoClocks;
    TwoClocksState();
    SevenAndNine(RunFrom(Initial(), TwoClocks()).streams.Keys);
    assert "AA"[1..] == "A" && "A"[1..] == "" && "BB"[1..] == "B" && "B"[1..] == "";
  }

  /** Two flows of one channel each, at the last address of a subnet: the second has nowhere to go. */
  function LastAddress(): TxRequest { TxRequest("program", "239.1.1.255", 5004, 2, BlockFrom(4), -1, 0) }

  lemma {:induction false} LastAddressTargets(config: Config)
    requires !config.dolbyScheme
    ensures FlowTarget(config, LastAddress(), 0) == Some(("239.1.1.255", 0))
      && FlowTarget(config, LastAddress(), 1) == None
  {
    Text.FindLastAt("239.1.1", '.', "255");
    assert "239.1.1" + ['.'] + "255" == "239.1.1.255";
    assert "239.1.1.255"[..8] == "239.1.1." && "239.1.1.255"[8..] == "255";
    assert "255"[..2] == "25" && "25"[..1] == "2" && "2"[..0] == "";
    assert Decimal.Value("2") == 2;
    assert Decimal.Value("25") == 25;
    assert Decimal.Value("255") == 255;
    assert Decimal.Print(255) == "255" by {
      assert Decimal.Print(2) == "2";
      assert Decimal.Print(25) == "25";
    }
  }

  lemma {:induction false} FirstFlowRequest()
    ensures FlowCount(2, 1) == 2
    ensures var q := FlowRequest(LastAddress(), "239.1.1.255", 1, 0);
      && q.address == "239.1.1.255" && q.port == 5004 && q.numChannels == 1 && q.mapping.routes == []
      && q.mapping.deviceChannelStart == 4
  {
  }

  /** A one-channel transmit stream on a free channel opens. */
  lemma {:induction false} FlowOpens(s: State, q: TxRequest, id: StreamId)
    requires Inv(s) && Plain(s.config) && s.tx == 0 && id != NULL_ID && id !in s.streams
    requires q.address == "239.1.1.255" && q.port == 5004 && q.numChannels == 1 && q.mapping.routes == []
    requires q.mapping.deviceChannelStart == 4 && |s.mapper.owners| == MAX_DEVICE_CHANNELS
    requires s.mapper.owners[4] == s.mapper.owners[5] == NULL_ID
    ensures CreateTxStream(s, q, 0, Attempt(id, Willing)).1 == id
    ensures CreateTxStream(s, q, 0, Attempt(id, Willing)).0.config == s.config
  {
    hide Inv, FreeChannels, Normalize, Lands;
    TwoFree(s.mapper.owners, 4, 5);
    assert q.address[..4] == "239.";
    var m := Complete(q.mapping, id, q.name, q.numChannels);
    forall ch: nat
      ensures Lands(m, ch) <==> ch == 4
    {
      BlockLands(m, ch);
    }
  }

  /**
    The flows fail, and the streams, channels and totals are those before; but the clock later streams
    are judged by was "AA" and is now "BB".
   */
  lemma {:induction false} FailedFlowsChangeClock(attempts: nat -> Attempt)
    requires attempts(0) == Attempt(11, Willing) && attempts(1) == Attempt(12, Willing)
    ensures var s := RunFrom(Initial(), TwoClocks());
      var r := CreateTxStreamFlows(s, LastAddress(), 1, attempts);
      && FreshRun(Initial(), TwoClocks()) && FreshAttempts(s, attempts, 2)
      && r.1 == [] && r.0 == s.(grandmaster := "BB") && Normalize(r.0.grandmaster) != Normalize(s.grandmaster)
  {
    hide RunFrom, Inv, FlowTarget, FlowRequest, CreateTxStream, ElectGrandmaster, Normalize, FreshRun, TwoClocks,
         FlowCount;
    TwoClocksState();
    ClockOfTwo();
    ClocksOps();
    NothingTransmitted(TwoClocks());
    var s := RunFrom(Initial(), TwoClocks());
    LastAddressTargets(s.config);
    FirstFlowRequest();
    FlowOpens(s, FlowRequest(LastAddress(), "239.1.1.255", 1, 0), 11);
    FlowsAreAllOrNothing(s, LastAddress(), 1, attempts);
  }

  lemma {:induction false} ClocksOps()
    ensures forall op :: op in TwoClocks() ==> op.OpConfigure? || op.OpAdd?
  {
  }
}
