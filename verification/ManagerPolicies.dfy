/** Clock agreement, channel caps and source-following over whole runs of the stream manager. */
module ManagerPolicies {
  import opened StreamTypes
  import opened ChannelMapper
  import opened ManagerModel
  import opened ManagerInvariants
  import Counting

  // ---- one grandmaster -------------------------------------------------------------------------

  ghost predicate Declares(m: Managed) { m.sdp.ptpMasterMac != "" }

  /** The streams that declare a clock agree on it; the recorded one is theirs, and empty iff none declares. */
  ghost predicate ClocksAgree(s: State) {
    && (s.grandmaster == "" <==> forall id :: id in s.streams ==> !Declares(s.streams[id]))
    && forall id :: id in s.streams && Declares(s.streams[id]) ==>
        Normalize(s.streams[id].sdp.ptpMasterMac) == Normalize(s.grandmaster)
  }

  lemma {:induction false} FirstDeclaredIsOne(ids: seq<StreamId>, streams: map<StreamId, Managed>)
    requires forall id :: id in ids ==> id in streams
    ensures var gm := FirstDeclared(ids, streams);
      if gm == "" then forall id :: id in ids ==> !Declares(streams[id])
      else exists id :: id in ids && Declares(streams[id]) && streams[id].sdp.ptpMasterMac == gm
  {
    if ids == [] {
    } else {
      FirstDeclaredIsOne(ids[1..], streams);
      assert ids == [ids[0]] + ids[1..];
    }
  }

  lemma {:induction false} ElectIsOne(streams: map<StreamId, Managed>)
    ensures var gm := ElectGrandmaster(streams);
      if gm == "" then forall id :: id in streams ==> !Declares(streams[id])
      else exists id :: id in streams && Declares(streams[id]) && streams[id].sdp.ptpMasterMac == gm
  {
    FirstDeclaredIsOne(SortedIds(streams.Keys), streams);
  }

  lemma {:induction false} CloseKeepsClocks(s: State, id: StreamId)
    requires ClocksAgree(s) && id in s.streams
    ensures ClocksAgree(Closed(s, id))
  {
    hide ElectGrandmaster, Removed, Normalize;
    ElectIsOne(s.streams - {id});
  }

  lemma {:induction false} OpenKeepsClocks(s: State, id: StreamId, m: Managed, env: Env)
    requires ClocksAgree(s) && ClockAgrees(false, s.grandmaster, m.sdp.ptpMasterMac) && id !in s.streams
    ensures ClocksAgree(Open(s, id, m, env).0)
  {
    hide Normalize, Accepts, Added, Removed;
    var t := Opened(s, id, m);
    assert t.streams[id] == m;
    assert forall x :: x in s.streams ==> t.streams[x] == s.streams[x];
  }

  lemma {:induction false} AddKeepsClocks(s: State, sdp: SdpSession, mapping: ChannelMapping, attempt: Attempt)
    requires ClocksAgree(s) && !s.config.ignoreMismatch
    ensures ClocksAgree(AddStream(s, sdp, mapping, attempt).0)
  {
    hide ClocksAgree, Open;
    if CanAdd(s, sdp, false, attempt.env) && attempt.id !in s.streams {
      OpenKeepsClocks(s, attempt.id,
        Managed(sdp, Complete(mapping, attempt.id, sdp.sessionName, sdp.numChannels), false, 0), attempt.env);
    }
  }

  lemma {:induction false} AddAutoKeepsClocks(s: State, sdp: SdpSession, attempt: Attempt)
    requires ClocksAgree(s) && !s.config.ignoreMismatch
    ensures ClocksAgree(AddStreamAuto(s, sdp, attempt).0)
  {
    hide ClocksAgree, AddStream;
    var m := DefaultMapping(s.mapper, NULL_ID, sdp.sessionName, sdp.numChannels);
    if m.Some? { AddKeepsClocks(s, sdp, m.value, attempt); }
  }

  lemma {:induction false} CreateTxKeepsClocks(s: State, q: TxRequest, sourcePort: U16, attempt: Attempt)
    requires ClocksAgree(s) && attempt.id !in s.streams
    ensures ClocksAgree(CreateTxStream(s, q, sourcePort, attempt).0)
  {
    hide ClocksAgree, Open, CanAdd;
    var sdp := TxSession(q.name, q.address, q.port, q.numChannels, s.config.deviceRate, q.dscp, q.time);
    OpenKeepsClocks(s, attempt.id,
      Managed(sdp, Complete(q.mapping, attempt.id, q.name, q.numChannels), true, sourcePort), attempt.env);
  }

  lemma {:induction false} RemoveEachKeepsClocks(s: State, ids: seq<StreamId>)
    requires ClocksAgree(s)
    ensures ClocksAgree(RemoveEach(s, ids))
    decreases |ids|
  {
    hide ClocksAgree, Closed;
    if ids == [] {
    } else {
      if ids[0] in s.streams { CloseKeepsClocks(s, ids[0]); }
      RemoveEachKeepsClocks(RemoveStream(s, ids[0]).0, ids[1..]);
    }
  }

  lemma {:induction false} FlowsKeepClocks(
      s: State, q: TxRequest, perFlow: nat, attempts: nat -> Attempt, flow: nat, created: seq<StreamId>)
    requires ClocksAgree(s) && perFlow > 0
    requires forall i :: flow <= i < FlowCount(q.numChannels, perFlow) ==> attempts(i).id !in s.streams
    requires forall i, j :: flow <= i < j < FlowCount(q.numChannels, perFlow) ==> attempts(i).id != attempts(j).id
    ensures ClocksAgree(CreateFlowsFrom(s, q, perFlow, attempts, flow, created).0)
    decreases FlowCount(q.numChannels, perFlow) - flow
  {
    hide ClocksAgree, CreateTxStream, FlowTarget, FlowRequest, FlowCount, RemoveEach;
    if flow < FlowCount(q.numChannels, perFlow) {
      var target := FlowTarget(s.config, q, flow);
      if target.None? {
        RemoveEachKeepsClocks(s, created);
      } else {
        var request := FlowRequest(q, target.value.0, perFlow, flow);
        CreateTxKeepsClocks(s, request, target.value.1, attempts(flow));
        var r := CreateTxStream(s, request, target.value.1, attempts(flow));
        if r.1 == NULL_ID {
          RemoveEachKeepsClocks(r.0, created);
        } else {
          CreatedIsNew(s, request, target.value.1, attempts(flow));
          FlowsKeepClocks(r.0, q, perFlow, attempts, flow + 1, created + [r.1]);
        }
      }
    }
  }

  lemma {:induction false} UpdateMappingKeepsClocks(s: State, id: StreamId, newMapping: ChannelMapping,
        rtpAccepts: bool)
    requires ClocksAgree(s)
    ensures ClocksAgree(UpdateMapping(s, id, newMapping, rtpAccepts).0)
  {
    hide Normalize, Accepts, Updated;
    var t := UpdateMapping(s, id, newMapping, rtpAccepts).0;
    assert t.streams.Keys == s.streams.Keys && t.grandmaster == s.grandmaster;
    assert forall x :: x in s.streams ==> t.streams[x].sdp == s.streams[x].sdp;
  }

  lemma {:induction false} ResubscribeAllKeepsClocks(s: State, pending: seq<Pending>, attempts: nat -> Attempt)
    requires ClocksAgree(s) && !s.config.ignoreMismatch
    ensures ClocksAgree(ResubscribeAll(s, pending, attempts).0)
    ensures ResubscribeAll(s, pending, attempts).0.config == s.config
    decreases |pending|
  {
    hide ClocksAgree, AddStream, Closed;
    if pending == [] {
    } else {
      var n := |pending| - 1;
      ResubscribeAllKeepsClocks(s, pending[..n], attempts);
      var t, p := ResubscribeAll(s, pending[..n], attempts).0, pending[n];
      if p.id in t.streams {
        CloseKeepsClocks(t, p.id);
        CloseAndAddKeepConfig(t, p, attempts(n));
        AddKeepsClocks(Closed(t, p.id), p.newSdp, BlockMapping(p), attempts(n));
      }
    }
  }

  lemma {:induction false} CloseAndAddKeepConfig(s: State, p: Pending, attempt: Attempt)
    requires p.id in s.streams
    ensures Closed(s, p.id).config == s.config
    ensures AddStream(Closed(s, p.id), p.newSdp, BlockMapping(p), attempt).0.config == s.config
  {
  }

  lemma {:induction false} RestoreKeepsClocks(s: State, c: Saved, env: Env)
    requires ClocksAgree(s) && !s.config.ignoreMismatch
    ensures ClocksAgree(Restore(s, c, env).0) && Restore(s, c, env).0.config == s.config
  {
    hide ClocksAgree, Accepts, ValidMapping;
    if c.mapping.streamId !in s.streams && CanAdd(s, c.sdp, false, env) {
      OpenKeepsClocks(s, c.mapping.streamId, Managed(c.sdp, c.mapping, c.isTransmit, 0), env);
    }
  }

  lemma {:induction false} LoadKeepsClocks(s: State, saved: seq<Saved>, envs: nat -> Env)
    requires ClocksAgree(s) && !s.config.ignoreMismatch
    ensures ClocksAgree(LoadSavedStreams(s, saved, envs).0) && LoadSavedStreams(s, saved, envs).0.config == s.config
    decreases |saved|
  {
    hide ClocksAgree, Restore;
    if saved == [] {
    } else {
      var n := |saved| - 1;
      LoadKeepsClocks(s, saved[..n], envs);
      RestoreKeepsClocks(LoadSavedStreams(s, saved[..n], envs).0, saved[n], envs(n));
    }
  }

  lemma {:induction false} ApplyKeepsClocks(s: State, op: Op)
    requires ClocksAgree(s) && !s.config.ignoreMismatch && Fresh(s, op)
    ensures ClocksAgree(Apply(s, op))
  {
    hide AddStream, AddStreamAuto, CreateTxStream, UpdateMapping, ResubscribeAll, LoadSavedStreams, CreateFlowsFrom,
      Closed, Normalize, PendingOf, FlowCount, SortedIds, RateMatches, Cleared;
    match op
    case OpAdd(sdp, mapping, attempt) => AddKeepsClocks(s, sdp, mapping, attempt);
    case OpAddAuto(sdp, attempt) => AddAutoKeepsClocks(s, sdp, attempt);
    case OpRemove(id) => if id in s.streams { CloseKeepsClocks(s, id); }
    case OpRemoveAll => ElectIsOne(map[]);
    case OpCreateTx(q, sourcePort, attempt) => CreateTxKeepsClocks(s, q, sourcePort, attempt);
    case OpCreateFlows(q, budget, attempts) =>
      FlowCountIsCeiling(q.numChannels, PerFlow(s.config, budget));
      FlowsKeepClocks(s, q, PerFlow(s.config, budget), attempts, 0, []);
    case OpUpdateMapping(id, mapping, rtpAccepts) => UpdateMappingKeepsClocks(s, id, mapping, rtpAccepts);
    case OpFollow(announced, trigger, attempts) =>
      ResubscribeAllKeepsClocks(s, PendingOf(SortedIds(s.streams.Keys), s.streams, announced), attempts);
    case OpLoad(saved, envs) => LoadKeepsClocks(s, saved, envs);
    case _ =>
  }

  /** Mismatches are policed before every operation of the run. */
  ghost predicate Policed(start: State, ops: seq<Op>) {
    forall i {:trigger ops[..i]} :: 0 <= i < |ops| ==> !RunFrom(start, ops[..i]).config.ignoreMismatch
  }

  /** Over every policed run the declared grandmasters agree and the recorded one is theirs. */
  lemma {:induction false} ClocksAgreeInEveryRun(start: State, ops: seq<Op>)
    requires ClocksAgree(start) && FreshRun(start, ops) && Policed(start, ops)
    ensures ClocksAgree(RunFrom(start, ops))
    decreases |ops|
  {
    hide ClocksAgree, Apply, FreshRun, Fresh;
    if ops == [] {
    } else {
      var n := |ops| - 1;
      FreshPrefix(start, ops);
      assert !RunFrom(start, ops[..n]).config.ignoreMismatch;
      forall i {:trigger ops[..n][..i]} | 0 <= i < n
        ensures !RunFrom(start, ops[..n][..i]).config.ignoreMismatch
      {
        assert ops[..n][..i] == ops[..i];
      }
      ClocksAgreeInEveryRun(start, ops[..n]);
      ApplyKeepsClocks(RunFrom(start, ops[..n]), ops[n]);
    }
  }

  lemma {:induction false} InitialClocksAgree()
    ensures ClocksAgree(Initial())
  {
  }

  /** Electing again among the same streams may change the spelling recorded, never the clock. */
  lemma {:induction false} ReelectionKeepsClock(s: State)
    requires ClocksAgree(s)
    ensures Normalize(ElectGrandmaster(s.streams)) == Normalize(s.grandmaster)
    ensures ClocksAgree(s.(grandmaster := ElectGrandmaster(s.streams)))
  {
    hide ElectGrandmaster, Normalize;
    ElectIsOne(s.streams);
  }

  // ---- channel caps ----------------------------------------------------------------------------

  predicate WithinCap(cap: U32, total: nat) { cap > 0 ==> total <= cap }

  predicate WithinLimits(s: State, isTransmit: bool) {
    var total := if isTransmit then s.tx else s.rx;
    WithinCap(s.config.profileMaxTotal, total)
      && WithinCap(if isTransmit then s.config.usableTx else s.config.usableRx, total)
  }

  predicate SameLimits(a: Config, b: Config) {
    a.profileMaxTotal == b.profileMaxTotal && a.usableRx == b.usableRx && a.usableTx == b.usableTx
  }

  lemma {:induction false} CloseKeepsLimits(s: State, id: StreamId, isTransmit: bool)
    requires Inv(s) && WithinLimits(s, isTransmit) && id in s.streams
    ensures WithinLimits(Closed(s, id), isTransmit)
  {
    hide Consistent, MapperMatches, StreamsFit, ElectGrandmaster, Removed;
    ClosedTotals(s, id);
    TotalWithout(s.streams, id, isTransmit);
    assert Closed(s, id).streams == s.streams - {id};
  }

  lemma {:induction false} OpenKeepsLimits(s: State, id: StreamId, m: Managed, env: Env, isTransmit: bool)
    requires Inv(s) && WithinLimits(s, isTransmit) && m.sdp.numChannels <= 128
    requires m.isTransmit == isTransmit ==> CanAdd(s, m.sdp, isTransmit, env)
    ensures WithinLimits(Open(s, id, m, env).0, isTransmit)
  {
  }

  lemma {:induction false} TotalsAreSmall(s: State)
    requires Inv(s)
    ensures s.rx <= 128 * 128 && s.tx <= 128 * 128
  {
    TotalsNeverWrap(s);
  }

  lemma {:induction false} AddKeepsLimits(s: State, sdp: SdpSession, mapping: ChannelMapping, attempt: Attempt,
        isTransmit: bool)
    requires Inv(s) && WithinLimits(s, isTransmit)
    ensures WithinLimits(AddStream(s, sdp, mapping, attempt).0, isTransmit)
  {
    hide Inv, WithinLimits, Open;
    if CanAdd(s, sdp, false, attempt.env) {
      OpenKeepsLimits(s, attempt.id,
        Managed(sdp, Complete(mapping, attempt.id, sdp.sessionName, sdp.numChannels), false, 0),
                      attempt.env, isTransmit);
    }
  }

  lemma {:induction false} CreateTxKeepsLimits(s: State, q: TxRequest, sourcePort: U16, attempt: Attempt,
        isTransmit: bool)
    requires Inv(s) && WithinLimits(s, isTransmit)
    ensures WithinLimits(CreateTxStream(s, q, sourcePort, attempt).0, isTransmit)
  {
    hide Inv, WithinLimits, Open, NetworkOk, RateMatches;
    var sdp := TxSession(q.name, q.address, q.port, q.numChannels, s.config.deviceRate, q.dscp, q.time);
    if CanAdd(s, sdp, true, attempt.env) {
      OpenKeepsLimits(s, attempt.id,
        Managed(sdp, Complete(q.mapping, attempt.id, q.name, q.numChannels), true, sourcePort),
                      attempt.env, isTransmit);
    }
  }

  lemma {:induction false} RemoveEachKeepsLimits(s: State, ids: seq<StreamId>, isTransmit: bool)
    requires Inv(s) && WithinLimits(s, isTransmit)
    ensures WithinLimits(RemoveEach(s, ids), isTransmit)
    decreases |ids|
  {
    hide Inv, WithinLimits, Closed;
    if ids == [] {
    } else {
      if ids[0] in s.streams {
        CloseKeepsLimits(s, ids[0], isTransmit);
        CloseKeepsInv(s, ids[0]);
      }
      RemoveEachKeepsLimits(RemoveStream(s, ids[0]).0, ids[1..], isTransmit);
    }
  }

  lemma {:induction false} FlowsKeepLimits(s: State, q: TxRequest, perFlow: nat, attempts: nat -> Attempt, flow: nat,
                                           created: seq<StreamId>, isTransmit: bool)
    requires Inv(s) && WithinLimits(s, isTransmit) && perFlow > 0
    requires forall i :: flow <= i < FlowCount(q.numChannels, perFlow) ==> attempts(i).id !in s.streams
    requires forall i, j :: flow <= i < j < FlowCount(q.numChannels, perFlow) ==> attempts(i).id != attempts(j).id
    ensures WithinLimits(CreateFlowsFrom(s, q, perFlow, attempts, flow, created).0, isTransmit)
    decreases FlowCount(q.numChannels, perFlow) - flow
  {
    hide Inv, WithinLimits, CreateTxStream, FlowTarget, FlowRequest, FlowCount, RemoveEach;
    if flow < FlowCount(q.numChannels, perFlow) {
      var target := FlowTarget(s.config, q, flow);
      if target.None? {
        RemoveEachKeepsLimits(s, created, isTransmit);
      } else {
        var request := FlowRequest(q, target.value.0, perFlow, flow);
        CreateTxKeepsLimits(s, request, target.value.1, attempts(flow), isTransmit);
        CreateTxStreamKeepsInv(s, request, target.value.1, attempts(flow));
        var r := CreateTxStream(s, request, target.value.1, attempts(flow));
        if r.1 == NULL_ID {
          RemoveEachKeepsLimits(r.0, created, isTransmit);
        } else {
          CreatedIsNew(s, request, target.value.1, attempts(flow));
          FlowsKeepLimits(r.0, q, perFlow, attempts, flow + 1, created + [r.1], isTransmit);
        }
      }
    }
  }

  lemma {:induction false} ResubscribeAllKeepsLimits(s: State, pending: seq<Pending>, attempts: nat -> Attempt,
        isTransmit: bool)
    requires Inv(s) && WithinLimits(s, isTransmit)
    ensures WithinLimits(ResubscribeAll(s, pending, attempts).0, isTransmit)
    decreases |pending|
  {
    hide Inv, WithinLimits, AddStream, Closed;
    if pending == [] {
    } else {
      var n := |pending| - 1;
      ResubscribeAllKeepsLimits(s, pending[..n], attempts, isTransmit);
      ResubscribeAllKeepsInv(s, pending[..n], attempts);
      var t, p := ResubscribeAll(s, pending[..n], attempts).0, pending[n];
      if p.id in t.streams {
        CloseKeepsLimits(t, p.id, isTransmit);
        CloseKeepsInv(t, p.id);
        AddKeepsLimits(Closed(t, p.id), p.newSdp, BlockMapping(p), attempts(n), isTransmit);
      }
    }
  }

  lemma {:induction false} RestoreKeepsLimits(s: State, c: Saved, env: Env, isTransmit: bool)
    requires Inv(s) && WithinLimits(s, isTransmit) && !(isTransmit && c.isTransmit)
    ensures WithinLimits(Restore(s, c, env).0, isTransmit)
  {
  }

  lemma {:induction false} LoadKeepsLimits(s: State, saved: seq<Saved>, envs: nat -> Env, isTransmit: bool)
    requires Inv(s) && WithinLimits(s, isTransmit)
    requires isTransmit ==> forall c :: c in saved ==> !c.isTransmit
    ensures WithinLimits(LoadSavedStreams(s, saved, envs).0, isTransmit)
    decreases |saved|
  {
    hide Inv, WithinLimits, Restore;
    if saved == [] {
    } else {
      var n := |saved| - 1;
      LoadKeepsLimits(s, saved[..n], envs, isTransmit);
      LoadKeepsInv(s, saved[..n], envs);
      RestoreKeepsLimits(LoadSavedStreams(s, saved[..n], envs).0, saved[n], envs(n), isTransmit);
    }
  }

  /** No saved transmit stream is restored by the operation. */
  predicate RestoresNoTransmit(op: Op) { op.OpLoad? ==> forall c :: c in op.saved ==> !c.isTransmit }

  lemma {:induction false} ApplyKeepsLimits(s: State, op: Op, isTransmit: bool)
    requires Inv(s) && WithinLimits(s, isTransmit) && Fresh(s, op) && SameLimits(Apply(s, op).config, s.config)
    requires isTransmit ==> RestoresNoTransmit(op)
    ensures WithinLimits(Apply(s, op), isTransmit)
  {
    hide Inv, AddStream, CreateTxStream, ResubscribeAll, LoadSavedStreams, CreateFlowsFrom,
      Closed, PendingOf, FlowCount, Accepts, Updated, SortedIds, ElectGrandmaster, RateMatches, DefaultMapping;
    match op
    case OpAdd(sdp, mapping, attempt) => AddKeepsLimits(s, sdp, mapping, attempt, isTransmit);
    case OpAddAuto(sdp, attempt) =>
      var m := DefaultMapping(s.mapper, NULL_ID, sdp.sessionName, sdp.numChannels);
      if m.Some? { AddKeepsLimits(s, sdp, m.value, attempt, isTransmit); }
    case OpRemove(id) => if id in s.streams { CloseKeepsLimits(s, id, isTransmit); }
    case OpCreateTx(q, sourcePort, attempt) => CreateTxKeepsLimits(s, q, sourcePort, attempt, isTransmit);
    case OpCreateFlows(q, budget, attempts) =>
      FlowCountIsCeiling(q.numChannels, PerFlow(s.config, budget));
      FlowsKeepLimits(s, q, PerFlow(s.config, budget), attempts, 0, [], isTransmit);
    case OpFollow(announced, trigger, attempts) =>
      ResubscribeAllKeepsLimits(s, PendingOf(SortedIds(s.streams.Keys), s.streams, announced), attempts, isTransmit);
    case OpLoad(saved, envs) => LoadKeepsLimits(s, saved, envs, isTransmit);
    case _ =>
  }

  ghost predicate FixedLimits(start: State, ops: seq<Op>) {
    forall i {:trigger ops[..i]} :: 0 <= i < |ops| ==>
      SameLimits(Apply(RunFrom(start, ops[..i]), ops[i]).config, RunFrom(start, ops[..i]).config)
  }

  /**
    With fixed limits the receive total never passes the user's or the profile's cap, in any run; nor
    does the transmit total, in any run that restores no transmit stream from disk.
   */
  lemma {:induction false} CapsHoldInEveryRun(start: State, ops: seq<Op>, isTransmit: bool)
    requires Inv(start) && WithinLimits(start, isTransmit) && FreshRun(start, ops) && FixedLimits(start, ops)
    requires isTransmit ==> forall op :: op in ops ==> RestoresNoTransmit(op)
    ensures WithinLimits(RunFrom(start, ops), isTransmit)
    decreases |ops|
  {
    hide Inv, WithinLimits, Apply, FreshRun, Fresh, SameLimits;
    if ops == [] {
    } else {
      var n := |ops| - 1;
      FreshPrefix(start, ops);
      ReachableStatesAreExact(start, ops[..n]);
      assert SameLimits(Apply(RunFrom(start, ops[..n]), ops[n]).config, RunFrom(start, ops[..n]).config);
      forall i {:trigger ops[..n][..i]} | 0 <= i < n
        ensures SameLimits(Apply(RunFrom(start, ops[..n][..i]), ops[..n][i]).config,
          RunFrom(start, ops[..n][..i]).config)
      {
        assert ops[..n][..i] == ops[..i];
      }
      CapsHoldInEveryRun(start, ops[..n], isTransmit);
      ApplyKeepsLimits(RunFrom(start, ops[..n]), ops[n], isTransmit);
    }
  }

  /**
    A restored transmit stream is admitted against the receive limits: the transmit caps hold after it
    iff it happened to fit.
   */
  lemma {:induction false} RestoredTransmitIgnoresCap(s: State, c: Saved, env: Env)
    requires Inv(s) && c.isTransmit && Restore(s, c, env).1
    ensures WithinLimits(Restore(s, c, env).0, true) <==>
      WithinCap(s.config.profileMaxTotal, s.tx + c.sdp.numChannels)
        && WithinCap(s.config.usableTx, s.tx + c.sdp.numChannels)
  {
    hide Inv, Added, Adopt, NetworkOk, RateMatches, ValidMapping;
    TotalsAreSmall(s);
    U32Exact(s.tx, c.sdp.numChannels);
  }

  /** And it can fail to fit: sixteen channels restored past a limit of eight. */
  lemma {:induction false} RestoredTransmitPassesCap()
    ensures exists s: State, c: Saved, env: Env ::
              Inv(s) && WithinLimits(s, true) && c.isTransmit && Restore(s, c, env).1
                && !WithinLimits(Restore(s, c, env).0, true)
  {
    var s := Initial().(config := Defaults.(usableTx := 8));
    var sdp := BlankSession.(sessionName := "program", connectionAddress := "239.1.1.1", numChannels := 16);
    var c := Saved(sdp, ChannelMapping(1, "program", 16, 0, 0, 16, []), true, true);
    var env := Env(true, true, true, true);
    InitialIsExact();
    assert Inv(s);
    FreeChannelsOfNobody();
    assert sdp.connectionAddress[..4] == "239.";
    assert Accepts(s.mapper, c.mapping, NULL_ID);
    assert Restore(s, c, env).1;
  }

  lemma {:induction false} FreeChannelsOfNobody()
    ensures |FreeChannels(NoOwners())| == MAX_DEVICE_CHANNELS
  {
    assert FreeChannels(NoOwners()) == Counting.Interval(0, MAX_DEVICE_CHANNELS);
  }
}
