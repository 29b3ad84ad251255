/** What the stream manager keeps over whole runs, and what its compound operations achieve. */
module ManagerInvariants {
  import opened StreamTypes
  import opened ChannelMapper
  import opened ManagerModel
  import opened Counting

  // ---- channel totals --------------------------------------------------------------------------

  function Weight(m: Managed, isTransmit: bool): nat { if m.isTransmit == isTransmit then m.sdp.numChannels else 0 }

  /** Channels of the open streams of one direction. */
  ghost function Total(streams: map<StreamId, Managed>, isTransmit: bool): nat
    decreases |streams|
  {
    if streams == map[] then 0
    else
      var id := Least(streams.Keys);
      Weight(streams[id], isTransmit) + Total(streams - {id}, isTransmit)
  }

  lemma {:induction false} TotalWithout(streams: map<StreamId, Managed>, id: StreamId, isTransmit: bool)
    requires id in streams
    ensures Total(streams, isTransmit) == Weight(streams[id], isTransmit) + Total(streams - {id}, isTransmit)
    decreases |streams|
  {
    var least := Least(streams.Keys);
    if least != id {
      TotalWithout(streams - {least}, id, isTransmit);
      var rest := streams - {id};
      assert least in rest.Keys && forall x :: x in rest.Keys ==> least <= x;
      assert Least(rest.Keys) == least;
      assert (streams - {least}) - {id} == rest - {least};
    }
  }

  lemma {:induction false} TotalWith(streams: map<StreamId, Managed>, id: StreamId, m: Managed, isTransmit: bool)
    requires id !in streams
    ensures Total(streams[id := m], isTransmit) == Total(streams, isTransmit) + Weight(m, isTransmit)
  {
    TotalWithout(streams[id := m], id, isTransmit);
    assert streams[id := m] - {id} == streams;
  }

  lemma {:induction false} TotalBound(streams: map<StreamId, Managed>, isTransmit: bool)
    requires forall id :: id in streams ==> streams[id].sdp.numChannels <= 128
    ensures Total(streams, isTransmit) <= 128 * |streams|
    decreases |streams|
  {
    if streams == map[] {
    } else {
      var id := Least(streams.Keys);
      TotalBound(streams - {id}, isTransmit);
    }
  }

  /** Remapping a stream leaves the totals alone. */
  lemma {:induction false} TotalRemapped(streams: map<StreamId, Managed>, id: StreamId, m: ChannelMapping,
        isTransmit: bool)
    requires id in streams
    ensures Total(streams[id := streams[id].(mapping := m)], isTransmit) == Total(streams, isTransmit)
  {
    var changed := streams[id := streams[id].(mapping := m)];
    TotalWithout(streams, id, isTransmit);
    TotalWithout(changed, id, isTransmit);
    assert changed - {id} == streams - {id};
  }

  /** Fewer streams, each as wide: no larger total. */
  lemma {:induction false} TotalOfPart(part: map<StreamId, Managed>, all: map<StreamId, Managed>, isTransmit: bool)
    requires forall id :: id in part ==> id in all && Weight(part[id], isTransmit) == Weight(all[id], isTransmit)
    ensures Total(part, isTransmit) <= Total(all, isTransmit)
    decreases |part|
  {
    if part == map[] {
    } else {
      var id := Least(part.Keys);
      TotalWithout(all, id, isTransmit);
      TotalOfPart(part - {id}, all - {id}, isTransmit);
    }
  }

  // ---- the invariant ---------------------------------------------------------------------------

  /** The mapper holds exactly the open streams, each with its own mapping. */
  ghost predicate MapperMatches(s: State) {
    && s.mapper.mappings.Keys == s.streams.Keys
    && forall id :: id in s.streams ==> s.mapper.mappings[id] == s.streams[id].mapping
  }

  ghost predicate StreamsFit(s: State) {
    forall id :: id in s.streams ==>
      && 0 < s.streams[id].sdp.numChannels <= 128 && NetworkOk(s.streams[id].sdp)
      && RateMatches(s.streams[id].sdp.sampleRate, s.config.deviceRate)
  }

  ghost predicate TotalsExact(s: State) {
    s.rx == Total(s.streams, false) && s.tx == Total(s.streams, true)
  }

  ghost predicate Inv(s: State) {
    Consistent(s.mapper) && MapperMatches(s) && StreamsFit(s) && TotalsExact(s)
  }

  /** The in-use counters are far from wrapping: at most 128 streams of at most 128 channels. */
  lemma {:induction false} TotalsNeverWrap(s: State)
    requires Consistent(s.mapper) && MapperMatches(s) && StreamsFit(s) && TotalsExact(s)
    ensures |s.streams| <= 128 && s.rx <= 128 * 128 && s.tx <= 128 * 128
  {
    MappingsAreFew(s.mapper);
    assert |s.streams| == |s.streams.Keys| == |s.mapper.mappings|;
    TotalBound(s.streams, false);
    TotalBound(s.streams, true);
  }

  ghost predicate Openable(s: State, id: StreamId, m: Managed) {
    && id !in s.streams && m.mapping.streamId == id
    && 0 < m.sdp.numChannels <= 128 && NetworkOk(m.sdp) && RateMatches(m.sdp.sampleRate, s.config.deviceRate)
  }

  lemma {:induction false} U32Exact(a: U32, b: nat)
    ensures a + b < U32_MOD ==> AddU32(a, b) == a + b
    ensures b <= a ==> SubU32(a, b) == a - b
    ensures a + b < U32_MOD ==> SubU32(AddU32(a, b), b) == a
  {
  }

  lemma {:induction false} OpenedTotals(s: State, id: StreamId, m: Managed)
    requires Inv(s) && Openable(s, id, m)
    ensures TotalsExact(Opened(s, id, m))
  {
    TotalsNeverWrap(s);
    U32Exact(s.rx, m.sdp.numChannels);
    U32Exact(s.tx, m.sdp.numChannels);
    var t := Opened(s, id, m);
    var streams := s.streams[id := m];
    TotalWith(s.streams, id, m, false);
    TotalWith(s.streams, id, m, true);
    assert t.streams == streams;
    assert t.rx == s.rx + Weight(m, false) && t.tx == s.tx + Weight(m, true);
  }

  lemma {:induction false} OpenedMatches(s: State, id: StreamId, m: Managed)
    requires MapperMatches(s) && StreamsFit(s) && Openable(s, id, m)
    ensures MapperMatches(Opened(s, id, m)) && StreamsFit(Opened(s, id, m))
  {
    hide Claimed, RateMatches, NetworkOk, Adopt;
    assert Opened(s, id, m).mapper.mappings.Keys == s.mapper.mappings.Keys + {id};
  }

  /** Opening under a fresh id keeps everything exact; a refused or failed open leaves the state as it was. */
  lemma {:induction false} OpenKeepsInv(s: State, id: StreamId, m: Managed, env: Env)
    requires Inv(s) && Openable(s, id, m)
    ensures Inv(Open(s, id, m, env).0)
    ensures !Open(s, id, m, env).1 ==> Open(s, id, m, env).0 == s
  {
    if Accepts(s.mapper, m.mapping, NULL_ID) {
      RemoveUndoesAdd(s.mapper, m.mapping);
      AddingIsConsistentIffFresh(s.mapper, m.mapping);
      OpenedTotals(s, id, m);
      OpenedMatches(s, id, m);
    }
  }

  lemma {:induction false} AddStreamKeepsInv(s: State, sdp: SdpSession, mapping: ChannelMapping, attempt: Attempt)
    requires Inv(s)
    ensures Inv(AddStream(s, sdp, mapping, attempt).0)
    ensures AddStream(s, sdp, mapping, attempt).1 == NULL_ID ==> AddStream(s, sdp, mapping, attempt).0 == s
  {
    if CanAdd(s, sdp, false, attempt.env) && attempt.id !in s.streams {
      var m := Managed(sdp, Complete(mapping, attempt.id, sdp.sessionName, sdp.numChannels), false, 0);
      OpenKeepsInv(s, attempt.id, m, attempt.env);
    }
  }

  lemma {:induction false} AddAutoKeepsInv(s: State, sdp: SdpSession, attempt: Attempt)
    requires Inv(s)
    ensures Inv(AddStreamAuto(s, sdp, attempt).0)
  {
    var m := DefaultMapping(s.mapper, NULL_ID, sdp.sessionName, sdp.numChannels);
    if m.Some? {
      AddStreamKeepsInv(s, sdp, m.value, attempt);
    }
  }

  lemma {:induction false} CreateTxStreamKeepsInv(s: State, q: TxRequest, sourcePort: U16, attempt: Attempt)
    requires Inv(s) && attempt.id !in s.streams
    ensures Inv(CreateTxStream(s, q, sourcePort, attempt).0)
    ensures CreateTxStream(s, q, sourcePort, attempt).1 == NULL_ID ==> CreateTxStream(s, q, sourcePort, attempt).0 == s
  {
    var sdp := TxSession(q.name, q.address, q.port, q.numChannels, s.config.deviceRate, q.dscp, q.time);
    if CanAdd(s, sdp, true, attempt.env) {
      var m := Managed(sdp, Complete(q.mapping, attempt.id, q.name, q.numChannels), true, sourcePort);
      OpenKeepsInv(s, attempt.id, m, attempt.env);
    }
  }

  lemma {:induction false} ClosedTotals(s: State, id: StreamId)
    requires Inv(s) && id in s.streams
    ensures TotalsExact(Closed(s, id))
  {
    var m, t := s.streams[id], Closed(s, id);
    TotalWithout(s.streams, id, false);
    TotalWithout(s.streams, id, true);
    U32Exact(s.rx, Weight(m, false));
    U32Exact(s.tx, Weight(m, true));
    assert t.streams == s.streams - {id};
    assert t.rx == s.rx - Weight(m, false) && t.tx == s.tx - Weight(m, true);
  }

  lemma {:induction false} CloseKeepsInv(s: State, id: StreamId)
    requires Inv(s) && id in s.streams
    ensures Inv(Closed(s, id))
  {
    RemovingIsConsistent(s.mapper, id);
    ClosedTotals(s, id);
  }

  lemma {:induction false} RemoveAllKeepsInv(s: State)
    requires Inv(s)
    ensures Inv(RemoveAllStreams(s))
  {
    EmptyIsConsistent();
  }

  /** A remap is accepted by both sides or leaves no trace: the way back is never refused. */
  lemma {:induction false} UpdateMappingIsAtomic(s: State, id: StreamId, newMapping: ChannelMapping, rtpAccepts: bool)
    requires Inv(s)
    ensures Inv(UpdateMapping(s, id, newMapping, rtpAccepts).0)
    ensures !UpdateMapping(s, id, newMapping, rtpAccepts).1 ==> UpdateMapping(s, id, newMapping, rtpAccepts).0 == s
    ensures !rtpAccepts ==> !UpdateMapping(s, id, newMapping, rtpAccepts).1
  {
    hide Total, Consistent, Claimed, Released, Accepts;
    if id in s.streams {
      var stream := s.streams[id];
      var m := newMapping.(streamId := id, streamName := stream.mapping.streamName,
        streamChannelCount := stream.sdp.numChannels);
      if Accepts(s.mapper, m, id) {
        UpdateRollsBack(s.mapper, m);
        UpdatingIsConsistent(s.mapper, m);
        TotalRemapped(s.streams, id, m, false);
        TotalRemapped(s.streams, id, m, true);
      }
    }
  }

  lemma {:induction false} ResubscribeKeepsInv(s: State, p: Pending, attempt: Attempt)
    requires Inv(s)
    ensures Inv(Resubscribe(s, p, attempt).0)
  {
    if p.id in s.streams {
      CloseKeepsInv(s, p.id);
      AddStreamKeepsInv(Closed(s, p.id), p.newSdp, BlockMapping(p), attempt);
    }
  }

  lemma {:induction false} ResubscribeAllKeepsInv(s: State, pending: seq<Pending>, attempts: nat -> Attempt)
    requires Inv(s)
    ensures Inv(ResubscribeAll(s, pending, attempts).0)
    decreases |pending|
  {
    if pending == [] {
    } else {
      var n := |pending| - 1;
      ResubscribeAllKeepsInv(s, pending[..n], attempts);
      ResubscribeKeepsInv(ResubscribeAll(s, pending[..n], attempts).0, pending[n], attempts(n));
    }
  }

  lemma {:induction false} RestoreKeepsInv(s: State, c: Saved, env: Env)
    requires Inv(s)
    ensures Inv(Restore(s, c, env).0)
  {
    if c.enabled && c.sdp.IsValid() && ValidMapping(c.mapping) && CanAdd(s, c.sdp, false, env)
      && c.mapping.streamId !in s.streams {
      OpenKeepsInv(s, c.mapping.streamId, Managed(c.sdp, c.mapping, c.isTransmit, 0), env);
    }
  }

  lemma {:induction false} LoadKeepsInv(s: State, saved: seq<Saved>, envs: nat -> Env)
    requires Inv(s)
    ensures Inv(LoadSavedStreams(s, saved, envs).0)
    decreases |saved|
  {
    if saved == [] {
    } else {
      var n := |saved| - 1;
      LoadKeepsInv(s, saved[..n], envs);
      RestoreKeepsInv(LoadSavedStreams(s, saved[..n], envs).0, saved[n], envs(n));
    }
  }

  /** The invariant leaves no freedom: the open streams determine the mapper and both totals. */
  lemma {:induction false} StreamsDetermineState(a: State, b: State)
    requires Inv(a) && Inv(b) && a.streams == b.streams && a.mapper.usable == b.mapper.usable
    ensures a.mapper == b.mapper && a.rx == b.rx && a.tx == b.tx
  {
    assert a.mapper.mappings == b.mapper.mappings;
    MappingsDetermineOwners(a.mapper, b.mapper);
  }

  ghost function IdSet(ids: seq<StreamId>): set<StreamId> { set id | id in ids }

  lemma {:induction false} RemoveStreamEffect(s: State, id: StreamId)
    requires Inv(s)
    ensures var t := RemoveStream(s, id).0;
      && Inv(t) && t.streams == s.streams - {id} && t.mapper.usable == s.mapper.usable && t.config == s.config
      && (if id in s.streams then t.grandmaster == ElectGrandmaster(t.streams) else t == s)
  {
    if id in s.streams {
      CloseKeepsInv(s, id);
    } else {
      assert s.streams - {id} == s.streams;
    }
  }

  lemma {:induction false} RemoveEachEffect(s: State, ids: seq<StreamId>)
    requires Inv(s)
    ensures var t := RemoveEach(s, ids);
      && Inv(t) && t.streams == s.streams - IdSet(ids) && t.mapper.usable == s.mapper.usable && t.config == s.config
      && (if exists id :: id in ids && id in s.streams then t.grandmaster == ElectGrandmaster(t.streams) else t == s)
    decreases |ids|
  {
    hide Inv, ElectGrandmaster, RemoveStream;
    if ids == [] {
      assert s.streams - IdSet(ids) == s.streams;
    } else {
      var next := RemoveStream(s, ids[0]).0;
      RemoveStreamEffect(s, ids[0]);
      RemoveEachEffect(next, ids[1..]);
      assert IdSet(ids) == {ids[0]} + IdSet(ids[1..]);
      assert s.streams - IdSet(ids) == s.streams - {ids[0]} - IdSet(ids[1..]);
    }
  }

  // ---- every run -------------------------------------------------------------------------------

  lemma {:induction false} CreatedIsNew(s: State, q: TxRequest, sourcePort: U16, attempt: Attempt)
    requires CreateTxStream(s, q, sourcePort, attempt).1 != NULL_ID
    ensures CreateTxStream(s, q, sourcePort, attempt).0.streams.Keys == s.streams.Keys + {attempt.id}
    ensures CreateTxStream(s, q, sourcePort, attempt).1 == attempt.id
  {
  }

  lemma {:induction false} FlowsKeepInv(s: State, q: TxRequest, perFlow: nat, attempts: nat -> Attempt, flow: nat,
        created: seq<StreamId>)
    requires Inv(s) && perFlow > 0
    requires forall i :: flow <= i < FlowCount(q.numChannels, perFlow) ==> attempts(i).id !in s.streams
    requires forall i, j :: flow <= i < j < FlowCount(q.numChannels, perFlow) ==> attempts(i).id != attempts(j).id
    ensures Inv(CreateFlowsFrom(s, q, perFlow, attempts, flow, created).0)
    decreases FlowCount(q.numChannels, perFlow) - flow
  {
    hide Inv, CanAdd, Open, FlowTarget, FlowRequest, FlowCount;
    if flow < FlowCount(q.numChannels, perFlow) {
      var target := FlowTarget(s.config, q, flow);
      if target.None? {
        RemoveEachEffect(s, created);
      } else {
        var request := FlowRequest(q, target.value.0, perFlow, flow);
        CreateTxStreamKeepsInv(s, request, target.value.1, attempts(flow));
        var r := CreateTxStream(s, request, target.value.1, attempts(flow));
        if r.1 == NULL_ID {
          RemoveEachEffect(r.0, created);
        } else {
          CreatedIsNew(s, request, target.value.1, attempts(flow));
          FlowsKeepInv(r.0, q, perFlow, attempts, flow + 1, created + [r.1]);
        }
      }
    }
  }

  /** The flow count is the ceiling: the last flow starts inside the range and the flows cover it. */
  lemma {:induction false} FlowCountIsCeiling(n: nat, perFlow: nat)
    requires perFlow > 0
    ensures FlowCount(n, perFlow) * perFlow >= n && FlowCount(n, perFlow) <= n
    ensures n > 0 ==> FlowCount(n, perFlow) > 0 && (FlowCount(n, perFlow) - 1) * perFlow < n
  {
    var c := FlowCount(n, perFlow);
    assert n + perFlow - 1 == c * perFlow + (n + perFlow - 1) % perFlow;
    if n > 0 {
      assert c > 0;
      assert (c - 1) * perFlow == c * perFlow - perFlow;
      MultiplesInOrder(1, perFlow, c - 1);
    }
  }

  lemma {:induction false} LimitKeepsConsistent(m: Mapper, usable: nat)
    requires Consistent(m) && usable <= MAX_DEVICE_CHANNELS
    ensures Consistent(m.(usable := usable))
  {
  }

  lemma {:induction false} SettingsKeepInv(s: State, op: Op)
    requires Inv(s) && (op.OpSetUsable? || op.OpSetRate? || op.OpConfigure?)
    ensures Inv(Apply(s, op))
  {
    hide Consistent, Total;
    var t := Apply(s, op);
    if op.OpSetUsable? {
      LimitKeepsConsistent(s.mapper, Min(op.count, MAX_DEVICE_CHANNELS));
    } else {
      assert t.mapper == s.mapper;
    }
    assert t.streams == s.streams && t.rx == s.rx && t.tx == s.tx;
  }

  lemma {:induction false} ApplyKeepsInv(s: State, op: Op)
    requires Inv(s) && Fresh(s, op)
    ensures Inv(Apply(s, op))
  {
    hide Inv, AddStream, AddStreamAuto, CreateTxStream, CreateFlowsFrom, FlowCount, UpdateMapping, RemoveAllStreams,
         Closed, ResubscribeAll, PendingOf, SortedIds, LoadSavedStreams;
    match op
    case OpAdd(sdp, mapping, attempt) => AddStreamKeepsInv(s, sdp, mapping, attempt);
    case OpAddAuto(sdp, attempt) => AddAutoKeepsInv(s, sdp, attempt);
    case OpRemove(id) => if id in s.streams { CloseKeepsInv(s, id); }
    case OpRemoveAll => RemoveAllKeepsInv(s);
    case OpCreateTx(q, sourcePort, attempt) => CreateTxStreamKeepsInv(s, q, sourcePort, attempt);
    case OpCreateFlows(q, budget, attempts) =>
      var perFlow := PerFlow(s.config, budget);
      FlowCountIsCeiling(q.numChannels, perFlow);
      FlowsKeepInv(s, q, perFlow, attempts, 0, []);
    case OpUpdateMapping(id, mapping, rtpAccepts) => UpdateMappingIsAtomic(s, id, mapping, rtpAccepts);
    case OpFollow(announced, trigger, attempts) =>
      ResubscribeAllKeepsInv(s, PendingOf(SortedIds(s.streams.Keys), s.streams, announced), attempts);
    case OpLoad(saved, envs) => LoadKeepsInv(s, saved, envs);
    case _ => SettingsKeepInv(s, op);
  }

  lemma {:induction false} InitialIsExact()
    ensures Inv(Initial())
  {
  }

  lemma {:induction false} FreshPrefix(start: State, ops: seq<Op>)
    requires ops != [] && FreshRun(start, ops)
    ensures FreshRun(start, ops[..|ops| - 1])
    ensures Fresh(RunFrom(start, ops[..|ops| - 1]), ops[|ops| - 1])
  {
    hide Fresh, RunFrom;
    var n := |ops| - 1;
    forall i {:trigger ops[..n][..i]} | 0 <= i < n
      ensures Fresh(RunFrom(start, ops[..n][..i]), ops[..n][i])
    {
      assert ops[..n][..i] == ops[..i];
    }
  }

  /** In every reachable state the mapper, the owner table and the totals are exactly those of the open streams. */
  lemma {:induction false} ReachableStatesAreExact(start: State, ops: seq<Op>)
    requires Inv(start) && FreshRun(start, ops)
    ensures Inv(RunFrom(start, ops))
    decreases |ops|
  {
    hide Inv, Apply, FreshRun, Fresh;
    if ops == [] {
    } else {
      var n := |ops| - 1;
      FreshPrefix(start, ops);
      ReachableStatesAreExact(start, ops[..n]);
      ApplyKeepsInv(RunFrom(start, ops[..n]), ops[n]);
    }
  }

  /** So no device channel ever has two owners, and an owned channel is owned by an open stream that lands on it. */
  lemma {:induction false} ChannelsHaveOneOwner(ops: seq<Op>, ch: nat)
    requires FreshRun(Initial(), ops) && ch < MAX_DEVICE_CHANNELS
    ensures var s := RunFrom(Initial(), ops);
      && |s.mapper.owners| == MAX_DEVICE_CHANNELS
      && (forall id :: id in s.streams ==> (Lands(s.streams[id].mapping, ch) <==> s.mapper.owners[ch] == id))
      && (s.mapper.owners[ch] != NULL_ID ==> s.mapper.owners[ch] in s.streams)
      && s.rx == Total(s.streams, false) && s.tx == Total(s.streams, true)
      && |s.streams| <= 128 && s.rx <= 128 * 128 && s.tx <= 128 * 128
  {
    InitialIsExact();
    ReachableStatesAreExact(Initial(), ops);
    var s := RunFrom(Initial(), ops);
    TotalsNeverWrap(s);
    forall id | id in s.streams
      ensures Lands(s.streams[id].mapping, ch) <==> s.mapper.owners[ch] == id
    {
      assert s.mapper.mappings[id].streamId == id;
    }
  }
}
