/**
  The stream manager as the object it is: its fields, and each public method updating them under the
  manager's lock, proved against the operations of ManagerModel.  Sockets, threads, callbacks and
  the profile tables answer through `Env`.
 */
module StreamManager {
  import opened StreamTypes
  import opened ChannelMapper
  import opened ManagerModel

  lemma {:induction false} FirstDeclaredStep(ids: seq<StreamId>, i: nat, streams: map<StreamId, Managed>)
    requires i < |ids| && forall id :: id in ids ==> id in streams
    ensures forall id :: id in ids[i..] || id in ids[i + 1..] ==> id in streams
    ensures FirstDeclared(ids[i..], streams)
         == if streams[ids[i]].sdp.ptpMasterMac != "" then streams[ids[i]].sdp.ptpMasterMac
           else FirstDeclared(ids[i + 1..], streams)
  {
  }

  lemma {:induction false} PendingStep(ids: seq<StreamId>, i: nat, streams: map<StreamId, Managed>,
        announced: SdpSession)
    requires i < |ids| && forall id :: id in ids ==> id in streams
    ensures PendingOf(ids[..i + 1], streams, announced) == PendingOf(ids[..i], streams, announced) +
      if Follows(streams[ids[i]], announced)
      then [Pending(ids[i], streams[ids[i]].mapping.deviceChannelStart,
        announced.(sessionName := streams[ids[i]].sdp.sessionName))]
      else []
  {
    hide Follows;
    assert ids[..i + 1][..i] == ids[..i];
  }

  lemma {:induction false} ResubscribeStep(s: State, pending: seq<Pending>, i: nat, attempts: nat -> Attempt)
    requires i < |pending|
    ensures var before := ResubscribeAll(s, pending[..i], attempts);
            var r := Resubscribe(before.0, pending[i], attempts(i));
            ResubscribeAll(s, pending[..i + 1], attempts) == (r.0, before.1 + r.1)
  {
    hide Resubscribe;
    assert pending[..i + 1][..i] == pending[..i];
  }

  class StreamManager {
    const mapper: StreamChannelMapper
    var streams: map<StreamId, Managed>
    var rxChannelsInUse: U32
    var txChannelsInUse: U32
    var activeGrandmaster: string
    var config: Config

    ghost predicate Valid()
      reads this, mapper
    {
      mapper.Valid()
    }

    ghost function View(): State
      reads this, mapper, mapper.owners
    {
      State(mapper.View(), streams, rxChannelsInUse, txChannelsInUse, activeGrandmaster, config)
    }

    constructor ()
      ensures Valid() && View() == Initial()
    {
      mapper := new StreamChannelMapper();
      streams, rxChannelsInUse, txChannelsInUse, activeGrandmaster := map[], 0, 0, "";
      config := Defaults;
    }

    method CanAddStream(sdp: SdpSession, isTransmit: bool, env: Env) returns (ok: bool)
      requires Valid()
      ensures ok == CanAdd(View(), sdp, isTransmit, env)
    {
      if !RateMatches(sdp.sampleRate, config.deviceRate) { return false; }
      if sdp.numChannels == 0 || sdp.numChannels > 128 { return false; }
      var available := mapper.GetAvailableChannelCount();
      if sdp.numChannels > available { return false; }
      if !env.fitsPacket || !NetworkOk(sdp) || !env.profileAccepts { return false; }
      var inUse := if isTransmit then txChannelsInUse else rxChannelsInUse;
      if config.profileMaxTotal > 0 && AddU32(inUse, sdp.numChannels) > config.profileMaxTotal { return false; }
      var usable := if isTransmit then config.usableTx else config.usableRx;
      if usable > 0 && AddU32(inUse, sdp.numChannels) > usable { return false; }
      if config.requirePtpLock && config.ptpEnabled && sdp.ptpDomain >= 0 && !env.ptpLocked { return false; }
      return ClockAgrees(config.ignoreMismatch, activeGrandmaster, sdp.ptpMasterMac);
    }

    /** Claims the mapping, starts the stream if audio is running, records it; undoes the claim if it will not start. */
    method OpenStream(id: StreamId, managed: Managed, env: Env) returns (ok: bool)
      requires Valid() && managed.mapping.streamId == id
      modifies this`streams, this`rxChannelsInUse, this`txChannelsInUse, this`activeGrandmaster, mapper`mappings,
               mapper.owners
      ensures Valid() && (View(), ok) == Open(old(View()), id, managed, env)
    {
      ok := mapper.AddMapping(managed.mapping);
      if !ok { return false; }
      if config.ioActive && !env.starts {
        var _ := mapper.RemoveMapping(id);
        return false;
      }
      streams := streams[id := managed];
      if managed.isTransmit {
        txChannelsInUse := AddU32(txChannelsInUse, managed.sdp.numChannels);
      } else {
        rxChannelsInUse := AddU32(rxChannelsInUse, managed.sdp.numChannels);
      }
      AdoptGrandmaster(managed.sdp.ptpMasterMac);
      return true;
    }

    method AdoptGrandmaster(grandmaster: string)
      modifies this`activeGrandmaster
      ensures activeGrandmaster == Adopt(old(activeGrandmaster), grandmaster)
    {
      if grandmaster == "" { return; }
      if activeGrandmaster == "" {
        activeGrandmaster := grandmaster;
      }
    }

    /** The first remaining stream, in map order, that declares a clock. */
    method RecomputeActiveGrandmaster()
      modifies this`activeGrandmaster
      ensures activeGrandmaster == ElectGrandmaster(streams)
    {
      hide SortedIds;
      var ids := SortedIds(streams.Keys);
      var next := "";
      var i := 0;
      assert ids[i..] == ids;
      while i < |ids|
        invariant i <= |ids| && next == ""
        invariant FirstDeclared(ids[i..], streams) == ElectGrandmaster(streams)
      {
        FirstDeclaredStep(ids, i, streams);
        if streams[ids[i]].sdp.ptpMasterMac != "" {
          activeGrandmaster := streams[ids[i]].sdp.ptpMasterMac;
          return;
        }
        i := i + 1;
      }
      activeGrandmaster := next;
    }

    method AddStream(sdp: SdpSession, mapping: ChannelMapping, attempt: Attempt) returns (id: StreamId)
      requires Valid()
      modifies this`streams, this`rxChannelsInUse, this`txChannelsInUse, this`activeGrandmaster, mapper`mappings,
               mapper.owners
      ensures Valid() && (View(), id) == ManagerModel.AddStream(old(View()), sdp, mapping, attempt)
    {
      var can := CanAddStream(sdp, false, attempt.env);
      if !can || attempt.id in streams { return NULL_ID; }
      var m := Complete(mapping, attempt.id, sdp.sessionName, sdp.numChannels);
      var ok := OpenStream(attempt.id, Managed(sdp, m, false, 0), attempt.env);
      return if ok then attempt.id else NULL_ID;
    }

    /** With the first free block as its mapping. */
    method AddStreamAuto(sdp: SdpSession, attempt: Attempt) returns (id: StreamId)
      requires Valid()
      modifies this`streams, this`rxChannelsInUse, this`txChannelsInUse, this`activeGrandmaster, mapper`mappings,
               mapper.owners
      ensures Valid() && (View(), id) == ManagerModel.AddStreamAuto(old(View()), sdp, attempt)
    {
      var m := mapper.CreateDefaultMapping(NULL_ID, sdp.sessionName, sdp.numChannels);
      if m.None? { return NULL_ID; }
      id := AddStream(sdp, m.value, attempt);
    }

    method RemoveStream(id: StreamId) returns (ok: bool)
      requires Valid()
      modifies this`streams, this`rxChannelsInUse, this`txChannelsInUse, this`activeGrandmaster, mapper`mappings,
               mapper.owners
      ensures Valid() && (View(), ok) == ManagerModel.RemoveStream(old(View()), id)
    {
      if id !in streams { return false; }
      var _ := mapper.RemoveMapping(id);
      if streams[id].isTransmit {
        txChannelsInUse := SubU32(txChannelsInUse, streams[id].sdp.numChannels);
      } else {
        rxChannelsInUse := SubU32(rxChannelsInUse, streams[id].sdp.numChannels);
      }
      streams := streams - {id};
      RecomputeActiveGrandmaster();
      return true;
    }

    method RemoveAllStreams()
      requires Valid()
      modifies this`streams, this`rxChannelsInUse, this`txChannelsInUse, this`activeGrandmaster, mapper`mappings,
               mapper.owners
      ensures Valid() && View() == ManagerModel.RemoveAllStreams(old(View()))
    {
      streams := map[];
      mapper.ClearAll();
      rxChannelsInUse, txChannelsInUse := 0, 0;
      RecomputeActiveGrandmaster();
    }

    method CreateTxStream(q: TxRequest, sourcePort: U16, attempt: Attempt) returns (id: StreamId)
      requires Valid()
      modifies this`streams, this`rxChannelsInUse, this`txChannelsInUse, this`activeGrandmaster, mapper`mappings,
               mapper.owners
      ensures Valid() && (View(), id) == ManagerModel.CreateTxStream(old(View()), q, sourcePort, attempt)
    {
      var sdp := TxSession(q.name, q.address, q.port, q.numChannels, config.deviceRate, q.dscp, q.time);
      var can := CanAddStream(sdp, true, attempt.env);
      if !can { return NULL_ID; }
      var m := Complete(q.mapping, attempt.id, q.name, q.numChannels);
      var ok := OpenStream(attempt.id, Managed(sdp, m, true, sourcePort), attempt.env);
      return if ok then attempt.id else NULL_ID;
    }

    method RemoveEachOf(ids: seq<StreamId>)
      requires Valid()
      modifies this`streams, this`rxChannelsInUse, this`txChannelsInUse, this`activeGrandmaster, mapper`mappings,
               mapper.owners
      ensures Valid() && View() == RemoveEach(old(View()), ids)
    {
      var i := 0;
      while i < |ids|
        invariant Valid() && i <= |ids|
        invariant RemoveEach(View(), ids[i..]) == RemoveEach(old(View()), ids)
      {
        assert ids[i..][0] == ids[i] && ids[i..][1..] == ids[i + 1..];
        var _ := RemoveStream(ids[i]);
        i := i + 1;
      }
      assert ids[i..] == [];
    }

    /** Several flows, each a stream of its own; the ones made so far are removed when one fails. */
    method CreateTxStreamFlows(q: TxRequest, budgetPerFlow: U16,
          attempts: nat -> Attempt) returns (created: seq<StreamId>)
      requires Valid()
      modifies this`streams, this`rxChannelsInUse, this`txChannelsInUse, this`activeGrandmaster, mapper`mappings,
               mapper.owners
      ensures Valid() && (View(), created) == ManagerModel.CreateTxStreamFlows(old(View()), q, budgetPerFlow, attempts)
    {
      created := [];
      if q.numChannels == 0 { return []; }
      var perFlow := PerFlow(config, budgetPerFlow);
      var flow := 0;
      while flow < FlowCount(q.numChannels, perFlow)
        invariant Valid() && config == old(config)
        invariant CreateFlowsFrom(View(), q, perFlow, attempts, flow, created)
               == CreateFlowsFrom(old(View()), q, perFlow, attempts, 0, [])
        decreases FlowCount(q.numChannels, perFlow) - flow
      {
        var target := FlowTarget(config, q, flow);
        if target.None? {
          RemoveEachOf(created);
          return [];
        }
        var id := CreateTxStream(FlowRequest(q, target.value.0, perFlow, flow), target.value.1, attempts(flow));
        if id == NULL_ID {
          RemoveEachOf(created);
          return [];
        }
        created := created + [id];
        flow := flow + 1;
      }
    }

    /** Commits to the mapper first, and takes that back if the running stream refuses the mapping. */
    method UpdateMapping(id: StreamId, newMapping: ChannelMapping, rtpAccepts: bool) returns (ok: bool)
      requires Valid()
      modifies this`streams, mapper`mappings, mapper.owners
      ensures Valid() && (View(), ok) == ManagerModel.UpdateMapping(old(View()), id, newMapping, rtpAccepts)
    {
      if id !in streams { return false; }
      var stream := streams[id];
      var m := newMapping.(streamId := id, streamName := stream.mapping.streamName,
        streamChannelCount := stream.sdp.numChannels);
      ok := mapper.UpdateMapping(m);
      if !ok { return false; }
      if !rtpAccepts {
        var _ := mapper.UpdateMapping(stream.mapping);
        return false;
      }
      streams := streams[id := stream.(mapping := m)];
      return true;
    }

    method UpdateReceiveStreamsFromAnnouncement(announced: SdpSession, trigger: Trigger,
          attempts: nat -> Attempt) returns (followed: nat)
      requires Valid()
      modifies this`streams, this`rxChannelsInUse, this`txChannelsInUse, this`activeGrandmaster, mapper`mappings,
               mapper.owners
      ensures Valid() && (View(), followed) == FollowAnnouncement(old(View()), announced, trigger, attempts)
    {
      hide Resubscribe, PendingOf, SortedIds;
      if trigger.Announcement? && !config.autoSinkFollow { return 0; }
      if announced.sessionName == "" { return 0; }
      var pending := CollectPending(announced);
      followed := 0;
      var i := 0;
      while i < |pending|
        invariant Valid() && i <= |pending|
        invariant (View(), followed) == ResubscribeAll(old(View()), pending[..i], attempts)
      {
        ResubscribeStep(old(View()), pending, i, attempts);
        var count := ResubscribeOne(pending[i], attempts(i));
        followed := followed + count;
        i := i + 1;
      }
      assert pending[..i] == pending;
    }

    /** Remove the sink, then add it again on the same block of device channels: 1 if it came back. */
    method ResubscribeOne(p: Pending, attempt: Attempt) returns (followed: nat)
      requires Valid()
      modifies this`streams, this`rxChannelsInUse, this`txChannelsInUse, this`activeGrandmaster, mapper`mappings,
               mapper.owners
      ensures Valid() && (View(), followed) == Resubscribe(old(View()), p, attempt)
    {
      hide Closed, ManagerModel.AddStream;
      var removed := RemoveStream(p.id);
      if !removed { return 0; }
      var id := AddStream(p.newSdp, BlockMapping(p), attempt);
      return if id != NULL_ID then 1 else 0;
    }

    /** The sinks bound to the announced source whose transport changed, in map order. */
    method CollectPending(announced: SdpSession) returns (pending: seq<Pending>)
      ensures pending == PendingOf(SortedIds(streams.Keys), streams, announced)
    {
      hide SortedIds, Follows;
      var ids := SortedIds(streams.Keys);
      pending := [];
      var i := 0;
      while i < |ids|
        invariant i <= |ids| && pending == PendingOf(ids[..i], streams, announced)
      {
        PendingStep(ids, i, streams, announced);
        var m := streams[ids[i]];
        if Follows(m, announced) {
          pending := pending + [Pending(ids[i], m.mapping.deviceChannelStart,
            announced.(sessionName := m.sdp.sessionName))];
        }
        i := i + 1;
      }
      assert ids[..i] == ids;
    }

    method RestoreStream(c: Saved, env: Env) returns (ok: bool)
      requires Valid()
      modifies this`streams, this`rxChannelsInUse, this`txChannelsInUse, this`activeGrandmaster, mapper`mappings,
               mapper.owners
      ensures Valid() && (View(), ok) == Restore(old(View()), c, env)
    {
      if !c.enabled { return false; }
      var error := GetValidationError(c.mapping);
      if !c.sdp.IsValid() || error != NoError { return false; }
      var can := CanAddStream(c.sdp, false, env);
      if !can || c.mapping.streamId in streams { return false; }
      ok := OpenStream(c.mapping.streamId, Managed(c.sdp, c.mapping, c.isTransmit, 0), env);
    }

    method LoadSavedStreams(saved: seq<Saved>, envs: nat -> Env) returns (any: bool)
      requires Valid()
      modifies this`streams, this`rxChannelsInUse, this`txChannelsInUse, this`activeGrandmaster, mapper`mappings,
               mapper.owners
      ensures Valid() && View() == ManagerModel.LoadSavedStreams(old(View()), saved, envs).0
      ensures any == (ManagerModel.LoadSavedStreams(old(View()), saved, envs).1 > 0)
    {
      var loaded, i := 0, 0;
      while i < |saved|
        invariant Valid() && i <= |saved|
        invariant (View(), loaded) == ManagerModel.LoadSavedStreams(old(View()), saved[..i], envs)
      {
        assert saved[..i + 1][..i] == saved[..i];
        var ok := RestoreStream(saved[i], envs(i));
        if ok { loaded := loaded + 1; }
        i := i + 1;
      }
      assert saved[..i] == saved;
      return loaded > 0;
    }

    method SetUsableChannelCount(count: nat)
      requires Valid()
      modifies this`config, mapper`usableChannelCount
      ensures Valid() && View() == ManagerModel.SetUsableChannelCount(old(View()), count)
    {
      mapper.SetUsableChannelCount(count);
      config := config.(usableRx := count % U32_MOD);
    }

    method SetDeviceSampleRate(rate: real) returns (ok: bool)
      modifies this`config
      ensures (View(), ok) == ManagerModel.SetDeviceSampleRate(old(View()), rate)
    {
      if rate < 44100.0 || rate > 384000.0 { return false; }
      if !(forall id | id in streams :: RateMatches(streams[id].sdp.sampleRate, rate)) { return false; }
      config := config.(deviceRate := rate);
      return true;
    }
  }
}
