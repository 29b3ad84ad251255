/**
  Saving the open streams and loading them into a manager that has just started: through the text of
  the file and back, no saved stream ever loses its device channels to another.
 */
module ManagerRestart {
  import opened StreamTypes
  import opened ChannelMapper
  import opened ManagerModel
  import opened ManagerInvariants
  import opened ManagerPolicies
  import opened ManagerFlows
  import opened Counting
  import C = StreamConfig
  import R = StreamConfigRoundTrip
  import F = StreamFile
  import X = StreamFileExact

  /** What is written for one open stream; `description` is the session's own. */
  function Saving(m: Managed, time: U64): C.PersistedConfig {
    C.PersistedConfig(m.sdp, m.mapping, true, m.isTransmit, m.sdp.sessionInfo, time, time, 0, "")
  }

  /** Every open stream, in map order. */
  function Snapshot(ids: seq<StreamId>, streams: map<StreamId, Managed>, time: U64): (r: seq<C.PersistedConfig>)
    requires forall id :: id in ids ==> id in streams
    ensures |r| == |ids| && forall i :: 0 <= i < |ids| ==> r[i] == Saving(streams[ids[i]], time)
  {
    if ids == [] then [] else [Saving(streams[ids[0]], time)] + Snapshot(ids[1..], streams, time)
  }

  function Loading(c: C.PersistedConfig): Saved { Saved(c.sdp, c.mapping, c.enabled, c.isTransmit) }

  function LoadingAll(cs: seq<C.PersistedConfig>): (r: seq<Saved>)
    ensures |r| == |cs| && forall i :: 0 <= i < |cs| ==> r[i] == Loading(cs[i])
  {
    if cs == [] then [] else [Loading(cs[0])] + LoadingAll(cs[1..])
  }

  /** The streams a run left open, as they come back from the file. */
  function Reloaded(s: State, time: U64, resolve: Option<string> -> string): seq<Saved> {
    LoadingAll(F.AllRestored(Snapshot(SortedIds(s.streams.Keys), s.streams, time), resolve))
  }

  /** The streams the file can carry. */
  ghost predicate Savable(s: State, time: U64) {
    F.Loadable(Snapshot(SortedIds(s.streams.Keys), s.streams, time))
  }

  lemma {:induction false} SavableIsValid(s: State, time: U64, id: StreamId)
    requires Savable(s, time) && id in s.streams
    ensures s.streams[id].sdp.IsValid()
  {
    hide F.Content, F.Balanced, F.Countable, R.Unbraced, SortedIds, Snapshot;
    var ids := SortedIds(s.streams.Keys);
    assert id in ids;
    var i :| 0 <= i < |ids| && ids[i] == id;
    assert Snapshot(ids, s.streams, time)[i].IsValid();
  }

  /** In every state: the file gives the saved streams back, in order, iff they are savable. */
  lemma {:induction false} FileGivesBackIff(s: State, time: U64, resolve: Option<string> -> string)
    ensures var cs := Snapshot(SortedIds(s.streams.Keys), s.streams, time);
      F.FromJson(F.ToJson(cs), resolve) == C.Read(F.AllRestored(cs, resolve)) <==> Savable(s, time)
  {
    hide F.FromJson, F.ToJson, F.Loadable, SortedIds;
    X.SavedStreamsLoadIff(Snapshot(SortedIds(s.streams.Keys), s.streams, time), resolve);
  }

  lemma {:induction false} ReloadedIs(s: State, time: U64, resolve: Option<string> -> string, k: nat)
    requires k < |s.streams|
    ensures var ids := SortedIds(s.streams.Keys);
      && |Reloaded(s, time, resolve)| == |ids| == |s.streams| && ids[k] in s.streams
      && var m := s.streams[ids[k]];
        Reloaded(s, time, resolve)[k] == Saved(R.PersistedSdp(m.sdp), m.mapping, true, m.isTransmit)
  {
  }

  /** Of the streams saved from s, some are open in t again, as they were. */
  ghost predicate PartOf(t: State, s: State) {
    forall id :: id in t.streams ==>
      && id in s.streams && t.streams[id].mapping == s.streams[id].mapping
      && t.streams[id].isTransmit == s.streams[id].isTransmit
      && t.streams[id].sdp == R.PersistedSdp(s.streams[id].sdp) && t.streams[id].sourcePort == 0
  }

  /** A stream not open yet finds its device channels free. */
  lemma {:induction false} OwnChannelsAreFree(t: State, s: State, id: StreamId)
    requires Inv(t) && Inv(s) && PartOf(t, s) && id in s.streams && id !in t.streams
    ensures Accepts(t.mapper, s.streams[id].mapping, NULL_ID)
  {
    hide Total, ValidMapping, Lands, R.PersistedSdp;
    var m := s.streams[id].mapping;
    assert s.mapper.mappings[id] == m;
    forall ch: nat | Lands(m, ch) && ch < MAX_DEVICE_CHANNELS
      ensures t.mapper.owners[ch] == NULL_ID
    {
      assert s.mapper.owners[ch] == id;
    }
  }

  /** Admission is all that can keep a saved stream out: the mapper never does, and its id is never taken. */
  lemma {:induction false} RestoreDependsOnAdmission(t: State, s: State, id: StreamId, env: Env)
    requires Inv(t) && Inv(s) && PartOf(t, s) && id in s.streams && id !in t.streams && s.streams[id].sdp.IsValid()
    ensures var m := s.streams[id];
      var c := Saved(R.PersistedSdp(m.sdp), m.mapping, true, m.isTransmit);
      && (Restore(t, c, env).1 <==> CanAdd(t, c.sdp, false, env) && (t.config.ioActive ==> env.starts))
      && Inv(Restore(t, c, env).0) && PartOf(Restore(t, c, env).0, s)
      && Restore(t, c, env).0.streams.Keys == t.streams.Keys + (if Restore(t, c, env).1 then {id} else {})
      && Restore(t, c, env).0.config == t.config
  {
    hide Inv, CanAdd, Accepts, Added, Removed, ValidMapping, R.PersistedSdp, Adopt, SdpSession.IsValid;
    PersistedIsValid(s.streams[id].sdp);
    var m := s.streams[id];
    var c := Saved(R.PersistedSdp(m.sdp), m.mapping, true, m.isTransmit);
    OwnChannelsAreFree(t, s, id);
    OwnMappingIsValid(s, id);
    RestoreKeepsInv(t, c, env);
  }

  lemma {:induction false} PersistedIsValid(sdp: SdpSession)
    ensures R.PersistedSdp(sdp).IsValid() == sdp.IsValid()
  {
  }

  lemma {:induction false} OwnMappingIsValid(s: State, id: StreamId)
    requires Inv(s) && id in s.streams
    ensures ValidMapping(s.streams[id].mapping) && s.streams[id].mapping.streamId == id
  {
  }

  /** A manager that has just started, with the same settings. */
  ghost function Restarted(s: State): State {
    State(EmptyMapper(), map[], 0, 0, "", s.config)
  }

  lemma {:induction false} RestartedIsExact(s: State)
    ensures Inv(Restarted(s)) && PartOf(Restarted(s), s)
  {
  }

  lemma {:induction false} LoadStep(s: State, saved: seq<Saved>, k: nat, envs: nat -> Env)
    requires k < |saved|
    ensures var before := LoadSavedStreams(s, saved[..k], envs).0;
      LoadSavedStreams(s, saved[..k + 1], envs).0 == Restore(before, saved[k], envs(k)).0
  {
    hide Restore;
    assert saved[..k + 1][..k] == saved[..k];
  }

  lemma {:induction false} LoadedIsPart(s: State, time: U64, resolve: Option<string> -> string, envs: nat -> Env,
        k: nat)
    requires Inv(s) && Savable(s, time) && k <= |s.streams|
    ensures |Reloaded(s, time, resolve)| == |s.streams| == |SortedIds(s.streams.Keys)|
    ensures var t := LoadSavedStreams(Restarted(s), Reloaded(s, time, resolve)[..k], envs).0;
      Inv(t) && PartOf(t, s) && forall id :: id in t.streams ==> id in SortedIds(s.streams.Keys)[..k]
    decreases k
  {
    hide Inv, Reloaded, SortedIds, Restore, R.PersistedSdp, PartOf, Savable, CanAdd, Restarted, LoadSavedStreams;
    if k == 0 {
      NothingLoaded(s, envs);
      if s.streams != map[] { ReloadedIs(s, time, resolve, 0); } else { NothingReloaded(s, time, resolve); }
    } else {
      LoadedIsPart(s, time, resolve, envs, k - 1);
      var saved, ids := Reloaded(s, time, resolve), SortedIds(s.streams.Keys);
      var t := LoadSavedStreams(Restarted(s), saved[..k - 1], envs).0;
      ReloadedIs(s, time, resolve, k - 1);
      LoadStep(Restarted(s), saved, k - 1, envs);
      var id := ids[k - 1];
      assert id !in ids[..k - 1];
      SavableIsValid(s, time, id);
      RestoreDependsOnAdmission(t, s, id, envs(k - 1));
      assert ids[..k] == ids[..k - 1] + [id];
    }
  }

  lemma {:induction false} NothingLoaded(s: State, envs: nat -> Env)
    ensures var t := LoadSavedStreams(Restarted(s), [], envs).0; Inv(t) && PartOf(t, s) && t.streams == map[]
  {
    RestartedIsExact(s);
  }

  lemma {:induction false} NothingReloaded(s: State, time: U64, resolve: Option<string> -> string)
    requires s.streams == map[]
    ensures Reloaded(s, time, resolve) == [] && SortedIds(s.streams.Keys) == []
  {
  }

  /**
    After a restart, whatever was refused on the way: every stream that is open again has the device
    channels and the role it had, and a saved stream stays out only if admission refused it at its
    turn or it would not start.
   */
  lemma {:induction false} RestartKeepsChannels(s: State, time: U64, resolve: Option<string> -> string,
        envs: nat -> Env, k: nat)
    requires Inv(s) && Savable(s, time) && k < |s.streams|
    ensures |Reloaded(s, time, resolve)| == |s.streams| == |SortedIds(s.streams.Keys)|
    ensures var saved := Reloaded(s, time, resolve);
      var before := LoadSavedStreams(Restarted(s), saved[..k], envs).0;
      var after := LoadSavedStreams(Restarted(s), saved, envs).0;
      && Inv(after) && PartOf(after, s)
      && (Restore(before, saved[k], envs(k)).1 <==>
          CanAdd(before, saved[k].sdp, false, envs(k)) && (before.config.ioActive ==> envs(k).starts))
  {
    hide Inv, Reloaded, SortedIds, Restore, R.PersistedSdp, PartOf, CanAdd, LoadSavedStreams, Savable;
    LoadedIsPart(s, time, resolve, envs, k);
    LoadedIsPart(s, time, resolve, envs, |s.streams|);
    ReloadedIs(s, time, resolve, k);
    var saved, ids := Reloaded(s, time, resolve), SortedIds(s.streams.Keys);
    assert saved[..|saved|] == saved;
    var before := LoadSavedStreams(Restarted(s), saved[..k], envs).0;
    assert ids[k] !in ids[..k];
    SavableIsValid(s, time, ids[k]);
    RestoreDependsOnAdmission(before, s, ids[k], envs(k));
  }

  // ---- when everything comes back --------------------------------------------------------------

  /**
    Each stream has at least as many device channels as channels, and the receive limits, by which the
    saved transmit streams are judged too, leave room for each.
   */
  ghost predicate Returnable(s: State) {
    && WithinLimits(s, false) && (s.config.ignoreMismatch || ClocksAgree(s))
    && forall id :: id in s.streams ==>
      && s.streams[id].sdp.numChannels <= |DeviceChannels(s.streams[id].mapping)|
      && (s.streams[id].isTransmit ==>
          var total := s.rx + s.streams[id].sdp.numChannels;
          WithinCap(s.config.profileMaxTotal, total) && WithinCap(s.config.usableRx, total))
  }

  lemma {:induction false} FreeEnough(t: State, m: ChannelMapping)
    requires Inv(t) && Accepts(t.mapper, m, NULL_ID)
    ensures |DeviceChannels(m)| <= |FreeChannels(t.mapper.owners)|
  {
    hide Total;
    var xs := DeviceChannels(m);
    ValidLandsInRange(m);
    assert forall i, j :: 0 <= i < j < |xs| ==> xs[i] != xs[j];
    ElementsAreFew(xs);
    forall ch | ch in xs
      ensures ch in FreeChannels(t.mapper.owners)
    {
      assert Lands(m, ch);
    }
    SubsetSize(Elements(xs), FreeChannels(t.mapper.owners));
  }

  lemma {:induction false} RoomUnderCap(cap: U32, inUse: U32, more: U16, total: nat)
    requires WithinCap(cap, total) && inUse + more <= total < U32_MOD
    ensures UnderCap(cap, inUse, more)
  {
  }

  /** What is open after part of the load, with one more of the saved streams, is no more than there was. */
  lemma {:induction false} ReceiveTotal(t: State, s: State, id: StreamId)
    requires Inv(t) && Inv(s) && PartOf(t, s) && id in s.streams && id !in t.streams
    ensures t.rx + (if s.streams[id].isTransmit then 0 else s.streams[id].sdp.numChannels) <= s.rx
  {
    hide Consistent, MapperMatches, StreamsFit;
    var rest := s.streams - {id};
    TotalWithout(s.streams, id, false);
    TotalOfPart(t.streams, rest, false);
  }

  lemma {:induction false} ClockIsAgreed(t: State, s: State, id: StreamId)
    requires ClocksAgree(t) && ClocksAgree(s) && PartOf(t, s) && id in s.streams
    ensures ClockAgrees(false, t.grandmaster, s.streams[id].sdp.ptpMasterMac)
  {
    hide Normalize;
    if t.grandmaster != "" {
      var other :| other in t.streams && Declares(t.streams[other]);
      assert Normalize(t.streams[other].sdp.ptpMasterMac) == Normalize(t.grandmaster);
      assert Declares(s.streams[other]);
    }
  }

  lemma {:induction false} ReturnsAtItsTurn(t: State, s: State, id: StreamId, env: Env)
    requires Inv(t) && Inv(s) && PartOf(t, s) && id in s.streams && id !in t.streams && Returnable(s)
    requires t.config == s.config && (s.config.ignoreMismatch || ClocksAgree(t))
    requires env == Env(true, true, true, true)
    ensures CanAdd(t, R.PersistedSdp(s.streams[id].sdp), false, env)
  {
    hide Consistent, MapperMatches, TotalsExact, Accepts, FreeChannels, DeviceChannels, Normalize, ClocksAgree;
    var m := s.streams[id];
    OwnChannelsAreFree(t, s, id);
    FreeEnough(t, m.mapping);
    ReceiveTotal(t, s, id);
    TotalsAreSmall(s);
    if !s.config.ignoreMismatch { ClockIsAgreed(t, s, id); }
    var total := s.rx + if m.isTransmit then m.sdp.numChannels else 0;
    RoomUnderCap(s.config.profileMaxTotal, t.rx, m.sdp.numChannels, total);
    RoomUnderCap(s.config.usableRx, t.rx, m.sdp.numChannels, total);
  }

  lemma {:induction false} EverythingReturns(s: State, time: U64, resolve: Option<string> -> string, envs: nat -> Env,
        k: nat)
    requires Inv(s) && Savable(s, time) && Returnable(s) && k <= |s.streams|
    requires forall i :: envs(i) == Env(true, true, true, true)
    ensures |Reloaded(s, time, resolve)| == |s.streams| == |SortedIds(s.streams.Keys)|
    ensures var r := LoadSavedStreams(Restarted(s), Reloaded(s, time, resolve)[..k], envs);
      && Inv(r.0) && PartOf(r.0, s) && r.0.config == s.config && (s.config.ignoreMismatch || ClocksAgree(r.0))
      && r.0.streams.Keys == IdSet(SortedIds(s.streams.Keys)[..k]) && r.1 == k
    decreases k
  {
    hide Inv, Reloaded, SortedIds, Restore, R.PersistedSdp, PartOf, Savable, ClocksAgree, Returnable, CanAdd;
    LoadedIsPart(s, time, resolve, envs, k);
    if k == 0 {
      RestartedIsExact(s);
      StartsAgreed(s);
    } else {
      EverythingReturns(s, time, resolve, envs, k - 1);
      var saved, ids := Reloaded(s, time, resolve), SortedIds(s.streams.Keys);
      var t := LoadSavedStreams(Restarted(s), saved[..k - 1], envs).0;
      var id := ids[k - 1];
      ReloadedIs(s, time, resolve, k - 1);
      assert saved[..k][..k - 1] == saved[..k - 1];
      assert id !in ids[..k - 1] && ids[..k] == ids[..k - 1] + [id];
      SavableIsValid(s, time, id);
      ReturnsAtItsTurn(t, s, id, envs(k - 1));
      RestoreDependsOnAdmission(t, s, id, envs(k - 1));
      if !s.config.ignoreMismatch { RestoreKeepsClocks(t, saved[k - 1], envs(k - 1)); }
      assert IdSet(ids[..k]) == IdSet(ids[..k - 1]) + {id};
    }
  }

  lemma {:induction false} StartsAgreed(s: State)
    ensures ClocksAgree(Restarted(s))
  {
  }

  /**
    A restart with every answer favourable brings back every stream: the same mappings, the same owner
    of every device channel and the same totals.
   */
  lemma {:induction false} RestartBringsBackAll(s: State, time: U64, resolve: Option<string> -> string,
        envs: nat -> Env)
    requires Inv(s) && Savable(s, time) && Returnable(s)
    requires forall i :: envs(i) == Env(true, true, true, true)
    ensures var r := LoadSavedStreams(Restarted(s), Reloaded(s, time, resolve), envs);
      && r.1 == |s.streams| && r.0.streams.Keys == s.streams.Keys && PartOf(r.0, s)
      && r.0.mapper.mappings == s.mapper.mappings && r.0.mapper.owners == s.mapper.owners
      && r.0.rx == s.rx && r.0.tx == s.tx
  {
    hide Reloaded, Savable, Returnable, LoadSavedStreams, Inv, PartOf, SortedIds, ClocksAgree;
    var saved, ids := Reloaded(s, time, resolve), SortedIds(s.streams.Keys);
    EverythingReturns(s, time, resolve, envs, |s.streams|);
    assert saved[..|saved|] == saved && ids[..|ids|] == ids;
    var t := LoadSavedStreams(Restarted(s), saved, envs).0;
    assert IdSet(ids) == s.streams.Keys;
    SameMapper(t, s);
    SameTotals(t, s);
  }

  lemma {:induction false} SameMapper(t: State, s: State)
    requires Inv(t) && Inv(s) && PartOf(t, s) && t.streams.Keys == s.streams.Keys
    ensures t.mapper.mappings == s.mapper.mappings && t.mapper.owners == s.mapper.owners
  {
    hide Consistent, StreamsFit, TotalsExact, R.PersistedSdp;
    assert t.mapper.mappings == s.mapper.mappings;
    MappingsDetermineOwners(t.mapper, s.mapper);
  }

  lemma {:induction false} SameTotals(t: State, s: State)
    requires Inv(t) && Inv(s) && PartOf(t, s) && t.streams.Keys == s.streams.Keys
    ensures t.rx == s.rx && t.tx == s.tx
  {
    hide Consistent, MapperMatches, StreamsFit;
    TotalOfPart(t.streams, s.streams, false);
    TotalOfPart(s.streams, t.streams, false);
    TotalOfPart(t.streams, s.streams, true);
    TotalOfPart(s.streams, t.streams, true);
  }

  // ---- where restored streams send -------------------------------------------------------------

  /** Source ports are not saved: what a restart brings back is apart iff its addresses are. */
  lemma {:induction false} ApartAfterRestartIff(t: State, s: State, a: StreamId, b: StreamId)
    requires PartOf(t, s) && a in t.streams && b in t.streams
    ensures Apart(t.streams[a], t.streams[b]) <==>
      s.streams[a].sdp.connectionAddress != s.streams[b].sdp.connectionAddress
  {
  }

  /**
    Two flows of one request are apart when created, and after a restart iff they were not told apart by
    source port.
   */
  lemma {:induction false} FlowsApartAfterRestartIff(
      t: State, s: State, a: StreamId, b: StreamId, config: Config, q: TxRequest, perFlow: nat, i: nat, j: nat)
    requires PartOf(t, s) && a in t.streams && b in t.streams
    requires perFlow > 0 && i < j < FlowCount(q.numChannels, perFlow)
    requires FlowIs(s.streams[a], config, q, perFlow, i) && FlowIs(s.streams[b], config, q, perFlow, j)
    ensures Apart(s.streams[a], s.streams[b])
    ensures Apart(t.streams[a], t.streams[b]) <==> !config.dolbyScheme
  {
    hide PartOf, FlowCount, AdvanceLastOctet;
    FlowCountIsCeiling(q.numChannels, perFlow);
    TargetsDiffer(config, q, i, j);
    ApartAfterRestartIff(t, s, a, b);
  }
}
