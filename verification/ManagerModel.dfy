/**
  The stream manager (packages/aes67-macos-driver/NetworkEngine/StreamManager.cpp and .h) as a state
  and one function per public operation.  An operation that holds the lock from start to end is one
  step.  Adding on a default mapping, creating several flows and following a source release it in
  between; they are one step here too, as if nobody else came in.  What sockets, threads and the
  profile tables answer comes in with the call (`Env`).
 */
module ManagerModel {
  import opened StreamTypes
  import opened ChannelMapper
  import opened Counting
  import Decimal
  import Text

  // ---- identifiers in map order ----------------------------------------------------------------

  lemma {:induction false} FindLeast(ids: set<StreamId>) returns (m: StreamId)
    requires ids != {}
    ensures m in ids && forall x :: x in ids ==> m <= x
  {
    m :| m in ids;
    var rest := ids - {m};
    if rest != {} {
      var other := FindLeast(rest);
      assert forall x :: x in ids ==> x == m || x in rest;
      if other < m { m := other; }
    } else {
      assert ids == {m};
    }
  }

  lemma {:induction false} LeastExists(ids: set<StreamId>)
    requires ids != {}
    ensures exists m :: m in ids && forall x :: x in ids ==> m <= x
  {
    var m := FindLeast(ids);
  }

  function Least(ids: set<StreamId>): (m: StreamId)
    requires ids != {}
    ensures m in ids && forall x :: x in ids ==> m <= x
  {
    LeastExists(ids);
    var m :| m in ids && forall x :: x in ids ==> m <= x;
    m
  }

  /** The order a walk over the stream map visits its keys in. */
  function SortedIds(ids: set<StreamId>): (r: seq<StreamId>)
    ensures |r| == |ids| && forall x :: x in r <==> x in ids
    ensures forall i, j :: 0 <= i < j < |r| ==> r[i] < r[j]
  {
    if ids == {} then [] else var m := Least(ids); [m] + SortedIds(ids - {m})
  }

  // ---- state -----------------------------------------------------------------------------------

  const U32_MOD: nat := 0x1_0000_0000

  function AddU32(a: U32, b: nat): U32 { (a + b) % U32_MOD }
  function SubU32(a: U32, b: nat): U32 { (a - b) % U32_MOD }

  /** Settings read by the operations.  Zero means "no limit" for the three channel caps. */
  datatype Config = Config(
    profileMaxTotal: U32, profileMaxPerFlow: U16, dolbyScheme: bool,
    usableRx: U32, usableTx: U32, flowPortOffset: U32,
    ignoreMismatch: bool, requirePtpLock: bool, ptpEnabled: bool,
    ioActive: bool, autoSinkFollow: bool, deviceRate: real)

  datatype Managed = Managed(sdp: SdpSession, mapping: ChannelMapping, isTransmit: bool, sourcePort: U16)

  datatype State = State(
    mapper: Mapper, streams: map<StreamId, Managed>, rx: U32, tx: U32, grandmaster: string, config: Config)

  /** What code outside this model answers during one operation. */
  datatype Env = Env(profileAccepts: bool, fitsPacket: bool, ptpLocked: bool, starts: bool)

  /** A generated identifier, and what happens to the stream created under it. */
  datatype Attempt = Attempt(id: StreamId, env: Env)

  const Defaults: Config := Config(0, 8, false, 128, 128, 0, false, false, false, false, true, 48000.0)
  function Initial(): State { State(EmptyMapper(), map[], 0, 0, "", Defaults) }

  // ---- grandmasters ----------------------------------------------------------------------------

  function Upper(c: char): char { if 'a' <= c <= 'z' then c - 'a' + 'A' else c }

  /** Two spellings of one clock compare equal: separators and case are dropped. */
  function Normalize(id: string): string {
    if id == "" then ""
    else if id[0] == '-' || id[0] == ':' || id[0] == '.' then Normalize(id[1..])
    else [Upper(id[0])] + Normalize(id[1..])
  }

  function Adopt(grandmaster: string, declared: string): string {
    if declared != "" && grandmaster == "" then declared else grandmaster
  }

  function FirstDeclared(ids: seq<StreamId>, streams: map<StreamId, Managed>): string
    requires forall id :: id in ids ==> id in streams
  {
    if ids == [] then ""
    else if streams[ids[0]].sdp.ptpMasterMac != "" then streams[ids[0]].sdp.ptpMasterMac
    else FirstDeclared(ids[1..], streams)
  }

  function ElectGrandmaster(streams: map<StreamId, Managed>): string {
    FirstDeclared(SortedIds(streams.Keys), streams)
  }

  // ---- admission -------------------------------------------------------------------------------

  predicate RateMatches(sampleRate: U32, deviceRate: real) {
    -0.1 <= sampleRate as real - deviceRate <= 0.1
  }

  predicate NetworkOk(sdp: SdpSession) {
    |sdp.connectionAddress| >= 4 && sdp.connectionAddress[..4] == "239." && sdp.port != 0
  }

  predicate UnderCap(cap: U32, inUse: U32, more: U16) { cap > 0 ==> AddU32(inUse, more) <= cap }

  predicate ClockAgrees(ignoreMismatch: bool, grandmaster: string, declared: string) {
    ignoreMismatch || declared == "" || grandmaster == "" || Normalize(grandmaster) == Normalize(declared)
  }

  ghost predicate CanAdd(s: State, sdp: SdpSession, isTransmit: bool, env: Env) {
    var inUse := if isTransmit then s.tx else s.rx;
    && RateMatches(sdp.sampleRate, s.config.deviceRate)
    && 0 < sdp.numChannels <= 128 && sdp.numChannels <= |FreeChannels(s.mapper.owners)|
    && env.fitsPacket && NetworkOk(sdp) && env.profileAccepts
    && UnderCap(s.config.profileMaxTotal, inUse, sdp.numChannels)
    && UnderCap(if isTransmit then s.config.usableTx else s.config.usableRx, inUse, sdp.numChannels)
    && (s.config.requirePtpLock && s.config.ptpEnabled && sdp.ptpDomain >= 0 ==> env.ptpLocked)
    && ClockAgrees(s.config.ignoreMismatch, s.grandmaster, sdp.ptpMasterMac)
  }

  // ---- operations ------------------------------------------------------------------------------

  function Complete(m: ChannelMapping, id: StreamId, name: string, numChannels: U16): ChannelMapping {
    m.(streamId := id, streamName := name, streamChannelCount := numChannels, deviceChannelCount := numChannels)
  }

  /** A stream becomes open: recorded, counted toward its direction, its grandmaster adopted. */
  ghost function Opened(s: State, id: StreamId, managed: Managed): State {
    var n := managed.sdp.numChannels;
    State(Added(s.mapper, managed.mapping), s.streams[id := managed],
          if managed.isTransmit then s.rx else AddU32(s.rx, n),
          if managed.isTransmit then AddU32(s.tx, n) else s.tx,
          Adopt(s.grandmaster, managed.sdp.ptpMasterMac), s.config)
  }

  /** The common tail of every way in: claim the channels, start if audio is running, undo the claim if that fails. */
  ghost function Open(s: State, id: StreamId, managed: Managed, env: Env): (State, bool) {
    if !Accepts(s.mapper, managed.mapping, NULL_ID) then (s, false)
    else if s.config.ioActive && !env.starts then (s.(mapper := Removed(Added(s.mapper, managed.mapping), id)), false)
    else (Opened(s, id, managed), true)
  }

  ghost function AddStream(s: State, sdp: SdpSession, mapping: ChannelMapping, attempt: Attempt): (State, StreamId) {
    var id := attempt.id;
    if !CanAdd(s, sdp, false, attempt.env) || id in s.streams then (s, NULL_ID)
    else
      var m := Complete(mapping, id, sdp.sessionName, sdp.numChannels);
      var r := Open(s, id, Managed(sdp, m, false, 0), attempt.env);
      (r.0, if r.1 then id else NULL_ID)
  }

  ghost function AddStreamAuto(s: State, sdp: SdpSession, attempt: Attempt): (State, StreamId) {
    match DefaultMapping(s.mapper, NULL_ID, sdp.sessionName, sdp.numChannels)
    case None => (s, NULL_ID)
    case Some(m) => AddStream(s, sdp, m, attempt)
  }

  ghost function Closed(s: State, id: StreamId): State
    requires id in s.streams
  {
    var n := s.streams[id].sdp.numChannels;
    var rest := s.streams - {id};
    State(Removed(s.mapper, id), rest,
          if s.streams[id].isTransmit then s.rx else SubU32(s.rx, n),
          if s.streams[id].isTransmit then SubU32(s.tx, n) else s.tx,
          ElectGrandmaster(rest), s.config)
  }

  ghost function RemoveStream(s: State, id: StreamId): (State, bool) {
    if id in s.streams then (Closed(s, id), true) else (s, false)
  }

  ghost function RemoveAllStreams(s: State): State {
    State(Cleared(s.mapper), map[], 0, 0, ElectGrandmaster(map[]), s.config)
  }

  /** The session a transmit stream is announced with (packages/aes67-macos-driver/NetworkEngine/TxSession.h). */
  function TxSession(name: string, address: string, port: U16, numChannels: U16, rate: real, dscp: I32,
        time: U64): SdpSession {
    BlankSession.(sessionName := name, connectionAddress := address, port := port, numChannels := numChannels,
                  sampleRate := if 0 <= rate.Floor < U32_MOD then rate.Floor else 0,
                  encoding := "L24", payloadType := 97, sessionId := time, sessionVersion := 1, dscp := dscp)
  }

  datatype TxRequest = TxRequest(name: string, address: string, port: U16, numChannels: U16, mapping: ChannelMapping,
    dscp: I32, time: U64)

  ghost function CreateTxStream(s: State, q: TxRequest, sourcePort: U16, attempt: Attempt): (State, StreamId) {
    var sdp := TxSession(q.name, q.address, q.port, q.numChannels, s.config.deviceRate, q.dscp, q.time);
    if !CanAdd(s, sdp, true, attempt.env) then (s, NULL_ID)
    else
      var m := Complete(q.mapping, attempt.id, q.name, q.numChannels);
      var r := Open(s, attempt.id, Managed(sdp, m, true, sourcePort), attempt.env);
      (r.0, if r.1 then attempt.id else NULL_ID)
  }

  // ---- a transmit stream as several flows ------------------------------------------------------

  const MAX_CHANNELS_PER_FLOW: nat := 64

  /** The width of a flow: what a frame, the profile and the driver all allow, and never zero. */
  function PerFlow(config: Config, budgetPerFlow: U16): (n: nat)
    ensures 1 <= n <= MAX_CHANNELS_PER_FLOW
  {
    var n := Min(MAX_CHANNELS_PER_FLOW, Min(config.profileMaxPerFlow, budgetPerFlow));
    if n == 0 then 1 else n
  }

  function FlowCount(numChannels: nat, perFlow: nat): nat
    requires perFlow > 0
  {
    (numChannels + perFlow - 1) / perFlow
  }

  /** The address with its last number advanced, or nothing rather than a wrap into another subnet. */
  function AdvanceLastOctet(ip: string, offset: nat): Option<string> {
    match Text.FindLast(ip, '.')
    case None => None
    case Some(dot) =>
      var prefix, last := ip[..dot + 1], ip[dot + 1..];
      if last == "" || !Decimal.AllDigits(last) || |last| > 3 then None
      else if Decimal.Value(last) > 255 || Decimal.Value(last) + offset > 255 then None
      else Some(prefix + Decimal.Print(Decimal.Value(last) + offset))
  }

  /** Where flow k goes: its multicast address and the source port it binds (0 for any). */
  function FlowTarget(config: Config, q: TxRequest, flow: nat): Option<(string, U16)> {
    if config.dolbyScheme then
      // every operand is a 32-bit unsigned in the code; the sum wraps there
      var candidate := (q.port + 1 + config.flowPortOffset + flow) % U32_MOD;
      if candidate > 0xFFFF then None else Some((q.address, candidate))
    else
      match AdvanceLastOctet(q.address, flow)
      case None => None
      case Some(ip) => Some((ip, 0))
  }

  function AsU16(n: int): U16 { n % 0x1_0000 }

  function FlowRequest(q: TxRequest, address: string, perFlow: nat, flow: nat): TxRequest
    requires perFlow > 0
  {
    var count := FlowCount(q.numChannels, perFlow);
    var remaining := AsU16(q.numChannels - AsU16(flow * perFlow));
    var width: U16 := Min(remaining, perFlow);
    var name :=
      if count == 1 then q.name
      else q.name + " (flow " + Decimal.Print(flow + 1) + "/" + Decimal.Print(count) + ")";
    TxRequest(name, address, q.port, width,
      FlowMapping(q.mapping, AsU16(q.mapping.deviceChannelStart + flow * perFlow), width),
              q.dscp, q.time)
  }

  /** Sequential within the flow: routes set for the whole group name channels this flow does not have. */
  function FlowMapping(m: ChannelMapping, start: U16, width: U16): ChannelMapping {
    ChannelMapping(m.streamId, m.streamName, width, m.streamChannelOffset, start, width, [])
  }

  ghost function RemoveEach(s: State, ids: seq<StreamId>): State
    decreases |ids|
  {
    if ids == [] then s else RemoveEach(RemoveStream(s, ids[0]).0, ids[1..])
  }

  ghost function CreateFlowsFrom(s: State, q: TxRequest, perFlow: nat, attempts: nat -> Attempt, flow: nat,
        created: seq<StreamId>)
    : (State, seq<StreamId>)
    requires perFlow > 0
    decreases FlowCount(q.numChannels, perFlow) - flow
  {
    if flow >= FlowCount(q.numChannels, perFlow) then (s, created)
    else
      match FlowTarget(s.config, q, flow)
      case None => (RemoveEach(s, created), [])
      case Some(target) =>
        var r := CreateTxStream(s, FlowRequest(q, target.0, perFlow, flow), target.1, attempts(flow));
        if r.1 == NULL_ID then (RemoveEach(r.0, created), [])
        else CreateFlowsFrom(r.0, q, perFlow, attempts, flow + 1, created + [r.1])
  }

  ghost function CreateTxStreamFlows(s: State, q: TxRequest, budgetPerFlow: U16, attempts: nat -> Attempt): (State,
        seq<StreamId>) {
    if q.numChannels == 0 then (s, [])
    else CreateFlowsFrom(s, q, PerFlow(s.config, budgetPerFlow), attempts, 0, [])
  }

  // ---- remapping -------------------------------------------------------------------------------

  ghost function UpdateMapping(s: State, id: StreamId, newMapping: ChannelMapping, rtpAccepts: bool): (State, bool) {
    if id !in s.streams then (s, false)
    else
      var stream := s.streams[id];
      var m := newMapping.(streamId := id, streamName := stream.mapping.streamName,
        streamChannelCount := stream.sdp.numChannels);
      if !Accepts(s.mapper, m, id) then (s, false)
      else
        var committed := Updated(s.mapper, m);
        if rtpAccepts then
          (s.(mapper := committed, streams := s.streams[id := stream.(mapping := m)]), true)
        else
          var old_ := stream.mapping;
          (s.(mapper := if Accepts(committed, old_, old_.streamId) then Updated(committed, old_) else committed), false)
  }

  // ---- following a source ----------------------------------------------------------------------

  datatype Decision = NotBound | Unchanged | ChannelCountChanged | Follow

  function EvaluateSinkFollow(stored: SdpSession, announced: SdpSession): Decision {
    if announced.sessionName == "" || stored.sessionName != announced.sessionName then NotBound
    else if stored.originAddress == "" || announced.originAddress == ""
      || stored.originAddress != announced.originAddress then NotBound
    else if stored.sourceAddress != "" && announced.sourceAddress != ""
      && stored.sourceAddress != announced.sourceAddress then NotBound
    else if stored.connectionAddress == announced.connectionAddress && stored.port == announced.port
      && stored.payloadType == announced.payloadType && stored.encoding == announced.encoding
      && stored.sampleRate == announced.sampleRate && stored.ptimeUs == announced.ptimeUs
      && stored.framecount == announced.framecount then Unchanged
    else if stored.numChannels != announced.numChannels then ChannelCountChanged
    else Follow
  }

  predicate Follows(managed: Managed, announced: SdpSession) {
    !managed.isTransmit && EvaluateSinkFollow(managed.sdp, announced) == Follow
  }

  /** A sink to re-subscribe: which, at which device channel, to what. */
  datatype Pending = Pending(id: StreamId, deviceChannelStart: U16, newSdp: SdpSession)

  function PendingOf(ids: seq<StreamId>, streams: map<StreamId, Managed>, announced: SdpSession): seq<Pending>
    requires forall id :: id in ids ==> id in streams
  {
    if ids == [] then []
    else
      var n := |ids| - 1;
      var m := streams[ids[n]];
      PendingOf(ids[..n], streams, announced) +
        if Follows(m, announced)
        then [Pending(ids[n], m.mapping.deviceChannelStart, announced.(sessionName := m.sdp.sessionName))]
        else []
  }

  function BlockMapping(p: Pending): ChannelMapping {
    ChannelMapping(NULL_ID, p.newSdp.sessionName, p.newSdp.numChannels, 0, p.deviceChannelStart, p.newSdp.numChannels,
      [])
  }

  ghost function Resubscribe(s: State, p: Pending, attempt: Attempt): (State, nat) {
    if p.id !in s.streams then (s, 0)
    else
      var r := AddStream(Closed(s, p.id), p.newSdp, BlockMapping(p), attempt);
      (r.0, if r.1 != NULL_ID then 1 else 0)
  }

  ghost function ResubscribeAll(s: State, pending: seq<Pending>, attempts: nat -> Attempt): (State, nat) {
    if pending == [] then (s, 0)
    else
      var n := |pending| - 1;
      var before := ResubscribeAll(s, pending[..n], attempts);
      var r := Resubscribe(before.0, pending[n], attempts(n));
      (r.0, before.1 + r.1)
  }

  datatype Trigger = Announcement | Controller

  ghost function FollowAnnouncement(s: State, announced: SdpSession, trigger: Trigger,
        attempts: nat -> Attempt): (State, nat) {
    if (trigger.Announcement? && !s.config.autoSinkFollow) || announced.sessionName == "" then (s, 0)
    else ResubscribeAll(s, PendingOf(SortedIds(s.streams.Keys), s.streams, announced), attempts)
  }

  // ---- restoring what was saved ----------------------------------------------------------------

  datatype Saved = Saved(sdp: SdpSession, mapping: ChannelMapping, enabled: bool, isTransmit: bool)

  ghost function Restore(s: State, c: Saved, env: Env): (State, bool) {
    if !c.enabled || !c.sdp.IsValid() || !ValidMapping(c.mapping) || !CanAdd(s, c.sdp, false, env)
      || c.mapping.streamId in s.streams
    then (s, false)
    else Open(s, c.mapping.streamId, Managed(c.sdp, c.mapping, c.isTransmit, 0), env)
  }

  ghost function LoadSavedStreams(s: State, saved: seq<Saved>, envs: nat -> Env): (State, nat) {
    if saved == [] then (s, 0)
    else
      var n := |saved| - 1;
      var before := LoadSavedStreams(s, saved[..n], envs);
      var r := Restore(before.0, saved[n], envs(n));
      (r.0, before.1 + if r.1 then 1 else 0)
  }

  // ---- settings --------------------------------------------------------------------------------

  ghost function SetUsableChannelCount(s: State, count: nat): State {
    s.(mapper := s.mapper.(usable := Min(count, MAX_DEVICE_CHANNELS)), config := s.config.(usableRx := count % U32_MOD))
  }

  ghost function SetDeviceSampleRate(s: State, rate: real): (State, bool) {
    if rate < 44100.0 || rate > 384000.0
      || exists id :: id in s.streams && !RateMatches(s.streams[id].sdp.sampleRate, rate)
    then (s, false)
    else (s.(config := s.config.(deviceRate := rate)), true)
  }

  // ---- runs ------------------------------------------------------------------------------------

  datatype Op =
    | OpAdd(sdp: SdpSession, mapping: ChannelMapping, attempt: Attempt)
    | OpAddAuto(sdp: SdpSession, attempt: Attempt)
    | OpRemove(id: StreamId)
    | OpRemoveAll
    | OpCreateTx(request: TxRequest, sourcePort: U16, attempt: Attempt)
    | OpCreateFlows(request: TxRequest, budgetPerFlow: U16, attempts: nat -> Attempt)
    | OpUpdateMapping(id: StreamId, mapping: ChannelMapping, rtpAccepts: bool)
    | OpFollow(announced: SdpSession, trigger: Trigger, attempts: nat -> Attempt)
    | OpLoad(saved: seq<Saved>, envs: nat -> Env)
    | OpSetUsable(count: nat)
    | OpSetRate(rate: real)
    | OpConfigure(config: Config)   // every other setting; the rate and the receive limit have their own setters

  ghost function Apply(s: State, op: Op): State {
    match op
    case OpAdd(sdp, mapping, attempt) => AddStream(s, sdp, mapping, attempt).0
    case OpAddAuto(sdp, attempt) => AddStreamAuto(s, sdp, attempt).0
    case OpRemove(id) => RemoveStream(s, id).0
    case OpRemoveAll => RemoveAllStreams(s)
    case OpCreateTx(q, sourcePort, attempt) => CreateTxStream(s, q, sourcePort, attempt).0
    case OpCreateFlows(q, budget, attempts) => CreateTxStreamFlows(s, q, budget, attempts).0
    case OpUpdateMapping(id, mapping, rtpAccepts) => UpdateMapping(s, id, mapping, rtpAccepts).0
    case OpFollow(announced, trigger, attempts) => FollowAnnouncement(s, announced, trigger, attempts).0
    case OpLoad(saved, envs) => LoadSavedStreams(s, saved, envs).0
    case OpSetUsable(count) => SetUsableChannelCount(s, count)
    case OpSetRate(rate) => SetDeviceSampleRate(s, rate).0
    case OpConfigure(config) => s.(config := config.(deviceRate := s.config.deviceRate, usableRx := s.config.usableRx))
  }

  ghost function RunFrom(start: State, ops: seq<Op>): State {
    if ops == [] then start else Apply(RunFrom(start, ops[..|ops| - 1]), ops[|ops| - 1])
  }

  /** The random identifiers drawn for several flows: each new, no two alike. */
  ghost predicate FreshAttempts(s: State, attempts: nat -> Attempt, count: nat) {
    && (forall i :: 0 <= i < count ==> attempts(i).id !in s.streams)
    && (forall i, j :: 0 <= i < j < count ==> attempts(i).id != attempts(j).id)
  }

  /** No transmit stream is created under an identifier already in use (receive streams are checked by the code). */
  ghost predicate Fresh(s: State, op: Op) {
    && (op.OpCreateTx? ==> op.attempt.id !in s.streams)
    && (op.OpCreateFlows? ==> FreshAttempts(s, op.attempts, op.request.numChannels))
  }

  ghost predicate FreshRun(start: State, ops: seq<Op>) {
    forall i {:trigger ops[..i]} :: 0 <= i < |ops| ==> Fresh(RunFrom(start, ops[..i]), ops[i])
  }
}
