/** A transmit stream created as several flows: all of them, laid end to end, or none and no trace. */
module ManagerFlows {
  import opened StreamTypes
  import opened ChannelMapper
  import opened ManagerModel
  import opened ManagerInvariants
  import opened Counting
  import Decimal
  import Text

  function FlowWidth(numChannels: nat, perFlow: nat, i: nat): nat
    requires i * perFlow <= numChannels
  {
    Min(numChannels - i * perFlow, perFlow)
  }

  lemma {:induction false} FlowStarts(n: nat, perFlow: nat, i: nat)
    requires perFlow > 0 && i < FlowCount(n, perFlow)
    ensures i * perFlow < n
    ensures i + 1 < FlowCount(n, perFlow) ==> (i + 1) * perFlow < n && FlowWidth(n, perFlow, i) == perFlow
    ensures i + 1 == FlowCount(n, perFlow) ==> i * perFlow + FlowWidth(n, perFlow, i) == n
    ensures 0 < FlowWidth(n, perFlow, i) <= perFlow
  {
    var c := FlowCount(n, perFlow);
    FlowCountIsCeiling(n, perFlow);
    assert (i + 1) * perFlow == i * perFlow + perFlow;
    MultiplesInOrder(i, c - 1, perFlow);
    if i + 1 < c { MultiplesInOrder(i + 1, c - 1, perFlow); }
  }

  /** Flow i as it must stand once created. */
  ghost predicate FlowIs(m: Managed, config: Config, q: TxRequest, perFlow: nat, i: nat)
    requires perFlow > 0 && i < FlowCount(q.numChannels, perFlow)
  {
    FlowStarts(q.numChannels, perFlow, i);
    var width := FlowWidth(q.numChannels, perFlow, i);
    && FlowTarget(config, q, i) == Some((m.sdp.connectionAddress, m.sourcePort))
    && m.isTransmit && m.sdp.numChannels == width && m.sdp.port == q.port
    && m.mapping.routes == [] && m.mapping.deviceChannelStart == q.mapping.deviceChannelStart + i * perFlow
    && m.mapping.deviceChannelCount == m.mapping.streamChannelCount == width
  }

  /** k flows created on top of `base`, everything else as it was. */
  ghost predicate Progress(base: State, s: State, q: TxRequest, perFlow: nat, attempts: nat -> Attempt, k: nat,
    created: seq<StreamId>)
    requires perFlow > 0
  {
    && Inv(s) && s.config == base.config && s.mapper.usable == base.mapper.usable && s.grandmaster == base.grandmaster
    && |created| == k <= FlowCount(q.numChannels, perFlow)
    && s.streams - IdSet(created) == base.streams
    && forall i :: 0 <= i < k ==>
      && created[i] == attempts(i).id && created[i] in s.streams
      && FlowIs(s.streams[created[i]], base.config, q, perFlow, i)
  }

  lemma {:induction false} SmallIsExact(n: int)
    requires 0 <= n < 0x1_0000
    ensures AsU16(n) == n
  {
  }

  /** None of the 16-bit arithmetic of a flow wraps once the flows before it were accepted. */
  lemma {:induction false} RequestIsExact(q: TxRequest, address: string, perFlow: nat, i: nat)
    requires perFlow > 0 && i < FlowCount(q.numChannels, perFlow)
    requires q.mapping.deviceChannelStart + i * perFlow < 0x1_0000
    ensures i * perFlow <= q.numChannels
    ensures var r := FlowRequest(q, address, perFlow, i);
      && r.numChannels == FlowWidth(q.numChannels, perFlow, i) && r.address == address && r.port == q.port
      && r.mapping.routes == [] && r.mapping.deviceChannelStart == q.mapping.deviceChannelStart + i * perFlow
  {
    hide AsU16, FlowCount;
    FlowStarts(q.numChannels, perFlow, i);
    SmallIsExact(i * perFlow);
    SmallIsExact(q.numChannels - i * perFlow);
    SmallIsExact(q.mapping.deviceChannelStart + i * perFlow);
  }

  lemma {:induction false} NextStartIsInRange(
      base: State, s: State, q: TxRequest, perFlow: nat, attempts: nat -> Attempt, k: nat, created: seq<StreamId>)
    requires perFlow > 0 && Progress(base, s, q, perFlow, attempts, k, created) && k < FlowCount(q.numChannels, perFlow)
    ensures q.mapping.deviceChannelStart + k * perFlow < 0x1_0000
  {
    hide Total, FlowTarget;
    if k > 0 {
      FlowStarts(q.numChannels, perFlow, k - 1);
      assert k * perFlow == (k - 1) * perFlow + perFlow;
      assert FlowIs(s.streams[created[k - 1]], base.config, q, perFlow, k - 1);
      assert ValidMapping(s.mapper.mappings[created[k - 1]]);
    }
  }

  lemma {:induction false} CreatedStreamIs(s: State, q: TxRequest, sourcePort: U16, attempt: Attempt)
    requires CreateTxStream(s, q, sourcePort, attempt).1 != NULL_ID
    ensures var t := CreateTxStream(s, q, sourcePort, attempt).0;
      && attempt.id in t.streams && t.streams == s.streams[attempt.id := t.streams[attempt.id]]
      && t.config == s.config && t.mapper.usable == s.mapper.usable && t.grandmaster == s.grandmaster
      && var m := t.streams[attempt.id];
        && m.isTransmit && m.sourcePort == sourcePort
        && m.sdp.connectionAddress == q.address && m.sdp.port == q.port && m.sdp.numChannels == q.numChannels
        && m.mapping.routes == q.mapping.routes && m.mapping.deviceChannelStart == q.mapping.deviceChannelStart
        && m.mapping.deviceChannelCount == m.mapping.streamChannelCount == q.numChannels
  {
  }

  lemma {:induction false} OneMoreFlow(
      base: State, s: State, q: TxRequest, perFlow: nat, attempts: nat -> Attempt, k: nat, created: seq<StreamId>)
    requires perFlow > 0 && Progress(base, s, q, perFlow, attempts, k, created) && k < FlowCount(q.numChannels, perFlow)
    requires FlowTarget(s.config, q, k).Some? && attempts(k).id !in s.streams
    ensures var target := FlowTarget(s.config, q, k).value;
      var r := CreateTxStream(s, FlowRequest(q, target.0, perFlow, k), target.1, attempts(k));
      r.1 != NULL_ID ==> Progress(base, r.0, q, perFlow, attempts, k + 1, created + [r.1])
  {
    hide Inv, CanAdd, FlowTarget, FlowCount, FlowRequest;
    var target := FlowTarget(s.config, q, k).value;
    var request := FlowRequest(q, target.0, perFlow, k);
    var r := CreateTxStream(s, request, target.1, attempts(k));
    if r.1 != NULL_ID {
      CreatedIsNew(s, request, target.1, attempts(k));
      NextStartIsInRange(base, s, q, perFlow, attempts, k, created);
      RequestIsExact(q, target.0, perFlow, k);
      CreatedStreamIs(s, request, target.1, attempts(k));
      CreateTxStreamKeepsInv(s, request, target.1, attempts(k));
      var id := attempts(k).id;
      assert IdSet(created + [id]) == IdSet(created) + {id};
      assert r.0.streams - IdSet(created + [id]) == s.streams - IdSet(created);
    }
  }

  /** What a rollback leaves: the state before, with the grandmaster elected afresh once anything was undone. */
  ghost function RolledBack(base: State, undone: bool): State {
    if undone then base.(grandmaster := ElectGrandmaster(base.streams)) else base
  }

  /** Undoing the flows made so far leaves the streams, the mapper and the totals of `base`. */
  lemma {:induction false} RollbackRestores(
      base: State, s: State, q: TxRequest, perFlow: nat, attempts: nat -> Attempt, k: nat, created: seq<StreamId>)
    requires perFlow > 0 && Inv(base) && Progress(base, s, q, perFlow, attempts, k, created)
    ensures RemoveEach(s, created) == RolledBack(base, created != [])
  {
    hide Inv, ElectGrandmaster, RemoveEach, FlowIs;
    assert created != [] ==> created[0] in created && created[0] in s.streams;
    RemoveEachEffect(s, created);
    StreamsDetermineState(RemoveEach(s, created), base);
  }

  /** Flow k finds no target, or its stream is refused. */
  ghost predicate FlowFails(s: State, q: TxRequest, perFlow: nat, attempt: Attempt, k: nat)
    requires perFlow > 0
  {
    match FlowTarget(s.config, q, k)
    case None => true
    case Some(target) => CreateTxStream(s, FlowRequest(q, target.0, perFlow, k), target.1, attempt).1 == NULL_ID
  }

  lemma {:induction false} FlowsOutcome(
      base: State, s: State, q: TxRequest, perFlow: nat, attempts: nat -> Attempt, k: nat, created: seq<StreamId>)
    requires perFlow > 0 && q.numChannels > 0 && Inv(base) && Progress(base, s, q, perFlow, attempts, k, created)
    requires FreshAttempts(base, attempts, FlowCount(q.numChannels, perFlow))
    ensures var r := CreateFlowsFrom(s, q, perFlow, attempts, k, created);
      if r.1 == [] then r.0 == RolledBack(base, k > 0 || !FlowFails(s, q, perFlow, attempts(k), k))
      else Progress(base, r.0, q, perFlow, attempts, FlowCount(q.numChannels, perFlow), r.1)
    decreases FlowCount(q.numChannels, perFlow) - k
  {
    hide Inv, ElectGrandmaster, FlowIs, CanAdd, FlowTarget, FlowRequest, FlowCount, CreateTxStream;
    FlowCountIsCeiling(q.numChannels, perFlow);
    if k < FlowCount(q.numChannels, perFlow) {
      var target := FlowTarget(s.config, q, k);
      if target.None? {
        RollbackRestores(base, s, q, perFlow, attempts, k, created);
      } else {
        NewIdIsNew(base, s, q, perFlow, attempts, k, created);
        var request := FlowRequest(q, target.value.0, perFlow, k);
        var r := CreateTxStream(s, request, target.value.1, attempts(k));
        CreateTxStreamKeepsInv(s, request, target.value.1, attempts(k));
        if r.1 == NULL_ID {
          RollbackRestores(base, s, q, perFlow, attempts, k, created);
        } else {
          OneMoreFlow(base, s, q, perFlow, attempts, k, created);
          FlowsOutcome(base, r.0, q, perFlow, attempts, k + 1, created + [r.1]);
        }
      }
    }
  }

  lemma {:induction false} NewIdIsNew(
      base: State, s: State, q: TxRequest, perFlow: nat, attempts: nat -> Attempt, k: nat, created: seq<StreamId>)
    requires perFlow > 0 && Progress(base, s, q, perFlow, attempts, k, created) && k < FlowCount(q.numChannels, perFlow)
    requires FreshAttempts(base, attempts, FlowCount(q.numChannels, perFlow))
    ensures attempts(k).id !in s.streams
  {
  }

  /** Two streams that do not send to one address from one port. */
  predicate Apart(x: Managed, y: Managed) {
    x.sdp.connectionAddress != y.sdp.connectionAddress || x.sourcePort != y.sourcePort
  }

  /** Two flows of one request never share both address and source port. */
  lemma {:induction false} TargetsDiffer(config: Config, q: TxRequest, i: nat, j: nat)
    requires i < j < 0x1_0000 && FlowTarget(config, q, i).Some? && FlowTarget(config, q, j).Some?
    ensures config.dolbyScheme ==> FlowTarget(config, q, i).value.1 != FlowTarget(config, q, j).value.1
    ensures !config.dolbyScheme ==> FlowTarget(config, q, i).value.0 != FlowTarget(config, q, j).value.0
  {
    if !config.dolbyScheme {
      var dot := Text.FindLast(q.address, '.').value;
      var prefix, base := q.address[..dot + 1], Decimal.Value(q.address[dot + 1..]);
      var a, b := prefix + Decimal.Print(base + i), prefix + Decimal.Print(base + j);
      if a == b {
        assert a[|prefix|..] == Decimal.Print(base + i) && b[|prefix|..] == Decimal.Print(base + j);
        Decimal.PrintIsInjective(base + i, base + j);
      }
    }
  }

  /**
    Creating a stream of any width as flows, with identifiers not in use: on failure streams, mapper
    and totals are those before the call, and so is the recorded grandmaster iff the first flow already
    failed or an election among the same streams gives it again; on success the flows are consecutive
    blocks from the first requested channel to the last, each at most the flow width, each going
    somewhere else, with every other stream untouched.
   */
  lemma {:induction false} FlowsAreAllOrNothing(s: State, q: TxRequest, budgetPerFlow: U16, attempts: nat -> Attempt)
    requires Inv(s) && q.numChannels > 0 && FreshAttempts(s, attempts, q.numChannels)
    ensures var r := CreateTxStreamFlows(s, q, budgetPerFlow, attempts);
      var perFlow := PerFlow(s.config, budgetPerFlow);
      var count := FlowCount(q.numChannels, perFlow);
      if r.1 == [] then
        && r.0 == RolledBack(s, !FlowFails(s, q, perFlow, attempts(0), 0))
        && (r.0 == s <==> FlowFails(s, q, perFlow, attempts(0), 0) || ElectGrandmaster(s.streams) == s.grandmaster)
      else
        && |r.1| == count && r.0.streams - IdSet(r.1) == s.streams && Inv(r.0)
        && (forall i :: 0 <= i < count ==>
          r.1[i] in r.0.streams && FlowIs(r.0.streams[r.1[i]], s.config, q, perFlow, i))
        && (forall i, j :: 0 <= i < j < count ==>
            var a, b := r.0.streams[r.1[i]], r.0.streams[r.1[j]];
            if s.config.dolbyScheme then a.sourcePort != b.sourcePort
            else a.sdp.connectionAddress != b.sdp.connectionAddress)
  {
    hide Inv, ElectGrandmaster, FlowTarget, FlowRequest, CreateTxStream, FlowCount, FlowFails;
    var perFlow := PerFlow(s.config, budgetPerFlow);
    FlowCountIsCeiling(q.numChannels, perFlow);
    assert s.streams - IdSet([]) == s.streams;
    FlowsOutcome(s, s, q, perFlow, attempts, 0, []);
    var r := CreateTxStreamFlows(s, q, budgetPerFlow, attempts);
    if r.1 != [] {
      forall i, j | 0 <= i < j < |r.1|
        ensures var a, b := r.0.streams[r.1[i]], r.0.streams[r.1[j]];
          if s.config.dolbyScheme then a.sourcePort != b.sourcePort
          else a.sdp.connectionAddress != b.sdp.connectionAddress
      {
        assert FlowIs(r.0.streams[r.1[i]], s.config, q, perFlow, i);
        assert FlowIs(r.0.streams[r.1[j]], s.config, q, perFlow, j);
        TargetsDiffer(s.config, q, i, j);
      }
    }
  }

  /** The blocks tile the requested range: each starts where the one before ends, the last ends where the range does. */
  lemma {:induction false} FlowsTileTheRange(a: Managed, b: Managed, config: Config, q: TxRequest, perFlow: nat, i: nat)
    requires perFlow > 0 && i < FlowCount(q.numChannels, perFlow) && FlowIs(a, config, q, perFlow, i)
    requires i + 1 < FlowCount(q.numChannels, perFlow) ==> FlowIs(b, config, q, perFlow, i + 1)
    ensures i == 0 ==> a.mapping.deviceChannelStart == q.mapping.deviceChannelStart
    ensures 0 < a.mapping.deviceChannelCount <= perFlow
    ensures var end := a.mapping.deviceChannelStart + a.mapping.deviceChannelCount;
      if i + 1 < FlowCount(q.numChannels, perFlow) then b.mapping.deviceChannelStart == end
      else end == q.mapping.deviceChannelStart + q.numChannels
  {
    hide FlowTarget, FlowCount;
    FlowStarts(q.numChannels, perFlow, i);
    assert (i + 1) * perFlow == i * perFlow + perFlow;
  }
}
