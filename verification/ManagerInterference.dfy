/**
  A group of flows while others use the manager.  Creating one flow and removing one flow hold the lock;
  between two of them any operation of anybody else may run.
 */
module ManagerInterference {
  import opened StreamTypes
  import opened ChannelMapper
  import opened ManagerModel
  import opened ManagerInvariants
  import opened ManagerFlows

  // ---- what an operation can do to a stream it does not name -----------------------------------

  /** The operation opens nothing under that identifier. */
  ghost predicate Avoids(op: Op, id: StreamId) {
    match op
    case OpAdd(_, _, attempt) => attempt.id != id
    case OpAddAuto(_, attempt) => attempt.id != id
    case OpCreateTx(_, _, attempt) => attempt.id != id
    case OpCreateFlows(_, _, attempts) => forall i :: attempts(i).id != id
    case OpFollow(_, _, attempts) => forall i :: attempts(i).id != id
    case OpLoad(saved, _) => forall c :: c in saved ==> c.mapping.streamId != id
    case _ => true
  }

  /** A stream is closed, or open as it was but for its mapping. */
  ghost predicate Spared(s: State, t: State, id: StreamId) {
    id in t.streams ==> id in s.streams && t.streams[id] == s.streams[id].(mapping := t.streams[id].mapping)
  }

  lemma {:induction false} SparedTwice(s: State, t: State, u: State, id: StreamId)
    requires Spared(s, t, id) && Spared(t, u, id)
    ensures Spared(s, u, id)
  {
  }

  lemma {:induction false} OpenSpares(s: State, id: StreamId, m: Managed, env: Env, other: StreamId)
    requires other != id
    ensures Spared(s, Open(s, id, m, env).0, other)
  {
  }

  lemma {:induction false} AddSpares(s: State, sdp: SdpSession, mapping: ChannelMapping, attempt: Attempt, id: StreamId)
    requires attempt.id != id
    ensures Spared(s, AddStream(s, sdp, mapping, attempt).0, id)
  {
    hide Open, CanAdd;
    var m := Complete(mapping, attempt.id, sdp.sessionName, sdp.numChannels);
    OpenSpares(s, attempt.id, Managed(sdp, m, false, 0), attempt.env, id);
  }

  lemma {:induction false} CreateSpares(s: State, q: TxRequest, sourcePort: U16, attempt: Attempt, id: StreamId)
    requires attempt.id != id
    ensures Spared(s, CreateTxStream(s, q, sourcePort, attempt).0, id)
  {
    hide Open, CanAdd;
    var sdp := TxSession(q.name, q.address, q.port, q.numChannels, s.config.deviceRate, q.dscp, q.time);
    var m := Complete(q.mapping, attempt.id, q.name, q.numChannels);
    OpenSpares(s, attempt.id, Managed(sdp, m, true, sourcePort), attempt.env, id);
  }

  lemma {:induction false} RemoveSpares(s: State, gone: StreamId, id: StreamId)
    ensures Spared(s, RemoveStream(s, gone).0, id)
  {
    hide ElectGrandmaster;
  }

  lemma {:induction false} RemoveEachSpares(s: State, ids: seq<StreamId>, id: StreamId)
    ensures Spared(s, RemoveEach(s, ids), id)
    decreases |ids|
  {
    hide Spared, RemoveStream;
    if ids == [] {
      SelfSpared(s, id);
    } else {
      var t := RemoveStream(s, ids[0]).0;
      RemoveSpares(s, ids[0], id);
      RemoveEachSpares(t, ids[1..], id);
      SparedTwice(s, t, RemoveEach(s, ids), id);
    }
  }

  lemma {:induction false} SelfSpared(s: State, id: StreamId)
    ensures Spared(s, s, id)
  {
  }

  lemma {:induction false} FlowsSpare(
      s: State, q: TxRequest, perFlow: nat, attempts: nat -> Attempt, flow: nat, created: seq<StreamId>, id: StreamId)
    requires perFlow > 0 && forall i :: attempts(i).id != id
    ensures Spared(s, CreateFlowsFrom(s, q, perFlow, attempts, flow, created).0, id)
    decreases FlowCount(q.numChannels, perFlow) - flow
  {
    hide Spared, CreateTxStream, RemoveEach, FlowTarget, FlowRequest, FlowCount;
    if flow >= FlowCount(q.numChannels, perFlow) {
      SelfSpared(s, id);
    } else {
      match FlowTarget(s.config, q, flow)
      case None => RemoveEachSpares(s, created, id);
      case Some(target) =>
        var r := CreateTxStream(s, FlowRequest(q, target.0, perFlow, flow), target.1, attempts(flow));
        CreateSpares(s, FlowRequest(q, target.0, perFlow, flow), target.1, attempts(flow), id);
        RemoveEachSpares(r.0, created, id);
        if r.1 == NULL_ID {
          SparedTwice(s, r.0, RemoveEach(r.0, created), id);
        } else {
          FlowsSpare(r.0, q, perFlow, attempts, flow + 1, created + [r.1], id);
          SparedTwice(s, r.0, CreateFlowsFrom(r.0, q, perFlow, attempts, flow + 1, created + [r.1]).0, id);
        }
    }
  }

  lemma {:induction false} ResubscribeSpares(s: State, p: Pending, attempt: Attempt, id: StreamId)
    requires attempt.id != id
    ensures Spared(s, Resubscribe(s, p, attempt).0, id)
  {
    hide Spared, AddStream, Closed;
    if p.id !in s.streams {
      SelfSpared(s, id);
    } else {
      RemoveSpares(s, p.id, id);
      AddSpares(Closed(s, p.id), p.newSdp, BlockMapping(p), attempt, id);
      SparedTwice(s, Closed(s, p.id), Resubscribe(s, p, attempt).0, id);
    }
  }

  lemma {:induction false} FollowSpares(s: State, pending: seq<Pending>, attempts: nat -> Attempt, id: StreamId)
    requires forall i :: attempts(i).id != id
    ensures Spared(s, ResubscribeAll(s, pending, attempts).0, id)
    decreases |pending|
  {
    hide Spared, Resubscribe;
    if pending == [] {
      SelfSpared(s, id);
    } else {
      var n := |pending| - 1;
      FollowSpares(s, pending[..n], attempts, id);
      var t := ResubscribeAll(s, pending[..n], attempts).0;
      ResubscribeSpares(t, pending[n], attempts(n), id);
      SparedTwice(s, t, ResubscribeAll(s, pending, attempts).0, id);
    }
  }

  lemma {:induction false} RestoreSpares(s: State, c: Saved, env: Env, id: StreamId)
    requires c.mapping.streamId != id
    ensures Spared(s, Restore(s, c, env).0, id)
  {
    hide Open, CanAdd, ValidMapping;
    OpenSpares(s, c.mapping.streamId, Managed(c.sdp, c.mapping, c.isTransmit, 0), env, id);
  }

  lemma {:induction false} LoadSpares(s: State, saved: seq<Saved>, envs: nat -> Env, id: StreamId)
    requires forall c :: c in saved ==> c.mapping.streamId != id
    ensures Spared(s, LoadSavedStreams(s, saved, envs).0, id)
    decreases |saved|
  {
    hide Spared, Restore;
    if saved == [] {
      SelfSpared(s, id);
    } else {
      var n := |saved| - 1;
      LoadSpares(s, saved[..n], envs, id);
      var t := LoadSavedStreams(s, saved[..n], envs).0;
      RestoreSpares(t, saved[n], envs(n), id);
      SparedTwice(s, t, LoadSavedStreams(s, saved, envs).0, id);
    }
  }

  /** Whatever somebody else does, a stream under an identifier they do not use is closed or only remapped. */
  lemma {:induction false} OthersSpare(s: State, op: Op, id: StreamId)
    requires Avoids(op, id)
    ensures Spared(s, Apply(s, op), id)
  {
    hide AddStream, CreateTxStream, CreateFlowsFrom, ResubscribeAll, PendingOf, SortedIds, LoadSavedStreams, Closed,
         Accepts, Updated, FlowCount;
    match op
    case OpAdd(sdp, mapping, attempt) => AddSpares(s, sdp, mapping, attempt, id);
    case OpAddAuto(sdp, attempt) =>
      var m := DefaultMapping(s.mapper, NULL_ID, sdp.sessionName, sdp.numChannels);
      if m.Some? { AddSpares(s, sdp, m.value, attempt, id); }
    case OpRemove(gone) => RemoveSpares(s, gone, id);
    case OpCreateTx(q, sourcePort, attempt) => CreateSpares(s, q, sourcePort, attempt, id);
    case OpCreateFlows(q, budget, attempts) => FlowsSpare(s, q, PerFlow(s.config, budget), attempts, 0, [], id);
    case OpFollow(announced, trigger, attempts) =>
      FollowSpares(s, PendingOf(SortedIds(s.streams.Keys), s.streams, announced), attempts, id);
    case OpLoad(saved, envs) => LoadSpares(s, saved, envs, id);
    case _ =>
  }

  // ---- the group, one lock at a time -----------------------------------------------------------

  datatype Phase = Creating(created: seq<StreamId>) | Undoing(left: seq<StreamId>) | Done(ids: seq<StreamId>)

  datatype Group = Group(s: State, phase: Phase)

  /** What a call for a group of flows works with; the settings are those it read when it began. */
  datatype Call = Call(config: Config, q: TxRequest, perFlow: nat, attempts: nat -> Attempt) {
    predicate Valid() { perFlow > 0 && q.numChannels > 0 }
    function Count(): nat
      requires Valid()
    {
      FlowCount(q.numChannels, perFlow)
    }
  }

  /** One locked section of the group, or what lies between two. */
  ghost function OwnStep(g: Group, c: Call): Group
    requires c.Valid()
  {
    match g.phase
    case Done(_) => g
    case Undoing(left) =>
      if left == [] then g.(phase := Done([])) else Group(RemoveStream(g.s, left[0]).0, Undoing(left[1..]))
    case Creating(created) =>
      var k := |created|;
      if k >= c.Count() then g.(phase := Done(created))
      else
        match FlowTarget(c.config, c.q, k)
        case None => g.(phase := Undoing(created))
        case Some(target) =>
          var r := CreateTxStream(g.s, FlowRequest(c.q, target.0, c.perFlow, k), target.1, c.attempts(k));
          Group(r.0, if r.1 == NULL_ID then Undoing(created) else Creating(created + [r.1]))
  }

  datatype Choice = Own | Other(op: Op)

  ghost function Step(g: Group, c: Call, choice: Choice): Group
    requires c.Valid()
  {
    match choice
    case Own => OwnStep(g, c)
    case Other(op) => g.(s := Apply(g.s, op))
  }

  ghost function Run(g: Group, c: Call, choices: seq<Choice>): Group
    requires c.Valid()
  {
    if choices == [] then g else Step(Run(g, c, choices[..|choices| - 1]), c, choices[|choices| - 1])
  }

  /** The identifiers the group still answers for. */
  function Held(phase: Phase): seq<StreamId> {
    match phase
    case Creating(created) => created
    case Undoing(left) => left
    case Done(ids) => ids
  }

  ghost predicate InGroup(c: Call, id: StreamId)
    requires c.Valid()
  {
    exists k :: 0 <= k < c.Count() && c.attempts(k).id == id
  }

  /** An open flow sends where the group sent it. */
  ghost predicate Placed(g: Group, c: Call, k: nat) {
    var id := c.attempts(k).id;
    id in g.s.streams ==>
      && g.s.streams[id].isTransmit && g.s.streams[id].sdp.port == c.q.port
      && FlowTarget(c.config, c.q, k) == Some((g.s.streams[id].sdp.connectionAddress, g.s.streams[id].sourcePort))
  }

  /** The identifiers held are the group's own, in order; every open one is held, and sends where it should. */
  ghost predicate Sound(g: Group, c: Call)
    requires c.Valid()
  {
    && (forall k :: 0 <= k < c.Count() && c.attempts(k).id in g.s.streams ==> c.attempts(k).id in Held(g.phase))
    && (g.phase.Creating? ==> |g.phase.created| <= c.Count())
    && (g.phase.Done? ==> |g.phase.ids| == c.Count() || g.phase.ids == [])
    && (!g.phase.Undoing? ==> forall k :: 0 <= k < |Held(g.phase)| ==> Held(g.phase)[k] == c.attempts(k).id)
    && (forall id :: id in Held(g.phase) ==> InGroup(c, id))
    && (forall k :: 0 <= k < c.Count() ==> Placed(g, c, k))
  }

  lemma {:induction false} OtherIsSound(g: Group, c: Call, op: Op)
    requires c.Valid() && Sound(g, c) && forall id :: InGroup(c, id) ==> Avoids(op, id)
    ensures Sound(Step(g, c, Other(op)), c)
  {
    hide Apply, Avoids, FlowTarget, FlowCount;
    var h := Step(g, c, Other(op));
    forall k | 0 <= k < c.Count()
      ensures c.attempts(k).id in h.s.streams ==> c.attempts(k).id in g.s.streams
      ensures Placed(h, c, k)
    {
      assert InGroup(c, c.attempts(k).id) && Placed(g, c, k);
      OthersSpare(g.s, op, c.attempts(k).id);
    }
  }

  lemma {:induction false} CreatedIsPlaced(s: State, q: TxRequest, sourcePort: U16, attempt: Attempt)
    ensures var r := CreateTxStream(s, q, sourcePort, attempt);
      if r.1 == NULL_ID then r.0.streams == s.streams && r.0.config == s.config
      else
        && r.1 == attempt.id && attempt.id in r.0.streams && r.0.config == s.config
        && r.0.streams == s.streams[attempt.id := r.0.streams[attempt.id]]
        && var m := r.0.streams[attempt.id];
          m.isTransmit && m.sdp.port == q.port && m.sdp.connectionAddress == q.address && m.sourcePort == sourcePort
  {
    hide CanAdd, Overlaps, Added, Removed;
  }

  lemma {:induction false} RequestGoesThere(q: TxRequest, address: string, perFlow: nat, k: nat)
    requires perFlow > 0
    ensures FlowRequest(q, address, perFlow, k).address == address && FlowRequest(q, address, perFlow, k).port == q.port
  {
  }

  ghost predicate Distinct(c: Call)
    requires c.Valid()
  {
    forall i, j :: 0 <= i < j < c.Count() ==> c.attempts(i).id != c.attempts(j).id
  }

  lemma {:induction false} CreationIsSound(g: Group, c: Call)
    requires c.Valid() && Distinct(c) && Sound(g, c) && g.phase.Creating?
    ensures Sound(OwnStep(g, c), c)
  {
    hide FlowTarget, FlowRequest, FlowCount, CreateTxStream;
    var k := |g.phase.created|;
    if k < c.Count() && FlowTarget(c.config, c.q, k).Some? {
      var target := FlowTarget(c.config, c.q, k).value;
      var request := FlowRequest(c.q, target.0, c.perFlow, k);
      CreatedIsPlaced(g.s, request, target.1, c.attempts(k));
      RequestGoesThere(c.q, target.0, c.perFlow, k);
      assert InGroup(c, c.attempts(k).id);
    }
    var h := OwnStep(g, c);
    forall i | 0 <= i < c.Count()
      ensures Placed(h, c, i)
      ensures c.attempts(i).id in h.s.streams ==> c.attempts(i).id in Held(h.phase)
    {
      assert Placed(g, c, i);
    }
  }

  lemma {:induction false} UndoingIsSound(g: Group, c: Call)
    requires c.Valid() && Sound(g, c) && g.phase.Undoing?
    ensures Sound(OwnStep(g, c), c)
  {
    hide FlowTarget, FlowCount, ElectGrandmaster;
    var left := g.phase.left;
    if left != [] {
      assert left == [left[0]] + left[1..];
      assert RemoveStream(g.s, left[0]).0.streams == g.s.streams - {left[0]};
    }
    var h := OwnStep(g, c);
    forall i | 0 <= i < c.Count()
      ensures Placed(h, c, i)
    {
      assert Placed(g, c, i);
    }
  }

  /** The group's own steps leave every other stream, and the settings, alone. */
  lemma {:induction false} OwnStepsLeaveOthers(g: Group, c: Call, id: StreamId)
    requires c.Valid() && Sound(g, c) && !InGroup(c, id)
    ensures var h := OwnStep(g, c);
      && h.s.config == g.s.config && (id in h.s.streams <==> id in g.s.streams)
      && (id in g.s.streams ==> h.s.streams[id] == g.s.streams[id])
  {
    hide FlowTarget, FlowRequest, FlowCount, CreateTxStream, ElectGrandmaster, Removed;
    if g.phase.Creating? && |g.phase.created| < c.Count() {
      var k := |g.phase.created|;
      assert InGroup(c, c.attempts(k).id);
      if FlowTarget(c.config, c.q, k).Some? {
        var target := FlowTarget(c.config, c.q, k).value;
        CreatedIsPlaced(g.s, FlowRequest(c.q, target.0, c.perFlow, k), target.1, c.attempts(k));
      }
    } else if g.phase.Undoing? && g.phase.left != [] {
      assert g.phase.left[0] in g.phase.left;
    }
  }

  // ---- every run -------------------------------------------------------------------------------

  function Begin(s: State): Group { Group(s, Creating([])) }

  /** Nobody else uses the group's identifiers, before or during the call, and they are no two alike. */
  ghost predicate Unshared(s: State, c: Call, choices: seq<Choice>)
    requires c.Valid()
  {
    && Distinct(c) && (forall id :: InGroup(c, id) ==> id !in s.streams)
    && forall i, id :: 0 <= i < |choices| && choices[i].Other? && InGroup(c, id) ==> Avoids(choices[i].op, id)
  }

  lemma {:induction false} BeginIsSound(s: State, c: Call)
    requires c.Valid() && forall id :: InGroup(c, id) ==> id !in s.streams
    ensures Sound(Begin(s), c)
  {
    hide FlowTarget, FlowCount;
    forall k | 0 <= k < c.Count()
      ensures c.attempts(k).id !in s.streams
    {
      assert InGroup(c, c.attempts(k).id);
    }
  }

  lemma {:induction false} RunIsSound(s: State, c: Call, choices: seq<Choice>)
    requires c.Valid() && Unshared(s, c, choices)
    ensures Sound(Run(Begin(s), c, choices), c)
    decreases |choices|
  {
    hide Sound, OwnStep, InGroup, Distinct, Avoids;
    if choices == [] {
      BeginIsSound(s, c);
    } else {
      var n := |choices| - 1;
      RunIsSound(s, c, choices[..n]);
      var g := Run(Begin(s), c, choices[..n]);
      match choices[n]
      case Other(op) => OtherIsSound(g, c, op);
      case Own =>
        match g.phase
        case Creating(_) => CreationIsSound(g, c);
        case Undoing(_) => UndoingIsSound(g, c);
        case Done(_) => DoneStays(g, c);
    }
  }

  lemma {:induction false} DoneStays(g: Group, c: Call)
    requires c.Valid() && g.phase.Done?
    ensures OwnStep(g, c) == g
  {
  }

  /** The others draw no transmit identifier that is in use, when they draw it. */
  ghost predicate OthersFresh(s: State, c: Call, choices: seq<Choice>)
    requires c.Valid()
  {
    forall i {:trigger choices[..i]} :: 0 <= i < |choices| && choices[i].Other? ==>
      Fresh(Run(Begin(s), c, choices[..i]).s, choices[i].op)
  }

  lemma {:induction false} OwnStepKeepsInv(g: Group, c: Call)
    requires c.Valid() && Distinct(c) && Sound(g, c) && Inv(g.s)
    ensures Inv(OwnStep(g, c).s)
  {
    hide Inv, FlowTarget, FlowRequest, FlowCount, CreateTxStream, Closed, Placed;
    match g.phase
    case Creating(created) =>
      var k := |created|;
      if k < c.Count() && FlowTarget(c.config, c.q, k).Some? {
        var target := FlowTarget(c.config, c.q, k).value;
        assert c.attempts(k).id !in g.s.streams;
        CreateTxStreamKeepsInv(g.s, FlowRequest(c.q, target.0, c.perFlow, k), target.1, c.attempts(k));
      }
    case Undoing(left) => if left != [] && left[0] in g.s.streams { CloseKeepsInv(g.s, left[0]); }
    case Done(_) =>
  }

  lemma {:induction false} FreshPrefixOf(s: State, c: Call, choices: seq<Choice>)
    requires c.Valid() && choices != [] && OthersFresh(s, c, choices)
    ensures OthersFresh(s, c, choices[..|choices| - 1])
    ensures var n := |choices| - 1;
      choices[n].Other? ==> Fresh(Run(Begin(s), c, choices[..n]).s, choices[n].op)
  {
    hide Run, Fresh;
    var n := |choices| - 1;
    forall i {:trigger choices[..n][..i]} | 0 <= i < n && choices[..n][i].Other?
      ensures Fresh(Run(Begin(s), c, choices[..n][..i]).s, choices[..n][i].op)
    {
      assert choices[..n][..i] == choices[..i];
    }
  }

  lemma {:induction false} RunKeepsInv(s: State, c: Call, choices: seq<Choice>)
    requires c.Valid() && Inv(s) && Unshared(s, c, choices) && OthersFresh(s, c, choices)
    ensures Inv(Run(Begin(s), c, choices).s)
    decreases |choices|
  {
    hide Inv, Sound, OwnStep, InGroup, Distinct, Avoids, OthersFresh, Apply, Fresh;
    if choices == [] {
    } else {
      var n := |choices| - 1;
      FreshPrefixOf(s, c, choices);
      RunKeepsInv(s, c, choices[..n]);
      RunIsSound(s, c, choices[..n]);
      var g := Run(Begin(s), c, choices[..n]);
      match choices[n]
      case Own => OwnStepKeepsInv(g, c);
      case Other(op) => ApplyKeepsInv(g.s, op);
    }
  }

  /**
    A group of flows under every interleaving with other operations: the mapper and the totals stay exact;
    if the call fails, no flow of it is open; if it succeeds, it made every flow, and those nobody has
    closed since send where it sent them, no two to one place.
   */
  lemma {:induction false} FlowsAmidOthers(s: State, c: Call, choices: seq<Choice>)
    requires c.Valid() && Inv(s) && Unshared(s, c, choices) && OthersFresh(s, c, choices)
    ensures var g := Run(Begin(s), c, choices);
      && Inv(g.s)
      && (g.phase == Done([]) ==> forall k :: 0 <= k < c.Count() ==> c.attempts(k).id !in g.s.streams)
      && (g.phase.Done? && g.phase != Done([]) ==>
          && |g.phase.ids| == c.Count()
          && (forall k :: 0 <= k < c.Count() ==> g.phase.ids[k] == c.attempts(k).id && Placed(g, c, k))
          && forall i, j :: 0 <= i < j < c.Count() ==> OpenApart(g.s, g.phase.ids[i], g.phase.ids[j]))
  {
    hide Inv, Distinct, Unshared, OthersFresh, Placed, FlowCount, Run, OpenApart;
    RunKeepsInv(s, c, choices);
    RunIsSound(s, c, choices);
    var g := Run(Begin(s), c, choices);
    if g.phase.Done? && g.phase != Done([]) {
      forall i, j | 0 <= i < j < c.Count()
        ensures OpenApart(g.s, g.phase.ids[i], g.phase.ids[j])
      {
        PlacedApart(g, c, i, j);
      }
    }
  }

  ghost predicate OpenApart(s: State, a: StreamId, b: StreamId) {
    a in s.streams && b in s.streams ==> Apart(s.streams[a], s.streams[b])
  }

  lemma {:induction false} PlacedApart(g: Group, c: Call, i: nat, j: nat)
    requires c.Valid() && i < j < c.Count() && Placed(g, c, i) && Placed(g, c, j)
    ensures OpenApart(g.s, c.attempts(i).id, c.attempts(j).id)
  {
    hide FlowTarget, FlowCount;
    FlowCountIsCeiling(c.q.numChannels, c.perFlow);
    if c.attempts(i).id in g.s.streams && c.attempts(j).id in g.s.streams { TargetsDiffer(c.config, c.q, i, j); }
  }

  // ---- without interference it is the function the other theorems are about --------------------

  ghost function Alone(g: Group, c: Call, n: nat): Group
    requires c.Valid()
    decreases n
  {
    if n == 0 then g else Alone(OwnStep(g, c), c, n - 1)
  }

  lemma {:induction false} UndoingAlone(s: State, c: Call, left: seq<StreamId>)
    requires c.Valid()
    ensures Alone(Group(s, Undoing(left)), c, |left| + 1) == Group(RemoveEach(s, left), Done([]))
    decreases |left|
  {
    hide RemoveStream;
    if left == [] {
      assert Alone(Group(s, Done([])), c, 0) == Group(s, Done([]));
    } else {
      UndoingAlone(RemoveStream(s, left[0]).0, c, left[1..]);
    }
  }

  lemma {:induction false} CreatingAlone(s: State, c: Call, created: seq<StreamId>) returns (n: nat)
    requires c.Valid() && s.config == c.config
    ensures var r := CreateFlowsFrom(s, c.q, c.perFlow, c.attempts, |created|, created);
      Alone(Group(s, Creating(created)), c, n) == Group(r.0, Done(r.1))
    decreases c.Count() - |created|
  {
    hide CreateTxStream, RemoveEach, FlowTarget, FlowRequest, FlowCount;
    var k := |created|;
    var g := Group(s, Creating(created));
    if k >= c.Count() {
      n := 1;
      assert Alone(OwnStep(g, c), c, 0) == OwnStep(g, c);
    } else {
      match FlowTarget(c.config, c.q, k)
      case None =>
        UndoingAlone(s, c, created);
        n := |created| + 2;
      case Some(target) =>
        var request := FlowRequest(c.q, target.0, c.perFlow, k);
        var r := CreateTxStream(s, request, target.1, c.attempts(k));
        CreatedIsPlaced(s, request, target.1, c.attempts(k));
        if r.1 == NULL_ID {
          UndoingAlone(r.0, c, created);
          n := |created| + 2;
        } else {
          n := CreatingAlone(r.0, c, created + [r.1]);
          n := n + 1;
        }
    }
  }

  /** Left alone, the call ends where the model's operation does. */
  lemma {:induction false} AloneIsTheOperation(s: State, q: TxRequest, budgetPerFlow: U16, attempts: nat -> Attempt)
    returns (n: nat)
    requires q.numChannels > 0
    ensures var r := CreateTxStreamFlows(s, q, budgetPerFlow, attempts);
      Alone(Begin(s), Call(s.config, q, PerFlow(s.config, budgetPerFlow), attempts), n) == Group(r.0, Done(r.1))
  {
    hide Alone, CreateFlowsFrom;
    n := CreatingAlone(s, Call(s.config, q, PerFlow(s.config, budgetPerFlow), attempts), []);
  }
}
