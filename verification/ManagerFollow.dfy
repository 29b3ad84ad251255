/** Following a source that re-announced itself: what a re-subscription keeps, and when it stops. */
module ManagerFollow {
  import opened StreamTypes
  import opened ChannelMapper
  import opened ManagerModel
  import opened ManagerInvariants
  import opened Counting

  // ---- the same announcement twice -------------------------------------------------------------

  /** A sink re-subscribed to an announcement, or one with its transport already, is left alone by it. */
  lemma {:induction false} FollowedIsSettled(announced: SdpSession, m: ChannelMapping, sourcePort: U16)
    ensures !Follows(Managed(announced, m, false, sourcePort), announced)
  {
  }

  lemma {:induction false} PendingIsExactlyTheFollowers(ids: seq<StreamId>, streams: map<StreamId, Managed>,
        announced: SdpSession)
    requires forall id :: id in ids ==> id in streams
    ensures forall p :: p in PendingOf(ids, streams, announced) ==>
      p.id in ids && Follows(streams[p.id], announced)
      && p.newSdp == announced && p.deviceChannelStart == streams[p.id].mapping.deviceChannelStart
    ensures forall id :: id in ids && Follows(streams[id], announced) ==>
      exists p :: p in PendingOf(ids, streams, announced) && p.id == id
    decreases |ids|
  {
    if ids == [] {
    } else {
      var n := |ids| - 1;
      PendingIsExactlyTheFollowers(ids[..n], streams, announced);
      assert ids == ids[..n] + [ids[n]];
      var before := PendingOf(ids[..n], streams, announced);
      forall id | id in ids && Follows(streams[id], announced)
        ensures exists p :: p in PendingOf(ids, streams, announced) && p.id == id
      {
        if id in ids[..n] {
          var p :| p in before && p.id == id;
          assert p in PendingOf(ids, streams, announced);
        } else {
          var all := PendingOf(ids, streams, announced);
          assert all[|all| - 1].id == id && all[|all| - 1] in all;
        }
      }
    }
  }

  ghost predicate OnlyThese(s: State, announced: SdpSession, pending: seq<Pending>) {
    forall id :: id in s.streams && Follows(s.streams[id], announced) ==> exists p :: p in pending && p.id == id
  }

  lemma {:induction false} ResubscribeEffect(s: State, p: Pending, attempt: Attempt, id: StreamId)
    requires id in Resubscribe(s, p, attempt).0.streams
    ensures var m := Resubscribe(s, p, attempt).0.streams[id];
      (id in s.streams && id != p.id && m == s.streams[id]) || (m.sdp == p.newSdp && !m.isTransmit)
    ensures Resubscribe(s, p, attempt).0.config == s.config
  {
    hide CanAdd, ElectGrandmaster, Removed, Added, Accepts;
  }

  lemma {:induction false} ResubscribeSettlesOne(s: State, p: Pending, rest: seq<Pending>, attempt: Attempt,
        announced: SdpSession)
    requires OnlyThese(s, announced, [p] + rest) && p.newSdp == announced
    ensures OnlyThese(Resubscribe(s, p, attempt).0, announced, rest)
  {
    hide Resubscribe, EvaluateSinkFollow;
    var t := Resubscribe(s, p, attempt).0;
    forall id | id in t.streams && Follows(t.streams[id], announced)
      ensures exists r :: r in rest && r.id == id
    {
      ResubscribeEffect(s, p, attempt, id);
      var m := t.streams[id];
      FollowedIsSettled(announced, m.mapping, m.sourcePort);
      assert m.sdp == announced && !m.isTransmit ==> m == Managed(announced, m.mapping, false, m.sourcePort);
      var r :| r in [p] + rest && r.id == id;
    }
  }

  lemma {:induction false} ResubscribeSettlesAll(s: State, pending: seq<Pending>, n: nat, attempts: nat -> Attempt,
        announced: SdpSession)
    requires n <= |pending| && OnlyThese(s, announced, pending)
    requires forall p :: p in pending ==> p.newSdp == announced
    ensures OnlyThese(ResubscribeAll(s, pending[..n], attempts).0, announced, pending[n..])
    ensures ResubscribeAll(s, pending[..n], attempts).0.config == s.config
    decreases n
  {
    hide Resubscribe, Follows;
    if n == 0 {
      assert pending[0..] == pending;
    } else {
      ResubscribeSettlesAll(s, pending, n - 1, attempts, announced);
      assert pending[..n][..n - 1] == pending[..n - 1];
      assert pending[n - 1..] == [pending[n - 1]] + pending[n..];
      var t := ResubscribeAll(s, pending[..n - 1], attempts).0;
      ResubscribeSettlesOne(t, pending[n - 1], pending[n..], attempts(n - 1), announced);
      ResubscribeKeepsConfig(t, pending[n - 1], attempts(n - 1));
    }
  }

  lemma {:induction false} ResubscribeKeepsConfig(s: State, p: Pending, attempt: Attempt)
    ensures Resubscribe(s, p, attempt).0.config == s.config
  {
  }

  lemma {:induction false} NothingToResubscribe(t: State, again: nat -> Attempt)
    ensures ResubscribeAll(t, [], again) == (t, 0)
  {
  }

  /** Applying the same announcement again re-points nothing, whichever of the first round's re-adds failed. */
  lemma {:induction false} FollowingTwiceIsOnce(
      s: State, announced: SdpSession, trigger: Trigger, attempts: nat -> Attempt, again: nat -> Attempt)
    ensures var t := FollowAnnouncement(s, announced, trigger, attempts).0;
      FollowAnnouncement(t, announced, trigger, again) == (t, 0)
  {
    hide Follows, ResubscribeAll, PendingOf;
    if (trigger.Controller? || s.config.autoSinkFollow) && announced.sessionName != "" {
      var pending := PendingOf(SortedIds(s.streams.Keys), s.streams, announced);
      PendingIsExactlyTheFollowers(SortedIds(s.streams.Keys), s.streams, announced);
      ResubscribeSettlesAll(s, pending, |pending|, attempts, announced);
      assert pending[..|pending|] == pending && pending[|pending|..] == [];
      var t := ResubscribeAll(s, pending, attempts).0;
      NobodyPending(SortedIds(t.streams.Keys), t.streams, announced);
      NothingToResubscribe(t, again);
    }
  }

  lemma {:induction false} NobodyPending(ids: seq<StreamId>, streams: map<StreamId, Managed>, announced: SdpSession)
    requires forall id :: id in ids ==> id in streams && !Follows(streams[id], announced)
    ensures PendingOf(ids, streams, announced) == []
    decreases |ids|
  {
    hide Follows;
    if ids == [] {
    } else {
      assert ids[|ids| - 1] in ids;
      NobodyPending(ids[..|ids| - 1], streams, announced);
    }
  }

  // ---- the block a follow keeps ----------------------------------------------------------------

  /** The mapping a followed sink comes back with. */
  function ReaddMapping(p: Pending, id: StreamId): ChannelMapping {
    Complete(BlockMapping(p), id, p.newSdp.sessionName, p.newSdp.numChannels)
  }

  /** The mapper takes the sink back iff its nominal block exists and belongs to it or to nobody. */
  lemma {:induction false} ReaddAcceptedIff(s: State, p: Pending, id: StreamId)
    requires Inv(s) && p.id in s.streams && id != NULL_ID && p.newSdp.numChannels > 0
    ensures Accepts(Closed(s, p.id).mapper, ReaddMapping(p, id), NULL_ID) <==>
      && p.deviceChannelStart + p.newSdp.numChannels <= MAX_DEVICE_CHANNELS
      && forall ch :: p.deviceChannelStart <= ch < p.deviceChannelStart + p.newSdp.numChannels ==>
        s.mapper.owners[ch] == NULL_ID || s.mapper.owners[ch] == p.id
  {
    hide ElectGrandmaster, Total;
    var m := ReaddMapping(p, id);
    var owners := Removed(s.mapper, p.id).owners;
    assert owners == Released(s.mapper.owners, p.id);
    assert forall ch: nat :: Lands(m, ch) <==>
      p.deviceChannelStart <= ch < p.deviceChannelStart + p.newSdp.numChannels by {
      forall ch: nat
        ensures Lands(m, ch) <==> p.deviceChannelStart <= ch < p.deviceChannelStart + p.newSdp.numChannels
      {
        BlockLands(m, ch);
      }
    }
    if ValidMapping(m) && Overlaps(owners, m, NULL_ID) {
      var ch: nat :| Lands(m, ch) && ch < |owners| && owners[ch] != NULL_ID && owners[ch] != NULL_ID;
      assert s.mapper.owners[ch] != NULL_ID && s.mapper.owners[ch] != p.id;
    }
    if ValidMapping(m) && !Overlaps(owners, m, NULL_ID) {
      forall ch | p.deviceChannelStart <= ch < p.deviceChannelStart + p.newSdp.numChannels
        ensures s.mapper.owners[ch] == NULL_ID || s.mapper.owners[ch] == p.id
      {
        assert Lands(m, ch);
        assert owners[ch] == NULL_ID;
      }
    }
  }

  /** The device channels of a mapping are exactly the block of n channels from its nominal start. */
  ghost predicate OnNominalBlock(m: ChannelMapping, n: nat) {
    forall ch: nat :: Lands(m, ch) <==> m.deviceChannelStart <= ch < m.deviceChannelStart + n
  }

  predicate NominalWidth(m: ChannelMapping, n: nat) {
    if m.routes == [] then m.deviceChannelCount == n
    else |m.routes| == n && forall r :: r in m.routes ==>
      m.deviceChannelStart <= r.deviceChannel < m.deviceChannelStart + n
  }

  /** What a caller can look at: a block mapping of that width, or that many routes all inside the block. */
  lemma {:induction false} NominalWidthIsExact(m: ChannelMapping, n: nat)
    requires ValidMapping(m)
    ensures OnNominalBlock(m, n) <==> NominalWidth(m, n)
  {
    var lo := m.deviceChannelStart;
    if m.routes == [] {
      BlockLands(m, lo);
      BlockLands(m, lo + m.deviceChannelCount - 1);
      BlockLands(m, lo + m.deviceChannelCount);
      forall ch: nat
        ensures Lands(m, ch) <==> lo <= ch < lo + m.deviceChannelCount
      {
        BlockLands(m, ch);
      }
      assert Lands(m, lo) && Lands(m, lo + m.deviceChannelCount - 1) && !Lands(m, lo + m.deviceChannelCount);
    } else {
      RoutedBlock(m, n);
    }
  }

  lemma {:induction false} RoutedBlock(m: ChannelMapping, n: nat)
    requires ValidMapping(m) && m.routes != []
    ensures OnNominalBlock(m, n) <==> NominalWidth(m, n)
  {
    var lo := m.deviceChannelStart;
    var block, xs := Interval(lo, lo + n), DeviceChannels(m);
    ElementsAreFew(xs);
    assert |Elements(xs)| == |m.routes|;
    assert forall ch: nat :: Lands(m, ch) <==> ch in Elements(xs);
    if OnNominalBlock(m, n) {
      forall ch: nat
        ensures ch in Elements(xs) <==> ch in block
      {
        assert Lands(m, ch) <==> lo <= ch < lo + n;
      }
      assert Elements(xs) == block;
      forall r | r in m.routes
        ensures lo <= r.deviceChannel < lo + n
      {
        var i :| 0 <= i < |m.routes| && m.routes[i] == r;
        assert xs[i] == r.deviceChannel;
        assert Lands(m, r.deviceChannel);
      }
    }
    if NominalWidth(m, n) {
      assert Elements(xs) <= block by {
        forall ch | ch in xs
          ensures lo <= ch < lo + n
        {
          var i :| 0 <= i < |xs| && xs[i] == ch;
          assert m.routes[i] in m.routes;
        }
      }
      FullSubset(Elements(xs), block);
    }
  }

  /** The conditions under which a followed sink is taken back. */
  ghost predicate Readmitted(s: State, p: Pending, attempt: Attempt)
    requires p.id in s.streams && |s.mapper.owners| == MAX_DEVICE_CHANNELS
  {
    && CanAdd(Closed(s, p.id), p.newSdp, false, attempt.env) && (s.config.ioActive ==> attempt.env.starts)
    && attempt.id != NULL_ID && attempt.id !in s.streams - {p.id}
    && p.deviceChannelStart + p.newSdp.numChannels <= MAX_DEVICE_CHANNELS
    && forall ch :: p.deviceChannelStart <= ch < p.deviceChannelStart + p.newSdp.numChannels ==>
      s.mapper.owners[ch] == NULL_ID || s.mapper.owners[ch] == p.id
  }

  /** Who owns channel ch after a sink left and, under a new identifier, took its nominal block. */
  function OwnerAfter(owner: StreamId, p: Pending, back: Option<StreamId>, ch: nat): StreamId {
    if back.Some? && p.deviceChannelStart <= ch < p.deviceChannelStart + p.newSdp.numChannels then back.value
    else if owner == p.id then NULL_ID else owner
  }

  /**
    One re-subscription, for every sink.  It comes back iff it is readmitted, and then on its nominal
    block whatever its routes were; otherwise it is gone, and its channels are nobody's.
   */
  lemma {:induction false} ResubscribeOutcome(s: State, p: Pending, attempt: Attempt)
    requires Inv(s) && p.id in s.streams
    ensures var r, back := Resubscribe(s, p, attempt), Readmitted(s, p, attempt);
      && Inv(r.0) && |r.0.mapper.owners| == MAX_DEVICE_CHANNELS && r.1 == (if back then 1 else 0)
      && (back ==>
          var again := Managed(p.newSdp, ReaddMapping(p, attempt.id), false, 0);
          r.0.streams == (s.streams - {p.id})[attempt.id := again])
      && (!back ==> r.0 == Closed(s, p.id) && r.0.streams == s.streams - {p.id})
      && forall ch :: 0 <= ch < MAX_DEVICE_CHANNELS ==>
        r.0.mapper.owners[ch] == OwnerAfter(s.mapper.owners[ch], p, if back then Some(attempt.id) else None, ch)
  {
    hide CanAdd, Accepts, Added, Total, ElectGrandmaster, ReaddMapping, Complete, Lands, StreamsFit, ValidMapping;
    ResubscribeKeepsInv(s, p, attempt);
    CloseKeepsInv(s, p.id);
    AddStreamKeepsInv(Closed(s, p.id), p.newSdp, BlockMapping(p), attempt);
    AdmittedHasChannels(Closed(s, p.id), p, attempt);
    if attempt.id != NULL_ID && p.newSdp.numChannels > 0 { ReaddAcceptedIff(s, p, attempt.id); }
    if Readmitted(s, p, attempt) {
      ReaddedState(s, p, attempt);
      ReaddedOwners(Removed(s.mapper, p.id), p, attempt.id);
    }
  }

  lemma {:induction false} AdmittedHasChannels(c: State, p: Pending, attempt: Attempt)
    ensures CanAdd(c, p.newSdp, false, attempt.env) ==> p.newSdp.numChannels > 0
    ensures AddStream(c, p.newSdp, BlockMapping(p), attempt).1 != NULL_ID ==>
      && CanAdd(c, p.newSdp, false, attempt.env) && attempt.id != NULL_ID && attempt.id !in c.streams
      && (c.config.ioActive ==> attempt.env.starts) && Accepts(c.mapper, ReaddMapping(p, attempt.id), NULL_ID)
  {
    hide Accepts;
  }

  lemma {:induction false} ReaddedOwners(mapper: Mapper, p: Pending, id: StreamId)
    ensures var owners := Added(mapper, ReaddMapping(p, id)).owners;
      && |owners| == |mapper.owners|
      && forall ch :: 0 <= ch < |owners| ==>
        var inside := p.deviceChannelStart <= ch < p.deviceChannelStart + p.newSdp.numChannels;
        owners[ch] == if inside then id else mapper.owners[ch]
  {
    var m := ReaddMapping(p, id);
    forall ch: nat
      ensures Lands(m, ch) <==> p.deviceChannelStart <= ch < p.deviceChannelStart + p.newSdp.numChannels
    {
      BlockLands(m, ch);
    }
  }

  lemma {:induction false} ReaddedState(s: State, p: Pending, attempt: Attempt)
    requires p.id in s.streams
    requires var c := Closed(s, p.id);
      && CanAdd(c, p.newSdp, false, attempt.env) && attempt.id != NULL_ID && attempt.id !in c.streams
      && (s.config.ioActive ==> attempt.env.starts)
      && Accepts(c.mapper, ReaddMapping(p, attempt.id), NULL_ID)
    ensures var r := Resubscribe(s, p, attempt);
      && r.1 == 1 && attempt.id !in s.streams - {p.id}
      && r.0.streams == (s.streams - {p.id})[attempt.id := Managed(p.newSdp, ReaddMapping(p, attempt.id), false, 0)]
      && r.0.mapper == Added(Removed(s.mapper, p.id), ReaddMapping(p, attempt.id))
  {
  }

  /**
    The promise to keep a sink's device channels, where a sink comes back: it holds iff the sink was
    on exactly its nominal block.  A remap can leave a block of another width; routes can leave it.
   */
  lemma {:induction false} FollowKeepsChannelsIff(s: State, p: Pending, attempt: Attempt)
    requires Inv(s) && p.id in s.streams && Readmitted(s, p, attempt)
    requires p.deviceChannelStart == s.streams[p.id].mapping.deviceChannelStart
    ensures var r, was := Resubscribe(s, p, attempt).0, s.streams[p.id].mapping;
      && attempt.id in r.streams
      && ((forall ch: nat :: Lands(r.streams[attempt.id].mapping, ch) <==> Lands(was, ch))
          <==> NominalWidth(was, p.newSdp.numChannels))
  {
    hide Inv, Readmitted, Resubscribe, Lands, ValidMapping, ReaddMapping, NominalWidth;
    var was, m := s.streams[p.id].mapping, ReaddMapping(p, attempt.id);
    ResubscribeOutcome(s, p, attempt);
    OpenIsValid(s, p.id);
    NominalWidthIsExact(was, p.newSdp.numChannels);
    ReaddIsNominal(p, attempt.id);
    if OnNominalBlock(was, p.newSdp.numChannels) {
    } else {
      var ch: nat :| !(Lands(was, ch) <==>
        was.deviceChannelStart <= ch < was.deviceChannelStart + p.newSdp.numChannels);
      assert Lands(m, ch) != Lands(was, ch);
    }
  }

  lemma {:induction false} OpenIsValid(s: State, id: StreamId)
    requires Inv(s) && id in s.streams
    ensures ValidMapping(s.streams[id].mapping) && id != NULL_ID && |s.mapper.owners| == MAX_DEVICE_CHANNELS
    ensures forall ch :: 0 <= ch < MAX_DEVICE_CHANNELS ==>
      (s.mapper.owners[ch] == id <==> Lands(s.streams[id].mapping, ch))
  {
    assert s.mapper.mappings[id] == s.streams[id].mapping;
  }

  lemma {:induction false} ReaddIsNominal(p: Pending, id: StreamId)
    ensures var m := ReaddMapping(p, id);
      m.deviceChannelStart == p.deviceChannelStart && OnNominalBlock(m, p.newSdp.numChannels)
  {
    var m := ReaddMapping(p, id);
    forall ch: nat
      ensures Lands(m, ch) <==> p.deviceChannelStart <= ch < p.deviceChannelStart + p.newSdp.numChannels
    {
      BlockLands(m, ch);
    }
  }

  /** A sink whose nominal block another stream holds a channel of is lost, however willing everything else is. */
  lemma {:induction false} OccupiedBlockLosesSink(s: State, p: Pending, attempt: Attempt, ch: nat)
    requires Inv(s) && p.id in s.streams && ch < MAX_DEVICE_CHANNELS
    requires p.deviceChannelStart <= ch < p.deviceChannelStart + p.newSdp.numChannels
    requires s.mapper.owners[ch] != NULL_ID && s.mapper.owners[ch] != p.id
    ensures Resubscribe(s, p, attempt) == (Closed(s, p.id), 0)
    ensures Resubscribe(s, p, attempt).0.streams == s.streams - {p.id}
  {
    hide Inv, Closed, CanAdd, Resubscribe;
    ResubscribeOutcome(s, p, attempt);
  }

  /**
    A stream is closed and, if it is back, open again on the same channels under a new identifier;
    nothing else moved.
   */
  ghost predicate Replaced(s: State, t: State, p: Pending, id: StreamId, back: bool)
    requires |s.mapper.owners| == MAX_DEVICE_CHANNELS
  {
    && t.config == s.config && t.streams.Keys == s.streams.Keys - {p.id} + (if back then {id} else {})
    && (forall x :: x in s.streams && x != p.id ==> t.streams[x] == s.streams[x])
    && (back ==> t.streams[id].sdp == p.newSdp && !t.streams[id].isTransmit)
    && |t.mapper.owners| == MAX_DEVICE_CHANNELS
    && forall ch :: 0 <= ch < MAX_DEVICE_CHANNELS ==>
      var was := s.mapper.owners[ch];
      t.mapper.owners[ch] == if was != p.id then was else if back then id else NULL_ID
  }

  /** A sink on its nominal block never loses it: only admission, or its start, can keep it out. */
  lemma {:induction false} FollowKeepsBlock(s: State, p: Pending, attempt: Attempt)
    requires Inv(s) && p.id in s.streams && attempt.id != NULL_ID && attempt.id !in s.streams
    requires var was := s.streams[p.id].mapping;
      was.deviceChannelStart == p.deviceChannelStart && OnNominalBlock(was, p.newSdp.numChannels)
    ensures var r := Resubscribe(s, p, attempt);
      var back := CanAdd(Closed(s, p.id), p.newSdp, false, attempt.env) && (s.config.ioActive ==> attempt.env.starts);
      r.1 == (if back then 1 else 0) && Inv(r.0) && Replaced(s, r.0, p, attempt.id, back)
  {
    hide Inv, CanAdd, Closed, Resubscribe, Lands, ValidMapping, ReaddMapping;
    var m := s.streams[p.id].mapping;
    OpenIsValid(s, p.id);
    ResubscribeKeepsConfig(s, p, attempt);
    NominalFits(m, p.newSdp.numChannels);
    ResubscribeOutcome(s, p, attempt);
  }

  lemma {:induction false} NominalFits(m: ChannelMapping, n: nat)
    requires ValidMapping(m) && OnNominalBlock(m, n)
    ensures m.deviceChannelStart + n <= MAX_DEVICE_CHANNELS
  {
    ValidLandsInRange(m);
    if n > 0 { assert Lands(m, m.deviceChannelStart + n - 1); }
  }

  // ---- a whole announcement, several sinks -----------------------------------------------------

  /** Sink i of the round was admitted, and started, when its turn came. */
  ghost predicate Back(s: State, pending: seq<Pending>, attempts: nat -> Attempt, i: nat)
    requires i < |pending|
  {
    var t := ResubscribeAll(s, pending[..i], attempts).0;
    && pending[i].id in t.streams
    && CanAdd(Closed(t, pending[i].id), pending[i].newSdp, false, attempts(i).env)
    && (s.config.ioActive ==> attempts(i).env.starts)
  }

  /** Whom the channels of stream `id` belong to after k re-subscriptions: its new identifier, nobody, or itself. */
  ghost function Heir(s: State, pending: seq<Pending>, attempts: nat -> Attempt, k: nat, id: StreamId): StreamId
    requires k <= |pending|
  {
    if k == 0 then id
    else if pending[k - 1].id != id then Heir(s, pending, attempts, k - 1, id)
    else if Back(s, pending, attempts, k - 1) then attempts(k - 1).id
    else NULL_ID
  }

  predicate Unmoved(pending: seq<Pending>, k: nat, id: StreamId)
    requires k <= |pending|
  {
    forall i :: 0 <= i < k ==> pending[i].id != id
  }

  /** Every channel has gone to its heir. */
  ghost predicate OwnersHanded(s: State, t: State, pending: seq<Pending>, attempts: nat -> Attempt, k: nat)
    requires k <= |pending| && |s.mapper.owners| == |t.mapper.owners| == MAX_DEVICE_CHANNELS
  {
    forall ch :: 0 <= ch < MAX_DEVICE_CHANNELS ==>
      t.mapper.owners[ch] == Heir(s, pending, attempts, k, s.mapper.owners[ch])
  }

  /** Every other stream is untouched, those that came back are re-pointed, and nothing else is open. */
  ghost predicate StreamsHanded(s: State, t: State, pending: seq<Pending>, attempts: nat -> Attempt, k: nat)
    requires k <= |pending|
  {
    && (forall id :: id in s.streams && Unmoved(pending, k, id) ==> id in t.streams && t.streams[id] == s.streams[id])
    && (forall i :: 0 <= i < k && Back(s, pending, attempts, i) ==>
        && attempts(i).id in t.streams
        && t.streams[attempts(i).id].sdp == pending[i].newSdp && !t.streams[attempts(i).id].isTransmit)
    && (forall id :: id in t.streams ==>
        || (id in s.streams && Unmoved(pending, k, id))
        || exists i :: 0 <= i < k && Back(s, pending, attempts, i) && attempts(i).id == id)
  }

  ghost predicate HandedOver(s: State, t: State, pending: seq<Pending>, attempts: nat -> Attempt, k: nat)
    requires k <= |pending| && |s.mapper.owners| == MAX_DEVICE_CHANNELS
  {
    && Inv(t) && t.config == s.config
    && OwnersHanded(s, t, pending, attempts, k) && StreamsHanded(s, t, pending, attempts, k)
  }

  /** The sinks of a round: open, each once, each on its nominal block; and new identifiers for them. */
  ghost predicate Followable(s: State, pending: seq<Pending>, attempts: nat -> Attempt) {
    && (forall i :: 0 <= i < |pending| ==>
        && pending[i].id in s.streams
        && s.streams[pending[i].id].mapping.deviceChannelStart == pending[i].deviceChannelStart
        && OnNominalBlock(s.streams[pending[i].id].mapping, pending[i].newSdp.numChannels))
    && (forall i, j :: 0 <= i < j < |pending| ==> pending[i].id != pending[j].id)
    && (forall i :: 0 <= i < |pending| ==> attempts(i).id != NULL_ID)
    && FreshAttempts(s, attempts, |pending|)
  }

  lemma {:induction false} HeirOfUnmoved(s: State, pending: seq<Pending>, attempts: nat -> Attempt, k: nat,
        id: StreamId)
    requires k <= |pending| && Unmoved(pending, k, id)
    ensures Heir(s, pending, attempts, k, id) == id
  {
    hide Back;
    if k == 0 {
    } else {
      HeirOfUnmoved(s, pending, attempts, k - 1, id);
    }
  }

  lemma {:induction false} HeirIsOldOrNew(s: State, pending: seq<Pending>, attempts: nat -> Attempt, k: nat,
        id: StreamId)
    requires k <= |pending|
    ensures var h := Heir(s, pending, attempts, k, id);
      || h == NULL_ID || (h == id && Unmoved(pending, k, id))
      || exists i :: 0 <= i < k && attempts(i).id == h && pending[i].id == id
  {
    hide Back;
    if k == 0 {
    } else {
      HeirIsOldOrNew(s, pending, attempts, k - 1, id);
    }
  }

  lemma {:induction false} HandOwners(s: State, t: State, r: State, pending: seq<Pending>, attempts: nat -> Attempt,
        k: nat)
    requires Followable(s, pending, attempts) && k < |pending| && NULL_ID !in s.streams
    requires |s.mapper.owners| == |t.mapper.owners| == MAX_DEVICE_CHANNELS
    requires forall ch :: 0 <= ch < MAX_DEVICE_CHANNELS ==>
      s.mapper.owners[ch] == NULL_ID || s.mapper.owners[ch] in s.streams
    requires OwnersHanded(s, t, pending, attempts, k)
    requires Replaced(t, r, pending[k], attempts(k).id, Back(s, pending, attempts, k))
    ensures OwnersHanded(s, r, pending, attempts, k + 1)
  {
    hide OnNominalBlock, Back;
    var p := pending[k];
    forall ch | 0 <= ch < MAX_DEVICE_CHANNELS
      ensures r.mapper.owners[ch] == Heir(s, pending, attempts, k + 1, s.mapper.owners[ch])
    {
      var o := s.mapper.owners[ch];
      HeirIsOldOrNew(s, pending, attempts, k, o);
      if o == p.id { HeirOfUnmoved(s, pending, attempts, k, o); }
    }
  }

  lemma {:induction false} UnmovedByOneMore(pending: seq<Pending>, k: nat, id: StreamId)
    requires k < |pending|
    ensures Unmoved(pending, k + 1, id) <==> Unmoved(pending, k, id) && pending[k].id != id
  {
  }

  lemma {:induction false} HandStreams(s: State, t: State, r: State, pending: seq<Pending>, attempts: nat -> Attempt,
        k: nat)
    requires Followable(s, pending, attempts) && k < |pending| && |t.mapper.owners| == MAX_DEVICE_CHANNELS
    requires StreamsHanded(s, t, pending, attempts, k)
    requires Replaced(t, r, pending[k], attempts(k).id, Back(s, pending, attempts, k))
    ensures StreamsHanded(s, r, pending, attempts, k + 1)
  {
    hide OnNominalBlock, Back, Unmoved;
    forall id
      ensures Unmoved(pending, k + 1, id) <==> Unmoved(pending, k, id) && pending[k].id != id
    {
      UnmovedByOneMore(pending, k, id);
    }
    forall i | 0 <= i < k + 1 && Back(s, pending, attempts, i)
      ensures attempts(i).id in r.streams
      ensures r.streams[attempts(i).id].sdp == pending[i].newSdp && !r.streams[attempts(i).id].isTransmit
    {
      assert pending[k].id in s.streams && attempts(i).id !in s.streams;
    }
    forall id | id in r.streams && !(id in s.streams && Unmoved(pending, k + 1, id))
      ensures exists i :: 0 <= i < k + 1 && Back(s, pending, attempts, i) && attempts(i).id == id
    {
      if id in t.streams {
      } else {
        assert Back(s, pending, attempts, k) && attempts(k).id == id;
      }
    }
  }

  lemma {:induction false} StillThere(s: State, t: State, pending: seq<Pending>, attempts: nat -> Attempt, k: nat)
    requires Followable(s, pending, attempts) && k < |pending| && StreamsHanded(s, t, pending, attempts, k)
    ensures pending[k].id in t.streams && t.streams[pending[k].id] == s.streams[pending[k].id]
      && attempts(k).id !in t.streams
  {
    hide Back, OnNominalBlock;
    assert Unmoved(pending, k, pending[k].id);
  }

  lemma {:induction false} OwnersAreOpen(s: State)
    requires Inv(s)
    ensures |s.mapper.owners| == MAX_DEVICE_CHANNELS && NULL_ID !in s.streams
    ensures forall ch :: 0 <= ch < MAX_DEVICE_CHANNELS ==>
      s.mapper.owners[ch] == NULL_ID || s.mapper.owners[ch] in s.streams
  {
    if NULL_ID in s.streams { OpenIsValid(s, NULL_ID); }
  }

  lemma {:induction false} HandOverOne(s: State, t: State, pending: seq<Pending>, attempts: nat -> Attempt, k: nat)
    requires Inv(s) && Followable(s, pending, attempts) && k < |pending| && |s.mapper.owners| == MAX_DEVICE_CHANNELS
    requires t == ResubscribeAll(s, pending[..k], attempts).0 && HandedOver(s, t, pending, attempts, k)
    ensures var r := Resubscribe(t, pending[k], attempts(k));
      HandedOver(s, r.0, pending, attempts, k + 1) && r.1 == if Back(s, pending, attempts, k) then 1 else 0
  {
    hide Inv, Resubscribe, ResubscribeAll, OnNominalBlock, CanAdd, Closed, Heir, OwnersHanded, StreamsHanded;
    OwnersAreOpen(s);
    OwnersAreOpen(t);
    StillThere(s, t, pending, attempts, k);
    FollowKeepsBlock(t, pending[k], attempts(k));
    var r := Resubscribe(t, pending[k], attempts(k)).0;
    HandOwners(s, t, r, pending, attempts, k);
    HandStreams(s, t, r, pending, attempts, k);
  }

  lemma {:induction false} NothingHanded(s: State, pending: seq<Pending>, attempts: nat -> Attempt)
    requires Inv(s) && |s.mapper.owners| == MAX_DEVICE_CHANNELS
    ensures HandedOver(s, s, pending, attempts, 0)
  {
    hide Inv;
  }

  lemma {:induction false} HandOverAll(s: State, pending: seq<Pending>, attempts: nat -> Attempt, k: nat)
    requires Inv(s) && Followable(s, pending, attempts) && k <= |pending| && |s.mapper.owners| == MAX_DEVICE_CHANNELS
    ensures var r := ResubscribeAll(s, pending[..k], attempts);
      && HandedOver(s, r.0, pending, attempts, k) && r.1 <= k
      && (r.1 == k <==> forall i :: 0 <= i < k ==> Back(s, pending, attempts, i))
  {
    hide Inv, Resubscribe, Followable, Back, HandedOver;
    if k == 0 {
      NothingHanded(s, pending, attempts);
    } else {
      HandOverAll(s, pending, attempts, k - 1);
      assert pending[..k][..k - 1] == pending[..k - 1];
      HandOverOne(s, ResubscribeAll(s, pending[..k - 1], attempts).0, pending, attempts, k - 1);
    }
  }

  predicate InOrder(pending: seq<Pending>) {
    forall i, j :: 0 <= i < j < |pending| ==> pending[i].id < pending[j].id
  }

  lemma {:induction false} PendingInOrder(ids: seq<StreamId>, streams: map<StreamId, Managed>, announced: SdpSession)
    requires forall id :: id in ids ==> id in streams
    requires forall i, j :: 0 <= i < j < |ids| ==> ids[i] < ids[j]
    ensures InOrder(PendingOf(ids, streams, announced))
    ensures forall p :: p in PendingOf(ids, streams, announced) ==> p.id in ids
    decreases |ids|
  {
    hide Follows;
    if ids == [] {
    } else {
      var n := |ids| - 1;
      PendingInOrder(ids[..n], streams, announced);
      var before, pending := PendingOf(ids[..n], streams, announced), PendingOf(ids, streams, announced);
      assert forall id :: id in ids[..n] ==> id < ids[n] && id in ids;
      assert forall i :: 0 <= i < |before| ==> before[i] in before;
    }
  }

  /** The round FollowAnnouncement works through. */
  function RoundOf(s: State, announced: SdpSession): seq<Pending> {
    PendingOf(SortedIds(s.streams.Keys), s.streams, announced)
  }

  ghost predicate NewIds(s: State, attempts: nat -> Attempt, count: nat) {
    FreshAttempts(s, attempts, count) && forall i :: 0 <= i < count ==> attempts(i).id != NULL_ID
  }

  lemma {:induction false} RoundIsFollowable(s: State, announced: SdpSession, attempts: nat -> Attempt)
    requires Inv(s) && NewIds(s, attempts, |RoundOf(s, announced)|)
    requires forall id :: id in s.streams && Follows(s.streams[id], announced) ==>
      NominalWidth(s.streams[id].mapping, announced.numChannels)
    ensures Followable(s, RoundOf(s, announced), attempts)
  {
    hide Inv, Follows, NominalWidth, OnNominalBlock, PendingOf, SortedIds;
    var ids := SortedIds(s.streams.Keys);
    var pending := PendingOf(ids, s.streams, announced);
    PendingIsExactlyTheFollowers(ids, s.streams, announced);
    PendingInOrder(ids, s.streams, announced);
    forall i | 0 <= i < |pending|
      ensures pending[i].id in s.streams
      ensures s.streams[pending[i].id].mapping.deviceChannelStart == pending[i].deviceChannelStart
      ensures OnNominalBlock(s.streams[pending[i].id].mapping, pending[i].newSdp.numChannels)
    {
      var id := pending[i].id;
      assert pending[i] in pending && id in s.streams;
      OpenIsValid(s, id);
      NominalWidthIsExact(s.streams[id].mapping, announced.numChannels);
    }
    assert forall i, j :: 0 <= i < j < |pending| ==> pending[i].id != pending[j].id;
    assert FreshAttempts(s, attempts, |pending|);
    assert forall i :: 0 <= i < |pending| ==> attempts(i).id != NULL_ID;
  }

  /**
    A whole announcement, when every sink that follows it is on its nominal block: whichever of them
    were refused, every device channel is its old owner's, or that sink's under its new identifier, or
    nobody's if that sink was refused; no other stream is touched; all are back iff all were admitted.
   */
  lemma {:induction false} FollowKeepsEveryBlock(s: State, announced: SdpSession, trigger: Trigger,
        attempts: nat -> Attempt)
    requires Inv(s) && NewIds(s, attempts, |RoundOf(s, announced)|)
    requires (trigger.Controller? || s.config.autoSinkFollow) && announced.sessionName != ""
    requires forall id :: id in s.streams && Follows(s.streams[id], announced) ==>
      NominalWidth(s.streams[id].mapping, announced.numChannels)
    ensures |s.mapper.owners| == MAX_DEVICE_CHANNELS
    ensures var r, round := FollowAnnouncement(s, announced, trigger, attempts), RoundOf(s, announced);
      && HandedOver(s, r.0, round, attempts, |round|) && r.1 <= |round|
      && (r.1 == |round| <==> forall i :: 0 <= i < |round| ==> Back(s, round, attempts, i))
  {
    hide Inv, Follows, NominalWidth, PendingOf, SortedIds, HandedOver, Followable, ResubscribeAll, NewIds, Back;
    RoundIsFollowable(s, announced, attempts);
    OwnersAreOpen(s);
    var round := RoundOf(s, announced);
    HandOverAll(s, round, attempts, |round|);
    assert round[..|round|] == round;
  }

  lemma {:induction false} HeirOfMoved(s: State, pending: seq<Pending>, attempts: nat -> Attempt, k: nat, i: nat)
    requires i < k <= |pending| && forall i, j :: 0 <= i < j < |pending| ==> pending[i].id != pending[j].id
    ensures Heir(s, pending, attempts, k, pending[i].id) ==
      if Back(s, pending, attempts, i) then attempts(i).id else NULL_ID
  {
    hide Back;
    if k == i + 1 {
    } else {
      HeirOfMoved(s, pending, attempts, k - 1, i);
    }
  }

  /** And so each sink that is back lands on exactly the channels it had. */
  lemma {:induction false} BackOnItsChannels(
      s: State, t: State, pending: seq<Pending>, attempts: nat -> Attempt, i: nat, ch: nat)
    requires Inv(s) && Followable(s, pending, attempts) && i < |pending|
      && ch < MAX_DEVICE_CHANNELS == |s.mapper.owners|
    requires HandedOver(s, t, pending, attempts, |pending|) && Back(s, pending, attempts, i)
    ensures attempts(i).id in t.streams
    ensures Lands(t.streams[attempts(i).id].mapping, ch) <==> Lands(s.streams[pending[i].id].mapping, ch)
  {
    hide Inv, Back, Lands, OnNominalBlock, Heir, Unmoved;
    var o := s.mapper.owners[ch];
    OwnersAreOpen(s);
    OwnersAreOpen(t);
    OpenIsValid(s, pending[i].id);
    OpenIsValid(t, attempts(i).id);
    HeirOfMoved(s, pending, attempts, |pending|, i);
    HeirIsOldOrNew(s, pending, attempts, |pending|, o);
  }

  // ---- whose announcement counts ---------------------------------------------------------------

  /** How the audio of a source arrives; the channel count is not part of it. */
  datatype Transport = Transport(
    address: string, port: U16, payloadType: U8, encoding: string, sampleRate: U32, ptimeUs: U32, framecount: U32)

  function TransportOf(s: SdpSession): Transport {
    Transport(s.connectionAddress, s.port, s.payloadType, s.encoding, s.sampleRate, s.ptimeUs, s.framecount)
  }

  /** Two descriptions of one source: one name, one known origin, and no two different unicast sources. */
  predicate SameSource(a: SdpSession, b: SdpSession) {
    && a.sessionName == b.sessionName != "" && a.originAddress == b.originAddress != ""
    && (a.sourceAddress == "" || b.sourceAddress == "" || a.sourceAddress == b.sourceAddress)
  }

  /**
    The four decisions partition all pairs.  A source that changes nothing but its channel count is
    `Unchanged`, not `ChannelCountChanged`: the count is looked at only when the transport moved.
   */
  lemma {:induction false} DecisionsPartition(stored: SdpSession, announced: SdpSession)
    ensures var d, same := EvaluateSinkFollow(stored, announced), SameSource(stored, announced);
      var moved, count := TransportOf(stored) != TransportOf(announced), stored.numChannels == announced.numChannels;
      && (d == NotBound <==> !same) && (d == Unchanged <==> same && !moved)
      && (d == ChannelCountChanged <==> same && moved && !count) && (d == Follow <==> same && moved && count)
    ensures SameSource(stored, announced) == SameSource(announced, stored)
    ensures EvaluateSinkFollow(stored, announced) == Follow <==> EvaluateSinkFollow(announced, stored) == Follow
  {
  }

  /** An announcement from an origin no sink is bound to changes nothing, whatever names and addresses it carries. */
  lemma {:induction false} StrangersRepointNothing(s: State, announced: SdpSession, trigger: Trigger,
        attempts: nat -> Attempt)
    requires forall id :: id in s.streams && !s.streams[id].isTransmit ==>
      announced.originAddress == "" || s.streams[id].sdp.originAddress != announced.originAddress
    ensures FollowAnnouncement(s, announced, trigger, attempts) == (s, 0)
  {
    hide SortedIds;
    NobodyPending(SortedIds(s.streams.Keys), s.streams, announced);
    NothingToResubscribe(s, attempts);
  }
}
