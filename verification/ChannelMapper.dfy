/**
  The stream-to-channel mapper (packages/aes67-core/NetworkEngine/StreamChannelMapper.cpp): a map of
  channel mappings and, as a fast index over it, a 128-slot table of the stream owning each device
  channel.
 */
module ChannelMapper {
  import opened StreamTypes
  import opened Counting

  const MAX_DEVICE_CHANNELS: nat := 128

  /** The device channels a mapping lands on: its routes, or the block it was given. */
  function DeviceChannels(m: ChannelMapping): seq<nat> {
    if m.routes == [] then seq(m.deviceChannelCount, i requires 0 <= i => m.deviceChannelStart + i)
    else seq(|m.routes|, i requires 0 <= i < |m.routes| => m.routes[i].deviceChannel)
  }

  ghost predicate Lands(m: ChannelMapping, ch: nat) { ch in DeviceChannels(m) }

  ghost predicate RoutesFit(m: ChannelMapping) {
    && (forall r :: r in m.routes ==> r.streamChannel < m.streamChannelCount && r.deviceChannel < MAX_DEVICE_CHANNELS)
    && (forall i, j :: 0 <= i < j < |m.routes| ==> m.routes[i].deviceChannel != m.routes[j].deviceChannel)
  }

  ghost predicate ValidMapping(m: ChannelMapping) {
    && m.streamId != NULL_ID && m.streamChannelCount != 0 && m.deviceChannelCount != 0
    && m.deviceChannelStart + m.deviceChannelCount <= MAX_DEVICE_CHANNELS
    && RoutesFit(m)
  }

  datatype MappingError =
    | NoError | NullStreamId | ZeroStreamChannels | ZeroDeviceChannels | StartOutOfRange | RangeTooLong
    | RouteStreamChannel(streamChannel: nat) | RouteDeviceChannel(deviceChannel: nat) | RoutesCollide(channel: nat)

  /** The first fault of a mapping, in the order they are looked for. */
  method GetValidationError(m: ChannelMapping) returns (error: MappingError)
    ensures error == NoError <==> ValidMapping(m)
    ensures m.streamId == NULL_ID <==> error == NullStreamId
    ensures error.RouteStreamChannel? ==>
      exists r :: r in m.routes && r.streamChannel == error.streamChannel >= m.streamChannelCount
    ensures error.RouteDeviceChannel? ==>
      exists r :: r in m.routes && r.deviceChannel == error.deviceChannel >= 128
    ensures error.RoutesCollide? ==>
      exists i, j :: 0 <= i < j < |m.routes| && m.routes[i].deviceChannel == m.routes[j].deviceChannel == error.channel
  {
    if m.streamId == NULL_ID { return NullStreamId; }
    if m.streamChannelCount == 0 { return ZeroStreamChannels; }
    if m.deviceChannelCount == 0 { return ZeroDeviceChannels; }
    if m.deviceChannelStart >= MAX_DEVICE_CHANNELS { return StartOutOfRange; }
    if m.deviceChannelStart + m.deviceChannelCount > MAX_DEVICE_CHANNELS { return RangeTooLong; }
    var taken := new bool[MAX_DEVICE_CHANNELS](_ => false);
    for k := 0 to |m.routes|
      invariant forall i :: 0 <= i < k ==>
        m.routes[i].streamChannel < m.streamChannelCount && m.routes[i].deviceChannel < MAX_DEVICE_CHANNELS
      invariant forall i, j :: 0 <= i < j < k ==> m.routes[i].deviceChannel != m.routes[j].deviceChannel
      invariant forall ch :: 0 <= ch < MAX_DEVICE_CHANNELS ==>
        (taken[ch] <==> exists i :: 0 <= i < k && m.routes[i].deviceChannel == ch)
    {
      var route := m.routes[k];
      if route.streamChannel >= m.streamChannelCount { return RouteStreamChannel(route.streamChannel); }
      if route.deviceChannel >= MAX_DEVICE_CHANNELS { return RouteDeviceChannel(route.deviceChannel); }
      if taken[route.deviceChannel] { return RoutesCollide(route.deviceChannel); }
      taken[route.deviceChannel] := true;
    }
    return NoError;
  }

  lemma {:induction false} ValidLandsInRange(m: ChannelMapping)
    requires ValidMapping(m)
    ensures forall ch: nat :: Lands(m, ch) ==> ch < MAX_DEVICE_CHANNELS
    ensures exists ch: nat :: Lands(m, ch)
  {
    assert DeviceChannels(m)[0] in DeviceChannels(m);
    assert Lands(m, DeviceChannels(m)[0]);
  }

  lemma {:induction false} BlockLands(m: ChannelMapping, ch: nat)
    requires m.routes == []
    ensures Lands(m, ch) <==> m.deviceChannelStart <= ch < m.deviceChannelStart + m.deviceChannelCount
  {
    if m.deviceChannelStart <= ch < m.deviceChannelStart + m.deviceChannelCount {
      assert DeviceChannels(m)[ch - m.deviceChannelStart] == ch;
    }
  }

  // ---- the mapper's state and its operations ---------------------------------------------------

  datatype Mapper = Mapper(mappings: map<StreamId, ChannelMapping>, owners: seq<StreamId>, usable: nat)

  function NoOwners(): seq<StreamId> { seq(MAX_DEVICE_CHANNELS, _ => NULL_ID) }

  function EmptyMapper(): Mapper { Mapper(map[], NoOwners(), MAX_DEVICE_CHANNELS) }

  ghost function Claimed(owners: seq<StreamId>, m: ChannelMapping): seq<StreamId> {
    seq(|owners|, ch requires 0 <= ch < |owners| => if Lands(m, ch) then m.streamId else owners[ch])
  }

  ghost function Released(owners: seq<StreamId>, id: StreamId): seq<StreamId> {
    seq(|owners|, ch requires 0 <= ch < |owners| => if owners[ch] == id then NULL_ID else owners[ch])
  }

  ghost predicate Overlaps(owners: seq<StreamId>, m: ChannelMapping, exclude: StreamId) {
    exists ch: nat :: Lands(m, ch) && ch < |owners| && owners[ch] != NULL_ID && owners[ch] != exclude
  }

  ghost predicate Accepts(s: Mapper, m: ChannelMapping, exclude: StreamId) {
    ValidMapping(m) && !Overlaps(s.owners, m, exclude)
  }

  ghost function Added(s: Mapper, m: ChannelMapping): Mapper {
    s.(mappings := s.mappings[m.streamId := m], owners := Claimed(s.owners, m))
  }

  ghost function Removed(s: Mapper, id: StreamId): Mapper {
    if id in s.mappings then s.(mappings := s.mappings - {id}, owners := Released(s.owners, id)) else s
  }

  ghost function Updated(s: Mapper, m: ChannelMapping): Mapper {
    s.(mappings := s.mappings[m.streamId := m], owners := Claimed(Released(s.owners, m.streamId), m))
  }

  function Cleared(s: Mapper): Mapper { Mapper(map[], NoOwners(), s.usable) }

  /** The owner table is exactly the inverse of the mappings, all of them valid. */
  ghost predicate Consistent(s: Mapper) {
    && |s.owners| == MAX_DEVICE_CHANNELS && s.usable <= MAX_DEVICE_CHANNELS
    && (forall id :: id in s.mappings ==> ValidMapping(s.mappings[id]) && s.mappings[id].streamId == id)
    && (forall ch :: 0 <= ch < MAX_DEVICE_CHANNELS && s.owners[ch] != NULL_ID ==>
        s.owners[ch] in s.mappings && Lands(s.mappings[s.owners[ch]], ch))
    && (forall id, ch: nat :: id in s.mappings && Lands(s.mappings[id], ch) && ch < MAX_DEVICE_CHANNELS ==>
      s.owners[ch] == id)
  }

  class StreamChannelMapper {
    var mappings: map<StreamId, ChannelMapping>
    const owners: array<StreamId>
    var usableChannelCount: nat

    ghost predicate Valid()
      reads this
    {
      owners.Length == MAX_DEVICE_CHANNELS && usableChannelCount <= MAX_DEVICE_CHANNELS
    }

    ghost function View(): Mapper
      reads this, owners
    {
      Mapper(mappings, owners[..], usableChannelCount)
    }

    constructor ()
      ensures Valid() && View() == EmptyMapper() && fresh(owners)
    {
      mappings := map[];
      owners := new StreamId[MAX_DEVICE_CHANNELS](_ => NULL_ID);
      usableChannelCount := MAX_DEVICE_CHANNELS;
    }

    method IsOverlap(m: ChannelMapping, exclude: StreamId) returns (overlap: bool)
      requires Valid()
      ensures overlap <==> Overlaps(owners[..], m, exclude)
    {
      var channels := DeviceChannels(m);
      for k := 0 to |channels|
        invariant forall i :: 0 <= i < k && channels[i] < owners.Length ==>
          owners[channels[i]] == NULL_ID || owners[channels[i]] == exclude
      {
        if channels[k] < owners.Length {
          var owner := owners[channels[k]];
          if owner != NULL_ID && owner != exclude {
            assert Lands(m, channels[k]) && owners[..][channels[k]] == owner;
            return true;
          }
        }
      }
      return false;
    }

    method ClaimOwners(m: ChannelMapping)
      requires Valid()
      modifies owners
      ensures owners[..] == Claimed(old(owners[..]), m)
    {
      var channels := DeviceChannels(m);
      for k := 0 to |channels|
        invariant forall ch :: 0 <= ch < owners.Length ==>
          owners[ch] == if ch in channels[..k] then m.streamId else old(owners[ch])
      {
        if channels[k] < owners.Length {
          owners[channels[k]] := m.streamId;
        }
        assert channels[..k + 1] == channels[..k] + [channels[k]];
      }
      assert channels[..|channels|] == channels;
    }

    method ReleaseOwners(id: StreamId)
      requires Valid()
      modifies owners
      ensures owners[..] == Released(old(owners[..]), id)
    {
      for ch := 0 to owners.Length
        invariant forall k :: 0 <= k < ch ==> owners[k] == if old(owners[k]) == id then NULL_ID else old(owners[k])
        invariant forall k :: ch <= k < owners.Length ==> owners[k] == old(owners[k])
      {
        if owners[ch] == id {
          owners[ch] := NULL_ID;
        }
      }
    }

    method AddMapping(m: ChannelMapping) returns (ok: bool)
      requires Valid()
      modifies this`mappings, owners
      ensures Valid() && ok == Accepts(old(View()), m, NULL_ID)
      ensures View() == if ok then Added(old(View()), m) else old(View())
    {
      var error := GetValidationError(m);
      if error != NoError { return false; }
      var overlap := IsOverlap(m, NULL_ID);
      if overlap { return false; }
      mappings := mappings[m.streamId := m];
      ClaimOwners(m);
      return true;
    }

    method RemoveMapping(id: StreamId) returns (ok: bool)
      requires Valid()
      modifies this`mappings, owners
      ensures Valid() && ok == (id in old(mappings))
      ensures View() == Removed(old(View()), id)
    {
      if id !in mappings { return false; }
      ReleaseOwners(id);
      mappings := mappings - {id};
      return true;
    }

    method UpdateMapping(m: ChannelMapping) returns (ok: bool)
      requires Valid()
      modifies this`mappings, owners
      ensures Valid() && ok == Accepts(old(View()), m, m.streamId)
      ensures View() == if ok then Updated(old(View()), m) else old(View())
    {
      var error := GetValidationError(m);
      if error != NoError { return false; }
      var overlap := IsOverlap(m, m.streamId);
      if overlap { return false; }
      ReleaseOwners(m.streamId);
      mappings := mappings[m.streamId := m];
      ClaimOwners(m);
      return true;
    }

    method ClearAll()
      requires Valid()
      modifies this`mappings, owners
      ensures Valid() && View() == Cleared(old(View()))
    {
      mappings := map[];
      forall ch | 0 <= ch < owners.Length { owners[ch] := NULL_ID; }
    }

    method SetUsableChannelCount(count: nat)
      requires Valid()
      modifies this`usableChannelCount
      ensures Valid() && usableChannelCount == if count <= MAX_DEVICE_CHANNELS then count else MAX_DEVICE_CHANNELS
    {
      usableChannelCount := if count <= MAX_DEVICE_CHANNELS then count else MAX_DEVICE_CHANNELS;
    }

    /** How many device channels nobody owns. */
    method GetAvailableChannelCount() returns (n: nat)
      requires Valid()
      ensures n == |FreeChannels(owners[..])|
    {
      n := 0;
      ghost var free: set<nat> := {};
      for ch := 0 to owners.Length
        invariant n == |free| && free == set c | c in FreeChannels(owners[..]) && c < ch
      {
        if owners[ch] == NULL_ID {
          n := n + 1;
          free := free + {ch};
        }
      }
      assert free == FreeChannels(owners[..]);
    }

    /**
      The lowest start of n free channels (at least one) below the usable limit, and nothing exactly when
      there is none.
     */
    method FindContiguousBlock(numChannels: nat) returns (start: Option<nat>)
      requires Valid()
      ensures start == LowestBlock(View(), numChannels)
    {
      var consecutive := 0;
      var blockStart := -1;
      for i := 0 to usableChannelCount
        invariant blockStart == -1 ==> consecutive == 0 && (i > 0 ==> owners[i - 1] != NULL_ID)
        invariant blockStart != -1 ==> 0 <= blockStart && blockStart + consecutive == i && consecutive > 0
        invariant forall k :: i - consecutive <= k < i ==> owners[k] == NULL_ID
        invariant 0 < i - consecutive ==> owners[i - consecutive - 1] != NULL_ID
        invariant consecutive < BlockWidth(numChannels)
        invariant forall s :: 0 <= s < i - consecutive ==> !FreeBlock(View(), s, numChannels)
      {
        if owners[i] == NULL_ID {
          if blockStart == -1 { blockStart := i; }
          consecutive := consecutive + 1;
          if consecutive >= numChannels {
            assert FreeBlock(View(), blockStart, numChannels);
            LowestBlockIs(View(), numChannels, blockStart);
            return Some(blockStart);
          }
        } else {
          forall s | 0 <= s < i + 1
            ensures !FreeBlock(View(), s, numChannels)
          {
            assert View().owners[i] != NULL_ID;
            if s >= i - consecutive { assert s <= i < s + BlockWidth(numChannels) || s + BlockWidth(numChannels) <= i; }
          }
          blockStart := -1;
          consecutive := 0;
        }
      }
      return None;
    }

    /** The mapping a receive stream gets when nobody chose one for it. */
    method CreateDefaultMapping(id: StreamId, name: string, numChannels: U16) returns (m: Option<ChannelMapping>)
      requires Valid()
      ensures m == DefaultMapping(View(), id, name, numChannels)
    {
      var block := FindContiguousBlock(numChannels);
      if block == None { return None; }
      return Some(ChannelMapping(id, name, numChannels, 0, block.value, numChannels, []));
    }
  }

  // ---- free blocks -----------------------------------------------------------------------------

  ghost function FreeChannels(owners: seq<StreamId>): set<nat> {
    set ch | 0 <= ch < |owners| && owners[ch] == NULL_ID
  }

  /** The search counts a channel before it compares, so a width of zero behaves as one. */
  function BlockWidth(numChannels: nat): nat { if numChannels == 0 then 1 else numChannels }

  ghost predicate FreeBlock(s: Mapper, start: nat, numChannels: nat) {
    && start + BlockWidth(numChannels) <= s.usable <= |s.owners|
    && forall k :: start <= k < start + BlockWidth(numChannels) ==> s.owners[k] == NULL_ID
  }

  ghost function LowestFrom(s: Mapper, numChannels: nat, from: nat): (r: Option<nat>)
    ensures r.Some? ==> from <= r.value && FreeBlock(s, r.value, numChannels)
    ensures forall k :: from <= k && FreeBlock(s, k, numChannels) ==> r.Some? && r.value <= k
    decreases s.usable - from
  {
    if from >= s.usable then None
    else if FreeBlock(s, from, numChannels) then Some(from)
    else LowestFrom(s, numChannels, from + 1)
  }

  ghost function LowestBlock(s: Mapper, numChannels: nat): (r: Option<nat>)
    ensures r.Some? ==> FreeBlock(s, r.value, numChannels)
    ensures forall k :: FreeBlock(s, k, numChannels) ==> r.Some? && r.value <= k
  {
    LowestFrom(s, numChannels, 0)
  }

  lemma {:induction false} LowestBlockIs(s: Mapper, numChannels: nat, start: nat)
    requires FreeBlock(s, start, numChannels) && forall k :: 0 <= k < start ==> !FreeBlock(s, k, numChannels)
    ensures LowestBlock(s, numChannels) == Some(start)
  {
  }

  ghost function DefaultMapping(s: Mapper, id: StreamId, name: string, numChannels: U16): Option<ChannelMapping> {
    var block := LowestBlock(s, numChannels);
    if block.Some? && block.value < 0x1_0000
    then Some(ChannelMapping(id, name, numChannels, 0, block.value, numChannels, []))
    else None
  }

  // ---- what the operations keep ----------------------------------------------------------------

  lemma {:induction false} EmptyIsConsistent()
    ensures Consistent(EmptyMapper())
  {
  }

  /**
    A refused mapping changes nothing, so only accepted ones matter: adding keeps the table exact iff
    the id is fresh.
   */
  lemma {:induction false} AddingIsConsistentIffFresh(s: Mapper, m: ChannelMapping)
    requires Consistent(s) && Accepts(s, m, NULL_ID)
    ensures Consistent(Added(s, m)) <==> m.streamId !in s.mappings
  {
    ValidLandsInRange(m);
    if m.streamId in s.mappings {
      var was := s.mappings[m.streamId];
      ValidLandsInRange(was);
      var ch: nat :| Lands(was, ch);
      assert s.owners[ch] == m.streamId && !Lands(m, ch);
      assert Added(s, m).owners[ch] == m.streamId;
    }
  }

  lemma {:induction false} RemovingIsConsistent(s: Mapper, id: StreamId)
    requires Consistent(s)
    ensures Consistent(Removed(s, id)) && id !in Removed(s, id).mappings
    ensures Removed(s, id).mappings == s.mappings - {id}
  {
  }

  /** Removing what was just added restores the mapper exactly. */
  lemma {:induction false} RemoveUndoesAdd(s: Mapper, m: ChannelMapping)
    requires Consistent(s) && Accepts(s, m, NULL_ID) && m.streamId !in s.mappings
    ensures Removed(Added(s, m), m.streamId) == s
  {
  }

  /** A stream's channels are nobody else's. */
  lemma {:induction false} UpdatingIsConsistent(s: Mapper, m: ChannelMapping)
    requires Consistent(s) && Accepts(s, m, m.streamId)
    ensures Consistent(Updated(s, m))
  {
  }

  /** Going back to the old mapping is never refused, and restores mappings and table exactly. */
  lemma {:induction false} UpdateRollsBack(s: Mapper, m: ChannelMapping)
    requires Consistent(s) && m.streamId in s.mappings && Accepts(s, m, m.streamId)
    ensures var was := s.mappings[m.streamId];
      Accepts(Updated(s, m), was, was.streamId) && Updated(Updated(s, m), was) == s
  {
  }

  /** No device channel has two owners. */
  lemma {:induction false} ChannelsAreExclusive(s: Mapper, a: StreamId, b: StreamId, ch: nat)
    requires Consistent(s) && a in s.mappings && b in s.mappings
    requires Lands(s.mappings[a], ch) && Lands(s.mappings[b], ch)
    ensures a == b
  {
    ValidLandsInRange(s.mappings[a]);
    assert s.owners[ch] == a && s.owners[ch] == b;
  }

  /** The mappings leave the owner table no freedom. */
  lemma {:induction false} MappingsDetermineOwners(a: Mapper, b: Mapper)
    requires Consistent(a) && Consistent(b) && a.mappings == b.mappings
    ensures a.owners == b.owners
  {
    forall ch | 0 <= ch < MAX_DEVICE_CHANNELS
      ensures a.owners[ch] == b.owners[ch]
    {
      var x, y := a.owners[ch], b.owners[ch];
      assert x != NULL_ID ==> Lands(a.mappings[x], ch);
      assert y != NULL_ID ==> Lands(b.mappings[y], ch);
    }
  }

  /** A default mapping for a stream of at least one channel, under a fresh id, is always accepted. */
  lemma {:induction false} DefaultIsAccepted(s: Mapper, id: StreamId, name: string, numChannels: U16)
    requires Consistent(s) && id != NULL_ID && numChannels > 0
    ensures var m := DefaultMapping(s, id, name, numChannels);
      && (m.Some? ==> Accepts(s, m.value, NULL_ID))
      && (m.None? <==> forall start :: !FreeBlock(s, start, numChannels))
  {
  }

  /** There are never more mappings than device channels. */
  lemma {:induction false} MappingsAreFew(s: Mapper)
    requires Consistent(s)
    ensures |s.mappings| <= MAX_DEVICE_CHANNELS
  {
    forall id | id in s.mappings
      ensures id in s.owners
    {
      ValidLandsInRange(s.mappings[id]);
      var ch: nat :| Lands(s.mappings[id], ch);
      assert s.owners[ch] == id;
    }
    SubsetSize(s.mappings.Keys, Elements(s.owners));
    ElementsAreFew(s.owners);
  }
}
