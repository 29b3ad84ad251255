/**
  The external reference of the Linux PTP daemon
  (packages/aes67-linux-ptpd/src/ExternalReference.cpp, ReferenceMath.h) and the clockClass the
  grandmaster announces from it (Grandmaster.cpp).  Times are nanoseconds.  The servo's outcome
  never reaches the lock flag, so it is not part of this state.
 */
module ReferenceLock {
  import opened StreamTypes

  const NS_PER_SECOND: int := 1_000_000_000
  const CREDIBLE_OFFSET_NS: int := 500_000
  const LOCK_THRESHOLD_NS: int := 100
  const HOLDOVER_NS: int := 3 * NS_PER_SECOND
  const EDGES_TO_LOCK: nat := 10

  /** Signed distance of an edge from the nearest second: the one value in [-500 ms, 500 ms) congruent to it. */
  function OffsetFromSecondBoundary(edgeNs: nat): (offset: int)
    ensures -500_000_000 <= offset < 500_000_000
    ensures (edgeNs - offset) % 1_000_000_000 == 0
  {
    var within := edgeNs % NS_PER_SECOND;
    if within >= NS_PER_SECOND / 2 then within - NS_PER_SECOND else within
  }

  function TruncDiv(a: int, b: nat): int requires b > 0 { if a >= 0 then a / b else -((-a) / b) }
  function TruncMod(a: int, b: nat): int requires b > 0 { a - b * TruncDiv(a, b) }

  /** The seconds and nanoseconds a clock step is handed to the kernel as, from C's truncating operators. */
  function SplitStep(correction: int): (r: (int, int))
    ensures 0 <= r.1 < 1_000_000_000 && r.0 * 1_000_000_000 + r.1 == correction
  {
    var sec, nsec := TruncDiv(correction, NS_PER_SECOND), TruncMod(correction, NS_PER_SECOND);
    if nsec < 0 then (sec - 1, nsec + NS_PER_SECOND) else (sec, nsec)
  }

  // ---- one service call ------------------------------------------------------------------------

  /** A timestamp event read from the clock: its channel, its stamp, and when it was read. */
  datatype Edge = Edge(channel: nat, edgeNs: nat, readAt: int)

  datatype Ref = Ref(
    locked: bool, consecutive: nat, haveLastEdge: bool,
    lastEdgeNs: nat, haveEdgeTime: bool, lastEdgeAt: int,
    edges: nat, rejected: nat, offsetNs: int)

  const Started: Ref := Ref(false, 0, false, 0, false, 0, 0, 0, 0)

  predicate Credible(offset: int) { -CREDIBLE_OFFSET_NS <= offset <= CREDIBLE_OFFSET_NS }
  predicate InWindow(offset: int) { -LOCK_THRESHOLD_NS <= offset <= LOCK_THRESHOLD_NS }

  function Expires(s: Ref, now: int): bool { s.haveEdgeTime && now - s.lastEdgeAt > HOLDOVER_NS && s.locked }

  function CheckHoldover(s: Ref, now: int): Ref {
    if Expires(s, now) then s.(locked := false, consecutive := 0, haveLastEdge := false) else s
  }

  function TakeEdge(s: Ref, channel: nat, e: Edge): Ref {
    if e.channel != channel then s
    else
      var offset := OffsetFromSecondBoundary(e.edgeNs);
      var t := s.(edges := s.edges + 1, offsetNs := offset, lastEdgeAt := e.readAt, haveEdgeTime := true);
      if !Credible(offset) then t.(rejected := t.rejected + 1, consecutive := 0, haveLastEdge := false)
      else if !t.haveLastEdge then t.(lastEdgeNs := e.edgeNs, haveLastEdge := true)
      else
        var n := if InWindow(offset) then t.consecutive + 1 else 0;
        t.(lastEdgeNs := e.edgeNs, consecutive := n, locked := n >= EDGES_TO_LOCK)
  }

  function TakeEdges(s: Ref, channel: nat, es: seq<Edge>): Ref {
    if es == [] then s else TakeEdge(TakeEdges(s, channel, es[..|es| - 1]), channel, es[|es| - 1])
  }

  class ExternalReference {
    const channel: nat
    var enabled: bool
    var locked: bool
    var consecutiveInWindow: nat
    var haveLastEdge: bool
    var lastEdgeNs: nat
    var haveEdgeTime: bool
    var lastEdgeAt: int
    var edges: nat
    var rejected: nat
    var offsetNs: int

    ghost function View(): Ref
      reads this
    {
      Ref(locked, consecutiveInWindow, haveLastEdge, lastEdgeNs, haveEdgeTime, lastEdgeAt, edges, rejected, offsetNs)
    }

    constructor (channel: nat, enabled: bool)
      ensures View() == Started && this.channel == channel && this.enabled == enabled
    {
      this.channel, this.enabled := channel, enabled;
      locked, consecutiveInWindow, haveLastEdge, lastEdgeNs := false, 0, false, 0;
      haveEdgeTime, lastEdgeAt, edges, rejected, offsetNs := false, 0, 0, 0, 0;
    }

    /** `now` is the clock on entry, `pending` the events waiting. */
    method Service(now: int, pending: seq<Edge>)
      modifies this
      ensures enabled == old(enabled)
      ensures View() == if enabled then TakeEdges(CheckHoldover(old(View()), now), channel, pending) else old(View())
    {
      if !enabled { return; }
      if haveEdgeTime {
        var idle := now - lastEdgeAt;
        if idle > HOLDOVER_NS && locked {
          locked := false;
          consecutiveInWindow := 0;
          haveLastEdge := false;
        }
      }
      var i := 0;
      while i < |pending|
        invariant i <= |pending| && enabled
        invariant View() == TakeEdges(CheckHoldover(old(View()), now), channel, pending[..i])
      {
        assert pending[..i + 1][..i] == pending[..i];
        Take(pending[i]);
        i := i + 1;
      }
      assert pending[..i] == pending;
    }

    method Take(e: Edge)
      modifies this
      ensures enabled == old(enabled)
      ensures View() == TakeEdge(old(View()), channel, e)
    {
      if e.channel != channel { return; }
      edges := edges + 1;
      var offset := OffsetFromSecondBoundary(e.edgeNs);
      offsetNs := offset;
      lastEdgeAt := e.readAt;
      haveEdgeTime := true;
      if offset > CREDIBLE_OFFSET_NS || offset < -CREDIBLE_OFFSET_NS {
        rejected := rejected + 1;
        consecutiveInWindow := 0;
        haveLastEdge := false;
        return;
      }
      if !haveLastEdge {
        lastEdgeNs := e.edgeNs;
        haveLastEdge := true;
        return;
      }
      lastEdgeNs := e.edgeNs;
      if offset <= LOCK_THRESHOLD_NS && offset >= -LOCK_THRESHOLD_NS {
        consecutiveInWindow := consecutiveInWindow + 1;
      } else {
        consecutiveInWindow := 0;
      }
      locked := consecutiveInWindow >= EDGES_TO_LOCK;
    }
  }

  // ---- the announced dataset -------------------------------------------------------------------

  const CLOCK_CLASS_LOCKED: nat := 13
  const CLOCK_CLASS_FREE: nat := 248
  const TIME_SOURCE_LOCKED: nat := 0x90
  const TIME_SOURCE_FREE: nat := 0xA0

  class Grandmaster {
    const reference: ExternalReference?
    var announcedLocked: bool
    var clockClass: nat
    var timeSource: nat

    ghost predicate Valid()
      reads this
    {
      && clockClass == (if announcedLocked then CLOCK_CLASS_LOCKED else CLOCK_CLASS_FREE)
      && timeSource == (if announcedLocked then TIME_SOURCE_LOCKED else TIME_SOURCE_FREE)
      && (reference == null ==> !announcedLocked)
    }

    constructor (reference: ExternalReference?)
      ensures Valid() && !announcedLocked && this.reference == reference
    {
      this.reference := reference;
      announcedLocked, clockClass, timeSource := false, CLOCK_CLASS_FREE, TIME_SOURCE_FREE;
    }

    /** After every turn the announced class is 13 exactly when the reference's flag stood at this service. */
    method FollowTheReference(now: int, pending: seq<Edge>)
      requires Valid()
      modifies this, reference
      ensures Valid()
      ensures reference == null ==> clockClass == 248 && timeSource == 0xA0
      ensures reference != null ==>
        && clockClass == (if reference.locked then 13 else 248)
        && timeSource == (if reference.locked then 0x90 else 0xA0)
        && reference.View() ==
          if old(reference.enabled)
          then TakeEdges(CheckHoldover(old(reference.View()), now), reference.channel, pending)
          else old(reference.View())
    {
      if reference == null { return; }
      reference.Service(now, pending);
      if reference.locked == announcedLocked { return; }
      announcedLocked := reference.locked;
      clockClass := if reference.locked then CLOCK_CLASS_LOCKED else CLOCK_CLASS_FREE;
      timeSource := if reference.locked then TIME_SOURCE_LOCKED else TIME_SOURCE_FREE;
    }
  }

  // ---- the lock over whole runs ----------------------------------------------------------------

  /** The edge is at most that many nanoseconds from a whole second, on either side. */
  predicate Near(edgeNs: nat, within: nat) {
    edgeNs % 1_000_000_000 <= within || edgeNs % 1_000_000_000 >= 1_000_000_000 - within
  }

  function Seconds(k: nat): nat { k * 1_000_000_000 }

  lemma {:induction false} NearIsDistance(edgeNs: nat, within: nat)
    requires within < 500_000_000
    ensures Near(edgeNs, within) <==> exists k :: edgeNs - Seconds(k) <= within && Seconds(k) - edgeNs <= within
  {
    var q, r := edgeNs / 1_000_000_000, edgeNs % 1_000_000_000;
    assert edgeNs == Seconds(q) + r && Seconds(q + 1) == Seconds(q) + 1_000_000_000;
    if r <= within { assert edgeNs - Seconds(q) == r; }
    if r >= 1_000_000_000 - within { assert edgeNs - Seconds(q + 1) == r - 1_000_000_000; }
  }

  /** The two tests of the reference, apart from its constants: half a millisecond and a hundred nanoseconds. */
  lemma {:induction false} TestsAreDistances(edgeNs: nat)
    ensures Credible(OffsetFromSecondBoundary(edgeNs)) == Near(edgeNs, 500_000)
    ensures InWindow(OffsetFromSecondBoundary(edgeNs)) == Near(edgeNs, 100)
  {
  }

  /** What a service call means for the lock. */
  datatype Event = Measurable(inWindow: bool) | Rejected | Expired

  function EdgeEvents(channel: nat, es: seq<Edge>): seq<Event> {
    if es == [] then []
    else
      var e := es[|es| - 1];
      EdgeEvents(channel, es[..|es| - 1]) +
        if e.channel != channel then []
        else if Near(e.edgeNs, 500_000) then [Measurable(Near(e.edgeNs, 100))] else [Rejected]
  }

  datatype Call = Call(now: int, pending: seq<Edge>)

  /** The reference after a run of service calls from start-up. */
  function Serve(channel: nat, calls: seq<Call>): Ref {
    if calls == [] then Started
    else
      var s, c := Serve(channel, calls[..|calls| - 1]), calls[|calls| - 1];
      TakeEdges(CheckHoldover(s, c.now), channel, c.pending)
  }

  /** When the last edge of the channel was read, if one ever was. */
  function LastRead(channel: nat, es: seq<Edge>, earlier: Option<int>): Option<int> {
    if es == [] then earlier
    else if es[|es| - 1].channel == channel then Some(es[|es| - 1].readAt)
    else LastRead(channel, es[..|es| - 1], earlier)
  }

  function LastReadOf(channel: nat, calls: seq<Call>): Option<int> {
    if calls == [] then None
    else LastRead(channel, calls[|calls| - 1].pending, LastReadOf(channel, calls[..|calls| - 1]))
  }

  /** Holdover runs out on a history that stands locked when no edge was read for more than three seconds. */
  ghost predicate RunsOut(h: seq<Event>, lastRead: Option<int>, now: int) {
    LockedBy(h) && lastRead.Some? && now - lastRead.value > 3_000_000_000
  }

  /** The events of that run, in order, from the edges and the clock alone: no state of the reference is consulted. */
  ghost function History(channel: nat, calls: seq<Call>): seq<Event> {
    if calls == [] then []
    else
      var before, c := calls[..|calls| - 1], calls[|calls| - 1];
      var h := History(channel, before);
      h + (if RunsOut(h, LastReadOf(channel, before), c.now) then [Expired] else []) + EdgeEvents(channel, c.pending)
  }

  /** An edge is measured against the one before it: both must be credible, with nothing between. */
  ghost predicate Measured(h: seq<Event>, i: int) {
    0 < i < |h| && h[i].Measurable? && h[i - 1].Measurable?
  }

  ghost predicate GoodEdge(h: seq<Event>, i: int) { Measured(h, i) && h[i].inWindow }

  /** The event before position p completes ten consecutive measured in-window edges. */
  ghost predicate CompletesTen(h: seq<Event>, p: int) {
    10 < p <= |h| && forall i :: p - 10 <= i < p ==> GoodEdge(h, i)
  }

  /**
    The lock, said of the history alone: ten good edges in a row, and since then neither a measured edge
    nor an expiry.
   */
  ghost predicate LockedBy(h: seq<Event>) {
    exists p :: CompletesTen(h, p) && forall i :: p <= i < |h| ==> h[i] != Expired && !Measured(h, i)
  }

  /** How many good edges in a row the history ends with. */
  ghost function GoodTail(h: seq<Event>): nat {
    if h != [] && GoodEdge(h, |h| - 1) then 1 + GoodTail(h[..|h| - 1]) else 0
  }

  lemma {:induction false} GoodTailSpan(h: seq<Event>, n: nat)
    requires n <= |h|
    ensures n <= GoodTail(h) <==> forall i :: |h| - n <= i < |h| ==> GoodEdge(h, i)
  {
    if n == 0 {
    } else {
      var g := h[..|h| - 1];
      GoodTailSpan(g, n - 1);
      assert forall i :: i < |g| ==> (GoodEdge(g, i) <==> GoodEdge(h, i));
      if GoodEdge(h, |h| - 1) && n - 1 <= GoodTail(g) {
        assert forall i :: |h| - n <= i < |g| ==> GoodEdge(h, i);
      }
      if forall i :: |h| - n <= i < |h| ==> GoodEdge(h, i) {
        assert GoodEdge(h, |h| - 1);
        assert forall i :: |g| - (n - 1) <= i < |g| ==> GoodEdge(g, i);
      }
    }
  }

  lemma {:induction false} GoodTailBound(h: seq<Event>)
    ensures h == [] ==> GoodTail(h) == 0
    ensures h != [] ==> GoodTail(h) < |h|
  {
    if h != [] && GoodEdge(h, |h| - 1) {
      GoodTailBound(h[..|h| - 1]);
    }
  }

  /** The reference agrees with the history on the three things that decide the lock. */
  ghost predicate Agrees(s: Ref, h: seq<Event>) {
    && s.haveLastEdge == (h != [] && h[|h| - 1].Measurable?)
    && s.consecutive == GoodTail(h)
    && s.locked == LockedBy(h)
  }

  /** One more event: a measured edge decides the lock, an expiry clears it, anything else leaves it. */
  lemma {:induction false} LockStep(h: seq<Event>, e: Event)
    ensures var g := h + [e];
      LockedBy(g) <==>
        if e == Expired then false
        else if Measured(g, |h|) then GoodTail(g) >= 10
        else LockedBy(h)
  {
    var g := h + [e];
    assert forall i :: i < |h| ==> (GoodEdge(g, i) <==> GoodEdge(h, i)) && (Measured(g, i) <==> Measured(h, i));
    if e != Expired && Measured(g, |h|) {
      GoodTailBound(g);
      if GoodTail(g) >= EDGES_TO_LOCK {
        GoodTailSpan(g, EDGES_TO_LOCK);
        assert CompletesTen(g, |g|);
      }
      if LockedBy(g) {
        var p :| CompletesTen(g, p) && forall i :: p <= i < |g| ==> g[i] != Expired && !Measured(g, i);
        assert p == |g|;
        GoodTailSpan(g, EDGES_TO_LOCK);
      }
    } else if e != Expired {
      if LockedBy(g) {
        var p :| CompletesTen(g, p) && forall i :: p <= i < |g| ==> g[i] != Expired && !Measured(g, i);
        assert GoodEdge(g, p - 1);
        assert forall i :: p - EDGES_TO_LOCK <= i < p ==> GoodEdge(h, i);
        assert CompletesTen(h, p);
        assert forall i :: p <= i < |h| ==> h[i] == g[i];
      }
      if LockedBy(h) {
        var p :| CompletesTen(h, p) && forall i :: p <= i < |h| ==> h[i] != Expired && !Measured(h, i);
        assert forall i :: p - EDGES_TO_LOCK <= i < p ==> GoodEdge(g, i);
        assert CompletesTen(g, p);
        assert forall i :: p <= i < |h| ==> h[i] == g[i];
      }
    } else {
      assert g[|h|] == Expired && !GoodEdge(g, |h|);
    }
  }

  lemma {:induction false} TakeEdgeAgrees(s: Ref, h: seq<Event>, channel: nat, e: Edge)
    requires Agrees(s, h)
    ensures Agrees(TakeEdge(s, channel, e), h + EdgeEvents(channel, [e]))
  {
    hide OffsetFromSecondBoundary, Credible, InWindow, Near, LockedBy;
    TestsAreDistances(e.edgeNs);
    assert [e][..0] == [] && EdgeEvents(channel, []) == [];
    var ev := EdgeEvents(channel, [e]);
    if ev == [] {
      assert h + ev == h;
    } else {
      LockStep(h, ev[0]);
      assert h + ev == h + [ev[0]];
      assert (h + ev)[..|h|] == h;
    }
  }

  lemma {:induction false} TakeEdgesAgrees(s: Ref, h: seq<Event>, channel: nat, es: seq<Edge>)
    requires Agrees(s, h)
    ensures Agrees(TakeEdges(s, channel, es), h + EdgeEvents(channel, es))
    decreases |es|
  {
    if es == [] {
      assert h + [] == h;
    } else {
      var before, e := es[..|es| - 1], es[|es| - 1];
      TakeEdgesAgrees(s, h, channel, before);
      TakeEdgeAgrees(TakeEdges(s, channel, before), h + EdgeEvents(channel, before), channel, e);
      assert [e][..0] == [];
      assert h + EdgeEvents(channel, es) == (h + EdgeEvents(channel, before)) + EdgeEvents(channel, [e]);
    }
  }

  lemma {:induction false} TakeEdgesRemembersReading(s: Ref, channel: nat, es: seq<Edge>, earlier: Option<int>)
    requires s.haveEdgeTime == earlier.Some? && (earlier.Some? ==> s.lastEdgeAt == earlier.value)
    ensures var t, last := TakeEdges(s, channel, es), LastRead(channel, es, earlier);
      t.haveEdgeTime == last.Some? && (last.Some? ==> t.lastEdgeAt == last.value)
    decreases |es|
  {
    if es == [] {
    } else {
      TakeEdgesRemembersReading(s, channel, es[..|es| - 1], earlier);
    }
  }

  /** The reference's two time fields are the time of the last edge read, whatever became of that edge. */
  lemma {:induction false} ServeRemembersReading(channel: nat, calls: seq<Call>)
    ensures var t, last := Serve(channel, calls), LastReadOf(channel, calls);
      t.haveEdgeTime == last.Some? && (last.Some? ==> t.lastEdgeAt == last.value)
    decreases |calls|
  {
    if calls == [] {
    } else {
      var before, c := calls[..|calls| - 1], calls[|calls| - 1];
      ServeRemembersReading(channel, before);
      TakeEdgesRemembersReading(CheckHoldover(Serve(channel, before), c.now), channel, c.pending,
        LastReadOf(channel, before));
    }
  }

  /** The machine expires its lock exactly where the history has it run out. */
  lemma {:induction false} ExpiryIsExact(channel: nat, calls: seq<Call>, now: int)
    ensures Expires(Serve(channel, calls), now) <==> RunsOut(History(channel, calls), LastReadOf(channel, calls), now)
  {
    LockIsExact(channel, calls);
    ServeRemembersReading(channel, calls);
  }

  /** Over every run of service calls the flag is exactly the one the history says. */
  lemma {:induction false} LockIsExact(channel: nat, calls: seq<Call>)
    ensures Agrees(Serve(channel, calls), History(channel, calls))
    ensures Serve(channel, calls).locked <==> LockedBy(History(channel, calls))
    decreases |calls|
  {
    if calls == [] {
    } else {
      var before, c := calls[..|calls| - 1], calls[|calls| - 1];
      LockIsExact(channel, before);
      ServeRemembersReading(channel, before);
      var s, h := Serve(channel, before), History(channel, before);
      if Expires(s, c.now) {
        LockStep(h, Expired);
        TakeEdgesAgrees(CheckHoldover(s, c.now), h + [Expired], channel, c.pending);
      } else {
        assert h + [] == h;
        TakeEdgesAgrees(s, h, channel, c.pending);
      }
    }
  }

  /** The lock rises only on the edge completing ten good ones: eleven credible edges in a row. */
  lemma {:induction false} RisesOnTenth(h: seq<Event>, e: Event)
    requires !LockedBy(h) && LockedBy(h + [e])
    ensures CompletesTen(h + [e], |h| + 1)
    ensures forall i :: |h| - 10 <= i <= |h| ==> 0 <= i && (h + [e])[i].Measurable?
  {
    var g := h + [e];
    LockStep(h, e);
    GoodTailBound(g);
    GoodTailSpan(g, EDGES_TO_LOCK);
    assert GoodEdge(g, |h|);
    forall i | |h| - EDGES_TO_LOCK <= i <= |h|
      ensures 0 <= i && g[i].Measurable?
    {
      assert GoodEdge(g, if i == |h| then i else i + 1);
    }
  }

  /** It falls exactly on an expiry or on a measured edge that does not itself complete ten good ones. */
  lemma {:induction false} FallsExactlyOn(h: seq<Event>, e: Event)
    requires LockedBy(h)
    ensures !LockedBy(h + [e]) <==>
      e == Expired || (Measured(h + [e], |h|) && !CompletesTen(h + [e], |h| + 1))
  {
    var g := h + [e];
    LockStep(h, e);
    GoodTailBound(g);
    if Measured(g, |h|) && |g| > EDGES_TO_LOCK {
      GoodTailSpan(g, EDGES_TO_LOCK);
    }
  }

  /**
    A rejected edge does not end the lock, and neither does any number of later events, as long as
    no two credible edges come in succession and holdover does not expire.
   */
  lemma {:induction false} SurvivesUnmeasured(h: seq<Event>, tail: seq<Event>)
    requires LockedBy(h)
    requires forall i :: |h| <= i < |h + tail| ==> (h + tail)[i] != Expired && !Measured(h + tail, i)
    ensures LockedBy(h + tail)
    decreases |tail|
  {
    if tail == [] {
      assert h + tail == h;
    } else {
      var n := |tail| - 1;
      var g := h + tail[..n];
      assert g + [tail[n]] == h + tail;
      assert forall i :: |h| <= i < |g| ==> g[i] == (h + tail)[i] && (Measured(g, i) <==> Measured(h + tail, i));
      SurvivesUnmeasured(h, tail[..n]);
      LockStep(g, tail[n]);
      assert (h + tail)[|g|] == tail[n];
    }
  }

  function Alternate(n: nat): seq<Event> { if n == 0 then [] else Alternate(n - 1) + [Rejected, Measurable(true)] }

  lemma {:induction false} AlternateShape(n: nat)
    ensures |Alternate(n)| == 2 * n
    ensures forall i :: 0 <= i < 2 * n ==> Alternate(n)[i] == if i % 2 == 0 then Rejected else Measurable(true)
  {
    if n > 0 { AlternateShape(n - 1); }
  }

  /** So edges that are rejected every other time keep a lock for ever, however many credible ones pass. */
  lemma {:induction false} AlternatingEdgesKeepLock(h: seq<Event>, n: nat)
    requires LockedBy(h)
    ensures LockedBy(h + Alternate(n))
  {
    AlternateShape(n);
    SurvivesUnmeasured(h, Alternate(n));
  }

  /** The holdover clock counts rejected edges too: a line carrying nothing but glitches never expires. */
  lemma {:induction false} RejectedEdgeHoldsOff(s: Ref, channel: nat, e: Edge, now: int)
    requires s.locked && e.channel == channel && !Near(e.edgeNs, 500_000)
    requires now - e.readAt <= 3_000_000_000
    ensures TakeEdge(s, channel, e).locked && CheckHoldover(TakeEdge(s, channel, e), now) == TakeEdge(s, channel, e)
  {
  }

  /** Calls that see no credible edge of the channel: any number of pending edges, none included. */
  ghost predicate OnlyGlitches(channel: nat, calls: seq<Call>) {
    forall i :: 0 <= i < |calls| ==> NoneCredible(channel, calls[i].pending)
  }

  ghost predicate NoneCredible(channel: nat, es: seq<Edge>) {
    forall i :: 0 <= i < |es| ==> es[i].channel != channel || !Near(es[i].edgeNs, 500_000)
  }

  lemma {:induction false} GlitchesLeaveFlag(s: Ref, channel: nat, es: seq<Edge>)
    requires NoneCredible(channel, es)
    ensures TakeEdges(s, channel, es).locked == s.locked
    decreases |es|
  {
    hide OffsetFromSecondBoundary, Near;
    if es == [] {
    } else {
      GlitchesLeaveFlag(s, channel, es[..|es| - 1]);
      TestsAreDistances(es[|es| - 1].edgeNs);
    }
  }

  /** At call i of the tail, the last edge of the channel was read no more than three seconds ago. */
  ghost predicate Recent(channel: nat, calls: seq<Call>, tail: seq<Call>, i: nat)
    requires i < |tail|
  {
    var last := LastReadOf(channel, calls + tail[..i]);
    last.Some? && tail[i].now - last.value <= 3_000_000_000
  }

  lemma {:induction false} LockedHasRead(channel: nat, calls: seq<Call>)
    requires Serve(channel, calls).locked
    ensures LastReadOf(channel, calls).Some?
    decreases |calls|
  {
    ServeRemembersReading(channel, calls);
    if calls == [] {
    } else {
      var before, c := calls[..|calls| - 1], calls[|calls| - 1];
      ServeRemembersReading(channel, before);
      if LastReadOf(channel, before).Some? {
        StaysRead(channel, c.pending, LastReadOf(channel, before));
      } else {
        if Serve(channel, before).locked { LockedHasRead(channel, before); }
        UnreadLeavesFlag(CheckHoldover(Serve(channel, before), c.now), channel, c.pending);
      }
    }
  }

  lemma {:induction false} StaysRead(channel: nat, es: seq<Edge>, earlier: Option<int>)
    requires earlier.Some?
    ensures LastRead(channel, es, earlier).Some?
    decreases |es|
  {
    if es == [] {
    } else {
      StaysRead(channel, es[..|es| - 1], earlier);
    }
  }

  lemma {:induction false} UnreadLeavesFlag(s: Ref, channel: nat, es: seq<Edge>)
    ensures LastRead(channel, es, None).None? ==> TakeEdges(s, channel, es).locked == s.locked
    decreases |es|
  {
    hide OffsetFromSecondBoundary;
    if es == [] {
    } else {
      UnreadLeavesFlag(s, channel, es[..|es| - 1]);
    }
  }

  /** One more such call: the lock stands after it iff it stood before and an edge was read recently. */
  lemma {:induction false} GlitchStep(channel: nat, before: seq<Call>, c: Call)
    requires NoneCredible(channel, c.pending)
    ensures Serve(channel, before + [c]).locked <==>
      && Serve(channel, before).locked
      && LastReadOf(channel, before).Some? && c.now - LastReadOf(channel, before).value <= 3_000_000_000
  {
    hide NoneCredible, LastReadOf, TakeEdges;
    assert (before + [c])[..|before|] == before;
    var s := Serve(channel, before);
    ServeRemembersReading(channel, before);
    GlitchesLeaveFlag(CheckHoldover(s, c.now), channel, c.pending);
    if s.locked { LockedHasRead(channel, before); }
  }

  lemma {:induction false} RecentInPrefix(channel: nat, calls: seq<Call>, tail: seq<Call>, i: nat, n: nat)
    requires i < n <= |tail|
    ensures Recent(channel, calls, tail[..n], i) == Recent(channel, calls, tail, i)
  {
    hide LastReadOf;
    assert tail[..n][..i] == tail[..i];
  }

  /**
    A standing lock over a stretch of calls that see nothing but glitches, or nothing: it stands at the
    end exactly when, at every call, some edge of the channel, glitch or not, had been read within the
    last three seconds.  So a line carrying nothing but glitches never lets go of a lock.
   */
  lemma {:induction false} GlitchesKeepLock(channel: nat, calls: seq<Call>, glitches: seq<Call>)
    requires OnlyGlitches(channel, glitches) && Serve(channel, calls).locked
    ensures Serve(channel, calls + glitches).locked <==>
      forall i :: 0 <= i < |glitches| ==> Recent(channel, calls, glitches, i)
    decreases |glitches|
  {
    hide Serve, NoneCredible, LastReadOf;
    if glitches == [] {
      assert calls + glitches == calls;
    } else {
      var n := |glitches| - 1;
      var rest := glitches[..n];
      GlitchesKeepLock(channel, calls, rest);
      assert calls + glitches == (calls + rest) + [glitches[n]];
      GlitchStep(channel, calls + rest, glitches[n]);
      forall i | 0 <= i < n
        ensures Recent(channel, calls, rest, i) == Recent(channel, calls, glitches, i)
      {
        RecentInPrefix(channel, calls, glitches, i, n);
      }
      assert Recent(channel, calls, glitches, n) <==>
        LastReadOf(channel, calls + rest).Some?
        && glitches[n].now - LastReadOf(channel, calls + rest).value <= 3_000_000_000;
      if forall i :: 0 <= i < |glitches| ==> Recent(channel, calls, glitches, i) {
        assert forall i :: 0 <= i < n ==> Recent(channel, calls, rest, i);
      }
    }
  }

  // ---- the lock, said of the edges -------------------------------------------------------------

  /** The stamps of a channel's edges, in the order they were read. */
  function StampsIn(channel: nat, es: seq<Edge>): seq<nat> {
    if es == [] then []
    else StampsIn(channel, es[..|es| - 1]) + if es[|es| - 1].channel == channel then [es[|es| - 1].edgeNs] else []
  }

  function Stamps(channel: nat, calls: seq<Call>): seq<nat> {
    if calls == [] then []
    else Stamps(channel, calls[..|calls| - 1]) + StampsIn(channel, calls[|calls| - 1].pending)
  }

  /** Ten edges in a row within 100 ns of a second, after one within half a millisecond, ending before p. */
  ghost predicate ElevenEnd(stamps: seq<nat>, p: int) {
    && 11 <= p <= |stamps| && Near(stamps[p - 11], 500_000)
    && forall i :: p - 10 <= i < p ==> Near(stamps[i], 100)
  }

  /** What the reference's memory says of the edges it has read. */
  ghost predicate Remembers(s: Ref, stamps: seq<nat>) {
    && (s.haveLastEdge ==> stamps != [] && Near(stamps[|stamps| - 1], 500_000))
    && (s.consecutive > 0 ==>
        s.haveLastEdge && s.consecutive < |stamps| && Near(stamps[|stamps| - s.consecutive - 1], 500_000))
    && (forall i :: |stamps| - s.consecutive <= i < |stamps| && 0 <= i ==> Near(stamps[i], 100))
    && (s.locked ==> exists p :: ElevenEnd(stamps, p))
  }

  lemma {:induction false} EdgeIsRemembered(s: Ref, stamps: seq<nat>, channel: nat, e: Edge)
    requires Remembers(s, stamps) && e.channel == channel
    ensures Remembers(TakeEdge(s, channel, e), stamps + [e.edgeNs])
  {
    hide OffsetFromSecondBoundary, Credible, InWindow, Near;
    TestsAreDistances(e.edgeNs);
    var t, after := TakeEdge(s, channel, e), stamps + [e.edgeNs];
    if s.locked {
      var p :| ElevenEnd(stamps, p);
      assert ElevenEnd(after, p);
    }
    NearerIsNear(e.edgeNs);
    if s.haveLastEdge && t.consecutive >= 10 {
      OnlyTen(after, t.consecutive);
    }
  }

  lemma {:induction false} NearerIsNear(edgeNs: nat)
    ensures Near(edgeNs, 100) ==> Near(edgeNs, 500_000)
  {
  }

  lemma {:induction false} OnlyTen(stamps: seq<nat>, n: nat)
    requires 10 <= n < |stamps| && Near(stamps[|stamps| - n - 1], 500_000)
    requires forall i :: |stamps| - n <= i < |stamps| ==> Near(stamps[i], 100)
    ensures ElevenEnd(stamps, |stamps|)
  {
    hide Near;
    NearerIsNear(stamps[|stamps| - 11]);
  }

  lemma {:induction false} EdgesAreRemembered(s: Ref, stamps: seq<nat>, channel: nat, es: seq<Edge>)
    requires Remembers(s, stamps)
    ensures Remembers(TakeEdges(s, channel, es), stamps + StampsIn(channel, es))
    decreases |es|
  {
    hide TakeEdge, Remembers;
    if es == [] {
      assert stamps + [] == stamps;
    } else {
      var before, e := es[..|es| - 1], es[|es| - 1];
      EdgesAreRemembered(s, stamps, channel, before);
      var t, so := TakeEdges(s, channel, before), stamps + StampsIn(channel, before);
      if e.channel == channel {
        EdgeIsRemembered(t, so, channel, e);
        assert so + [e.edgeNs] == stamps + StampsIn(channel, es);
      } else {
        OtherChannel(t, channel, e);
        assert so == stamps + StampsIn(channel, es);
      }
    }
  }

  lemma {:induction false} OtherChannel(s: Ref, channel: nat, e: Edge)
    requires e.channel != channel
    ensures TakeEdge(s, channel, e) == s
  {
  }

  lemma {:induction false} RunIsRemembered(channel: nat, calls: seq<Call>)
    ensures Remembers(Serve(channel, calls), Stamps(channel, calls))
    decreases |calls|
  {
    hide TakeEdges;
    if calls == [] {
    } else {
      var before, c := calls[..|calls| - 1], calls[|calls| - 1];
      RunIsRemembered(channel, before);
      EdgesAreRemembered(CheckHoldover(Serve(channel, before), c.now), Stamps(channel, before), channel, c.pending);
    }
  }

  /** A lock stands only after eleven such edges in a row. */
  lemma {:induction false} LockNeedsEleven(channel: nat, calls: seq<Call>)
    requires Serve(channel, calls).locked
    ensures exists p :: ElevenEnd(Stamps(channel, calls), p)
  {
    RunIsRemembered(channel, calls);
  }

  /** A call that comes, once edges of the stretch were read, within three seconds of the last. */
  ghost predicate Attended(channel: nat, calls: seq<Call>, tail: seq<Call>, i: nat)
    requires i < |tail|
  {
    var last := LastReadOf(channel, calls + tail[..i]);
    Stamps(channel, tail[..i]) != [] ==> last.Some? && tail[i].now - last.value <= 3_000_000_000
  }

  /** n good edges in a row have left this behind. */
  ghost predicate Counted(s: Ref, n: nat) {
    n > 0 ==> s.haveLastEdge && s.consecutive >= n - 1 && (n >= 11 ==> s.locked)
  }

  lemma {:induction false} GoodEdgesCount(s: Ref, channel: nat, es: seq<Edge>, n: nat)
    requires Counted(s, n) && forall i :: 0 <= i < |StampsIn(channel, es)| ==> Near(StampsIn(channel, es)[i], 100)
    ensures Counted(TakeEdges(s, channel, es), n + |StampsIn(channel, es)|)
    decreases |es|
  {
    hide OffsetFromSecondBoundary, Credible, InWindow, Near;
    if es == [] {
    } else {
      var before, e := es[..|es| - 1], es[|es| - 1];
      var stamps := StampsIn(channel, es);
      assert StampsIn(channel, before) == stamps[..|StampsIn(channel, before)|];
      GoodEdgesCount(s, channel, before, n);
      TestsAreDistances(e.edgeNs);
      NearerIsNear(e.edgeNs);
      assert e.channel == channel ==> stamps[|stamps| - 1] == e.edgeNs;
    }
  }

  lemma {:induction false} GoodRunCounts(channel: nat, calls: seq<Call>, tail: seq<Call>)
    requires forall i :: 0 <= i < |Stamps(channel, tail)| ==> Near(Stamps(channel, tail)[i], 100)
    requires forall i :: 0 <= i < |tail| ==> Attended(channel, calls, tail, i)
    ensures Counted(Serve(channel, calls + tail), |Stamps(channel, tail)|)
    decreases |tail|
  {
    hide Near, TakeEdges, StampsIn, LastReadOf;
    if tail == [] {
    } else {
      var n := |tail| - 1;
      var before, c := tail[..n], tail[n];
      var stamps, earlier := Stamps(channel, tail), Stamps(channel, before);
      assert earlier == stamps[..|earlier|] && StampsIn(channel, c.pending) == stamps[|earlier|..];
      forall i | 0 <= i < n
        ensures Attended(channel, calls, before, i)
      {
        assert Attended(channel, calls, tail, i) && before[..i] == tail[..i];
      }
      GoodRunCounts(channel, calls, before);
      assert (calls + tail)[..|calls| + n] == calls + before;
      var s := Serve(channel, calls + before);
      assert Attended(channel, calls, tail, n);
      ServeRemembersReading(channel, calls + before);
      GoodEdgesCount(CheckHoldover(s, c.now), channel, c.pending, |earlier|);
    }
  }

  /** And eleven edges within 100 ns of a second do lock, whatever came before them, if calls attend to them. */
  lemma {:induction false} ElevenLock(channel: nat, calls: seq<Call>, tail: seq<Call>)
    requires |Stamps(channel, tail)| >= 11
    requires forall i :: 0 <= i < |Stamps(channel, tail)| ==> Near(Stamps(channel, tail)[i], 100)
    requires forall i :: 0 <= i < |tail| ==> Attended(channel, calls, tail, i)
    ensures Serve(channel, calls + tail).locked
  {
    hide Near, Serve, Attended;
    GoodRunCounts(channel, calls, tail);
  }

  /** The flag, once the last two edges read are such that it cannot stand. */
  ghost predicate Down(s: Ref, stamps: seq<nat>) {
    var n := |stamps|;
    n >= 2 && Near(stamps[n - 2], 500_000) && Near(stamps[n - 1], 500_000) && !Near(stamps[n - 1], 100) ==> !s.locked
  }

  /** A credible edge is remembered until the next edge or an expiry. */
  ghost predicate Primed(s: Ref, stamps: seq<nat>) {
    stamps != [] && Near(stamps[|stamps| - 1], 500_000) && s.locked ==> s.haveLastEdge
  }

  lemma {:induction false} EdgeDecides(s: Ref, stamps: seq<nat>, channel: nat, e: Edge)
    requires Primed(s, stamps) && e.channel == channel
    ensures Primed(TakeEdge(s, channel, e), stamps + [e.edgeNs]) && Down(TakeEdge(s, channel, e), stamps + [e.edgeNs])
  {
    hide OffsetFromSecondBoundary, Credible, InWindow, Near;
    TestsAreDistances(e.edgeNs);
    var after := stamps + [e.edgeNs];
    assert stamps != [] ==> after[|after| - 2] == stamps[|stamps| - 1];
  }

  lemma {:induction false} EdgesDecide(s: Ref, stamps: seq<nat>, channel: nat, es: seq<Edge>)
    requires Primed(s, stamps) && Down(s, stamps)
    ensures var t, after := TakeEdges(s, channel, es), stamps + StampsIn(channel, es);
      Primed(t, after) && Down(t, after)
    decreases |es|
  {
    hide TakeEdge, Primed, Down;
    if es == [] {
      assert stamps + [] == stamps;
    } else {
      var before, e := es[..|es| - 1], es[|es| - 1];
      EdgesDecide(s, stamps, channel, before);
      var t, so := TakeEdges(s, channel, before), stamps + StampsIn(channel, before);
      if e.channel == channel {
        EdgeDecides(t, so, channel, e);
        assert so + [e.edgeNs] == stamps + StampsIn(channel, es);
      } else {
        OtherChannel(t, channel, e);
        assert so == stamps + StampsIn(channel, es);
      }
    }
  }

  lemma {:induction false} RunDecides(channel: nat, calls: seq<Call>)
    ensures var s, stamps := Serve(channel, calls), Stamps(channel, calls); Primed(s, stamps) && Down(s, stamps)
    decreases |calls|
  {
    hide TakeEdges, Near;
    if calls == [] {
    } else {
      var before, c := calls[..|calls| - 1], calls[|calls| - 1];
      RunDecides(channel, before);
      EdgesDecide(CheckHoldover(Serve(channel, before), c.now), Stamps(channel, before), channel, c.pending);
    }
  }

  /** No lock stands once two credible edges in succession were read, the second more than 100 ns off on either side. */
  lemma {:induction false} OneEdgeOffUnlocks(channel: nat, calls: seq<Call>)
    requires var stamps := Stamps(channel, calls);
      var n := |stamps|;
      n >= 2 && Near(stamps[n - 2], 500_000) && Near(stamps[n - 1], 500_000) && !Near(stamps[n - 1], 100)
    ensures !Serve(channel, calls).locked
  {
    hide Near, Serve, Stamps;
    RunDecides(channel, calls);
  }

  /** From a cleared memory, that many edges cannot lock. */
  ghost predicate Cleared(s: Ref, n: nat) {
    !s.locked && s.consecutive <= n && (n == 0 ==> !s.haveLastEdge) && (n > 0 ==> s.consecutive < n)
  }

  lemma {:induction false} FewEdgesDoNotLock(s: Ref, channel: nat, es: seq<Edge>)
    requires Cleared(s, 0) && |StampsIn(channel, es)| <= 10
    ensures Cleared(TakeEdges(s, channel, es), |StampsIn(channel, es)|)
    decreases |es|
  {
    hide OffsetFromSecondBoundary;
    if es == [] {
    } else {
      FewEdgesDoNotLock(s, channel, es[..|es| - 1]);
    }
  }

  /** A call more than three seconds after the last edge read drops the lock, unless eleven more edges wait at it. */
  lemma {:induction false} SilenceUnlocks(channel: nat, calls: seq<Call>, c: Call)
    requires LastReadOf(channel, calls).Some? && c.now - LastReadOf(channel, calls).value > 3_000_000_000
    requires Serve(channel, calls).locked && |StampsIn(channel, c.pending)| <= 10
    ensures !Serve(channel, calls + [c]).locked
  {
    hide TakeEdges, LastReadOf, StampsIn;
    assert (calls + [c])[..|calls|] == calls;
    ServeRemembersReading(channel, calls);
    FewEdgesDoNotLock(CheckHoldover(Serve(channel, calls), c.now), channel, c.pending);
  }
}
