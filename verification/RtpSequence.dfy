/**
  Sequence accounting of the test receiver (packages/aes67-macos-driver/Tools/AES67TestReceiver.cpp),
  after appendices A.1 and A.3 of RFC 3550.

  The receiver sees 16-bit sequence numbers and keeps a bounded window of what it saw.  The
  reference is the set of true packet indices: unbounded numbers, counted so that the first packet
  has its own sequence number as its index.
 */
module RtpSequence {
  import opened Counting

  const SEQ_MOD: nat := 0x1_0000
  const MAX_DROPOUT: nat := 3000
  const MAX_MISORDER: nat := 100
  const SEEN_WINDOW: nat := 8192
  const U32_MOD: nat := 0x1_0000_0000
  const U64_MOD: nat := 0x1_0000_0000_0000_0000

  datatype Stats = Stats(
    baseSeq: nat, maxSeq: nat, cycles: nat, badSeq: nat,
    received: nat, duplicates: nat, outOfOrder: nat, restarts: nat,
    seen: set<nat>, seenOrder: seq<nat>)
  {
    function ExtendedMax(): nat { cycles + maxSeq }

    function Expected(): nat { (ExtendedMax() - baseSeq + 1) % U64_MOD }

    /** Signed: duplicates can push `received` past what was expected. */
    function Lost(): int {
      AsSigned64(Expected()) - AsSigned64(received % U64_MOD)
    }
  }

  function AsSigned64(x: nat): int { if x < U64_MOD / 2 then x else x - U64_MOD }

  const Fresh: Stats := Stats(0, 0, 0, SEQ_MOD + 1, 0, 0, 0, 0, {}, [])

  function InitSeq(s: Stats, seqNum: nat): Stats {
    s.(baseSeq := seqNum, maxSeq := seqNum, cycles := 0, badSeq := SEQ_MOD + 1, received := 0, seen := {},
      seenOrder := [])
  }

  function Remember(s: Stats, extended: nat): Stats {
    var order := s.seenOrder + [extended];
    if |order| > SEEN_WINDOW
    then s.(seen := s.seen + {extended} - {order[0]}, seenOrder := order[1..])
    else s.(seen := s.seen + {extended}, seenOrder := order)
  }

  /** The state a source starts with: the first-packet path of the receive loop. */
  function FirstPacket(seqNum: nat): Stats {
    var s := InitSeq(Fresh, seqNum);
    Remember(s.(received := 1), seqNum)
  }

  function CountArrival(s: Stats, extended: nat, late: bool): Stats {
    var t :=
      if extended in s.seen then s.(duplicates := s.duplicates + 1)
      else Remember(if late then s.(outOfOrder := s.outOfOrder + 1) else s, extended);
    t.(received := t.received + 1)
  }

  function Update(s: Stats, seqNum: nat): Stats {
    var udelta := (seqNum - s.maxSeq) % SEQ_MOD;
    if udelta < MAX_DROPOUT then
      var t := s.(cycles := if seqNum < s.maxSeq then (s.cycles + SEQ_MOD) % U32_MOD else s.cycles, maxSeq := seqNum);
      CountArrival(t, t.cycles + seqNum, false)
    else if udelta <= SEQ_MOD - MAX_MISORDER then
      if seqNum == s.badSeq then
        var t := InitSeq(s, seqNum).(restarts := s.restarts + 1);
        CountArrival(t, t.cycles + seqNum, false)
      else
        s.(badSeq := (seqNum + 1) % SEQ_MOD, outOfOrder := s.outOfOrder + 1, received := s.received + 1)
    else
      var extended := s.cycles + seqNum;
      CountArrival(s, if extended > s.ExtendedMax() then (extended - SEQ_MOD) % U64_MOD else extended, true)
  }

  /** The receiver's per-source record, updated in place. */
  class SourceStats {
    var baseSeq: nat
    var maxSeq: nat
    var cycles: nat
    var badSeq: nat
    var received: nat
    var duplicates: nat
    var outOfOrder: nat
    var restarts: nat
    var seen: set<nat>
    var seenOrder: seq<nat>

    ghost function View(): Stats
      reads this
    {
      Stats(baseSeq, maxSeq, cycles, badSeq, received, duplicates, outOfOrder, restarts, seen, seenOrder)
    }

    /** A source seen for the first time. */
    constructor (seqNum: nat)
      ensures View() == FirstPacket(seqNum)
    {
      duplicates, outOfOrder, restarts := 0, 0, 0;
      new;
      Restart(seqNum);
      received := received + 1;
      RememberSeen(seqNum);
    }

    method Restart(seqNum: nat)
      modifies this
      ensures View() == InitSeq(old(View()), seqNum)
    {
      baseSeq, maxSeq, cycles, badSeq, received := seqNum, seqNum, 0, SEQ_MOD + 1, 0;
      seen, seenOrder := {}, [];
    }

    method RememberSeen(extended: nat)
      modifies this`seen, this`seenOrder
      ensures View() == Remember(old(View()), extended)
    {
      seen := seen + {extended};
      seenOrder := seenOrder + [extended];
      if |seenOrder| > SEEN_WINDOW {
        seen := seen - {seenOrder[0]};
        seenOrder := seenOrder[1..];
      }
    }

    method UpdateSeq(seqNum: nat)
      modifies this
      ensures View() == Update(old(View()), seqNum)
    {
      hide CountArrival, Remember;
      var udelta := (seqNum - maxSeq) % SEQ_MOD;
      if udelta < MAX_DROPOUT {
        if seqNum < maxSeq {
          cycles := (cycles + SEQ_MOD) % U32_MOD;
        }
        maxSeq := seqNum;
      } else if udelta <= SEQ_MOD - MAX_MISORDER {
        if seqNum == badSeq {
          Restart(seqNum);
          restarts := restarts + 1;
        } else {
          badSeq := (seqNum + 1) % SEQ_MOD;
          outOfOrder := outOfOrder + 1;
          received := received + 1;
          return;
        }
      } else {
        var late := cycles + seqNum;
        if late > cycles + maxSeq {
          late := (late - SEQ_MOD) % U64_MOD;
        }
        Count(late, true);
        return;
      }
      Count(cycles + seqNum, false);
    }

    /** The tail of both accepting paths: told apart by the window, remembered if new. */
    method Count(extended: nat, late: bool)
      modifies this`duplicates, this`outOfOrder, this`received, this`seen, this`seenOrder
      ensures View() == CountArrival(old(View()), extended, late)
    {
      if extended in seen {
        duplicates := duplicates + 1;
      } else {
        if late {
          outOfOrder := outOfOrder + 1;
        }
        RememberSeen(extended);
      }
      received := received + 1;
    }
  }

  // ---- the reference: arithmetic on sets of true packet indices --------------------------------

  function Max(a: seq<nat>): nat
    requires a != []
    ensures Max(a) in a && forall x :: x in a ==> x <= Max(a)
  {
    if |a| == 1 then a[0]
    else
      var m := Max(a[..|a| - 1]);
      assert a == a[..|a| - 1] + [a[|a| - 1]];
      if a[|a| - 1] > m then a[|a| - 1] else m
  }

  /** Indices in order of first arrival. */
  ghost function FirstArrivals(a: seq<nat>): seq<nat> {
    if a == [] then []
    else
      var before, x := a[..|a| - 1], a[|a| - 1];
      if x in before then FirstArrivals(before) else FirstArrivals(before) + [x]
  }

  /** Arrivals of an index that had arrived before. */
  ghost function Repeats(a: seq<nat>): nat {
    if a == [] then 0
    else Repeats(a[..|a| - 1]) + if a[|a| - 1] in a[..|a| - 1] then 1 else 0
  }

  /** First arrivals of an index below the highest already seen. */
  ghost function Overtaken(a: seq<nat>): nat {
    if |a| <= 1 then 0
    else
      var before, x := a[..|a| - 1], a[|a| - 1];
      Overtaken(before) + if x !in before && x < Max(before) then 1 else 0
  }

  ghost function Missing(a: seq<nat>): set<nat>
    requires a != []
  {
    set i | a[0] <= i <= Max(a) && i !in a
  }

  /** `x` may follow `a`: not before the first packet, at most 99 behind the highest, at most 2999 ahead of it. */
  ghost predicate Follows(a: seq<nat>, x: nat)
    requires a != []
  {
    a[0] <= x && Max(a) < x + 100 && x < Max(a) + 3000
  }

  ghost predicate Conforming(a: seq<nat>)
    requires a != []
  {
    && a[0] < 65536 && Max(a) < 0x1_0000_0000
    && forall i {:trigger a[..i]} :: 0 < i < |a| ==> Follows(a[..i], a[i])
  }

  /** A source that has just (re)started on sequence number `first`. */
  ghost predicate Begun(s: Stats, first: nat) {
    && s.baseSeq == s.maxSeq == first && s.cycles == 0 && s.received == 1
    && s.seen == {first} && s.seenOrder == [first]
  }

  /** Feeding the receiver the low 16 bits of every index after the first. */
  ghost function Receive(start: Stats, a: seq<nat>): Stats
    requires a != []
  {
    if |a| == 1 then start else Update(Receive(start, a[..|a| - 1]), a[|a| - 1] % SEQ_MOD)
  }

  // ---- facts about the reference ---------------------------------------------------------------

  ghost function Window(order: seq<nat>): seq<nat> {
    if |order| <= 8192 then order else order[|order| - 8192..]
  }

  ghost predicate Distinct(a: seq<nat>) { forall i, j :: 0 <= i < j < |a| ==> a[i] != a[j] }

  lemma {:induction false} FirstArrivalsAreTheDistinctOnes(a: seq<nat>)
    ensures Distinct(FirstArrivals(a)) && Elements(FirstArrivals(a)) == Elements(a)
    ensures |a| == |FirstArrivals(a)| + Repeats(a)
  {
    if a == [] {
    } else {
      var before, x := a[..|a| - 1], a[|a| - 1];
      FirstArrivalsAreTheDistinctOnes(before);
      assert a == before + [x];
      assert x in Elements(before) <==> x in before;
      assert forall y :: y in FirstArrivals(before) <==> y in Elements(FirstArrivals(before));
    }
  }

  lemma {:induction false} ConformingPrefix(a: seq<nat>)
    requires |a| > 1 && Conforming(a)
    ensures Conforming(a[..|a| - 1]) && Follows(a[..|a| - 1], a[|a| - 1])
    ensures Max(a[..|a| - 1]) <= Max(a)
  {
    var before := a[..|a| - 1];
    forall i {:trigger before[..i]} | 0 < i < |before|
      ensures Follows(before[..i], before[i])
    {
      assert before[..i] == a[..i];
    }
    assert a[..|a| - 1] == before;
  }

  /** Whatever is first seen later is at most 99 below what was seen earlier. */
  lemma {:induction false} LaterIsNotFarBelow(a: seq<nat>)
    requires a != [] && Conforming(a)
    ensures forall i, j :: 0 <= i < j < |FirstArrivals(a)| ==> FirstArrivals(a)[i] < FirstArrivals(a)[j] + MAX_MISORDER
  {
    if |a| > 1 {
      var before := a[..|a| - 1];
      ConformingPrefix(a);
      LaterIsNotFarBelow(before);
      FirstArrivalsAreTheDistinctOnes(before);
      forall i | 0 <= i < |FirstArrivals(before)|
        ensures FirstArrivals(before)[i] <= Max(before)
      {
        assert FirstArrivals(before)[i] in Elements(before);
      }
    }
  }

  /** Pigeonhole: distinct numbers within an interval are no more than its width. */
  lemma {:induction false} DistinctInInterval(a: seq<nat>, lo: nat, hi: nat)
    requires lo <= hi && Distinct(a) && forall x :: x in a ==> lo <= x < hi
    ensures |a| <= hi - lo
  {
    ElementsAreFew(a);
    SubsetSize(Elements(a), Interval(lo, hi));
  }

  /** An index still inside the reorder window has been followed by at most 198 new ones. */
  lemma {:induction false} StillInWindow(a: seq<nat>, x: nat)
    requires a != [] && Conforming(a) && x in a && Max(a) < x + 100
    ensures x in Window(FirstArrivals(a))
  {
    var order := FirstArrivals(a);
    FirstArrivalsAreTheDistinctOnes(a);
    assert x in Elements(a);
    assert x in Elements(order);
    var p :| 0 <= p < |order| && order[p] == x;
    LaterIsNotFarBelow(a);
    var later := order[p + 1..];
    var lo := if x < MAX_MISORDER then 0 else x - MAX_MISORDER + 1;
    forall y | y in later
      ensures lo <= y < x + MAX_MISORDER
    {
      assert y in Elements(order);
      assert y in Elements(a);
    }
    DistinctInInterval(later, lo, x + MAX_MISORDER);
    assert x == Window(order)[p - (|order| - |Window(order)|)];
  }

  /** The bounded window answers "seen before?" exactly as the unbounded history would. */
  lemma {:induction false} WindowClassifiesExactly(a: seq<nat>, x: nat)
    requires a != [] && Conforming(a) && Follows(a, x)
    ensures x in Elements(Window(FirstArrivals(a))) <==> x in a
  {
    FirstArrivalsAreTheDistinctOnes(a);
    if x in Elements(Window(FirstArrivals(a))) {
      assert x in Elements(FirstArrivals(a));
      assert x in Elements(a);
    }
    if x in a {
      StillInWindow(a, x);
    }
  }

  // ---- the receiver against the reference ------------------------------------------------------

  ghost predicate Tracks(start: Stats, s: Stats, a: seq<nat>)
    requires a != []
  {
    && s.maxSeq == Max(a) % SEQ_MOD && s.cycles == Max(a) - Max(a) % SEQ_MOD && s.baseSeq == a[0]
    && s.received == |a| && s.duplicates == start.duplicates + Repeats(a)
    && s.outOfOrder == start.outOfOrder + Overtaken(a) && s.restarts == start.restarts
    && s.seenOrder == Window(FirstArrivals(a)) && s.seen == Elements(s.seenOrder)
  }

  lemma {:induction false} ForwardStep(s: Stats, top: nat, x: nat)
    requires s.maxSeq == top % SEQ_MOD && s.cycles == top - top % SEQ_MOD
    requires top <= x < top + MAX_DROPOUT && x < U32_MOD
    ensures Update(s, x % SEQ_MOD) == CountArrival(s.(maxSeq := x % SEQ_MOD, cycles := x - x % SEQ_MOD), x, false)
  {
    assert (x % SEQ_MOD - s.maxSeq) % SEQ_MOD == x - top;
    var wrapped := x % SEQ_MOD < s.maxSeq;
    assert x - x % SEQ_MOD == s.cycles + if wrapped then SEQ_MOD else 0;
  }

  lemma {:induction false} BackwardStep(s: Stats, top: nat, x: nat)
    requires s.maxSeq == top % SEQ_MOD && s.cycles == top - top % SEQ_MOD
    requires x < top < x + MAX_MISORDER && top < U32_MOD
    ensures Update(s, x % SEQ_MOD) == CountArrival(s, x, true)
  {
    assert (x % SEQ_MOD - s.maxSeq) % SEQ_MOD == x - top + SEQ_MOD;
    var extended := s.cycles + x % SEQ_MOD;
    assert extended == if extended > top then x + SEQ_MOD else x;
  }

  lemma {:induction false} SlidingDropsOldest(w: seq<nat>, x: nat)
    requires w != [] && Distinct(w + [x])
    ensures Elements(w) + {x} - {w[0]} == Elements(w[1..] + [x])
  {
    var v := w + [x];
    assert v[1..] == w[1..] + [x];
    forall y | y in v[1..]
      ensures y != w[0] && y in Elements(w) + {x}
    {
      var k :| 0 <= k < |v[1..]| && v[1..][k] == y;
      assert y == v[k + 1] && v[0] == w[0];
    }
    forall y | y in Elements(w) + {x} && y != w[0]
      ensures y in v[1..]
    {
      assert y in w + [x];
      var k :| 0 <= k < |v| && v[k] == y;
      assert y == v[1..][k - 1];
    }
  }

  lemma {:induction false} RememberSlidesWindow(s: Stats, order: seq<nat>, x: nat)
    requires Distinct(order + [x])
    requires s.seenOrder == Window(order) && s.seen == Elements(s.seenOrder)
    ensures Remember(s, x).seenOrder == Window(order + [x])
    ensures Remember(s, x).seen == Elements(Remember(s, x).seenOrder)
  {
    var w := Window(order);
    if |order| < SEEN_WINDOW {
      assert Window(order + [x]) == w + [x];
    } else {
      assert Window(order + [x]) == (w + [x])[1..] == w[1..] + [x];
      assert w + [x] == (order + [x])[|order| - |w|..];
      SlidingDropsOldest(w, x);
    }
  }

  /** How each reference figure moves with one more arrival. */
  lemma {:induction false} ReferenceStep(before: seq<nat>, x: nat)
    requires before != []
    ensures FirstArrivals(before + [x]) == if x in before then FirstArrivals(before) else FirstArrivals(before) + [x]
    ensures Repeats(before + [x]) == Repeats(before) + if x in before then 1 else 0
    ensures Overtaken(before + [x]) == Overtaken(before) + if x !in before && x < Max(before) then 1 else 0
    ensures Max(before + [x]) == if x > Max(before) then x else Max(before)
  {
  }

  lemma {:induction false} CountArrivalKeepsRest(s: Stats, x: nat, late: bool)
    ensures var t := CountArrival(s, x, late);
      && t.maxSeq == s.maxSeq && t.cycles == s.cycles && t.baseSeq == s.baseSeq && t.restarts == s.restarts
      && t.received == s.received + 1 && t.badSeq == s.badSeq
      && t.duplicates == s.duplicates + (if x in s.seen then 1 else 0)
      && t.outOfOrder == s.outOfOrder + (if x !in s.seen && late then 1 else 0)
      && (x in s.seen ==> t.seen == s.seen && t.seenOrder == s.seenOrder)
      && (x !in s.seen ==> t.seen == Remember(s, x).seen && t.seenOrder == Remember(s, x).seenOrder)
  {
  }

  lemma {:induction false} ArrivalTracks(start: Stats, s: Stats, before: seq<nat>, x: nat)
    requires before != [] && Conforming(before) && Follows(before, x) && x < U32_MOD && Tracks(start, s, before)
    ensures Tracks(start, Update(s, x % SEQ_MOD), before + [x])
  {
    ReferenceStep(before, x);
    var top := Max(before + [x]);
    if x < Max(before) {
      BackwardStep(s, top, x);
    } else {
      ForwardStep(s, Max(before), x);
    }
    var t := s.(maxSeq := top % SEQ_MOD, cycles := top - top % SEQ_MOD);
    CountArrivalKeepsRest(t, x, x < Max(before));
    WindowClassifiesExactly(before, x);
    if x !in before {
      FirstArrivalsAreTheDistinctOnes(before + [x]);
      RememberSlidesWindow(t, FirstArrivals(before), x);
    }
  }

  lemma {:induction false} SingleArrival(start: Stats, a: seq<nat>)
    requires |a| == 1 && a[0] < SEQ_MOD && Begun(start, a[0])
    ensures Tracks(start, start, a)
  {
  }

  /** Over every conforming run the receiver's record is exactly the reference's. */
  lemma {:induction false} ReceiverTracksTruth(start: Stats, a: seq<nat>)
    requires a != [] && Conforming(a) && Begun(start, a[0])
    ensures Tracks(start, Receive(start, a), a)
    decreases |a|
  {
    if |a| == 1 {
      SingleArrival(start, a);
    } else {
      var before, x := a[..|a| - 1], a[|a| - 1];
      ConformingPrefix(a);
      ReceiverTracksTruth(start, before);
      assert a == before + [x];
      assert Receive(start, a) == Update(Receive(start, before), x % SEQ_MOD);
      ArrivalTracks(start, Receive(start, before), before, x);
    }
  }

  lemma {:induction false} MissingSize(a: seq<nat>)
    requires a != [] && forall x :: x in a ==> a[0] <= x
    ensures |Missing(a)| + |Elements(a)| == Max(a) - a[0] + 1
  {
    assert Missing(a) !! Elements(a) && Missing(a) + Elements(a) == Interval(a[0], Max(a) + 1);
    assert |Missing(a) + Elements(a)| == |Missing(a)| + |Elements(a)|;
  }

  lemma {:induction false} NothingBelowFirst(a: seq<nat>)
    requires a != [] && Conforming(a)
    ensures forall x :: x in a ==> a[0] <= x
    decreases |a|
  {
    if |a| > 1 {
      ConformingPrefix(a);
      NothingBelowFirst(a[..|a| - 1]);
      assert a == a[..|a| - 1] + [a[|a| - 1]];
    }
  }

  /**
    The loss figure: over every conforming run shorter than 2^63 packets, from a source that (re)started
    with `start`, lost + duplicates is the number of indices that never arrived, plus whatever
    duplicates were already on the counter; and the extended maximum is the highest index.
   */
  lemma {:induction false} LossIsExact(start: Stats, a: seq<nat>)
    requires a != [] && |a| < U64_MOD / 2 && Conforming(a) && Begun(start, a[0])
    ensures var s := Receive(start, a);
      && s.ExtendedMax() == Max(a)
      && s.Lost() + s.duplicates == |Missing(a)| + start.duplicates
      && s.duplicates - start.duplicates == |a| - |Elements(a)|
  {
    ReceiverTracksTruth(start, a);
    NothingBelowFirst(a);
    MissingSize(a);
    FirstArrivalsAreTheDistinctOnes(a);
    ElementsAreFew(FirstArrivals(a));
    LostIsDifference(Receive(start, a), Max(a), |a|);
  }

  lemma {:induction false} LostIsDifference(s: Stats, top: nat, count: nat)
    requires s.maxSeq == top % SEQ_MOD && s.cycles == top - top % SEQ_MOD
    requires s.baseSeq <= top < U32_MOD && s.received == count < U64_MOD / 2
    ensures s.ExtendedMax() == top && s.Lost() == top - s.baseSeq + 1 - count
  {
  }

  /** For a source never restarted the law is the plain one, for every first sequence number. */
  lemma {:induction false} LossOfNewSource(a: seq<nat>)
    requires a != [] && |a| < U64_MOD / 2 && Conforming(a)
    ensures var s := Receive(FirstPacket(a[0]), a); s.Lost() + s.duplicates == |Missing(a)|
  {
    assert FirstPacket(a[0]).seenOrder == [a[0]];
    LossIsExact(FirstPacket(a[0]), a);
  }

  /** Two far jumps in a row restart the source; of the counters, duplicates and reordering survive the restart. */
  lemma {:induction false} RestartBegins(s: Stats, seqNum: nat)
    requires seqNum < SEQ_MOD && seqNum == s.badSeq
    requires 3000 <= (seqNum - s.maxSeq) % 65536 <= 65436
    ensures Begun(Update(s, seqNum), seqNum)
    ensures Update(s, seqNum).duplicates == s.duplicates && Update(s, seqNum).outOfOrder == s.outOfOrder
    ensures Update(s, seqNum).restarts == s.restarts + 1
  {
  }

  /** So after a restart the plain law holds exactly when no duplicate had been counted before it. */
  lemma {:induction false} LossAfterRestart(s: Stats, a: seq<nat>)
    requires a != [] && |a| < U64_MOD / 2 && Conforming(a) && a[0] == s.badSeq
    requires 3000 <= (a[0] - s.maxSeq) % 65536 <= 65436
    ensures var r := Receive(Update(s, a[0]), a);
      r.Lost() + r.duplicates == |Missing(a)| <==> s.duplicates == 0
  {
    RestartBegins(s, a[0]);
    LossIsExact(Update(s, a[0]), a);
  }

  lemma {:induction false} FarJump(s: Stats, seqNum: nat)
    requires seqNum < SEQ_MOD - 1 && seqNum != s.badSeq
    requires 3000 <= (seqNum - s.maxSeq) % 65536 <= 65436
    ensures Update(s, seqNum) == s.(badSeq := seqNum + 1, outOfOrder := s.outOfOrder + 1, received := s.received + 1)
  {
  }

  /** A run that breaks it: packet 0 twice, then a sender restarting at 10000; one index too many is reported. */
  lemma {:induction false} RestartMiscounts()
    ensures var s := Update(Update(FirstPacket(0), 0), 10000);
      var r := Receive(Update(s, 10001), [10001]);
      && r.restarts == 1 && Missing([10001]) == {} && r.Lost() + r.duplicates == 1
  {
    hide Update, CountArrival;
    var first := FirstPacket(0);
    ForwardStep(first, 0, 0);
    var one := Update(first, 0);
    CountArrivalKeepsRest(first.(maxSeq := 0, cycles := 0), 0, false);
    FarJump(one, 10000);
    var s := Update(one, 10000);
    RestartBegins(s, 10001);
    LostIsDifference(Update(s, 10001), 10001, 1);
    assert Max([10001]) == 10001;
  }

  /** The forward bound is tight: a gap of 3000 or more is not followed, so the maximum falls behind. */
  lemma {:induction false} WideGapIsNotFollowed(s: Stats, top: nat, x: nat)
    requires s.maxSeq == top % SEQ_MOD && s.cycles == top - top % SEQ_MOD
    requires top + 3000 <= x <= top + 65436 && x % 65536 != s.badSeq
    ensures Update(s, x % SEQ_MOD).ExtendedMax() == top < x
  {
    assert (x % SEQ_MOD - s.maxSeq) % SEQ_MOD == x - top;
  }
}
