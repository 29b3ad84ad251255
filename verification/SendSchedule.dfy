/**
  The grandmaster's send loop (packages/aes67-linux-ptpd/src/Grandmaster.cpp): three deadlines
  walked by one loop, each advanced by its period after a send and moved up to the present when the
  loop has fallen more than a period behind, so that a stall is never caught up with a burst.
  Times are nanoseconds; a run is the list of clock readings, one per iteration.
 */
module SendSchedule {
  import opened Counting

  const NS_PER_SECOND: nat := 1_000_000_000

  function Pow2(n: nat): (p: nat)
    ensures p >= 1
  {
    if n == 0 then 1 else 2 * Pow2(n - 1)
  }

  function Quotient(a: nat, b: nat): nat
    requires b >= 1
  {
    a / b
  }

  /** Zero for an exponent outside the range a sender can follow. */
  function LogIntervalToNanoseconds(logInterval: int): nat {
    if logInterval >= 0 then (if logInterval > 21 then 0 else NS_PER_SECOND * Pow2(logInterval))
    else if logInterval < -9 then 0
    else Quotient(NS_PER_SECOND, Pow2(-logInterval))
  }

  /** The two intervals a profile is refused over before anything is sent. */
  predicate StartAccepts(logSync: int, logAnnounce: int) {
    LogIntervalToNanoseconds(logSync) != 0 && LogIntervalToNanoseconds(logAnnounce) != 0
  }

  /** In range the conversion is exact (2^9 divides 10^9) and positive; out of range it is refused. */
  lemma {:induction false} IntervalIsExact(logInterval: int)
    ensures -9 <= logInterval <= 21 <==> LogIntervalToNanoseconds(logInterval) > 0
    ensures 0 <= logInterval <= 21 ==> LogIntervalToNanoseconds(logInterval) == 1_000_000_000 * Pow2(logInterval)
    ensures -9 <= logInterval <= 0 ==> LogIntervalToNanoseconds(logInterval) * Pow2(-logInterval) == 1_000_000_000
  {
    if logInterval >= 0 {
      assert Pow2(0) == 1;
    } else if logInterval >= -9 {
      assert Pow2(1) == 2 && Pow2(2) == 4 && Pow2(3) == 8;
      assert Pow2(4) == 16 && Pow2(5) == 32 && Pow2(6) == 64;
      assert Pow2(7) == 128 && Pow2(8) == 256 && Pow2(9) == 512;
    }
  }

  /**
    What is started can be scheduled: both periods are positive exactly when the daemon does not refuse
    the profile.
   */
  lemma {:induction false} StartedPeriodsArePositive(logSync: int, logAnnounce: int)
    ensures StartAccepts(logSync, logAnnounce) <==> -9 <= logSync <= 21 && -9 <= logAnnounce <= 21
    ensures StartAccepts(logSync, logAnnounce) ==>
      LogIntervalToNanoseconds(logSync) > 0 && LogIntervalToNanoseconds(logAnnounce) > 0
  {
    hide LogIntervalToNanoseconds;
    IntervalIsExact(logSync);
    IntervalIsExact(logAnnounce);
  }

  function NextDeadline(next: int, now: int, period: nat): int {
    if next + period < now then now + period else next + period
  }

  /** The deadline standing after the loop has seen `readings`. */
  function Deadline(start: int, period: nat, readings: seq<int>): int {
    if readings == [] then start
    else
      var next, now := Deadline(start, period, readings[..|readings| - 1]), readings[|readings| - 1];
      if now >= next then NextDeadline(next, now, period) else next
  }

  /** The readings at which the loop sent, in order. */
  function Sends(start: int, period: nat, readings: seq<int>): seq<int> {
    if readings == [] then []
    else
      var before, now := readings[..|readings| - 1], readings[|readings| - 1];
      if now >= Deadline(start, period, before) then Sends(start, period, before) + [now]
      else Sends(start, period, before)
  }

  ghost predicate Monotone(readings: seq<int>) {
    forall i, j :: 0 <= i <= j < |readings| ==> readings[i] <= readings[j]
  }

  /** Something was sent less than a period before `now`. */
  predicate SentWithin(sends: seq<int>, period: nat, now: int) { sends != [] && now - period < sends[|sends| - 1] }

  /** After any send the standing deadline is at most a period past the last one; before any, it is the first. */
  lemma {:induction false} DeadlineIsNear(start: int, period: nat, readings: seq<int>)
    ensures var sends := Sends(start, period, readings);
      if sends == [] then Deadline(start, period, readings) == start
      else Deadline(start, period, readings) <= sends[|sends| - 1] + period
    decreases |readings|
  {
    if readings == [] {
    } else {
      DeadlineIsNear(start, period, readings[..|readings| - 1]);
    }
  }

  /**
    No whole period of silence: at every reading from the start on, a message of the kind went out less
    than a period ago, at this very reading included.
   */
  lemma {:induction false} NeverSilent(start: int, period: nat, readings: seq<int>)
    requires period > 0 && readings != [] && readings[|readings| - 1] >= start
    ensures SentWithin(Sends(start, period, readings), period, readings[|readings| - 1])
  {
    DeadlineIsNear(start, period, readings[..|readings| - 1]);
  }

  /** The send loop: what it sent of each kind, given its clock readings. */
  method Run(readings: seq<int>, announceStart: int, syncStart: int, statusStart: int, announcePeriod: nat,
        syncPeriod: nat)
    returns (announces: seq<int>, syncs: seq<int>, reports: seq<int>)
    ensures announces == Sends(announceStart, announcePeriod, readings)
    ensures syncs == Sends(syncStart, syncPeriod, readings)
    ensures reports == Sends(statusStart + 1_000_000_000, 1_000_000_000, readings)
    ensures readings != [] ==>
      var now := readings[|readings| - 1];
      && (announcePeriod > 0 && now >= announceStart ==> SentWithin(announces, announcePeriod, now))
      && (syncPeriod > 0 && now >= syncStart ==> SentWithin(syncs, syncPeriod, now))
      && (now >= statusStart + 1_000_000_000 ==> SentWithin(reports, 1_000_000_000, now))
  {
    var nextAnnounce, nextSync, nextStatus := announceStart, syncStart, statusStart + NS_PER_SECOND;
    announces, syncs, reports := [], [], [];
    for i := 0 to |readings|
      invariant nextAnnounce == Deadline(announceStart, announcePeriod, readings[..i])
      invariant nextSync == Deadline(syncStart, syncPeriod, readings[..i])
      invariant nextStatus == Deadline(statusStart + NS_PER_SECOND, NS_PER_SECOND, readings[..i])
      invariant announces == Sends(announceStart, announcePeriod, readings[..i])
      invariant syncs == Sends(syncStart, syncPeriod, readings[..i])
      invariant reports == Sends(statusStart + NS_PER_SECOND, NS_PER_SECOND, readings[..i])
    {
      var now := readings[i];
      assert readings[..i + 1][..i] == readings[..i];
      if now >= nextAnnounce {
        announces := announces + [now];
        nextAnnounce := nextAnnounce + announcePeriod;
        if nextAnnounce < now { nextAnnounce := now + announcePeriod; }
      }
      if now >= nextSync {
        syncs := syncs + [now];
        nextSync := nextSync + syncPeriod;
        if nextSync < now { nextSync := now + syncPeriod; }
      }
      if now >= nextStatus {
        reports := reports + [now];
        nextStatus := nextStatus + NS_PER_SECOND;
        if nextStatus < now { nextStatus := now + NS_PER_SECOND; }
      }
    }
    assert readings[..|readings|] == readings;
    if readings != [] {
      var now := readings[|readings| - 1];
      if announcePeriod > 0 && now >= announceStart { NeverSilent(announceStart, announcePeriod, readings); }
      if syncPeriod > 0 && now >= syncStart { NeverSilent(syncStart, syncPeriod, readings); }
      if now >= statusStart + NS_PER_SECOND { NeverSilent(statusStart + NS_PER_SECOND, NS_PER_SECOND, readings); }
    }
  }

  // ---- rate ------------------------------------------------------------------------------------

  lemma {:induction false} OneMore(k: nat, period: nat)
    ensures (k + 1) * period == k * period + period
  {
  }

  /** k sends after send i, the standing deadline is at least k periods past send i. */
  lemma {:induction false} DeadlineAfterSends(start: int, period: nat, readings: seq<int>, i: nat)
    requires i < |Sends(start, period, readings)|
    ensures Deadline(start, period, readings)
         >= Sends(start, period, readings)[i] + (|Sends(start, period, readings)| - i - 1) * period
    decreases |readings|
  {
    var before := readings[..|readings| - 1];
    var earlier := Sends(start, period, before);
    if i < |earlier| {
      DeadlineAfterSends(start, period, before, i);
      OneMore(|earlier| - i - 1, period);
    }
  }

  /** Two sends with k others between them are at least k periods apart. */
  lemma {:induction false} SendGap(start: int, period: nat, readings: seq<int>, i: nat, j: nat)
    requires i < j < |Sends(start, period, readings)|
    ensures Sends(start, period, readings)[j] >= Sends(start, period, readings)[i] + (j - i - 1) * period
    decreases |readings|
  {
    var before := readings[..|readings| - 1];
    if j < |Sends(start, period, before)| {
      SendGap(start, period, before, i, j);
    } else {
      DeadlineAfterSends(start, period, before, i);
    }
  }

  /** Sends land on readings, and readings never run backwards. */
  lemma {:induction false} SendsAscend(start: int, period: nat, readings: seq<int>)
    requires Monotone(readings)
    ensures Monotone(Sends(start, period, readings))
    ensures forall x :: x in Sends(start, period, readings) ==> x in readings
    decreases |readings|
  {
    if readings == [] {
    } else {
      var before, now := readings[..|readings| - 1], readings[|readings| - 1];
      SendsAscend(start, period, before);
      forall x | x in Sends(start, period, before)
        ensures x <= now
      {
        var k :| 0 <= k < |before| && before[k] == x;
        assert readings[k] == x;
      }
      var sends, earlier := Sends(start, period, readings), Sends(start, period, before);
      assert forall i :: 0 <= i < |earlier| ==> earlier[i] in earlier;
    }
  }

  ghost function SendsIn(sends: seq<int>, from: int, length: nat): set<nat> {
    set i | 0 <= i < |sends| && from <= sends[i] <= from + length
  }

  lemma {:induction false} QuotientBound(k: int, period: nat, length: nat)
    requires period > 0 && k * period <= length
    ensures k <= length / period
  {
    var q := length / period;
    assert (k - q) * period == k * period - q * period;
    MultipleIsFar(k - q, period);
  }

  ghost function FirstAt(sends: seq<int>, from: int): (r: nat)
    ensures r <= |sends| && (forall i :: 0 <= i < r ==> sends[i] < from) && (r < |sends| ==> sends[r] >= from)
  {
    if sends == [] || sends[0] >= from then 0 else 1 + FirstAt(sends[1..], from)
  }

  /** Whatever the clock does, no window of length L holds more than floor(L / period) + 2 sends of a kind. */
  lemma {:induction false} RateIsBounded(start: int, period: nat, readings: seq<int>, from: int, length: nat)
    requires period > 0 && Monotone(readings)
    ensures |SendsIn(Sends(start, period, readings), from, length)| <= length / period + 2
  {
    var sends := Sends(start, period, readings);
    var first := FirstAt(sends, from);
    SendsAscend(start, period, readings);
    forall j | j in SendsIn(sends, from, length)
      ensures first <= j < first + length / period + 2
    {
      if j > first {
        SendGap(start, period, readings, first, j);
        QuotientBound(j - first - 1, period, length);
      }
    }
    SubsetSize(SendsIn(sends, from, length), Interval(first, first + length / period + 2));
  }

  // ---- drift -----------------------------------------------------------------------------------

  /** No send happened more than one period after its deadline. */
  ghost predicate Punctual(start: int, period: nat, readings: seq<int>) {
    forall i {:trigger readings[..i]} :: 0 <= i < |readings| ==>
      readings[i] <= Deadline(start, period, readings[..i]) + period
  }

  /** The deadline never runs ahead of the nominal one, and falls behind it for good at the first late send. */
  lemma {:induction false} NoDriftIffPunctual(start: int, period: nat, readings: seq<int>)
    requires period > 0
    ensures Deadline(start, period, readings) >= start + |Sends(start, period, readings)| * period
    ensures Deadline(start, period, readings) == start + |Sends(start, period, readings)| * period
       <==> Punctual(start, period, readings)
    decreases |readings|
  {
    if readings == [] {
    } else {
      var n := |readings| - 1;
      var before := readings[..n];
      NoDriftIffPunctual(start, period, before);
      assert forall i {:trigger before[..i]} :: 0 <= i < n ==> before[..i] == readings[..i] && before[i] == readings[i];
      OneMore(|Sends(start, period, before)|, period);
      if Punctual(start, period, before) && readings[n] <= Deadline(start, period, before) + period {
        forall i {:trigger readings[..i]} | 0 <= i < |readings|
          ensures readings[i] <= Deadline(start, period, readings[..i]) + period
        {
          if i < n { assert before[..i] == readings[..i]; }
        }
      }
      if Punctual(start, period, readings) {
        assert readings[..n] == before;
        forall i {:trigger before[..i]} | 0 <= i < n
          ensures before[i] <= Deadline(start, period, before[..i]) + period
        {
          assert before[..i] == readings[..i];
        }
      }
    }
  }

  lemma {:induction false} LastDeadlineMet(start: int, period: nat, readings: seq<int>)
    requires period > 0 && Punctual(start, period, readings) && Monotone(readings) && readings != []
    ensures var k := |Sends(start, period, readings)|;
      k > 0 ==> start + (k - 1) * period <= readings[|readings| - 1]
    decreases |readings|
  {
    var n := |readings| - 1;
    var before := readings[..n];
    assert forall i {:trigger before[..i]} :: 0 <= i < n ==> before[..i] == readings[..i] && before[i] == readings[i];
    forall i {:trigger before[..i]} | 0 <= i < n
      ensures before[i] <= Deadline(start, period, before[..i]) + period
    {
      assert before[..i] == readings[..i];
    }
    NoDriftIffPunctual(start, period, before);
    if before != [] {
      LastDeadlineMet(start, period, before);
      assert before[n - 1] == readings[n - 1];
    }
  }

  /** A punctual loop sends at the advertised rate: at every reading from the start on, one message a period, to one. */
  lemma {:induction false} PunctualRate(start: int, period: nat, readings: seq<int>)
    requires period > 0 && Punctual(start, period, readings) && Monotone(readings) && readings != []
    requires readings[|readings| - 1] >= start
    ensures var k, since := |Sends(start, period, readings)|, readings[|readings| - 1] - start;
      k > 0 && (k - 1) * period <= since <= k * period
  {
    NeverSilent(start, period, readings);
    LastDeadlineMet(start, period, readings);
    NoDriftIffPunctual(start, period, readings);
    ReachesDeadline(start, period, readings);
  }

  lemma {:induction false} ReachesDeadline(start: int, period: nat, readings: seq<int>)
    requires readings != []
    ensures readings[|readings| - 1] <= Deadline(start, period, readings)
  {
  }
}
