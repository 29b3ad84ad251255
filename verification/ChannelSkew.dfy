/**
  The rings of one side under both of their ends at once: when the channels of a stream stay level with
  each other and when they drift apart (packages/aes67-macos-driver/Driver/AES67IOHandler.cpp at one end,
  NetworkEngine/RTP/RTPReceiver.cpp and RTPTransmitter.cpp at the other).
 */
module ChannelSkew {
  import opened StreamTypes
  import opened Counting
  import opened IoHandler

  // ---- both ends of one side's rings -----------------------------------------------------------
  // Input rings: the network offers, the client takes.  Output rings: the client offers, the network
  // takes.  Either end works through its channels one at a time, so the unit is one call on one ring.

  datatype RingOp<T> = Offer(block: seq<T>) | Take(count: nat)

  ghost function RingAfter<T>(queue: seq<T>, capacity: nat, op: RingOp<T>): seq<T> {
    match op
    case Offer(block) => Filled(queue, capacity, block)
    case Take(count) => Drained(queue, count)
  }

  function Size<T>(op: RingOp<T>): nat { if op.Offer? then |op.block| else op.count }

  /** How many samples of a call were dropped (an offer) or replaced by silence (a take). */
  ghost function Short<T>(queue: seq<T>, capacity: nat, op: RingOp<T>): nat {
    Size(op) - Min(Size(op), if op.Offer? then Room(|queue|, capacity) else |queue|)
  }

  ghost function RunRing<T>(queue: seq<T>, capacity: nat, ops: seq<RingOp<T>>): seq<T> {
    if ops == [] then queue else RingAfter(RunRing(queue, capacity, ops[..|ops| - 1]), capacity, ops[|ops| - 1])
  }

  /** Samples offered less samples asked for. */
  function Balance<T>(ops: seq<RingOp<T>>): int {
    if ops == [] then 0
    else
      var op := ops[|ops| - 1];
      if op.Offer? then Balance(ops[..|ops| - 1]) + Size(op) else Balance(ops[..|ops| - 1]) - Size(op)
  }

  /** Samples of silence heard less samples dropped. */
  ghost function Shortfall<T>(queue: seq<T>, capacity: nat, ops: seq<RingOp<T>>): int {
    if ops == [] then 0
    else
      var n := |ops| - 1;
      var short: int := Short(RunRing(queue, capacity, ops[..n]), capacity, ops[n]);
      Shortfall(queue, capacity, ops[..n]) + if ops[n].Take? then short else -short
  }

  lemma {:induction false} OneCallLevel<T>(queue: seq<T>, capacity: nat, op: RingOp<T>)
    ensures |RingAfter(queue, capacity, op)| ==
      |queue| + (if op.Offer? then Size(op) - Short(queue, capacity, op) else Short(queue, capacity, op) - Size(op))
  {
    if op.Offer? { FilledFits(queue, capacity, op.block); }
  }

  /** Conservation on one ring, over every sequence of calls from its two ends. */
  lemma {:induction false} LevelIsConserved<T>(queue: seq<T>, capacity: nat, ops: seq<RingOp<T>>)
    ensures |RunRing(queue, capacity, ops)| == |queue| + Balance(ops) + Shortfall(queue, capacity, ops)
    decreases |ops|
  {
    hide RingAfter, Short, Size;
    if ops == [] {
    } else {
      var n := |ops| - 1;
      LevelIsConserved(queue, capacity, ops[..n]);
      OneCallLevel(RunRing(queue, capacity, ops[..n]), capacity, ops[n]);
    }
  }

  /** A call on one ring of the side. */
  datatype Call<T> = Call(ch: nat, op: RingOp<T>)

  ghost function RunSide<T>(queues: seq<seq<T>>, capacities: seq<nat>, calls: seq<Call<T>>): (r: seq<seq<T>>)
    requires |queues| == |capacities|
    ensures |r| == |queues|
  {
    if calls == [] then queues
    else
      var before, c := RunSide(queues, capacities, calls[..|calls| - 1]), calls[|calls| - 1];
      if c.ch < |queues| then before[c.ch := RingAfter(before[c.ch], capacities[c.ch], c.op)] else before
  }

  /** The calls that reach one channel. */
  function OnChannel<T>(calls: seq<Call<T>>, ch: nat): seq<RingOp<T>> {
    if calls == [] then []
    else OnChannel(calls[..|calls| - 1], ch) + if calls[|calls| - 1].ch == ch then [calls[|calls| - 1].op] else []
  }

  lemma {:induction false} ChannelsRunApart<T>(queues: seq<seq<T>>, capacities: seq<nat>, calls: seq<Call<T>>, ch: nat)
    requires |queues| == |capacities| && ch < |queues|
    ensures RunSide(queues, capacities, calls)[ch] == RunRing(queues[ch], capacities[ch], OnChannel(calls, ch))
    decreases |calls|
  {
    hide RingAfter;
    if calls == [] {
    } else {
      var n := |calls| - 1;
      ChannelsRunApart(queues, capacities, calls[..n], ch);
      if calls[n].ch == ch {
        var ops := OnChannel(calls[..n], ch);
        assert (ops + [calls[n].op])[..|ops|] == ops;
      } else {
        assert OnChannel(calls, ch) == OnChannel(calls[..n], ch);
      }
    }
  }

  lemma {:induction false} OneMoreCall<T>(queues: seq<seq<T>>, capacities: seq<nat>, calls: seq<Call<T>>, c: Call<T>)
    requires |queues| == |capacities| && c.ch < |queues|
    ensures var before := RunSide(queues, capacities, calls);
      RunSide(queues, capacities, calls + [c]) == before[c.ch := RingAfter(before[c.ch], capacities[c.ch], c.op)]
    ensures forall ch :: OnChannel(calls + [c], ch) == OnChannel(calls, ch) + if c.ch == ch then [c.op] else []
  {
    hide RingAfter;
    assert (calls + [c])[..|calls|] == calls;
  }

  lemma {:induction false} EmptyTake<T>(capacity: nat)
    ensures RingAfter<T>([], capacity, Take(1)) == []
  {
  }

  lemma {:induction false} OneOffer<T>(capacity: nat, x: T)
    requires capacity >= 1
    ensures RingAfter([], capacity, Offer([x])) == [x]
  {
    assert [x][..1] == [x];
  }

  lemma {:induction false} OneTake<T>(capacity: nat, x: T)
    ensures RingAfter([x], capacity, Take(1)) == []
  {
  }

  lemma {:induction false} NoCalls<T>(queues: seq<seq<T>>, capacities: seq<nat>)
    requires |queues| == |capacities|
    ensures RunSide(queues, capacities, []) == queues && forall ch :: OnChannel<T>([], ch) == []
  {
  }

  /**
    The two ends can overlap, whatever the capacity: one packet of a two-channel stream arrives while a
    cycle of one frame has read the first channel and not yet the second.  The first channel heard
    silence and keeps its sample, the second did not: they stay a sample apart.
   */
  lemma {:induction false} InterleavingSkews<T>(capacity: nat, x: T, y: T)
    requires capacity >= 1
    ensures var calls := [Call(0, Take(1)), Call(0, Offer([x])), Call(1, Offer([y])), Call(1, Take(1))];
      && OnChannel(calls, 0) == [Take(1), Offer([x])] && OnChannel(calls, 1) == [Offer([y]), Take(1)]
      && RunSide([[], []], [capacity, capacity], calls) == [[x], []]
  {
    hide RingAfter, RunSide, OnChannel;
    var none: seq<seq<T>> := [[], []];
    var caps := [capacity, capacity];
    var c0, c1, c2, c3 := Call(0, Take(1)), Call(0, Offer([x])), Call(1, Offer([y])), Call(1, Take(1));
    NoCalls(none, caps);
    EmptyTake<T>(capacity);
    OneOffer(capacity, x);
    OneOffer(capacity, y);
    OneTake(capacity, y);
    OneMoreCall(none, caps, [], c0);
    OneMoreCall(none, caps, [c0], c1);
    OneMoreCall(none, caps, [c0, c1], c2);
    OneMoreCall(none, caps, [c0, c1, c2], c3);
    assert [] + [c0] == [c0] && [c0] + [c1] == [c0, c1];
    assert [c0, c1] + [c2] == [c0, c1, c2] && [c0, c1, c2] + [c3] == [c0, c1, c2, c3];
  }

  // ---- what an overlap does to two level channels ----------------------------------------------

  /** A call as the level of its ring sees it. */
  datatype Move = In(n: nat) | Out(n: nat)

  function MoveOf<T>(op: RingOp<T>): Move { if op.Offer? then In(Size(op)) else Out(Size(op)) }

  function LevelAfter(level: nat, capacity: nat, m: Move): nat {
    match m
    case In(n) => level + Min(n, Room(level, capacity))
    case Out(n) => level - Min(n, level)
  }

  function RunLevel(level: nat, capacity: nat, moves: seq<Move>): (r: nat)
    ensures level <= capacity ==> r <= capacity
  {
    if moves == [] then level
    else LevelAfter(RunLevel(level, capacity, moves[..|moves| - 1]), capacity, moves[|moves| - 1])
  }

  lemma {:induction false} RunLevelConcat(level: nat, capacity: nat, a: seq<Move>, b: seq<Move>)
    ensures RunLevel(level, capacity, a + b) == RunLevel(RunLevel(level, capacity, a), capacity, b)
    decreases |b|
  {
    if b == [] {
      assert a + b == a;
    } else {
      var n := |b| - 1;
      RunLevelConcat(level, capacity, a, b[..n]);
      assert (a + b)[..|a + b| - 1] == a + b[..n];
    }
  }

  function Sum(moves: seq<Move>): nat {
    if moves == [] then 0 else Sum(moves[..|moves| - 1]) + moves[|moves| - 1].n
  }

  /** Calls of the other end than the one that made `m`. */
  predicate Opposed(m: Move, others: seq<Move>) {
    forall i :: 0 <= i < |others| ==> others[i].In? != m.In?
  }

  /** Calls from one end, one after the other, move the level as one call for their sum. */
  lemma {:induction false} CallsAddUp(level: nat, capacity: nat, m: Move, others: seq<Move>)
    requires level <= capacity && Opposed(m, others)
    ensures RunLevel(level, capacity, others) ==
      LevelAfter(level, capacity, if m.In? then Out(Sum(others)) else In(Sum(others)))
    decreases |others|
  {
    if others == [] {
    } else {
      CallsAddUp(level, capacity, m, others[..|others| - 1]);
    }
  }

  /** What a caller can look at before an overlap: enough is queued and there is room enough, or nothing moves. */
  predicate Harmless(level: nat, capacity: nat, asked: nat, offered: nat) {
    asked == 0 || offered == 0 || capacity == 0 || (asked <= level && level + offered <= capacity)
  }

  /**
    An overlap as two channels see it: one end makes a call on the first channel, the other end goes
    over both any number of times, and only then is the call made on the second.
   */
  datatype Overlap = Overlap(alone: Move, others: seq<Move>) {
    predicate Valid() { Opposed(alone, others) }
    function Asked(): nat { if alone.In? then Sum(others) else alone.n }
    function Offered(): nat { if alone.In? then alone.n else Sum(others) }
  }

  lemma {:induction false} OrderMatters(level: nat, capacity: nat, asked: nat, offered: nat)
    requires level <= capacity
    ensures LevelAfter(LevelAfter(level, capacity, Out(asked)), capacity, In(offered)) ==
      LevelAfter(LevelAfter(level, capacity, In(offered)), capacity, Out(asked))
      <==> Harmless(level, capacity, asked, offered)
  {
  }

  /** Two calls on one ring at the same moment, neither seeing what the other does. */
  function LevelAfterBoth(level: nat, capacity: nat, asked: nat, offered: nat): nat {
    level - Min(asked, level) + Min(offered, Room(level, capacity))
  }

  /** Where their order does not matter, it does not matter either if they coincide. */
  lemma {:induction false} HarmlessTogether(level: nat, capacity: nat, asked: nat, offered: nat)
    requires level <= capacity && Harmless(level, capacity, asked, offered)
    ensures LevelAfterBoth(level, capacity, asked, offered) ==
      LevelAfter(LevelAfter(level, capacity, Out(asked)), capacity, In(offered))
  {
  }

  lemma {:induction false} OneMove(level: nat, capacity: nat, m: Move)
    ensures RunLevel(level, capacity, [m]) == LevelAfter(level, capacity, m)
  {
    var none: seq<Move> := [];
    assert [m][..0] == none && RunLevel(level, capacity, none) == level;
  }

  /** Two level channels are level after an overlap iff it was harmless at the level before it. */
  lemma {:induction false} OverlapKeepsLevelIff(level: nat, capacity: nat, o: Overlap)
    requires level <= capacity && o.Valid()
    ensures RunLevel(level, capacity, [o.alone] + o.others) == RunLevel(level, capacity, o.others + [o.alone])
      <==> Harmless(level, capacity, o.Asked(), o.Offered())
  {
    hide RunLevel, LevelAfter, Harmless, Sum;
    RunLevelConcat(level, capacity, [o.alone], o.others);
    RunLevelConcat(level, capacity, o.others, [o.alone]);
    OneMove(level, capacity, o.alone);
    OneMove(RunLevel(level, capacity, o.others), capacity, o.alone);
    CallsAddUp(level, capacity, o.alone, o.others);
    OneLevelFits(level, capacity, o.alone);
    CallsAddUp(LevelAfter(level, capacity, o.alone), capacity, o.alone, o.others);
    OrderMatters(level, capacity, o.Asked(), o.Offered());
  }

  lemma {:induction false} OneLevelFits(level: nat, capacity: nat, m: Move)
    requires level <= capacity
    ensures LevelAfter(level, capacity, m) <= capacity
  {
  }

  // ---- a run of overlaps -----------------------------------------------------------------------

  /** The calls of a run of overlaps, as its first channel and as its second channel get them. */
  function FirstOf(run: seq<Overlap>): seq<Move> {
    if run == [] then []
    else var o := run[|run| - 1]; FirstOf(run[..|run| - 1]) + ([o.alone] + o.others)
  }

  function SecondOf(run: seq<Overlap>): seq<Move> {
    if run == [] then []
    else var o := run[|run| - 1]; SecondOf(run[..|run| - 1]) + (o.others + [o.alone])
  }

  predicate AllValid(run: seq<Overlap>) { forall i :: 0 <= i < |run| ==> run[i].Valid() }

  /** Level after the first k overlaps. */
  predicate LevelAt(level: nat, capacity: nat, run: seq<Overlap>, k: nat)
    requires k <= |run|
  {
    RunLevel(level, capacity, FirstOf(run[..k])) == RunLevel(level, capacity, SecondOf(run[..k]))
  }

  /** The k-th overlap is harmless at the level its first channel has reached. */
  predicate HarmlessAt(level: nat, capacity: nat, run: seq<Overlap>, k: nat)
    requires k < |run|
  {
    Harmless(RunLevel(level, capacity, FirstOf(run[..k])), capacity, run[k].Asked(), run[k].Offered())
  }

  lemma {:induction false} NextOverlap(level: nat, capacity: nat, run: seq<Overlap>, k: nat)
    requires level <= capacity && k < |run| && run[k].Valid() && LevelAt(level, capacity, run, k)
    ensures LevelAt(level, capacity, run, k + 1) <==> HarmlessAt(level, capacity, run, k)
  {
    hide RunLevel, Harmless, Overlap.Valid, Overlap.Asked, Overlap.Offered;
    var o, before := run[k], run[..k];
    assert run[..k + 1][..k] == before;
    RunLevelConcat(level, capacity, FirstOf(before), [o.alone] + o.others);
    RunLevelConcat(level, capacity, SecondOf(before), o.others + [o.alone]);
    OverlapKeepsLevelIff(RunLevel(level, capacity, FirstOf(before)), capacity, o);
  }

  /** The channels are level after every overlap of the first k iff each of these was harmless when it began. */
  lemma {:induction false} LevelThroughoutIff(level: nat, capacity: nat, run: seq<Overlap>, k: nat)
    requires level <= capacity && AllValid(run) && k <= |run|
    ensures (forall i :: 0 <= i <= k ==> LevelAt(level, capacity, run, i)) <==>
      (forall i :: 0 <= i < k ==> HarmlessAt(level, capacity, run, i))
  {
    hide LevelAt, HarmlessAt, Overlap.Valid;
    if k == 0 {
      StartsLevel(level, capacity, run);
    } else {
      LevelThroughoutIff(level, capacity, run, k - 1);
      if LevelAt(level, capacity, run, k - 1) { NextOverlap(level, capacity, run, k - 1); }
    }
  }

  lemma {:induction false} StartsLevel(level: nat, capacity: nat, run: seq<Overlap>)
    ensures LevelAt(level, capacity, run, 0)
  {
    assert run[..0] == [];
  }

  // ---- every interleaving is a run of overlaps -------------------------------------------------

  /** A call and the end that makes it. */
  datatype Turn<T> = Turn(client: bool, call: Call<T>)

  function CallsOf<T>(turns: seq<Turn<T>>): seq<Call<T>> {
    if turns == [] then [] else CallsOf(turns[..|turns| - 1]) + [turns[|turns| - 1].call]
  }

  /** The call an end has made on channel a and has yet to make on channel b. */
  function Owing<T>(turns: seq<Turn<T>>, a: nat, b: nat, client: bool): Option<Move> {
    if turns == [] then None
    else
      var last := turns[|turns| - 1];
      if last.client != client || last.call.ch !in {a, b} then Owing(turns[..|turns| - 1], a, b, client)
      else if last.call.ch == a then Some(MoveOf(last.call.op)) else None
  }

  /**
    Any interleaving of the two ends, each going over channel a and then channel b with calls of one
    size, again and again; one end only offers and the other only takes.  Other channels do not matter.
   */
  predicate Interleaved<T>(turns: seq<Turn<T>>, a: nat, b: nat, clientOffers: bool) {
    turns == [] ||
    var before, last := turns[..|turns| - 1], turns[|turns| - 1];
    && Interleaved(before, a, b, clientOffers)
    && (last.call.ch == a ==>
        Owing(before, a, b, last.client).None? && last.call.op.Offer? == (last.client == clientOffers))
    && (last.call.ch == b ==> Owing(before, a, b, last.client) == Some(MoveOf(last.call.op)))
  }

  function MovesOf<T>(ops: seq<RingOp<T>>): seq<Move> {
    if ops == [] then [] else MovesOf(ops[..|ops| - 1]) + [MoveOf(ops[|ops| - 1])]
  }

  function MovesOn<T>(turns: seq<Turn<T>>, ch: nat): seq<Move> { MovesOf(OnChannel(CallsOf(turns), ch)) }

  function Optional(m: Option<Move>): seq<Move> { if m.Some? then [m.value] else [] }

  /** An interleaving so far: whole overlaps, then one under way, in which one end leads and the other may follow. */
  datatype Progress = Progress(run: seq<Overlap>, leader: Option<Move>, others: seq<Move>, follower: Option<Move>,
                               clientLeads: bool)
  {
    predicate Valid(clientOffers: bool) {
      && AllValid(run) && (leader.None? ==> others == [] && follower.None?)
      && (leader.Some? ==> leader.value.In? == (clientLeads == clientOffers) && Opposed(leader.value, others))
      && (follower.Some? ==> follower.value.In? != (clientLeads == clientOffers))
    }
    function First(): seq<Move> { FirstOf(run) + Optional(leader) + others + Optional(follower) }
    function Second(): seq<Move> { SecondOf(run) + others }
    function Owing(client: bool): Option<Move> { if client == clientLeads then leader else follower }
  }

  lemma {:induction false} OneMoreTurn<T>(turns: seq<Turn<T>>, t: Turn<T>, ch: nat)
    ensures MovesOn(turns + [t], ch) == MovesOn(turns, ch) + if t.call.ch == ch then [MoveOf(t.call.op)] else []
  {
    hide MoveOf;
    assert (turns + [t])[..|turns|] == turns;
    var calls, op := CallsOf(turns), t.call.op;
    assert (calls + [t.call])[..|calls|] == calls;
    var ops := OnChannel(calls, ch);
    if t.call.ch == ch {
      assert (ops + [op])[..|ops|] == ops;
      assert OnChannel(calls + [t.call], ch) == ops + [op];
    } else {
      assert OnChannel(calls + [t.call], ch) == ops;
    }
  }

  /** One end starts over: it leads if nothing is under way, and follows otherwise. */
  function Started(p: Progress, client: bool, m: Move): Progress {
    if p.leader.None? then p.(leader := Some(m), clientLeads := client) else p.(follower := Some(m))
  }

  /** One end finishes: the leader closes the overlap, the follower joins the calls inside it. */
  function Finished(p: Progress, client: bool, m: Move): Progress {
    if client == p.clientLeads
    then Progress(p.run + [Overlap(m, p.others)], p.follower, [], None, !p.clientLeads)
    else p.(others := p.others + [m], follower := None)
  }

  lemma {:induction false} StartIsTracked(p: Progress, client: bool, m: Move, clientOffers: bool)
    requires p.Valid(clientOffers) && p.Owing(client).None? && m.In? == (client == clientOffers)
    ensures var q := Started(p, client, m);
      && q.Valid(clientOffers) && q.First() == p.First() + [m] && q.Second() == p.Second()
      && q.Owing(client) == Some(m) && q.Owing(!client) == p.Owing(!client)
  {
    hide FirstOf, SecondOf, Overlap.Valid;
  }

  lemma {:induction false} FinishIsTracked(p: Progress, client: bool, m: Move, clientOffers: bool)
    requires p.Valid(clientOffers) && p.Owing(client) == Some(m)
    ensures var q := Finished(p, client, m);
      && q.Valid(clientOffers) && q.First() == p.First() && q.Second() == p.Second() + [m]
      && q.Owing(client).None? && q.Owing(!client) == p.Owing(!client)
  {
    hide FirstOf, SecondOf;
    var q := Finished(p, client, m);
    if client == p.clientLeads {
      var o := Overlap(m, p.others);
      LastOverlap(p.run, o);
      assert FirstOf(p.run) + [m] + p.others == FirstOf(p.run) + ([m] + p.others);
      assert SecondOf(p.run) + p.others + [m] == SecondOf(p.run) + (p.others + [m]);
    }
  }

  lemma {:induction false} LastOverlap(run: seq<Overlap>, o: Overlap)
    ensures FirstOf(run + [o]) == FirstOf(run) + ([o.alone] + o.others)
    ensures SecondOf(run + [o]) == SecondOf(run) + (o.others + [o.alone])
  {
    assert (run + [o])[..|run|] == run;
  }

  lemma {:induction false} InterleavingIsTracked<T>(turns: seq<Turn<T>>, a: nat, b: nat, clientOffers: bool)
    returns (p: Progress)
    requires a != b && Interleaved(turns, a, b, clientOffers)
    ensures p.Valid(clientOffers) && p.First() == MovesOn(turns, a) && p.Second() == MovesOn(turns, b)
    ensures p.Owing(true) == Owing(turns, a, b, true) && p.Owing(false) == Owing(turns, a, b, false)
    decreases |turns|
  {
    hide MovesOn, MoveOf, Started, Finished, Progress.Valid, Progress.First, Progress.Second, Progress.Owing;
    if turns == [] {
      p := Progress([], None, [], None, true);
      NothingTracked<T>(a, b, clientOffers);
    } else {
      var before, t := turns[..|turns| - 1], turns[|turns| - 1];
      p := InterleavingIsTracked(before, a, b, clientOffers);
      OneMoreTurn(before, t, a);
      OneMoreTurn(before, t, b);
      assert before + [t] == turns;
      var m := MoveOf(t.call.op);
      if t.call.ch == a {
        KindOf(t.call.op);
        StartIsTracked(p, t.client, m, clientOffers);
        p := Started(p, t.client, m);
      } else if t.call.ch == b {
        FinishIsTracked(p, t.client, m, clientOffers);
        p := Finished(p, t.client, m);
      }
    }
  }

  lemma {:induction false} KindOf<T>(op: RingOp<T>)
    ensures MoveOf(op).In? == op.Offer?
  {
  }

  lemma {:induction false} NothingTracked<T>(a: nat, b: nat, clientOffers: bool)
    ensures var p := Progress([], None, [], None, true);
      && p.Valid(clientOffers) && p.First() == MovesOn<T>([], a) && p.Second() == MovesOn<T>([], b)
      && p.Owing(true) == None && p.Owing(false) == None
  {
  }

  lemma {:induction false} RingLevel<T>(queue: seq<T>, capacity: nat, ops: seq<RingOp<T>>)
    ensures |RunRing(queue, capacity, ops)| == RunLevel(|queue|, capacity, MovesOf(ops))
    decreases |ops|
  {
    hide RingAfter, MoveOf, LevelAfter;
    if ops == [] {
    } else {
      var n := |ops| - 1;
      RingLevel(queue, capacity, ops[..n]);
      OneRingLevel(RunRing(queue, capacity, ops[..n]), capacity, ops[n]);
      var moves := MovesOf(ops[..n]);
      assert (moves + [MoveOf(ops[n])])[..|moves|] == moves;
    }
  }

  lemma {:induction false} OneRingLevel<T>(queue: seq<T>, capacity: nat, op: RingOp<T>)
    ensures |RingAfter(queue, capacity, op)| == LevelAfter(|queue|, capacity, MoveOf(op))
  {
    if op.Offer? { FilledFits(queue, capacity, op.block); }
  }

  /**
    Every interleaving of the two ends, once both are through, is a run of overlaps.  Two channels of one
    capacity that start level are level after each of them iff each was harmless at the level it found;
    so a run whose overlaps all are leaves the rings level.
   */
  lemma {:induction false} InterleavedChannelsLevelIff<T>(
      queues: seq<seq<T>>, capacities: seq<nat>, turns: seq<Turn<T>>, a: nat, b: nat, clientOffers: bool)
    returns (run: seq<Overlap>)
    requires |queues| == |capacities| && a < |queues| && b < |queues| && a != b
    requires capacities[a] == capacities[b] && |queues[a]| == |queues[b]| <= capacities[a]
    requires Interleaved(turns, a, b, clientOffers)
    requires Owing(turns, a, b, true).None? && Owing(turns, a, b, false).None?
    ensures AllValid(run) && MovesOn(turns, a) == FirstOf(run) && MovesOn(turns, b) == SecondOf(run)
    ensures var level, capacity := |queues[a]|, capacities[a];
      && ((forall k :: 0 <= k <= |run| ==> LevelAt(level, capacity, run, k)) <==>
          (forall k :: 0 <= k < |run| ==> HarmlessAt(level, capacity, run, k)))
      && (|RunSide(queues, capacities, CallsOf(turns))[a]| == |RunSide(queues, capacities, CallsOf(turns))[b]| <==>
          LevelAt(level, capacity, run, |run|))
  {
    hide Interleaved, RunSide, RunRing, RunLevel, FirstOf, SecondOf, HarmlessAt, MovesOf, OnChannel, CallsOf;
    var p := InterleavingIsTracked(turns, a, b, clientOffers);
    run := p.run;
    assert FirstOf(run) + [] + [] + [] == FirstOf(run) && SecondOf(run) + [] == SecondOf(run);
    LevelThroughoutIff(|queues[a]|, capacities[a], run, |run|);
    assert run[..|run|] == run;
    ChannelsRunApart(queues, capacities, CallsOf(turns), a);
    ChannelsRunApart(queues, capacities, CallsOf(turns), b);
    RingLevel(queues[a], capacities[a], OnChannel(CallsOf(turns), a));
    RingLevel(queues[b], capacities[b], OnChannel(CallsOf(turns), b));
  }

  // ---- streams stay in step when the two ends do not overlap -----------------------------------

  /** What one whole cycle, or one whole packet, does: at most one call on each channel. */
  type Round<T> = seq<Option<RingOp<T>>>

  ghost function AfterRound<T>(queues: seq<seq<T>>, capacities: seq<nat>, round: Round<T>): (r: seq<seq<T>>)
    requires |queues| == |capacities| == |round|
    ensures |r| == |queues|
  {
    seq(|queues|, i requires 0 <= i < |queues| =>
          if round[i].Some? then RingAfter(queues[i], capacities[i], round[i].value) else queues[i])
  }

  /** A client's output cycle and input cycle as rounds. */
  ghost function OutputRound<T>(data: seq<T>, frames: nat, channels: nat, all: nat): (r: Round<T>)
    requires Span(frames, channels) <= |data|
    ensures |r| == all
  {
    seq(all, i requires 0 <= i < all => if i < channels then Some(Offer(Channel(data, i, frames, channels))) else None)
  }

  function InputRound<T>(frames: nat, channels: nat, all: nat): (r: Round<T>)
    ensures |r| == all
  {
    seq(all, i requires 0 <= i < all => if i < channels then Some(Take(frames)) else None)
  }

  /** The handler's cycles are rounds. */
  lemma {:induction false} CyclesAreRounds<T>(queues: seq<seq<T>>, capacities: seq<nat>, data: seq<T>, frames: nat,
        channels: nat)
    requires |queues| == |capacities| && channels <= |queues| && Span(frames, channels) <= |data|
    ensures AfterRound(queues, capacities, OutputRound(data, frames, channels, |queues|))
         == AfterOutput(queues, capacities, data, frames, channels, channels)
    ensures AfterRound(queues, capacities, InputRound(frames, channels, |queues|)) ==
      AfterInput(queues, frames, channels)
  {
    hide Channel, Filled, Span;
  }

  ghost function RunRounds<T>(queues: seq<seq<T>>, capacities: seq<nat>, rounds: seq<Round<T>>): (r: seq<seq<T>>)
    requires |queues| == |capacities| && forall i :: 0 <= i < |rounds| ==> |rounds[i]| == |queues|
    ensures |r| == |queues|
  {
    if rounds == [] then queues
    else AfterRound(RunRounds(queues, capacities, rounds[..|rounds| - 1]), capacities, rounds[|rounds| - 1])
  }

  /** Two calls that ask the same of their rings. */
  predicate Alike<T>(a: Option<RingOp<T>>, b: Option<RingOp<T>>) {
    a.Some? == b.Some? && (a.Some? ==> a.value.Offer? == b.value.Offer? && Size(a.value) == Size(b.value))
  }

  /**
    Client cycles and packets of any streams, in any order, none overlapping another: two channels that
    every round treats alike, as it does two channels of one stream, stay level over every run, however
    often they overrun or underrun.
   */
  lemma {:induction false} StreamsStayInStep<T>(queues: seq<seq<T>>, capacities: seq<nat>, rounds: seq<Round<T>>,
        a: nat, b: nat)
    requires |queues| == |capacities| && a < |queues| && b < |queues|
    requires capacities[a] == capacities[b] && |queues[a]| == |queues[b]|
    requires forall i :: 0 <= i < |rounds| ==> |rounds[i]| == |queues| && Alike(rounds[i][a], rounds[i][b])
    ensures var after := RunRounds(queues, capacities, rounds); |after[a]| == |after[b]|
    decreases |rounds|
  {
    hide RingAfter;
    if rounds == [] {
    } else {
      var n := |rounds| - 1;
      StreamsStayInStep(queues, capacities, rounds[..n], a, b);
      var q := RunRounds(queues, capacities, rounds[..n]);
      if rounds[n][a].Some? {
        OneCallLevel(q[a], capacities[a], rounds[n][a].value);
        OneCallLevel(q[b], capacities[b], rounds[n][b].value);
      }
    }
  }
}
