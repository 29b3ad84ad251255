/**
  The ring of RingBuffer.hpp driven by two threads at once.

  A write is: load both indices, copy element by element, publish the write index; a read is the
  mirror image.  Every load, every element copied and every publication is a step of its own and
  the two threads interleave at will.  An atomic index is the list of the values ever stored to it;
  a load by the other thread returns any of them that is not older than the last one that thread
  saw, which is what the C++ memory model guarantees for one atomic.  `produced`, `consumed`,
  `writePos` and `readPos` are history: no guard reads them.
 */
module SpscProtocol {
  import opened Counting
  import opened RingIndex
  import opened RingBuffer

  datatype Writer<T> = WIdle | WCopying(data: seq<T>, writeIdx: nat, toWrite: nat, done: nat)
  datatype Reader<T> = RIdle | RCopying(readIdx: nat, toRead: nat, out: seq<T>)

  datatype State<T> = State(
    buffer: seq<T>,
    writeStores: seq<nat>,     // values stored to writeIndex_, in modification order
    readStores: seq<nat>,      // values stored to readIndex_
    writerSaw: nat,            // which of readStores the producer loaded last
    readerSaw: nat,            // which of writeStores the consumer loaded last
    writer: Writer<T>,
    reader: Reader<T>,
    produced: seq<T>,          // everything published so far
    consumed: seq<T>,          // everything handed to the consumer so far
    writePos: seq<nat>,        // running total behind each of writeStores
    readPos: seq<nat>)

  predicate Init<T(==)>(s: State<T>) {
    && |s.buffer| >= 1
    && s.writeStores == [0] && s.readStores == [0] && s.writerSaw == 0 && s.readerSaw == 0
    && s.writer == WIdle && s.reader == RIdle
    && s.produced == [] && s.consumed == [] && s.writePos == [0] && s.readPos == [0]
  }

  function Last(xs: seq<nat>): nat requires xs != [] { xs[|xs| - 1] }

  // ---- the producer's steps -------------------------------------------------------------------

  ghost predicate WriteLoad<T>(s: State<T>, s': State<T>, data: seq<T>, k: nat) {
    && s.writer.WIdle? && s.writeStores != []
    && s.writerSaw <= k < |s.readStores|
    && var w, r := Last(s.writeStores), s.readStores[k];
    && w < |s.buffer| && r < |s.buffer|
    && var n := Min(|data|, AvailableWrite(w, r, |s.buffer|));
    && s' == s.(writerSaw := k, writer := if n == 0 then WIdle else WCopying(data, w, n, 0))
  }

  ghost predicate WriteCopy<T>(s: State<T>, s': State<T>) {
    && s.writer.WCopying? && s.writer.done < s.writer.toWrite <= |s.writer.data| && s.writer.writeIdx < |s.buffer|
    && var c := s.writer;
    && var slot := ChunkSlot(c.writeIdx, c.toWrite, c.done, |s.buffer|);
    && slot < |s.buffer|
    && s' == s.(buffer := s.buffer[slot := c.data[c.done]], writer := c.(done := c.done + 1))
  }

  ghost predicate WritePublish<T>(s: State<T>, s': State<T>) {
    && s.writer.WCopying? && s.writer.done == s.writer.toWrite <= |s.writer.data|
    && var c := s.writer;
    && s' == s.(writeStores := s.writeStores + [Wrap(c.writeIdx + c.toWrite, |s.buffer|)], writer := WIdle,
                produced := s.produced + c.data[..c.toWrite],
                writePos := s.writePos + [|s.produced| + c.toWrite])
  }

  // ---- the consumer's steps -------------------------------------------------------------------

  ghost predicate ReadLoad<T>(s: State<T>, s': State<T>, count: nat, k: nat) {
    && s.reader.RIdle? && s.readStores != []
    && s.readerSaw <= k < |s.writeStores|
    && var r, w := Last(s.readStores), s.writeStores[k];
    && w < |s.buffer| && r < |s.buffer|
    && var n := Min(count, AvailableRead(r, w, |s.buffer|));
    && s' == s.(readerSaw := k, reader := if n == 0 then RIdle else RCopying(r, n, []))
  }

  ghost predicate ReadCopy<T>(s: State<T>, s': State<T>) {
    && s.reader.RCopying? && |s.reader.out| < s.reader.toRead && s.reader.readIdx < |s.buffer|
    && var c := s.reader;
    && var slot := ChunkSlot(c.readIdx, c.toRead, |c.out|, |s.buffer|);
    && slot < |s.buffer|
    && s' == s.(reader := c.(out := c.out + [s.buffer[slot]]))
  }

  ghost predicate ReadPublish<T>(s: State<T>, s': State<T>) {
    && s.reader.RCopying? && |s.reader.out| == s.reader.toRead
    && var c := s.reader;
    && s' == s.(readStores := s.readStores + [Wrap(c.readIdx + c.toRead, |s.buffer|)], reader := RIdle,
                consumed := s.consumed + c.out,
                readPos := s.readPos + [|s.consumed| + c.toRead])
  }

  datatype Step<T> =
    | LoadForWrite(data: seq<T>, seen: nat) | CopyIn | PublishWrite
    | LoadForRead(count: nat, seen: nat) | CopyOut | PublishRead

  ghost predicate Next<T>(s: State<T>, s': State<T>, step: Step<T>) {
    match step
    case LoadForWrite(data, k) => WriteLoad(s, s', data, k)
    case CopyIn => WriteCopy(s, s')
    case PublishWrite => WritePublish(s, s')
    case LoadForRead(count, k) => ReadLoad(s, s', count, k)
    case CopyOut => ReadCopy(s, s')
    case PublishRead => ReadPublish(s, s')
  }

  /** A finite run of the two threads: any interleaving, any staleness. */
  ghost predicate Run<T>(states: seq<State<T>>, steps: seq<Step<T>>) {
    && |states| == |steps| + 1 && Init(states[0])
    && forall i :: 0 <= i < |steps| ==> Next(states[i], states[i + 1], steps[i])
  }

  // ---- the invariant --------------------------------------------------------------------------

  ghost predicate IndexHistory(stores: seq<nat>, pos: seq<nat>, total: nat, size: nat)
    requires size > 0
  {
    && |stores| == |pos| > 0 && Last(pos) == total
    && (forall i, j :: 0 <= i <= j < |pos| ==> pos[i] <= pos[j])
    && (forall i :: 0 <= i < |pos| ==> stores[i] == pos[i] % size)
  }

  ghost predicate Inv<T>(s: State<T>) {
    var size, written, taken := |s.buffer|, |s.produced|, |s.consumed|;
    && size > 0
    && IndexHistory(s.writeStores, s.writePos, written, size)
    && IndexHistory(s.readStores, s.readPos, taken, size)
    && s.writerSaw < |s.readPos| && s.readerSaw < |s.writePos|
    && taken <= s.writePos[s.readerSaw] && written < s.readPos[s.writerSaw] + size
    && s.consumed <= s.produced
    && (forall p :: taken <= p < written ==> s.buffer[p % size] == s.produced[p])
    && WriterInv(s) && ReaderInv(s)
  }

  ghost predicate WriterInv<T>(s: State<T>)
    requires |s.buffer| > 0 && s.writerSaw < |s.readPos|
  {
    s.writer.WCopying? ==>
      var c, written := s.writer, |s.produced|;
      && c.writeIdx == written % |s.buffer|
      && 0 < c.toWrite && c.done <= c.toWrite <= |c.data|
      && written + c.toWrite < s.readPos[s.writerSaw] + |s.buffer|
      && forall i :: 0 <= i < c.done ==> s.buffer[(written + i) % |s.buffer|] == c.data[i]
  }

  ghost predicate ReaderInv<T>(s: State<T>)
    requires |s.buffer| > 0 && s.readerSaw < |s.writePos|
  {
    s.reader.RCopying? ==>
      var c, taken := s.reader, |s.consumed|;
      && c.readIdx == taken % |s.buffer|
      && 0 < c.toRead && |c.out| <= c.toRead
      && taken + c.toRead <= s.writePos[s.readerSaw] <= |s.produced|
      && c.out == s.produced[taken..taken + |c.out|]
  }

  lemma {:induction false} WriteLoadKeepsInv<T>(s: State<T>, s': State<T>, data: seq<T>, k: nat)
    requires Inv(s) && WriteLoad(s, s', data, k)
    ensures Inv(s')
  {
    AvailabilityIsDistance(s.readPos[k], |s.produced|, |s.buffer|);
  }

  /** The slot the producer overwrites belongs to no element still queued and to none it copied before. */
  lemma {:induction false} WriteCopyKeepsInv<T>(s: State<T>, s': State<T>)
    requires Inv(s) && WriteCopy(s, s')
    ensures Inv(s')
  {
    var c, size, written, taken := s.writer, |s.buffer|, |s.produced|, |s.consumed|;
    ChunkSlotIsPosition(written, c.toWrite, c.done, size);
    assert s.readPos[s.writerSaw] <= taken;
    forall p | taken <= p < written
      ensures s'.buffer[p % size] == s'.produced[p]
    {
      NearbySlotsDiffer(p, written + c.done, size);
    }
    forall i | 0 <= i < c.done + 1
      ensures s'.buffer[(written + i) % size] == c.data[i]
    {
      if i < c.done {
        NearbySlotsDiffer(written + i, written + c.done, size);
      }
    }
  }

  lemma {:induction false} AppendStore(stores: seq<nat>, pos: seq<nat>, total: nat, n: nat, size: nat)
    requires 0 < size && n < size && IndexHistory(stores, pos, total, size)
    ensures IndexHistory(stores + [Wrap(total % size + n, size)], pos + [total + n], total + n, size)
  {
    AdvanceWraps(total, n, size);
  }

  lemma {:induction false} WritePublishKeepsInv<T>(s: State<T>, s': State<T>)
    requires Inv(s) && WritePublish(s, s')
    ensures Inv(s')
  {
    var c, size, written := s.writer, |s.buffer|, |s.produced|;
    assert s.readPos[s.writerSaw] <= |s.consumed|;
    AppendStore(s.writeStores, s.writePos, written, c.toWrite, size);
    forall p | |s'.consumed| <= p < |s'.produced|
      ensures s'.buffer[p % size] == s'.produced[p]
    {
      if p >= written {
        assert s.buffer[(written + (p - written)) % size] == c.data[p - written];
      }
    }
  }

  lemma {:induction false} ReadLoadKeepsInv<T>(s: State<T>, s': State<T>, count: nat, k: nat)
    requires Inv(s) && ReadLoad(s, s', count, k)
    ensures Inv(s')
  {
    assert s.readPos[s.writerSaw] <= |s.consumed|;
    AvailabilityIsDistance(|s.consumed|, s.writePos[k], |s.buffer|);
  }

  lemma {:induction false} ReadCopyKeepsInv<T>(s: State<T>, s': State<T>)
    requires Inv(s) && ReadCopy(s, s')
    ensures Inv(s')
  {
    var c, taken := s.reader, |s.consumed|;
    assert s.readPos[s.writerSaw] <= taken;
    ChunkSlotIsPosition(taken, c.toRead, |c.out|, |s.buffer|);
  }

  lemma {:induction false} ReadPublishKeepsInv<T>(s: State<T>, s': State<T>)
    requires Inv(s) && ReadPublish(s, s')
    ensures Inv(s')
  {
    var c, taken := s.reader, |s.consumed|;
    assert s.readPos[s.writerSaw] <= taken;
    AppendStore(s.readStores, s.readPos, taken, c.toRead, |s.buffer|);
  }

  lemma {:induction false} NextKeepsInv<T>(s: State<T>, s': State<T>, step: Step<T>)
    requires Inv(s) && Next(s, s', step)
    ensures Inv(s')
  {
    match step
    case LoadForWrite(data, k) => WriteLoadKeepsInv(s, s', data, k);
    case CopyIn => WriteCopyKeepsInv(s, s');
    case PublishWrite => WritePublishKeepsInv(s, s');
    case LoadForRead(count, k) => ReadLoadKeepsInv(s, s', count, k);
    case CopyOut => ReadCopyKeepsInv(s, s');
    case PublishRead => ReadPublishKeepsInv(s, s');
  }

  lemma {:induction false} RunKeepsInv<T>(states: seq<State<T>>, steps: seq<Step<T>>, i: nat)
    requires Run(states, steps) && i < |states|
    ensures Inv(states[i])
  {
    if i == 0 {
    } else {
      RunKeepsInv(states, steps, i - 1);
      NextKeepsInv(states[i - 1], states[i], steps[i - 1]);
    }
  }

  // ---- what the protocol guarantees -----------------------------------------------------------

  /** What the published indices and the slots say is queued. */
  ghost function Buffered<T>(s: State<T>): seq<T>
    requires s.writeStores != [] && s.readStores != []
    requires Last(s.writeStores) < |s.buffer| && Last(s.readStores) < |s.buffer|
  {
    Queued(s.buffer, Last(s.readStores), Last(s.writeStores))
  }

  ghost predicate WellFormed<T>(s: State<T>) {
    && s.writeStores != [] && s.readStores != []
    && Last(s.writeStores) < |s.buffer| && Last(s.readStores) < |s.buffer|
  }

  /** All the slots of the copy the producer is in, those already written included. */
  ghost function WriterSlots<T>(s: State<T>): set<nat>
    requires s.writer.WCopying? ==> s.writer.writeIdx < |s.buffer|
  {
    if s.writer.WIdle? then {}
    else set i | 0 <= i < s.writer.toWrite :: ChunkSlot(s.writer.writeIdx, s.writer.toWrite, i, |s.buffer|)
  }

  ghost function ReaderSlots<T>(s: State<T>): set<nat>
    requires s.reader.RCopying? ==> s.reader.readIdx < |s.buffer|
  {
    if s.reader.RIdle? then {}
    else set i | 0 <= i < s.reader.toRead :: ChunkSlot(s.reader.readIdx, s.reader.toRead, i, |s.buffer|)
  }

  lemma {:induction false} QueuedIsUnread<T>(s: State<T>)
    requires Inv(s)
    ensures WellFormed(s) && Buffered(s) == s.produced[|s.consumed|..]
  {
    var size, written, taken := |s.buffer|, |s.produced|, |s.consumed|;
    assert s.readPos[s.writerSaw] <= taken;
    AvailabilityIsDistance(taken, written, size);
    var q := Buffered(s);
    forall i | 0 <= i < |q|
      ensures q[i] == s.produced[taken + i]
    {
      AdvanceWraps(taken, i, size);
      assert s.buffer[(taken + i) % size] == s.produced[taken + i];
    }
  }

  lemma {:induction false} SlotsDiffer<T>(s: State<T>, i: nat, j: nat)
    requires Inv(s) && s.writer.WCopying? && s.reader.RCopying?
    requires i < s.writer.toWrite && j < s.reader.toRead
    ensures ChunkSlot(s.writer.writeIdx, s.writer.toWrite, i, |s.buffer|)
         != ChunkSlot(s.reader.readIdx, s.reader.toRead, j, |s.buffer|)
  {
    assert s.readPos[s.writerSaw] <= |s.consumed|;
    ChunkSlotIsPosition(|s.produced|, s.writer.toWrite, i, |s.buffer|);
    ChunkSlotIsPosition(|s.consumed|, s.reader.toRead, j, |s.buffer|);
    NearbySlotsDiffer(|s.consumed| + j, |s.produced| + i, |s.buffer|);
  }

  lemma {:induction false} CopiesAreInBounds<T>(s: State<T>)
    requires Inv(s)
    ensures s.writer.WCopying? ==> s.writer.writeIdx < |s.buffer| && s.writer.toWrite < |s.buffer|
    ensures s.reader.RCopying? ==> s.reader.readIdx < |s.buffer| && s.reader.toRead < |s.buffer|
    ensures forall slot :: slot in WriterSlots(s) + ReaderSlots(s) ==> slot < |s.buffer|
  {
  }

  lemma {:induction false} CopiesAreDisjoint<T>(s: State<T>)
    requires Inv(s)
    ensures s.writer.WCopying? ==> s.writer.writeIdx < |s.buffer|
    ensures s.reader.RCopying? ==> s.reader.readIdx < |s.buffer|
    ensures WriterSlots(s) !! ReaderSlots(s)
  {
    CopiesAreInBounds(s);
    if s.writer.WCopying? && s.reader.RCopying? {
      var w, r := s.writer, s.reader;
      forall i: nat, j: nat | i < w.toWrite && j < r.toRead
        ensures ChunkSlot(w.writeIdx, w.toWrite, i, |s.buffer|) != ChunkSlot(r.readIdx, r.toRead, j, |s.buffer|)
      {
        SlotsDiffer(s, i, j);
      }
    }
  }

  /**
    In every state of every run, whatever the interleaving and however stale the loads: nothing is
    lost, duplicated or reordered, the ring never holds more than its capacity, and the two copies
    in flight touch disjoint slots inside the buffer.
   */
  lemma {:induction false} Conservation<T>(states: seq<State<T>>, steps: seq<Step<T>>, i: nat)
    requires Run(states, steps) && i < |states|
    ensures WellFormed(states[i])
    ensures states[i].consumed + Buffered(states[i]) == states[i].produced
    ensures |Buffered(states[i])| <= |states[i].buffer| - 1
    ensures states[i].writer.WCopying? ==> states[i].writer.writeIdx < |states[i].buffer|
    ensures states[i].reader.RCopying? ==> states[i].reader.readIdx < |states[i].buffer|
    ensures WriterSlots(states[i]) !! ReaderSlots(states[i])
    ensures forall slot :: slot in WriterSlots(states[i]) + ReaderSlots(states[i]) ==> slot < |states[i].buffer|
  {
    RunKeepsInv(states, steps, i);
    QueuedIsUnread(states[i]);
    CopiesAreInBounds(states[i]);
    CopiesAreDisjoint(states[i]);
  }

  /** What a step does to an unbounded queue. */
  datatype FifoEvent<T> = Nothing | Enqueue(xs: seq<T>) | Dequeue(xs: seq<T>)

  ghost predicate FifoStep<T>(q: seq<T>, q': seq<T>, event: FifoEvent<T>) {
    match event
    case Nothing => q' == q
    case Enqueue(xs) => xs != [] && q' == q + xs
    case Dequeue(xs) => xs != [] && q == xs + q'
  }

  /** What a caller sees of a step: the elements a returning `write` took, or a returning `read` gave. */
  function Observed<T>(s: State<T>, step: Step<T>): FifoEvent<T> {
    match step
    case PublishWrite =>
      if s.writer.WCopying? && s.writer.toWrite <= |s.writer.data|
      then Enqueue(s.writer.data[..s.writer.toWrite]) else Nothing
    case PublishRead => if s.reader.RCopying? then Dequeue(s.reader.out) else Nothing
    case _ => Nothing
  }

  lemma {:induction false} NextRefinesFifo<T>(s: State<T>, s': State<T>, step: Step<T>)
    requires Inv(s) && Inv(s') && Next(s, s', step)
    ensures FifoStep(s.produced[|s.consumed|..], s'.produced[|s'.consumed|..], Observed(s, step))
  {
    if step.PublishWrite? {
      assert s'.produced == s.produced + s.writer.data[..s.writer.toWrite];
    } else if step.PublishRead? {
      assert s.produced[|s.consumed|..] == s.reader.out + s.produced[|s.consumed| + |s.reader.out|..];
    }
  }

  /** Refinement: each step of the two threads is a step of an unbounded FIFO, with the data callers saw. */
  lemma {:induction false} RefinesFifo<T>(states: seq<State<T>>, steps: seq<Step<T>>, i: nat)
    requires Run(states, steps) && i < |steps|
    ensures WellFormed(states[i]) && WellFormed(states[i + 1])
    ensures FifoStep(Buffered(states[i]), Buffered(states[i + 1]), Observed(states[i], steps[i]))
  {
    RunKeepsInv(states, steps, i);
    RunKeepsInv(states, steps, i + 1);
    QueuedIsUnread(states[i]);
    QueuedIsUnread(states[i + 1]);
    NextRefinesFifo(states[i], states[i + 1], steps[i]);
  }

  /** No copy is ever stuck: a thread that is mid-copy can always take its next step, in bounds. */
  lemma {:induction false} CopiesNeverStick<T>(states: seq<State<T>>, steps: seq<Step<T>>, i: nat)
    requires Run(states, steps) && i < |states|
    ensures states[i].writer.WCopying? ==> exists s' :: WriteCopy(states[i], s') || WritePublish(states[i], s')
    ensures states[i].reader.RCopying? ==> exists s' :: ReadCopy(states[i], s') || ReadPublish(states[i], s')
  {
    RunKeepsInv(states, steps, i);
    CopiesAreInBounds(states[i]);
    var s := states[i];
    if s.writer.WCopying? {
      var c := s.writer;
      if c.done < c.toWrite {
        var slot := ChunkSlot(c.writeIdx, c.toWrite, c.done, |s.buffer|);
        assert slot in WriterSlots(s);
        assert WriteCopy(s, s.(buffer := s.buffer[slot := c.data[c.done]], writer := c.(done := c.done + 1)));
      } else {
        assert WritePublish(s, s.(writeStores := s.writeStores + [Wrap(c.writeIdx + c.toWrite, |s.buffer|)],
          writer := WIdle, produced := s.produced + c.data[..c.toWrite],
          writePos := s.writePos + [|s.produced| + c.toWrite]));
      }
    }
    if s.reader.RCopying? {
      var c := s.reader;
      if |c.out| < c.toRead {
        var slot := ChunkSlot(c.readIdx, c.toRead, |c.out|, |s.buffer|);
        assert slot in ReaderSlots(s);
        assert ReadCopy(s, s.(reader := c.(out := c.out + [s.buffer[slot]])));
      } else {
        assert ReadPublish(s, s.(readStores := s.readStores + [Wrap(c.readIdx + c.toRead, |s.buffer|)],
          reader := RIdle, consumed := s.consumed + c.out, readPos := s.readPos + [|s.consumed| + c.toRead]));
      }
    }
  }

  // ---- how much a call moves ------------------------------------------------------------------

  /** What the producer takes of `data` if the k-th stored read index is the one its load returned. */
  ghost function Accepted<T>(s: State<T>, data: seq<T>, k: nat): int
    requires k < |s.readPos|
  {
    var free := |s.buffer| - 1 - (|s.produced| - s.readPos[k]);
    if |data| <= free then |data| else free
  }

  /** What the consumer is given if the k-th stored write index is the one its load returned. */
  ghost function Granted<T>(s: State<T>, count: nat, k: nat): int
    requires k < |s.writePos|
  {
    var queued := s.writePos[k] - |s.consumed|;
    if count <= queued then count else queued
  }

  /**
    A load commits its call to all that fits, or all that is there, by the index it saw; nothing ends
    the call at once.
   */
  lemma {:induction false} LoadTakesAll<T>(s: State<T>, s': State<T>, step: Step<T>)
    requires Inv(s) && Next(s, s', step)
    ensures step.LoadForWrite? ==> step.seen < |s.readPos| && Accepted(s, step.data, step.seen) >= 0
    ensures step.LoadForWrite? && Accepted(s, step.data, step.seen) == 0 ==> s'.writer == WIdle
    ensures step.LoadForWrite? && Accepted(s, step.data, step.seen) > 0 ==>
      s'.writer == WCopying(step.data, Last(s.writeStores), Accepted(s, step.data, step.seen), 0)
    ensures step.LoadForRead? ==> step.seen < |s.writePos| && Granted(s, step.count, step.seen) >= 0
    ensures step.LoadForRead? && Granted(s, step.count, step.seen) == 0 ==> s'.reader == RIdle
    ensures step.LoadForRead? && Granted(s, step.count, step.seen) > 0 ==>
      s'.reader == RCopying(Last(s.readStores), Granted(s, step.count, step.seen), [])
  {
    assert s.readPos[s.writerSaw] <= |s.consumed|;
    if step.LoadForWrite? {
      AvailabilityIsDistance(s.readPos[step.seen], |s.produced|, |s.buffer|);
    } else if step.LoadForRead? {
      AvailabilityIsDistance(|s.consumed|, s.writePos[step.seen], |s.buffer|);
    }
  }

  predicate ByProducer<T>(step: Step<T>) { step.LoadForWrite? || step.CopyIn? || step.PublishWrite? }

  /** Step j of the run loaded what the producer is copying before step i; since then it only copied. */
  ghost predicate WriteBegan<T>(states: seq<State<T>>, steps: seq<Step<T>>, j: nat, i: nat)
    requires |states| == |steps| + 1 && i <= |steps|
  {
    && j < i && steps[j].LoadForWrite? && steps[j].seen < |states[j].readPos|
    && (forall x :: j < x < i && ByProducer(steps[x]) ==> steps[x].CopyIn?)
    && states[i].produced == states[j].produced && |states[i].buffer| == |states[j].buffer|
    && states[i].writer.WCopying? && states[i].writer.data == steps[j].data
    && states[i].writer.toWrite == Accepted(states[j], steps[j].data, steps[j].seen)
  }

  ghost predicate ReadBegan<T>(states: seq<State<T>>, steps: seq<Step<T>>, j: nat, i: nat)
    requires |states| == |steps| + 1 && i <= |steps|
  {
    && j < i && steps[j].LoadForRead? && steps[j].seen < |states[j].writePos|
    && (forall x :: j < x < i && !ByProducer(steps[x]) ==> steps[x].CopyOut?)
    && states[i].consumed == states[j].consumed
    && states[i].reader.RCopying? && states[i].reader.toRead == Granted(states[j], steps[j].count, steps[j].seen)
  }

  lemma {:induction false} WriteBehind<T>(states: seq<State<T>>, steps: seq<Step<T>>, i: nat) returns (j: nat)
    requires Run(states, steps) && i < |states| && states[i].writer.WCopying?
    ensures WriteBegan(states, steps, j, i)
  {
    hide Inv;
    RunKeepsInv(states, steps, i - 1);
    assert Next(states[i - 1], states[i], steps[i - 1]);
    LoadTakesAll(states[i - 1], states[i], steps[i - 1]);
    if steps[i - 1].LoadForWrite? {
      j := i - 1;
    } else {
      j := WriteBehind(states, steps, i - 1);
    }
  }

  lemma {:induction false} ReadBehind<T>(states: seq<State<T>>, steps: seq<Step<T>>, i: nat) returns (j: nat)
    requires Run(states, steps) && i < |states| && states[i].reader.RCopying?
    ensures ReadBegan(states, steps, j, i)
  {
    hide Inv;
    RunKeepsInv(states, steps, i - 1);
    assert Next(states[i - 1], states[i], steps[i - 1]);
    LoadTakesAll(states[i - 1], states[i], steps[i - 1]);
    if steps[i - 1].LoadForRead? {
      j := i - 1;
    } else {
      j := ReadBehind(states, steps, i - 1);
    }
  }

  /** In every run a write publishes the data of its own load, all of it or up to what that load showed free. */
  lemma {:induction false} WritePublishesItsLoad<T>(states: seq<State<T>>, steps: seq<Step<T>>, i: nat) returns (j: nat)
    requires Run(states, steps) && i < |steps| && steps[i].PublishWrite?
    ensures WriteBegan(states, steps, j, i)
    ensures var data, n := steps[j].data, Accepted(states[j], steps[j].data, steps[j].seen);
      0 < n <= |data| && Observed(states[i], steps[i]) == Enqueue(data[..n])
  {
    assert Next(states[i], states[i + 1], steps[i]);
    RunKeepsInv(states, steps, i);
    j := WriteBehind(states, steps, i);
  }

  /** And a read hands out as many as its own load asked for, or all it showed queued. */
  lemma {:induction false} ReadPublishesItsLoad<T>(states: seq<State<T>>, steps: seq<Step<T>>, i: nat) returns (j: nat)
    requires Run(states, steps) && i < |steps| && steps[i].PublishRead?
    ensures ReadBegan(states, steps, j, i) && WellFormed(states[i])
    ensures var n := Granted(states[j], steps[j].count, steps[j].seen);
      0 < n <= |Buffered(states[i])| && Observed(states[i], steps[i]) == Dequeue(Buffered(states[i])[..n])
  {
    assert Next(states[i], states[i + 1], steps[i]);
    RunKeepsInv(states, steps, i);
    QueuedIsUnread(states[i]);
    j := ReadBehind(states, steps, i);
  }

  /** The queue as the object of one thread sees it, with the latest index in every load. */
  lemma {:induction false} LatestShowsAll<T>(s: State<T>)
    requires Inv(s)
    ensures WellFormed(s) && |s.readPos| == |s.readStores| > 0 && |s.writePos| == |s.writeStores| > 0
    ensures |Buffered(s)| == |s.produced| - s.readPos[|s.readStores| - 1] ==
      s.writePos[|s.writeStores| - 1] - |s.consumed|
  {
    QueuedIsUnread(s);
  }

  /** A write nobody disturbs, on a load of the latest index, appends the longest prefix that fits. */
  lemma {:induction false} UndisturbedWrite<T>(states: seq<State<T>>, steps: seq<Step<T>>, j: nat, i: nat)
    requires Run(states, steps) && j < i < |steps| && steps[j].LoadForWrite? && steps[i].PublishWrite?
    requires steps[j].seen == |states[j].readStores| - 1 && forall x :: j < x < i ==> steps[x].CopyIn?
    ensures WellFormed(states[j]) && WellFormed(states[i + 1])
    ensures var data, before := steps[j].data, Buffered(states[j]);
      var n := Min(|data|, |states[j].buffer| - 1 - |before|);
      0 <= n <= |data| && Buffered(states[i + 1]) == before + data[..n]
  {
    hide Inv;
    RunKeepsInv(states, steps, j);
    RunKeepsInv(states, steps, i);
    LatestShowsAll(states[j]);
    RefinesFifo(states, steps, i);
    var load := WritePublishesItsLoad(states, steps, i);
    assert load == j;
    OnlyCopying(states, steps, j, i);
  }

  /** A read nobody disturbs, on a load of the latest index, moves the oldest elements, as many as asked for or all. */
  lemma {:induction false} UndisturbedRead<T>(states: seq<State<T>>, steps: seq<Step<T>>, j: nat, i: nat)
    requires Run(states, steps) && j < i < |steps| && steps[j].LoadForRead? && steps[i].PublishRead?
    requires steps[j].seen == |states[j].writeStores| - 1 && forall x :: j < x < i ==> steps[x].CopyOut?
    ensures WellFormed(states[j]) && WellFormed(states[i + 1])
    ensures var before := Buffered(states[j]);
      var n := Min(steps[j].count, |before|);
      && Observed(states[i], steps[i]) == Dequeue(before[..n]) && Buffered(states[i + 1]) == before[n..]
  {
    hide Inv;
    RunKeepsInv(states, steps, j);
    RunKeepsInv(states, steps, i);
    LatestShowsAll(states[j]);
    RefinesFifo(states, steps, i);
    var load := ReadPublishesItsLoad(states, steps, i);
    assert load == j;
    OnlyCopying(states, steps, j, i);
  }

  /** Nothing but a publication changes the queue. */
  lemma {:induction false} OnlyCopying<T>(states: seq<State<T>>, steps: seq<Step<T>>, j: nat, i: nat)
    requires Run(states, steps) && j <= i < |states|
    requires forall x :: j <= x < i ==> !steps[x].PublishWrite? && !steps[x].PublishRead?
    ensures WellFormed(states[j]) && WellFormed(states[i]) && Buffered(states[i]) == Buffered(states[j])
    decreases i
  {
    if i == j {
      RunKeepsInv(states, steps, i);
      QueuedIsUnread(states[i]);
    } else {
      OnlyCopying(states, steps, j, i - 1);
      RefinesFifo(states, steps, i - 1);
    }
  }
}
