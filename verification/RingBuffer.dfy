/**
  Lock-free single-producer single-consumer ring (packages/aes67-core/Shared/RingBuffer.hpp).

  `RingIndex` holds the index arithmetic both sides share, `RingBuffer` the ring as an object
  driven by one thread at a time.  The interleaved protocol is in SpscProtocol.dfy.
 */
module RingIndex {
  import opened Counting

  /** The single-subtraction wrap of an index that has just been advanced. */
  function Wrap(index: nat, size: nat): nat { if index >= size then index - size else index }

  function AvailableRead(readIdx: nat, writeIdx: nat, size: nat): nat
    requires readIdx < size && writeIdx < size
  {
    if writeIdx >= readIdx then writeIdx - readIdx else size - readIdx + writeIdx
  }

  /** One slot is kept as a sentinel, so that full and empty differ. */
  function AvailableWrite(writeIdx: nat, readIdx: nat, size: nat): nat
    requires readIdx < size && writeIdx < size
  {
    if readIdx > writeIdx then readIdx - writeIdx - 1 else size - writeIdx + readIdx - 1
  }

  /** Where the i-th element of a two-chunk copy of `total` elements starting at `start` lands. */
  function ChunkSlot(start: nat, total: nat, i: nat, size: nat): nat
    requires start < size && i < total
  {
    var firstChunk := Min(total, size - start);
    if i < firstChunk then start + i else i - firstChunk
  }

  /** Advancing a position by less than the ring's size is one `Wrap` of its slot. */
  lemma {:induction false} AdvanceWraps(pos: nat, n: nat, size: nat)
    requires 0 < size && n < size
    ensures (pos + n) % size == Wrap(pos % size + n, size) < size
  {
    var q, r := pos / size, pos % size;
    if r + n >= size {
      assert pos + n == (q + 1) * size + (r + n - size);
      ModUnique(pos + n, q + 1, r + n - size, size);
    } else {
      ModUnique(pos + n, q, r + n, size);
    }
  }

  /** Two positions less than a ring apart never share a slot. */
  lemma {:induction false} NearbySlotsDiffer(p: nat, q: nat, size: nat)
    requires p < q < p + size
    ensures p % size != q % size
  {
    AdvanceWraps(p, q - p, size);
  }

  /** The two availability helpers measure the distance between the running totals. */
  lemma {:induction false} AvailabilityIsDistance(readPos: nat, writePos: nat, size: nat)
    requires readPos <= writePos < readPos + size
    ensures AvailableRead(readPos % size, writePos % size, size) == writePos - readPos
    ensures AvailableWrite(writePos % size, readPos % size, size) == size - 1 - (writePos - readPos)
  {
    AdvanceWraps(readPos, writePos - readPos, size);
  }

  /** The two-chunk copy touches exactly the slots of the next positions, in order. */
  lemma {:induction false} ChunkSlotIsPosition(pos: nat, total: nat, i: nat, size: nat)
    requires i < total < size
    ensures ChunkSlot(pos % size, total, i, size) == (pos + i) % size
  {
    AdvanceWraps(pos, i, size);
  }
}

module RingBuffer {
  import opened Counting
  import opened RingIndex

  /** What a reader of the slots finds between the two indices. */
  ghost function Queued<T>(slots: seq<T>, readIdx: nat, writeIdx: nat): seq<T>
    requires readIdx < |slots| && writeIdx < |slots|
  {
    var n := AvailableRead(readIdx, writeIdx, |slots|);
    seq(n, i requires 0 <= i < n => slots[Wrap(readIdx + i, |slots|)])
  }

  /** How many slots after `start` slot `k` lies, going round. */
  function Ahead(k: nat, start: nat, size: nat): nat
    requires k < size && start < size
  {
    if k >= start then k - start else k + size - start
  }

  /** `after` is `before` with `data` laid over the n slots from `start`, wrapping once. */
  ghost predicate Overlaid<T>(before: seq<T>, after: seq<T>, start: nat, data: seq<T>, n: nat)
    requires start < |before|
  {
    && |before| == |after| && n <= |data|
    && forall k :: 0 <= k < |after| ==>
      after[k] == if Ahead(k, start, |after|) < n then data[Ahead(k, start, |after|)] else before[k]
  }

  lemma {:induction false} OverlayAppends<T>(before: seq<T>, after: seq<T>, readIdx: nat, writeIdx: nat, data: seq<T>,
        n: nat)
    requires readIdx < |before| && writeIdx < |before|
    requires n <= AvailableWrite(writeIdx, readIdx, |before|)
    requires Overlaid(before, after, writeIdx, data, n)
    ensures Queued(after, readIdx, Wrap(writeIdx + n, |before|)) == Queued(before, readIdx, writeIdx) + data[..n]
  {
    var queued := AvailableRead(readIdx, writeIdx, |before|);
    var q := Queued(after, readIdx, Wrap(writeIdx + n, |before|));
    assert |q| == queued + n;
    forall i | 0 <= i < |q|
      ensures q[i] == (Queued(before, readIdx, writeIdx) + data[..n])[i]
    {
      assert q[i] == after[Wrap(readIdx + i, |after|)];
    }
  }

  lemma {:induction false} ConsumingDrops<T>(slots: seq<T>, readIdx: nat, writeIdx: nat, n: nat)
    requires readIdx < |slots| && writeIdx < |slots|
    requires n <= AvailableRead(readIdx, writeIdx, |slots|)
    ensures Queued(slots, Wrap(readIdx + n, |slots|), writeIdx) == Queued(slots, readIdx, writeIdx)[n..]
  {
    var q := Queued(slots, Wrap(readIdx + n, |slots|), writeIdx);
    var rest := Queued(slots, readIdx, writeIdx)[n..];
    assert |q| == |rest|;
    forall i | 0 <= i < |q|
      ensures q[i] == rest[i]
    {
      assert rest[i] == slots[Wrap(readIdx + (n + i), |slots|)];
      assert q[i] == slots[Wrap(Wrap(readIdx + n, |slots|) + i, |slots|)];
    }
  }

  class SpscRingBuffer<T(0)> {
    const buffer: array<T>
    const size: nat            // usable capacity + 1
    var writeIndex: nat
    var readIndex: nat

    ghost predicate Valid()
      reads this
    {
      buffer.Length == size && writeIndex < size && readIndex < size
    }

    /** The queued elements, oldest first. */
    ghost function Contents(): (queue: seq<T>)
      requires Valid()
      reads this, buffer
      ensures |queue| < size
    {
      Queued(buffer[..], readIndex, writeIndex)
    }

    constructor (capacity: nat)
      ensures Valid() && size == capacity + 1 && Contents() == []
      ensures fresh(buffer)
    {
      buffer := new T[capacity + 1];
      size := capacity + 1;
      writeIndex, readIndex := 0, 0;
    }

    method Available() returns (n: nat)
      requires Valid()
      ensures n == |Contents()| < size
    {
      n := AvailableRead(readIndex, writeIndex, size);
    }

    method AvailableToWrite() returns (n: nat)
      requires Valid()
      ensures n == size - 1 - |Contents()|
    {
      n := AvailableWrite(writeIndex, readIndex, size);
    }

    /** Appends the longest prefix of `data` that fits. */
    method Write(data: seq<T>) returns (written: nat)
      requires Valid()
      modifies this`writeIndex, buffer
      ensures Valid()
      ensures written == Min(|data|, size - 1 - |old(Contents())|)
      ensures Contents() == old(Contents()) + data[..written]
    {
      var writeIdx, readIdx := writeIndex, readIndex;
      var toWrite := Min(|data|, AvailableWrite(writeIdx, readIdx, size));
      if toWrite == 0 {
        return 0;
      }
      var firstChunk := Min(toWrite, size - writeIdx);
      forall i | 0 <= i < firstChunk {
        buffer[writeIdx + i] := data[i];
      }
      if firstChunk < toWrite {
        var secondChunk := toWrite - firstChunk;
        forall i | 0 <= i < secondChunk {
          buffer[i] := data[firstChunk + i];
        }
      }
      OverlayAppends(old(buffer[..]), buffer[..], readIdx, writeIdx, data, toWrite);
      writeIndex := Wrap(writeIdx + toWrite, size);
      return toWrite;
    }

    /** Moves the oldest elements, as many as are queued and asked for, into `data`. */
    method Read(data: array<T>, count: nat) returns (taken: nat)
      requires Valid() && data != buffer && count <= data.Length
      modifies this`readIndex, data
      ensures Valid()
      ensures taken == Min(count, |old(Contents())|)
      ensures data[..] == old(Contents())[..taken] + old(data[..])[taken..]
      ensures Contents() == old(Contents())[taken..]
    {
      var readIdx, writeIdx := readIndex, writeIndex;
      var toRead := Min(count, AvailableRead(readIdx, writeIdx, size));
      if toRead == 0 {
        return 0;
      }
      var firstChunk := Min(toRead, size - readIdx);
      forall i | 0 <= i < firstChunk {
        data[i] := buffer[readIdx + i];
      }
      if firstChunk < toRead {
        var secondChunk := toRead - firstChunk;
        forall i | 0 <= i < secondChunk {
          data[firstChunk + i] := buffer[i];
        }
      }
      ConsumingDrops(buffer[..], readIdx, writeIdx, toRead);
      assert buffer[..] == old(buffer[..]);
      assert forall i :: 0 <= i < toRead ==> data[i] == buffer[..][Wrap(readIdx + i, size)];
      assert forall i :: 0 <= i < toRead ==> old(Contents())[i] == buffer[..][Wrap(readIdx + i, size)];
      assert data[..toRead] == old(Contents())[..toRead];
      readIndex := Wrap(readIdx + toRead, size);
      return toRead;
    }

    /** Empties the ring; only for use while both sides are idle. */
    method Reset()
      requires Valid()
      modifies this
      ensures Valid() && Contents() == []
    {
      writeIndex := 0;
      readIndex := 0;
    }
  }
}
