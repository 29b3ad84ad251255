/**
  The audio I/O handler (packages/aes67-macos-driver/Driver/AES67IOHandler.cpp): interleaved frames on
  one side, an array of single-channel rings on the other.  A sample is an opaque value, `silence` the
  one a short channel is padded with.
 */
module IoHandler {
  import opened Counting
  import opened RingBuffer

  const MAX_FRAMES: nat := 4096

  // ---- interleaving ----------------------------------------------------------------------------

  /** Where a channel's sample of one frame lies in interleaved data. */
  function Slot(frame: nat, ch: nat, channels: nat): nat { frame * channels + ch }

  /** How many places `frames` frames take. */
  function Span(frames: nat, channels: nat): nat { frames * channels }

  lemma {:induction false} SlotInRange(frame: nat, ch: nat, frames: nat, channels: nat)
    requires frame < frames && ch < channels
    ensures Slot(frame, ch, channels) < Span(frame + 1, channels) <= Span(frames, channels)
  {
  }

  lemma {:induction false} SlotsDiffer(frame: nat, ch: nat, frame': nat, ch': nat, channels: nat)
    requires ch < channels && ch' < channels && Slot(frame, ch, channels) == Slot(frame', ch', channels)
    ensures frame == frame' && ch == ch'
  {
    ModUnique(Slot(frame, ch, channels), frame, ch, channels);
    ModUnique(Slot(frame, ch, channels), frame', ch', channels);
  }

  /** Every place in interleaved data is some channel's sample of some frame. */
  lemma {:induction false} EverySlot(i: nat, frames: nat, channels: nat) returns (frame: nat, ch: nat)
    requires i < Span(frames, channels)
    ensures frame < frames && ch < channels && i == Slot(frame, ch, channels)
  {
    frame, ch := i / channels, i % channels;
    assert i == frame * channels + ch;
    var d := frame - frames;
    assert d * channels == frame * channels - frames * channels;
  }

  /** One channel's samples of an interleaved block. */
  ghost function Channel<T>(data: seq<T>, ch: nat, frames: nat, channels: nat): (block: seq<T>)
    requires ch < channels && Span(frames, channels) <= |data|
    ensures |block| == frames
  {
    if frames == 0 then []
    else
      SlotInRange(frames - 1, ch, frames, channels);
      Channel(data, ch, frames - 1, channels) + [data[Slot(frames - 1, ch, channels)]]
  }

  lemma {:induction false} ChannelAt<T>(data: seq<T>, ch: nat, frames: nat, channels: nat, frame: nat)
    requires ch < channels && Span(frames, channels) <= |data| && frame < frames
    ensures Slot(frame, ch, channels) < |data|
      && Channel(data, ch, frames, channels)[frame] == data[Slot(frame, ch, channels)]
  {
    SlotInRange(frames - 1, ch, frames, channels);
    if frame < frames - 1 { ChannelAt(data, ch, frames - 1, channels, frame); }
  }

  /** An interleaved block is determined by its channels. */
  lemma {:induction false} ChannelsDetermine<T>(a: seq<T>, b: seq<T>, frames: nat, channels: nat)
    requires |a| == |b| == Span(frames, channels)
    requires forall ch :: 0 <= ch < channels ==> Channel(a, ch, frames, channels) == Channel(b, ch, frames, channels)
    ensures a == b
  {
    forall i | 0 <= i < |a|
      ensures a[i] == b[i]
    {
      var frame, ch := EverySlot(i, frames, channels);
      ChannelAt(a, ch, frames, channels, frame);
      ChannelAt(b, ch, frames, channels, frame);
    }
  }

  /** `after` is `before` with `block` in the places of channel `ch` and nothing else changed. */
  ghost predicate Woven<T>(before: seq<T>, after: seq<T>, ch: nat, block: seq<T>, channels: nat)
    requires ch < channels
  {
    && |after| == |before| >= Span(|block|, channels)
    && Channel(after, ch, |block|, channels) == block
    && forall k :: 0 <= k < |after| && (k >= Span(|block|, channels) || k % channels != ch) ==> after[k] == before[k]
  }

  lemma {:induction false} WovenLeavesOthers<T>(before: seq<T>, after: seq<T>, ch: nat, block: seq<T>, channels: nat,
        other: nat)
    requires ch < channels && Woven(before, after, ch, block, channels) && other < channels && other != ch
    ensures Channel(after, other, |block|, channels) == Channel(before, other, |block|, channels)
  {
    var a, b := Channel(after, other, |block|, channels), Channel(before, other, |block|, channels);
    forall f | 0 <= f < |block|
      ensures a[f] == b[f]
    {
      ChannelAt(after, other, |block|, channels, f);
      ChannelAt(before, other, |block|, channels, f);
      ModUnique(Slot(f, other, channels), f, other, channels);
    }
  }

  lemma {:induction false} WovenHolds<T>(before: seq<T>, after: seq<T>, ch: nat, block: seq<T>, channels: nat)
    requires ch < channels && Woven(before, after, ch, block, channels)
    ensures Channel(after, ch, |block|, channels) == block
    ensures after[Span(|block|, channels)..] == before[Span(|block|, channels)..]
  {
  }

  /** Storing the next sample of a channel leaves the ones before it. */
  lemma {:induction false} WeaveOne<T>(data: seq<T>, ch: nat, frame: nat, channels: nat, x: T)
    requires ch < channels && Slot(frame, ch, channels) < |data| && Span(frame, channels) <= |data|
    ensures Slot(frame, ch, channels) % channels == ch
    ensures Channel(data[Slot(frame, ch, channels) := x], ch, frame, channels) == Channel(data, ch, frame, channels)
  {
    ModUnique(Slot(frame, ch, channels), frame, ch, channels);
    var after := data[Slot(frame, ch, channels) := x];
    var a, b := Channel(after, ch, frame, channels), Channel(data, ch, frame, channels);
    forall f | 0 <= f < frame
      ensures a[f] == b[f]
    {
      ChannelAt(after, ch, frame, channels, f);
      ChannelAt(data, ch, frame, channels, f);
      if Slot(f, ch, channels) == Slot(frame, ch, channels) { SlotsDiffer(f, ch, frame, ch, channels); }
    }
  }

  // ---- what one cycle does to the queues -------------------------------------------------------

  ghost function Silence<T>(n: nat, silence: T): seq<T> { seq(n, _ => silence) }

  /** What a reader of `frames` samples hears: the oldest queued ones, then silence. */
  ghost function Heard<T>(queue: seq<T>, frames: nat, silence: T): (block: seq<T>)
    ensures |block| == frames
  {
    var n := Min(frames, |queue|);
    queue[..n] + Silence(frames - n, silence)
  }

  ghost function Drained<T>(queue: seq<T>, frames: nat): seq<T> { queue[Min(frames, |queue|)..] }

  function Room(queued: nat, capacity: nat): nat { if queued <= capacity then capacity - queued else 0 }

  /** What a ring of that capacity holds after it was offered a block. */
  ghost function Filled<T>(queue: seq<T>, capacity: nat, block: seq<T>): seq<T> {
    queue + block[..Min(|block|, Room(|queue|, capacity))]
  }

  /** The queues once the first n channels have been read. */
  ghost function AfterInput<T>(queues: seq<seq<T>>, frames: nat, n: nat): (r: seq<seq<T>>)
    ensures |r| == |queues|
  {
    seq(|queues|, i requires 0 <= i < |queues| => if i < n then Drained(queues[i], frames) else queues[i])
  }

  ghost predicate SomeShort<T>(queues: seq<seq<T>>, frames: nat, n: nat) {
    exists i :: 0 <= i < n && i < |queues| && |queues[i]| < frames
  }

  /** The queues once the first n channels have been offered their part of `data`. */
  ghost function AfterOutput<T>(queues: seq<seq<T>>, capacities: seq<nat>, data: seq<T>, frames: nat, channels: nat,
        n: nat)
    : (r: seq<seq<T>>)
    requires |queues| == |capacities| && n <= channels && Span(frames, channels) <= |data|
    ensures |r| == |queues|
  {
    seq(|queues|, i requires 0 <= i < |queues| =>
          if i < n then Filled(queues[i], capacities[i], Channel(data, i, frames, channels)) else queues[i])
  }

  ghost predicate SomeFull<T>(queues: seq<seq<T>>, capacities: seq<nat>, frames: nat, n: nat)
    requires |queues| == |capacities|
  {
    exists i :: 0 <= i < n && i < |queues| && Room(|queues[i]|, capacities[i]) < frames
  }

  lemma {:induction false} InputStep<T>(queues: seq<seq<T>>, frames: nat, ch: nat)
    requires ch < |queues|
    ensures AfterInput(queues, frames, ch)[ch] == queues[ch]
    ensures AfterInput(queues, frames, ch)[ch := Drained(queues[ch], frames)] == AfterInput(queues, frames, ch + 1)
    ensures SomeShort(queues, frames, ch + 1) <==> SomeShort(queues, frames, ch) || |queues[ch]| < frames
  {
  }

  lemma {:induction false} OutputStep<T>(queues: seq<seq<T>>, capacities: seq<nat>, data: seq<T>, frames: nat,
        channels: nat, ch: nat)
    requires |queues| == |capacities| && ch < channels <= |queues| && Span(frames, channels) <= |data|
    ensures AfterOutput(queues, capacities, data, frames, channels, ch)[ch] == queues[ch]
    ensures AfterOutput(queues, capacities, data, frames, channels, ch)
              [ch := Filled(queues[ch], capacities[ch], Channel(data, ch, frames, channels))]
         == AfterOutput(queues, capacities, data, frames, channels, ch + 1)
    ensures SomeFull(queues, capacities, frames, ch + 1)
       <==> SomeFull(queues, capacities, frames, ch) || Room(|queues[ch]|, capacities[ch]) < frames
  {
  }

  lemma {:induction false} NothingDone<T>(queues: seq<seq<T>>, capacities: seq<nat>, data: seq<T>, frames: nat,
        channels: nat)
    requires |queues| == |capacities| && Span(frames, channels) <= |data|
    ensures AfterInput(queues, frames, 0) == queues && !SomeShort(queues, frames, 0)
    ensures AfterOutput(queues, capacities, data, frames, channels, 0) == queues
      && !SomeFull(queues, capacities, frames, 0)
  {
  }

  // ---- what a loop through the rings plays back ------------------------------------------------

  /** With room for the block, everything queued and then the block is what a reader gets, in order. */
  lemma {:induction false} FilledIsHeard<T>(queue: seq<T>, capacity: nat, block: seq<T>, silence: T)
    requires |queue| + |block| <= capacity
    ensures Heard(Filled(queue, capacity, block), |queue| + |block|, silence) == queue + block
    ensures Drained(Filled(queue, capacity, block), |queue| + |block|) == []
  {
  }

  /**
    Output then input through empty rings with room: whatever data satisfies the contract of the
    input side is the block that went in, sample for sample, and the rings are empty again.
   */
  lemma {:induction false} LoopbackIsIdentity<T>(capacities: seq<nat>, data: seq<T>, played: seq<T>, frames: nat,
        silence: T)
    requires |data| == |played| == Span(frames, |capacities|)
    requires forall ch :: 0 <= ch < |capacities| ==> capacities[ch] >= frames
    requires var n := |capacities|;
      var queues := AfterOutput(seq(n, _ => []), capacities, data, frames, n, n);
      forall ch :: 0 <= ch < |capacities| ==>
        Channel(played, ch, frames, |capacities|) == Heard(queues[ch], frames, silence)
    ensures played == data
    ensures var queues := AfterOutput(seq(|capacities|, _ => []), capacities, data, frames, |capacities|, |capacities|);
      AfterInput(queues, frames, |capacities|) == seq(|capacities|, _ => []) && !SomeShort(queues, frames, |capacities|)
  {
    hide Channel, Span, Heard, Drained, Filled;
    var channels := |capacities|;
    var queues := AfterOutput(seq(channels, _ => []), capacities, data, frames, channels, channels);
    forall ch | 0 <= ch < channels
      ensures Channel(played, ch, frames, channels) == Channel(data, ch, frames, channels)
      ensures Drained(queues[ch], frames) == [] && |queues[ch]| == frames
    {
      var block := Channel(data, ch, frames, channels);
      FilledIsHeard([], capacities[ch], block, silence);
      FilledFits([], capacities[ch], block);
      assert [] + block == block;
    }
    ChannelsDetermine(played, data, frames, channels);
  }

  lemma {:induction false} FilledFits<T>(queue: seq<T>, capacity: nat, block: seq<T>)
    ensures |Filled(queue, capacity, block)| == |queue| + Min(|block|, Room(|queue|, capacity))
  {
  }

  class AES67IOHandler<T(0)> {
    const inputs: seq<SpscRingBuffer<T>>
    const outputs: seq<SpscRingBuffer<T>>
    const silence: T
    var underruns: nat
    var overruns: nat

    constructor (inputs: seq<SpscRingBuffer<T>>, outputs: seq<SpscRingBuffer<T>>, silence: T)
      ensures this.inputs == inputs && this.outputs == outputs && this.silence == silence
      ensures underruns == 0 && overruns == 0
    {
      this.inputs, this.outputs, this.silence := inputs, outputs, silence;
      underruns, overruns := 0, 0;
    }

    /** The rings are separate objects over separate storage. */
    static ghost predicate Separate(rings: seq<SpscRingBuffer<T>>)
      reads rings
    {
      && (forall i :: 0 <= i < |rings| ==> rings[i].Valid())
      && (forall i, j :: 0 <= i < j < |rings| ==> rings[i] != rings[j] && rings[i].buffer != rings[j].buffer)
    }

    static ghost function Queues(rings: seq<SpscRingBuffer<T>>): (queues: seq<seq<T>>)
      requires Separate(rings)
      reads rings, set i | 0 <= i < |rings| :: rings[i].buffer
      ensures |queues| == |rings|
    {
      seq(|rings|, i requires 0 <= i < |rings| && Separate(rings)
                     reads rings, set k | 0 <= k < |rings| :: rings[k].buffer => rings[i].Contents())
    }

    static function Capacities(rings: seq<SpscRingBuffer<T>>): (r: seq<nat>)
      ensures |r| == |rings|
    {
      seq(|rings|, i requires 0 <= i < |rings| => if rings[i].size > 0 then rings[i].size - 1 else 0)
    }

    /** Takes the oldest samples of a ring and pads what is missing. */
    method ReadPadded(ring: SpscRingBuffer<T>, frames: nat) returns (block: seq<T>, short: bool)
      requires ring.Valid() && frames <= MAX_FRAMES
      modifies ring
      ensures ring.Valid() && ring.Contents() == Drained(old(ring.Contents()), frames)
      ensures block == Heard(old(ring.Contents()), frames, silence)
      ensures short <==> |old(ring.Contents())| < frames
    {
      hide SpscRingBuffer.Contents;
      var channelBuffer := new T[MAX_FRAMES];
      var samplesRead := ring.Read(channelBuffer, frames);
      if samplesRead < frames {
        forall k | samplesRead <= k < frames { channelBuffer[k] := silence; }
      }
      return channelBuffer[..frames], samplesRead < frames;
    }

    /** The same on one ring of several: the others are not touched. */
    method ReadFrom(rings: seq<SpscRingBuffer<T>>, ch: nat, frames: nat) returns (block: seq<T>, short: bool)
      requires Separate(rings) && ch < |rings| && frames <= MAX_FRAMES
      modifies rings[ch]
      ensures Separate(rings)
      ensures Queues(rings) == old(Queues(rings))[ch := Drained(old(Queues(rings))[ch], frames)]
      ensures block == Heard(old(Queues(rings))[ch], frames, silence)
      ensures short <==> |old(Queues(rings))[ch]| < frames
    {
      hide Heard, Drained, SpscRingBuffer.Contents;
      block, short := ReadPadded(rings[ch], frames);
    }

    /** Offers one channel its samples; the other rings are not touched. */
    method WriteTo(rings: seq<SpscRingBuffer<T>>, ch: nat, block: seq<T>) returns (short: bool)
      requires Separate(rings) && ch < |rings|
      modifies rings[ch], rings[ch].buffer
      ensures Separate(rings)
      ensures Queues(rings) == old(Queues(rings))[ch := Filled(old(Queues(rings))[ch], Capacities(rings)[ch], block)]
      ensures short <==> Room(|old(Queues(rings))[ch]|, Capacities(rings)[ch]) < |block|
    {
      hide SpscRingBuffer.Contents;
      var samplesWritten := rings[ch].Write(block);
      return samplesWritten < |block|;
    }

    /** Lays one channel's block into the interleaved data. */
    method Interleave(data: array<T>, ch: nat, channels: nat, block: seq<T>)
      requires ch < channels && Span(|block|, channels) <= data.Length
      modifies data
      ensures Woven(old(data[..]), data[..], ch, block, channels)
    {
      for f := 0 to |block|
        invariant Span(f, channels) <= data.Length
        invariant Woven(old(data[..]), data[..], ch, block[..f], channels)
      {
        SlotInRange(f, ch, |block|, channels);
        WeaveOne(data[..], ch, f, channels, block[f]);
        data[Slot(f, ch, channels)] := block[f];
        assert block[..f + 1] == block[..f] + [block[f]];
      }
      assert block[..|block|] == block;
    }

    /** Takes one channel's block out of the interleaved data. */
    method Deinterleave(data: seq<T>, ch: nat, frames: nat, channels: nat) returns (block: seq<T>)
      requires ch < channels && frames <= MAX_FRAMES && Span(frames, channels) <= |data|
      ensures block == Channel(data, ch, frames, channels)
    {
      var channelBuffer := new T[MAX_FRAMES];
      for f := 0 to frames
        invariant Span(f, channels) <= |data|
        invariant channelBuffer[..f] == Channel(data, ch, f, channels)
      {
        SlotInRange(f, ch, frames, channels);
        channelBuffer[f] := data[Slot(f, ch, channels)];
        assert channelBuffer[..f + 1] == channelBuffer[..f] + [channelBuffer[f]];
      }
      return channelBuffer[..frames];
    }

    /** Network to client: each channel's oldest samples, silence where the network is late, one underrun at most. */
    method ProcessInput(data: array<T>, frames: nat, channels: nat)
      requires Separate(inputs) && channels <= |inputs| && Span(frames, channels) <= data.Length
      requires forall i :: 0 <= i < |inputs| ==> inputs[i].buffer != data
      modifies inputs, data, this`underruns
      ensures Separate(inputs)
      ensures var queues := old(Queues(inputs));
        if frames > 4096 then
          Queues(inputs) == queues && underruns == old(underruns)
          && data[..Span(frames, channels)] == Silence(Span(frames, channels), silence)
        else
          && Queues(inputs) == AfterInput(queues, frames, channels)
          && underruns == old(underruns) + (if SomeShort(queues, frames, channels) then 1 else 0)
          && forall ch :: 0 <= ch < channels ==>
            Channel(data[..], ch, frames, channels) == Heard(queues[ch], frames, silence)
      ensures data[Span(frames, channels)..] == old(data[Span(frames, channels)..])
    {
      hide Separate, Queues, AfterInput, SomeShort, Heard, Drained, Slot, Span, Channel, Woven;
      if frames > MAX_FRAMES {
        forall i | 0 <= i < Span(frames, channels) { data[i] := silence; }
        return;
      }
      ghost var queues := Queues(inputs);
      NothingDone(queues, Capacities(inputs), data[..], frames, channels);
      var hadUnderrun := false;
      for ch := 0 to channels
        invariant Separate(inputs)
        invariant Queues(inputs) == AfterInput(queues, frames, ch)
        invariant forall i :: 0 <= i < ch ==>
          Channel(data[..], i, frames, channels) == Heard(queues[i], frames, silence)
        invariant data[Span(frames, channels)..] == old(data[Span(frames, channels)..])
        invariant hadUnderrun <==> SomeShort(queues, frames, ch)
        invariant underruns == old(underruns) + if hadUnderrun then 1 else 0
      {
        InputStep(queues, frames, ch);
        var block, short := ReadFrom(inputs, ch, frames);
        if short && !hadUnderrun {
          underruns := underruns + 1;
          hadUnderrun := true;
        }
        ghost var before := data[..];
        Interleave(data, ch, channels, block);
        WovenHolds(before, data[..], ch, block, channels);
        forall i | 0 <= i < ch
          ensures Channel(data[..], i, frames, channels) == Channel(before, i, frames, channels)
        {
          WovenLeavesOthers(before, data[..], ch, block, channels, i);
        }
      }
    }

    /** Client to network: each channel's ring takes the longest prefix that fits, one overrun at most. */
    method ProcessOutput(data: seq<T>, frames: nat, channels: nat)
      requires Separate(outputs) && channels <= |outputs| && Span(frames, channels) <= |data|
      modifies outputs, set i | 0 <= i < |outputs| :: outputs[i].buffer, this`overruns
      ensures Separate(outputs)
      ensures var queues, capacities := old(Queues(outputs)), Capacities(outputs);
        if frames > 4096 then Queues(outputs) == queues && overruns == old(overruns)
        else
          && Queues(outputs) == AfterOutput(queues, capacities, data, frames, channels, channels)
          && overruns == old(overruns) + if SomeFull(queues, capacities, frames, channels) then 1 else 0
    {
      hide Separate, Queues, Capacities, AfterOutput, SomeFull, Filled, Slot, Span, Channel, Room;
      if frames > MAX_FRAMES { return; }
      ghost var queues, capacities := Queues(outputs), Capacities(outputs);
      NothingDone(queues, capacities, data, frames, channels);
      var hadOverrun := false;
      for ch := 0 to channels
        invariant Separate(outputs)
        invariant Queues(outputs) == AfterOutput(queues, capacities, data, frames, channels, ch)
        invariant hadOverrun <==> SomeFull(queues, capacities, frames, ch)
        invariant overruns == old(overruns) + if hadOverrun then 1 else 0
      {
        OutputStep(queues, capacities, data, frames, channels, ch);
        var block := Deinterleave(data, ch, frames, channels);
        var short := WriteTo(outputs, ch, block);
        if short && !hadOverrun {
          overruns := overruns + 1;
          hadOverrun := true;
        }
      }
    }
  }
}
