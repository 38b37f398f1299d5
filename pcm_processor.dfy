/**
 * The capture worklet (voice-agent-ui/src/services/audio/pcm-processor.worklet.js):
 * microphone samples are collected into a fixed buffer of 4096 slots; each
 * time it fills, its contents go to the main thread as 16-bit PCM and a new,
 * zeroed buffer takes its place. A pause flag, set and cleared by messages
 * from the main thread, makes the processor skip its input.
 *
 * Samples are reals: the float32 storage of the buffer, NaN and infinities
 * are not modelled.
 */
module PcmCapture {

  const BufferSize: nat := 4096

  // ----------------------------------------------------------- conversion

  function Clamp(x: real): (s: real)
    ensures -1.0 <= s <= 1.0
    ensures -1.0 <= x <= 1.0 ==> s == x
    ensures x < -1.0 ==> s == -1.0
    ensures x > 1.0 ==> s == 1.0
  {
    if x < -1.0 then -1.0 else if x > 1.0 then 1.0 else x
  }

  /** The integer part of `x`, rounded toward zero, as a store into an `Int16Array` does. */
  function Truncate(x: real): (n: int)
    ensures 0.0 <= x ==> n as real <= x < n as real + 1.0
    ensures x < 0.0 ==> n as real - 1.0 < x <= n as real
  {
    if x < 0.0 then -((-x).Floor) else x.Floor
  }

  /** One sample of `float32ToInt16`: negative values scale by 0x8000, the others by 0x7FFF. */
  function Sample16(x: real): int {
    var s := Clamp(x);
    if s < 0.0 then Truncate(s * 32768.0) else Truncate(s * 32767.0)
  }

  /** Every converted sample fits a signed 16-bit integer, and keeps the sign of the clamped input. */
  lemma Sample16InRange(x: real)
    ensures -32768 <= Sample16(x) <= 32767
    ensures x >= 0.0 ==> Sample16(x) >= 0
    ensures x <= 0.0 ==> Sample16(x) <= 0
    ensures x >= 1.0 ==> Sample16(x) == 32767
    ensures x <= -1.0 ==> Sample16(x) == -32768
  {
    var s := Clamp(x);
    if s < 0.0 {
      assert -32768.0 <= s * 32768.0 < 0.0;
    } else {
      assert 0.0 <= s * 32767.0 <= 32767.0;
    }
  }

  /** The samples of a buffer, converted one by one. */
  function Pcm(block: seq<real>): (pcm: seq<int>)
    ensures |pcm| == |block|
    ensures forall i :: 0 <= i < |block| ==> pcm[i] == Sample16(block[i])
  {
    seq(|block|, i requires 0 <= i < |block| => Sample16(block[i]))
  }

  /** `float32ToInt16`: a new array of the same length holding the converted samples. */
  method Float32ToInt16(samples: array<real>) returns (int16: array<int>)
    ensures fresh(int16)
    ensures int16[..] == Pcm(samples[..])
    ensures forall i :: 0 <= i < int16.Length ==> -32768 <= int16[i] <= 32767
  {
    int16 := new int[samples.Length];
    for i := 0 to samples.Length
      invariant forall k :: 0 <= k < i ==> int16[k] == Sample16(samples[k])
      invariant forall k :: 0 <= k < i ==> -32768 <= int16[k] <= 32767
    {
      Sample16InRange(samples[i]);
      int16[i] := Sample16(samples[i]);
    }
  }

  // --------------------------------------------------------- the sample log

  /** The blocks, one after the other. */
  function Flatten(blocks: seq<seq<real>>): seq<real> {
    if blocks == [] then [] else Flatten(blocks[..|blocks| - 1]) + blocks[|blocks| - 1]
  }

  lemma FlattenAppend(blocks: seq<seq<real>>, b: seq<real>)
    ensures Flatten(blocks + [b]) == Flatten(blocks) + b
  {
    assert (blocks + [b])[..|blocks|] == blocks;
  }

  predicate FullBlocks(blocks: seq<seq<real>>) {
    forall k :: 0 <= k < |blocks| ==> |blocks[k]| == BufferSize
  }

  lemma {:induction false} FlattenLength(blocks: seq<seq<real>>)
    requires FullBlocks(blocks)
    ensures |Flatten(blocks)| == BufferSize * |blocks|
  {
    if blocks != [] {
      FlattenLength(blocks[..|blocks| - 1]);
    }
  }

  /** A count of samples splits uniquely into full buffers and a remainder. */
  lemma SplitCount(total: int, full: int, rest: int)
    requires total == BufferSize * full + rest && 0 <= rest < BufferSize
    ensures full == total / BufferSize && rest == total % BufferSize
  {
  }

  // ------------------------------------------------------------ processor

  datatype PortMessage = AudioMessage(data: seq<int>)

  class PCMProcessor {
    const bufferSize: nat
    var buffer: array<real>
    var bufferIndex: nat
    var isPaused: bool
    /** What `port.postMessage` sent to the main thread, in order. */
    var posted: seq<PortMessage>
    /** Every sample taken into the buffer, and the full buffers that were sent. */
    ghost var accepted: seq<real>
    ghost var blocks: seq<seq<real>>

    ghost predicate Valid()
      reads this, buffer
    {
      && bufferSize == BufferSize && buffer.Length == bufferSize
      && bufferIndex < bufferSize
      && FullBlocks(blocks)
      && |posted| == |blocks|
      && (forall k :: 0 <= k < |posted| ==> posted[k] == AudioMessage(Pcm(blocks[k])))
      && Flatten(blocks) + buffer[..bufferIndex] == accepted
    }

    constructor ()
      ensures Valid() && fresh(buffer)
      ensures bufferSize == 4096 && bufferIndex == 0 && !isPaused
      ensures buffer[..] == seq(4096, _ => 0.0)
      ensures posted == [] && accepted == []
    {
      bufferSize := BufferSize;
      buffer := new real[BufferSize](_ => 0.0);
      bufferIndex := 0;
      isPaused := false;
      posted := [];
      accepted := [];
      blocks := [];
    }

    /** The port's `onmessage`: "pause" and "resume" set the flag; any other type is ignored. */
    method OnPortMessage(messageType: string)
      modifies this
      ensures isPaused == (if messageType == "pause" then true
                           else if messageType == "resume" then false
                           else old(isPaused))
      ensures buffer == old(buffer) && bufferIndex == old(bufferIndex)
      ensures posted == old(posted) && accepted == old(accepted) && blocks == old(blocks)
    {
      if messageType == "pause" {
        isPaused := true;
      } else if messageType == "resume" {
        isPaused := false;
      }
    }

    /** One pass of the accumulation loop: store the sample, and send the buffer once it is full. */
    method Take(sample: real)
      requires Valid()
      modifies this, buffer
      ensures Valid()
      ensures accepted == old(accepted) + [sample]
      ensures old(bufferIndex) + 1 < BufferSize ==>
                bufferIndex == old(bufferIndex) + 1 && buffer == old(buffer) && posted == old(posted) && blocks == old(blocks)
      ensures old(bufferIndex) + 1 == BufferSize ==>
                bufferIndex == 0 && fresh(buffer) && blocks == old(blocks) + [old(buffer[..bufferIndex]) + [sample]]
                && posted == old(posted) + [AudioMessage(Pcm(blocks[|blocks| - 1]))]
      ensures isPaused == old(isPaused)
    {
      ghost var live := buffer[..bufferIndex] + [sample];
      buffer[bufferIndex] := sample;
      bufferIndex := bufferIndex + 1;
      accepted := accepted + [sample];
      assert buffer[..bufferIndex] == live;
      if bufferIndex == bufferSize {
        assert buffer[..] == live;
        Flush();
      }
    }

    /** The buffer is full: send it converted, and start a new, zeroed one. */
    method Flush()
      requires bufferSize == BufferSize && buffer.Length == bufferSize && bufferIndex == bufferSize
      requires FullBlocks(blocks) && |posted| == |blocks|
      requires forall k :: 0 <= k < |posted| ==> posted[k] == AudioMessage(Pcm(blocks[k]))
      requires Flatten(blocks) + buffer[..] == accepted
      modifies this
      ensures Valid() && bufferIndex == 0 && fresh(buffer)
      ensures blocks == old(blocks) + [old(buffer[..])]
      ensures posted == old(posted) + [AudioMessage(Pcm(old(buffer[..])))]
      ensures accepted == old(accepted) && isPaused == old(isPaused)
    {
      var pcmData := Float32ToInt16(buffer);
      posted := posted + [AudioMessage(pcmData[..])];
      FlattenAppend(blocks, buffer[..]);
      blocks := blocks + [buffer[..]];
      buffer := new real[BufferSize](_ => 0.0);
      bufferIndex := 0;
      assert buffer[..bufferIndex] == [];
    }

    /**
     * `process`: while paused, or without a first input channel holding
     * samples, nothing changes; otherwise every sample of that channel is
     * taken in order. The processor always asks to be kept alive.
     */
    method Process(inputs: seq<seq<seq<real>>>) returns (keepAlive: bool)
      requires Valid()
      modifies this, buffer
      ensures Valid() && keepAlive
      ensures var taken := if old(isPaused) || |inputs| == 0 || |inputs[0]| == 0 then [] else inputs[0][0];
              && accepted == old(accepted) + taken
              && |posted| == |old(posted)| + (old(bufferIndex) + |taken|) / BufferSize
              && bufferIndex == (old(bufferIndex) + |taken|) % BufferSize
              && old(posted) <= posted
      ensures old(isPaused) || |inputs| == 0 || |inputs[0]| == 0 ==>
                buffer == old(buffer) && unchanged(buffer) && bufferIndex == old(bufferIndex) && posted == old(posted)
      ensures isPaused == old(isPaused)
    {
      keepAlive := true;
      if isPaused {
        return;
      }
      if |inputs| == 0 || |inputs[0]| == 0 {
        return;
      }
      var samples := inputs[0][0];
      ghost var blocks0, index0 := blocks, bufferIndex;
      FlattenLength(blocks);
      for i := 0 to |samples|
        invariant Valid()
        invariant accepted == old(accepted) + samples[..i]
        invariant old(posted) <= posted
        invariant blocks0 <= blocks
        invariant isPaused == old(isPaused)
        invariant fresh(buffer) || buffer == old(buffer)
      {
        Take(samples[i]);
        assert samples[..i + 1] == samples[..i] + [samples[i]];
      }
      assert samples[..|samples|] == samples;
      FlattenLength(blocks);
      SplitCount(index0 + |samples|, |blocks| - |blocks0|, bufferIndex);
    }
  }

  /** The posted frames followed by the live part of the buffer are every sample taken, in order. */
  lemma PostedThenBuffered(p: PCMProcessor)
    requires p.Valid()
    ensures Flatten(p.blocks) + p.buffer[..p.bufferIndex] == p.accepted
    ensures |p.posted| == |p.accepted| / BufferSize && p.bufferIndex == |p.accepted| % BufferSize
  {
    FlattenLength(p.blocks);
    SplitCount(|p.accepted|, |p.blocks|, p.bufferIndex);
  }

  /**
   * A pause drops the input that arrives meanwhile but keeps what the buffer
   * holds: after the resume the same samples wait to be sent with the next ones.
   */
  method PauseKeepsBuffered(p: PCMProcessor, inputs: seq<seq<seq<real>>>)
    requires p.Valid()
    modifies p, p.buffer
    ensures p.Valid() && !p.isPaused
    ensures p.buffer == old(p.buffer) && p.buffer[..p.bufferIndex] == old(p.buffer[..p.bufferIndex])
    ensures p.accepted == old(p.accepted) && p.posted == old(p.posted)
  {
    p.OnPortMessage("pause");
    var keepAlive := p.Process(inputs);
    p.OnPortMessage("resume");
  }
}
