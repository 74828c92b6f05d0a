/** Chunk production: for every frame, every sounding key is rendered and
    advanced one envelope step, the mix is scaled down when the keys' summed
    amplitude exceeds 1, the sample clock ticks, and the frame is stored.
    The note renderer (`GenerateNoteSin` with the current timbre and sample
    rate bound in) is a parameter: its trigonometry is not modelled. */
module Synthesis {
  import opened Keyboard

  /** `SIZE_MAX` of a 64-bit target: the sample clock counts modulo this. */
  const SIZE_MAX: int := 0xFFFF_FFFF_FFFF_FFFF

  /** The buffer size and sample rate the synthesizer's constructor asks for. */
  const DefaultBufferSize: int := 1024
  const DefaultSampleRate: int := 44100

  /** Renders one key for one frame: (sample time, frequency, envelope amplitude) to a sample value. */
  type NoteRenderer = (nat, real, real) -> real

  /** What producing a chunk reads but never changes. */
  datatype Context = Context(note: NoteRenderer, rates: Rates, footPedal: bool)

  /** The inner loop's treatment of one key: a sounding key gets one
      envelope step, a silent key is left as it is. */
  function Advance(key: Key, ctx: Context): Key
  {
    if key.active then Sustain(key, ctx.rates, ctx.footPedal) else key
  }

  /** The running mix of one frame and the summed amplitude of the keys mixed. */
  datatype Mix = Mix(frame: real, total: real)

  /** The mix over keys `0 .. n-1` at sample time `time`. A sounding key adds
      its rendered note (at its amplitude before the envelope step) to the
      frame and its amplitude after the step to the total. */
  function MixPrefix(ks: seq<Key>, n: nat, time: nat, ctx: Context): Mix
    requires n <= |ks|
  {
    if n == 0 then Mix(0.0, 0.0)
    else
      var m := MixPrefix(ks, n - 1, time, ctx);
      var key := ks[n - 1];
      if key.active then
        Mix(m.frame + ctx.note(time, key.frequency, key.amplitude),
            m.total + Sustain(key, ctx.rates, ctx.footPedal).amplitude)
      else m
  }

  function Magnitude(x: real): real { if x < 0.0 then -x else x }

  /** The clipping guard: a frame is divided by the summed amplitude only when
      that exceeds 1, so it never grows and a quiet mix is left unchanged. */
  function Normalize(frame: real, total: real): (r: real)
    ensures total > 1.0 ==> r * total == frame
    ensures total <= 1.0 ==> r == frame
    ensures Magnitude(r) <= Magnitude(frame)
  {
    if total > 1.0 then
      assert Magnitude(frame / total) * total == Magnitude(frame);
      frame / total
    else frame
  }

  /** The stored value of one frame. */
  function FrameValue(ks: seq<Key>, time: nat, ctx: Context): real
  {
    var m := MixPrefix(ks, |ks|, time, ctx);
    Normalize(m.frame, m.total)
  }

  /** The keys after one frame. */
  function AdvanceAll(ks: seq<Key>, ctx: Context): seq<Key>
  {
    seq(|ks|, i requires 0 <= i < |ks| => Advance(ks[i], ctx))
  }

  /** Keys, sample clock and frames produced so far. */
  datatype ChunkState = ChunkState(keys: seq<Key>, time: nat, frames: seq<real>)

  /** The state after `n` frames, starting from keys `ks` at sample time `time`. */
  function Run(ks: seq<Key>, time: nat, n: nat, ctx: Context): (r: ChunkState)
    ensures |r.frames| == n && |r.keys| == |ks|
  {
    if n == 0 then ChunkState(ks, time, [])
    else
      var s := Run(ks, time, n - 1, ctx);
      ChunkState(AdvanceAll(s.keys, ctx), (s.time + 1) % SIZE_MAX, s.frames + [FrameValue(s.keys, s.time, ctx)])
  }

  /** One tick of the sample clock commutes with reduction modulo `SIZE_MAX`. */
  lemma ClockTick(a: int)
    ensures (a % SIZE_MAX + 1) % SIZE_MAX == (a + 1) % SIZE_MAX
  {
  }

  /** A chunk of `n` frames advances the sample clock by `n`, modulo `SIZE_MAX`. */
  lemma {:induction false} RunTime(ks: seq<Key>, time: nat, n: nat, ctx: Context)
    requires time < SIZE_MAX
    ensures Run(ks, time, n, ctx).time == (time + n) % SIZE_MAX
  {
    if n > 0 {
      RunTime(ks, time, n - 1, ctx);
      ClockTick(time + n - 1);
    } else {
      assert time % SIZE_MAX == time;
    }
  }

  /** `n` frames of envelope on one key. */
  function AdvanceN(key: Key, n: nat, ctx: Context): Key
  {
    if n == 0 then key else Advance(AdvanceN(key, n - 1, ctx), ctx)
  }

  /** Keys evolve independently: after `n` frames, key `i` is its own
      starting state advanced `n` times, whatever the other keys do. */
  lemma {:induction false} RunPerKey(ks: seq<Key>, time: nat, n: nat, ctx: Context, i: int)
    requires 0 <= i < |ks|
    ensures Run(ks, time, n, ctx).keys[i] == AdvanceN(ks[i], n, ctx)
  {
    if n > 0 {
      RunPerKey(ks, time, n - 1, ctx, i);
    }
  }

  /** A key that has fallen silent stays exactly as it is until a note-on. */
  lemma {:induction false} SilentKeyStaysSilent(key: Key, m: nat, n: nat, ctx: Context)
    requires m <= n && !AdvanceN(key, m, ctx).active
    ensures AdvanceN(key, n, ctx) == AdvanceN(key, m, ctx)
  {
    if m < n {
      SilentKeyStaysSilent(key, m, n - 1, ctx);
    }
  }

  /** A chunk leaves keys that are silent at its start untouched. */
  lemma InactiveKeysUntouched(ks: seq<Key>, time: nat, n: nat, ctx: Context, i: int)
    requires 0 <= i < |ks| && !ks[i].active
    ensures Run(ks, time, n, ctx).keys[i] == ks[i]
  {
    RunPerKey(ks, time, n, ctx, i);
    SilentKeyStaysSilent(ks[i], 0, n, ctx);
  }

  /** With no sounding key the mix and its total are both zero. */
  lemma {:induction false} MixSilent(ks: seq<Key>, n: nat, time: nat, ctx: Context)
    requires n <= |ks| && forall i :: 0 <= i < |ks| ==> !ks[i].active
    ensures MixPrefix(ks, n, time, ctx) == Mix(0.0, 0.0)
  {
    if n > 0 {
      MixSilent(ks, n - 1, time, ctx);
    }
  }

  /** With no sounding key a chunk is silent: every frame is 0, no division
      happens, and the keys are unchanged. */
  lemma {:induction false} SilentChunk(ks: seq<Key>, time: nat, n: nat, ctx: Context)
    requires forall i :: 0 <= i < |ks| ==> !ks[i].active
    ensures Run(ks, time, n, ctx).keys == ks
    ensures forall f :: 0 <= f < n ==> Run(ks, time, n, ctx).frames[f] == 0.0
  {
    if n > 0 {
      SilentChunk(ks, time, n - 1, ctx);
      var s := Run(ks, time, n - 1, ctx);
      MixSilent(ks, |ks|, s.time, ctx);
      assert AdvanceAll(s.keys, ctx) == ks;
    }
  }

  /** A released key (up, pedal up, decaying at a rate in (0,1)) loses
      amplitude on every frame for as long as it sounds. */
  lemma {:induction false} ReleaseFades(key: Key, n: nat, ctx: Context)
    requires Releasing(key, ctx.rates, ctx.footPedal)
    ensures AdvanceN(key, n, ctx).active ==>
              Releasing(AdvanceN(key, n, ctx), ctx.rates, ctx.footPedal) &&
              AdvanceN(key, n + 1, ctx).amplitude < AdvanceN(key, n, ctx).amplitude
  {
    if n > 0 {
      ReleaseFades(key, n - 1, ctx);
      var prev := AdvanceN(key, n - 1, ctx);
      if !prev.active {
        SilentKeyStaysSilent(key, n - 1, n, ctx);
      }
    }
    var cur := AdvanceN(key, n, ctx);
    if cur.active {
      ReleaseDecays(cur, ctx.rates, ctx.footPedal);
    }
  }

  /** A key released above its target, with a sustain rate of at least 1,
      never fades: it sounds on every frame, at no less than its amplitude. */
  lemma {:induction false} ReleasedAboveTargetNeverFades(key: Key, n: nat, ctx: Context)
    requires key.active && key.amplitude > key.initialAmplitude && key.amplitude > ctx.rates.cutoffAmplitude
    requires key.amplitude > 0.0 && ctx.rates.sustainSpeed >= 1.0
    ensures AdvanceN(key, n, ctx).active
    ensures AdvanceN(key, n, ctx).amplitude >= key.amplitude
    ensures AdvanceN(key, n, ctx).initialAmplitude == key.initialAmplitude
  {
    if n > 0 {
      ReleasedAboveTargetNeverFades(key, n - 1, ctx);
      ReleasedAboveTargetHolds(AdvanceN(key, n - 1, ctx), ctx.rates, ctx.footPedal);
    }
  }

  // ---------------------------------------------------------------------------
  // The sample buffer

  /** `std::vector::resize(count, value)` on a vector holding `v`. */
  function Resize(v: seq<real>, count: nat, value: real): (r: seq<real>)
    ensures |r| == count
    ensures forall i :: 0 <= i < count ==> r[i] == if i < |v| then v[i] else value
  {
    if count <= |v| then v[..count] else v + seq(count - |v|, _ => value)
  }

  /** The buffer as the stream setup leaves it: `resize(0.0, samplesToStream)`
      passes the count and the fill value in swapped order, so the count is 0. */
  function StreamBufferAsWritten(bufferSize: nat): (r: seq<real>)
  {
    Resize([], 0.0.Floor as nat, bufferSize as real)
  }

  /** Every frame index a chunk writes lies past the end of that buffer. */
  lemma SwappedResizeLeavesNoRoom(bufferSize: nat, f: nat)
    requires f < bufferSize
    ensures |StreamBufferAsWritten(bufferSize)| == 0 <= f
  {
  }

  /** The intended buffer: `samplesToStream` zero frames. */
  function StreamBuffer(bufferSize: nat): (r: seq<real>)
    ensures |r| == bufferSize
    ensures forall i :: 0 <= i < bufferSize ==> r[i] == 0.0
  {
    Resize([], bufferSize, 0.0)
  }

  // ---------------------------------------------------------------------------
  // The synthesizer object

  class Synthesizer {
    const keyboard: KeyBoard
    /** `m_samples`, with the length the stream setup intends. */
    const samples: array<real>
    const samplesToStream: int
    const sampleRate: int
    var sampleTime: nat
    var currentSample: int

    ghost predicate Valid()
      reads this
    {
      keyboard.Valid() && samples.Length == samplesToStream && sampleTime < SIZE_MAX
    }

    function CurrentContext(note: NoteRenderer): Context
      reads keyboard
    {
      Context(note, keyboard.CurrentRates(), keyboard.footPedal)
    }

    /** Stream setup with 1024-frame chunks at 44100 Hz, then just tuning on C.
        The envelope rates come from the configuration file and the cutoff
        from the synthesizer's declaration. */
    constructor (attack: real, sustain: real, decay: real, cutoff: real)
      ensures Valid() && fresh(keyboard) && fresh(keyboard.keys) && fresh(samples)
      ensures samplesToStream == DefaultBufferSize && sampleRate == DefaultSampleRate
      ensures currentSample == 0 && sampleTime == 0
      ensures samples[..] == StreamBuffer(DefaultBufferSize)
      ensures keyboard.CurrentRates() == Rates(attack, sustain, decay, cutoff) && !keyboard.footPedal
      ensures forall k :: 0 <= k < KeyCount ==>
                keyboard.keys[k].frequency == JustFrequency(k, 0) && !keyboard.keys[k].active
    {
      keyboard := new KeyBoard(attack, sustain, decay, cutoff);
      currentSample := 0;
      samplesToStream := DefaultBufferSize;
      var buffer := StreamBuffer(DefaultBufferSize);
      samples := new real[DefaultBufferSize](i requires 0 <= i < DefaultBufferSize => buffer[i]);
      sampleRate := DefaultSampleRate;
      sampleTime := 0;
      new;
      keyboard.SetFundamentalPitch(0);
    }

    /** `SampleActiveKeys`: produce `sampleChunkSize` frames into the buffer. */
    method SampleActiveKeys(note: NoteRenderer, sampleChunkSize: int)
      requires Valid() && sampleChunkSize <= samples.Length
      modifies this`sampleTime, keyboard.keys, samples
      ensures Valid()
      ensures var n := if sampleChunkSize < 0 then 0 else sampleChunkSize;
              var r := Run(old(keyboard.keys[..]), old(sampleTime), n, CurrentContext(note));
              && keyboard.keys[..] == r.keys
              && sampleTime == r.time
              && samples[..n] == r.frames
              && samples[n..] == old(samples[n..])
    {
      ghost var ctx := CurrentContext(note);
      ghost var keys0, time0 := keyboard.keys[..], sampleTime;
      var totalAmplitude: real, frame: real;
      var f := 0;
      while f < sampleChunkSize
        invariant 0 <= f <= samples.Length && f <= (if sampleChunkSize < 0 then 0 else sampleChunkSize)
        invariant sampleTime < SIZE_MAX
        invariant Run(keys0, time0, f, ctx) == ChunkState(keyboard.keys[..], sampleTime, samples[..f])
        invariant samples[f..] == old(samples[f..])
      {
        ghost var ks := keyboard.keys[..];
        totalAmplitude, frame := MixActiveKeys(note);
        if totalAmplitude > 1.0 {
          frame := frame / totalAmplitude;
        }
        assert frame == FrameValue(ks, sampleTime, ctx);
        sampleTime := (sampleTime + 1) % SIZE_MAX;
        samples[f] := frame;
        assert samples[..f + 1] == Run(keys0, time0, f, ctx).frames + [frame];
        f := f + 1;
      }
      assert f == if sampleChunkSize < 0 then 0 else sampleChunkSize;
      assert ctx == CurrentContext(note);
    }

    /** The inner loop of `SampleActiveKeys`: one pass over the 96 keys at the
        current sample time. Each sounding key is rendered, then advanced one
        envelope step, then its new amplitude is added to the total. */
    method MixActiveKeys(note: NoteRenderer) returns (totalAmplitude: real, frame: real)
      requires Valid()
      modifies keyboard.keys
      ensures var ctx := CurrentContext(note);
              && keyboard.keys[..] == AdvanceAll(old(keyboard.keys[..]), ctx)
              && Mix(frame, totalAmplitude) == MixPrefix(old(keyboard.keys[..]), KeyCount, sampleTime, ctx)
    {
      ghost var ctx := CurrentContext(note);
      ghost var ks := keyboard.keys[..];
      totalAmplitude := 0.0;
      frame := 0.0;
      for k := 0 to KeyCount
        invariant forall j :: 0 <= j < k ==> keyboard.keys[j] == Advance(ks[j], ctx)
        invariant forall j :: k <= j < KeyCount ==> keyboard.keys[j] == ks[j]
        invariant Mix(frame, totalAmplitude) == MixPrefix(ks, k, sampleTime, ctx)
      {
        if keyboard.keys[k].active {
          frame := frame + note(sampleTime, keyboard.keys[k].frequency, keyboard.keys[k].amplitude);
          keyboard.KeySustain(k);
          totalAmplitude := totalAmplitude + keyboard.keys[k].amplitude;
        }
      }
      assert keyboard.keys[..] == AdvanceAll(ks, ctx);
    }

    /** `onGetData`: hand the buffer (from the current read position) to the
        audio backend as a chunk of `samplesToStream` frames, rewind the read
        position, fill the buffer, and report success. */
    method OnGetData(note: NoteRenderer) returns (ok: bool, offset: int, sampleCount: int)
      requires Valid()
      modifies this, keyboard.keys, samples
      ensures Valid() && ok && sampleCount == samplesToStream
      ensures offset == old(currentSample) && currentSample == 0
      ensures var r := Run(old(keyboard.keys[..]), old(sampleTime), samplesToStream, CurrentContext(note));
              keyboard.keys[..] == r.keys && sampleTime == r.time && samples[..] == r.frames
    {
      offset := currentSample;
      sampleCount := samplesToStream;
      currentSample := 0;
      SampleActiveKeys(note, samplesToStream);
      ok := true;
    }
  }
}
