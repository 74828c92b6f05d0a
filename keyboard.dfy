/** The keyboard: 96 keys (8 octaves of 12 pitch classes), each with its
    own envelope, plus the three envelope rates and the foot pedal.
    A key is a value (a C++ struct held in a fixed array); the keyboard is
    an object whose methods update that array in place. */
module Keyboard {
  import opened CppArith
  import opened MusicTheory

  const KeyCount: int := 96

  /** One key slot. `active` says whether it sounds; `amplitude` is its
      envelope level, multiplied by `amplitudeDelta` once per frame. */
  datatype Key = Key(
    frequency: real,
    active: bool,
    keyDown: bool,
    amplitude: real,
    initialAmplitude: real,
    amplitudeDelta: real)

  /** The keyboard's envelope rates (per-frame multipliers) and the
      amplitude floor at which a key falls silent. */
  datatype Rates = Rates(attackSpeed: real, sustainSpeed: real, decaySpeed: real, cutoffAmplitude: real)

  // ---------------------------------------------------------------------------
  // Tuning

  /** Pitch class of key `k` relative to the fundamental. */
  function JustPitchClass(k: int, fundamentalIndex: int): (pc: int)
    requires 0 <= k && 0 <= fundamentalIndex < 12
    ensures 0 <= pc < 12
    ensures (k - fundamentalIndex - pc) % 12 == 0
  {
    // k + 12 - fundamentalIndex is positive, so C++ `%` agrees with Dafny's here
    (k + 12 - fundamentalIndex) % 12
  }

  /** Octave of key `k` under just tuning: floor((k - pitchClass) / 12).
      Key `k` is then `fundamental + pitchClass` semitones above octave
      `o`, and `o` stays within the octave factors the tables cover. */
  function JustOctave(k: int, fundamentalIndex: int): (o: int)
    requires 0 <= k < KeyCount && 0 <= fundamentalIndex < 12
    ensures -1 <= o <= 7
    ensures k == 12 * o + fundamentalIndex + JustPitchClass(k, fundamentalIndex)
  {
    (k - JustPitchClass(k, fundamentalIndex)) / 12
  }

  /** The frequency just tuning gives key `k`. */
  function JustFrequency(k: int, fundamentalIndex: int): real
    requires 0 <= k < KeyCount && 0 <= fundamentalIndex < 12
  {
    FFF(fundamentalIndex, JustPitchClass(k, fundamentalIndex), JustOctave(k, fundamentalIndex))
  }

  /** The frequency equal temperament gives key `k`. */
  function EqualFrequency(k: int): real
    requires 0 <= k < KeyCount
  {
    BaseFrequency(k % 12, k / 12)
  }

  /** The octave computation of `SetFundamentalPitch`: C++ truncating
      division patched with `o = -1` when `k < pitchClass`, which is
      exactly floor division. */
  lemma OctavePatchIsFloor(k: int, pitchClass: int)
    requires 0 <= k && 0 <= pitchClass < 12
    ensures (if k < pitchClass then -1 else TruncDiv(k - pitchClass, 12)) == (k - pitchClass) / 12
  {
  }

  /** Without the patch the octave would be wrong: key 0 with pitch class 11
      truncates to octave 0 instead of -1. */
  lemma TruncationNeedsPatch()
    ensures TruncDiv(0 - 11, 12) == 0 && (0 - 11) / 12 == -1
  {
  }

  lemma JustFrequencyStep(k: int, fundamentalIndex: int)
    requires 0 <= k < KeyCount - 1 && 0 <= fundamentalIndex < 12
    ensures JustFrequency(k, fundamentalIndex) < JustFrequency(k + 1, fundamentalIndex)
  {
    var f := fundamentalIndex;
    var pc, o := JustPitchClass(k, f), JustOctave(k, f);
    var pc', o' := JustPitchClass(k + 1, f), JustOctave(k + 1, f);
    if pc < 11 {
      assert pc' == pc + 1 && o' == o;
      FFFIncreasingInInterval(f, pc, pc', o);
    } else {
      assert pc' == 0 && o' == o + 1;
      FFFOctaveDoubles(f, 0, o);
    }
  }

  /** A sequence whose every entry is below the next is strictly increasing. */
  lemma {:induction false} RisingSteps(s: seq<real>, j: int, k: int)
    requires forall i :: 0 <= i < |s| - 1 ==> s[i] < s[i + 1]
    requires 0 <= j < k < |s|
    ensures s[j] < s[k]
  {
    if j < k - 1 {
      RisingSteps(s, j, k - 1);
    }
  }

  /** Under just tuning, frequency strictly increases with the key index. */
  lemma JustFrequencyIncreasing(j: int, k: int, fundamentalIndex: int)
    requires 0 <= j < k < KeyCount && 0 <= fundamentalIndex < 12
    ensures JustFrequency(j, fundamentalIndex) < JustFrequency(k, fundamentalIndex)
  {
    var fs := seq(KeyCount, k requires 0 <= k < KeyCount => JustFrequency(k, fundamentalIndex));
    forall i | 0 <= i < |fs| - 1 ensures fs[i] < fs[i + 1] {
      JustFrequencyStep(i, fundamentalIndex);
    }
    RisingSteps(fs, j, k);
  }

  lemma EqualFrequencyStep(k: int)
    requires 0 <= k < KeyCount - 1
    ensures EqualFrequency(k) < EqualFrequency(k + 1)
  {
    var pc, o := k % 12, k / 12;
    FundamentalPitchStep(pc);
    var p := Pow2(o + 1);
    if pc < 11 {
      assert (k + 1) % 12 == pc + 1 && (k + 1) / 12 == o;
      assert FundamentalPitches[pc] * p < FundamentalPitches[pc + 1] * p;
    } else {
      assert (k + 1) % 12 == 0 && (k + 1) / 12 == o + 1;
      Pow2Succ(o + 1);
      assert FundamentalPitches[11] * p < 2.0 * FundamentalPitches[0] * p;
    }
  }

  /** Under equal temperament, frequency strictly increases with the key index. */
  lemma EqualFrequencyIncreasing(j: int, k: int)
    requires 0 <= j < k < KeyCount
    ensures EqualFrequency(j) < EqualFrequency(k)
  {
    var fs := seq(KeyCount, k requires 0 <= k < KeyCount => EqualFrequency(k));
    forall i | 0 <= i < |fs| - 1 ensures fs[i] < fs[i + 1] {
      EqualFrequencyStep(i);
    }
    RisingSteps(fs, j, k);
  }

  /** Key 0 under just tuning on a fundamental other than C: the fundamental's
      base pitch one octave down, times the ratio of interval `12 - f`. */
  lemma JustKeyZero(fundamentalIndex: int)
    requires 0 < fundamentalIndex < 12
    ensures JustFrequency(0, fundamentalIndex) ==
              FundamentalPitches[fundamentalIndex] * JustIntervals[12 - fundamentalIndex]
  {
    var f := fundamentalIndex;
    assert JustPitchClass(0, f) == 12 - f;
    assert JustOctave(0, f) == -1;
    assert Pow2(0) == 1.0;
  }

  /** Just tuning never puts key 0 on C one octave above the table (the
      equal-temperament value) unless the fundamental is C. */
  lemma JustKeyZeroIsNotEqual(fundamentalIndex: int)
    requires 0 < fundamentalIndex < 12
    ensures JustFrequency(0, fundamentalIndex) != FundamentalPitches[0] * 2.0
  {
    JustKeyZero(fundamentalIndex);
    var f := fundamentalIndex;
    if f < 4 {
      if f == 1 { assert JustFrequency(0, 1) == 17.32 * (15.0 / 8.0); }
      else if f == 2 { assert JustFrequency(0, 2) == 18.35 * (9.0 / 5.0); }
      else { assert JustFrequency(0, 3) == 19.45 * (5.0 / 3.0); }
    } else if f < 8 {
      if f == 4 { assert JustFrequency(0, 4) == 20.60 * (8.0 / 5.0); }
      else if f == 5 { assert JustFrequency(0, 5) == 21.83 * (3.0 / 2.0); }
      else if f == 6 { assert JustFrequency(0, 6) == 23.12 * (45.0 / 32.0); }
      else { assert JustFrequency(0, 7) == 24.50 * (4.0 / 3.0); }
    } else {
      if f == 8 { assert JustFrequency(0, 8) == 25.96 * (5.0 / 4.0); }
      else if f == 9 { assert JustFrequency(0, 9) == 27.50 * (6.0 / 5.0); }
      else if f == 10 { assert JustFrequency(0, 10) == 29.14 * (9.0 / 8.0); }
      else { assert JustFrequency(0, 11) == 30.87 * (25.0 / 24.0); }
    }
  }

  /** The test the keyboard loop uses to decide whether equal temperament is
      already in force (keys 0 and 1 at twice the first two base pitches)
      holds after equal tuning and fails after just tuning on any fundamental. */
  lemma EqualTemperamentTest(fundamentalIndex: int)
    requires 0 <= fundamentalIndex < 12
    ensures EqualFrequency(0) == FundamentalPitches[0] * 2.0
    ensures EqualFrequency(1) == FundamentalPitches[1] * 2.0
    ensures !(JustFrequency(0, fundamentalIndex) == FundamentalPitches[0] * 2.0 &&
              JustFrequency(1, fundamentalIndex) == FundamentalPitches[1] * 2.0)
  {
    EqualKeysZeroOne();
    if fundamentalIndex == 0 {
      JustKeyOneOnC();
    } else {
      JustKeyZeroIsNotEqual(fundamentalIndex);
    }
  }

  lemma EqualKeysZeroOne()
    ensures EqualFrequency(0) == FundamentalPitches[0] * 2.0
    ensures EqualFrequency(1) == FundamentalPitches[1] * 2.0
  {
    assert Pow2(1) == 2.0;
  }

  /** With C as fundamental, key 1 is a just minor second (25/24), not the
      equal-tempered C sharp. */
  lemma JustKeyOneOnC()
    ensures JustFrequency(1, 0) != FundamentalPitches[1] * 2.0
  {
    assert Pow2(1) == 2.0;
    assert FFF(0, 1, 0) == 16.35 * 2.0 * (25.0 / 24.0);
    assert JustFrequency(1, 0) == FFF(0, 1, 0);
  }

  // ---------------------------------------------------------------------------
  // Envelope transitions on one key

  /** `SetKeyOn`: restart the attack ramp from the floor, aiming at `velocity`. */
  function KeyOn(key: Key, velocity: real, rates: Rates): (r: Key)
    ensures r.active && r.keyDown
    ensures r.amplitude == rates.cutoffAmplitude && r.amplitudeDelta == rates.attackSpeed
    ensures r.initialAmplitude == velocity && r.frequency == key.frequency
  {
    key.(keyDown := true, active := true, initialAmplitude := velocity,
         amplitudeDelta := rates.attackSpeed, amplitude := rates.cutoffAmplitude)
  }

  /** A note-on keeps nothing of the key's previous envelope: two keys with the
      same frequency end up identical. */
  lemma KeyOnForgetsEnvelope(a: Key, b: Key, velocity: real, rates: Rates)
    requires a.frequency == b.frequency
    ensures KeyOn(a, velocity, rates) == KeyOn(b, velocity, rates)
  {
  }

  /** `SetKeyOff`: release the key; the decay rate takes over only when the
      foot pedal is up. */
  function KeyOff(key: Key, footPedal: bool, rates: Rates): (r: Key)
    ensures !r.keyDown
    ensures r.amplitudeDelta == (if footPedal then key.amplitudeDelta else rates.decaySpeed)
    ensures r.active == key.active && r.amplitude == key.amplitude
    ensures r.frequency == key.frequency && r.initialAmplitude == key.initialAmplitude
  {
    var released := key.(keyDown := false);
    if !footPedal then released.(amplitudeDelta := rates.decaySpeed) else released
  }

  /** `KeySustain`: one frame of envelope. Past the target amplitude the
      sustain rate takes over; the amplitude is multiplied by the rate; at or
      below the floor the key falls silent; a sounding key that is up while
      the pedal is up is released again. */
  function Sustain(key: Key, rates: Rates, footPedal: bool): (r: Key)
    ensures r.frequency == key.frequency && r.keyDown == key.keyDown
    ensures r.initialAmplitude == key.initialAmplitude
    ensures r.active ==> key.active
    ensures r.active <==> key.active && r.amplitude > rates.cutoffAmplitude
    ensures key.amplitude > key.initialAmplitude ==> r.amplitude == key.amplitude * rates.sustainSpeed
    ensures key.amplitude <= key.initialAmplitude ==> r.amplitude == key.amplitude * key.amplitudeDelta
    ensures r.active && !r.keyDown && !footPedal ==> r.amplitudeDelta == rates.decaySpeed
    ensures !(r.active && !r.keyDown && !footPedal) ==>
              r.amplitudeDelta == (if key.amplitude > key.initialAmplitude then rates.sustainSpeed else key.amplitudeDelta)
    ensures 0.0 < key.amplitudeDelta < 1.0 && 0.0 < key.amplitude <= key.initialAmplitude ==>
              r.amplitude < key.amplitude
  {
    ScaleBelowOne(key.amplitude, key.amplitudeDelta);
    var delta := if key.amplitude > key.initialAmplitude then rates.sustainSpeed else key.amplitudeDelta;
    var amplitude := key.amplitude * delta;
    var stepped := key.(amplitudeDelta := delta, amplitude := amplitude,
                        active := if amplitude <= rates.cutoffAmplitude then false else key.active);
    if !stepped.keyDown && !footPedal && stepped.active then KeyOff(stepped, footPedal, rates) else stepped
  }

  lemma ScaleBelowOne(x: real, d: real)
    ensures 0.0 < x && 0.0 < d < 1.0 ==> 0.0 < x * d < x
  {
    if 0.0 < x && 0.0 < d < 1.0 {
      assert x * d < x * 1.0;
    }
  }

  /** A key that is released (up, pedal up, decaying at a rate in (0,1), below
      its target) keeps decaying: its amplitude strictly falls and, while it
      still sounds, it is still released. */
  ghost predicate Releasing(key: Key, rates: Rates, footPedal: bool)
  {
    key.active && !key.keyDown && !footPedal &&
    key.amplitudeDelta == rates.decaySpeed && 0.0 < rates.decaySpeed < 1.0 &&
    0.0 < key.amplitude <= key.initialAmplitude
  }

  lemma ReleaseDecays(key: Key, rates: Rates, footPedal: bool)
    requires Releasing(key, rates, footPedal)
    ensures Sustain(key, rates, footPedal).amplitude < key.amplitude
    ensures Sustain(key, rates, footPedal).active ==> Releasing(Sustain(key, rates, footPedal), rates, footPedal)
  {
    var r := Sustain(key, rates, footPedal);
    assert r.amplitude == key.amplitude * rates.decaySpeed;
    assert 0.0 < r.amplitude;
  }

  /** A key above its target is scaled by the sustain rate even once it is
      released: the release stores the decay rate, but the next step replaces
      it by the sustain rate again. With a sustain rate of at least 1 such a
      key keeps sounding and never loses amplitude. */
  lemma ReleasedAboveTargetHolds(key: Key, rates: Rates, footPedal: bool)
    requires key.active && key.amplitude > key.initialAmplitude && key.amplitude > rates.cutoffAmplitude
    requires key.amplitude > 0.0 && rates.sustainSpeed >= 1.0
    ensures Sustain(key, rates, footPedal).active
    ensures Sustain(key, rates, footPedal).amplitude >= key.amplitude
    ensures Sustain(key, rates, footPedal).amplitude > Sustain(key, rates, footPedal).initialAmplitude
  {
  }

  // ---------------------------------------------------------------------------
  // The keyboard object

  class KeyBoard {
    const keys: array<Key>
    var attackSpeed: real
    var sustainSpeed: real
    var decaySpeed: real
    const cutoffAmplitude: real
    var footPedal: bool

    ghost predicate Valid()
    {
      keys.Length == KeyCount
    }

    function CurrentRates(): (r: Rates)
      reads this
      ensures r.cutoffAmplitude == cutoffAmplitude
    {
      Rates(attackSpeed, sustainSpeed, decaySpeed, cutoffAmplitude)
    }

    /** Every key starts silent, at the amplitude floor, pedal up. Fields the
        source initialises in a header that is not part of this model start at 0. */
    constructor (attack: real, sustain: real, decay: real, cutoff: real)
      ensures Valid() && fresh(keys) && !footPedal
      ensures CurrentRates() == Rates(attack, sustain, decay, cutoff)
      ensures forall k :: 0 <= k < KeyCount ==>
                !keys[k].active && !keys[k].keyDown && keys[k].amplitude == cutoff
    {
      attackSpeed, sustainSpeed, decaySpeed := attack, sustain, decay;
      cutoffAmplitude := cutoff;
      footPedal := false;
      keys := new Key[KeyCount](_ => Key(0.0, false, false, cutoff, 0.0, 0.0));
    }

    /** `SetFundamentalPitch(fundamentalIndex)`: just tuning on the given
        fundamental. Writes only `frequency`, on all 96 keys. */
    method SetFundamentalPitch(fundamentalIndex: int)
      requires Valid() && 0 <= fundamentalIndex < 12
      modifies keys
      ensures forall k :: 0 <= k < KeyCount ==>
                keys[k] == old(keys[k]).(frequency := JustFrequency(k, fundamentalIndex))
    {
      for k := 0 to KeyCount
        invariant forall j :: 0 <= j < k ==>
                    keys[j] == old(keys[j]).(frequency := JustFrequency(j, fundamentalIndex))
        invariant forall j :: k <= j < KeyCount ==> keys[j] == old(keys[j])
      {
        var pitchClass := (k + 12 - fundamentalIndex) % 12;
        var o := TruncDiv(k - pitchClass, 12);
        if k < pitchClass { o := -1; }
        OctavePatchIsFloor(k, pitchClass);
        assert o == JustOctave(k, fundamentalIndex);
        keys[k] := keys[k].(frequency := FFF(fundamentalIndex, pitchClass, o));
      }
    }

    /** `SetFundamentalPitch()`: equal temperament. Writes only `frequency`,
        on all 96 keys. */
    method SetEqualTemperament()
      requires Valid()
      modifies keys
      ensures forall k :: 0 <= k < KeyCount ==>
                keys[k] == old(keys[k]).(frequency := EqualFrequency(k))
    {
      for k := 0 to KeyCount
        invariant forall j :: 0 <= j < k ==> keys[j] == old(keys[j]).(frequency := EqualFrequency(j))
        invariant forall j :: k <= j < KeyCount ==> keys[j] == old(keys[j])
      {
        var pitchClass := k % 12;
        var o := TruncDiv(k - pitchClass, 12);
        if k < pitchClass { o := -1; }
        OctavePatchIsFloor(k, pitchClass);
        keys[k] := keys[k].(frequency := BaseFrequency(pitchClass, o));
      }
    }

    /** `SetKeyOn`: key `keyIndex` starts its attack; nothing else changes. */
    method SetKeyOn(keyIndex: int, velocity: real)
      requires Valid() && 0 <= keyIndex < KeyCount
      modifies keys
      ensures keys[..] == old(keys[..])[keyIndex := KeyOn(old(keys[keyIndex]), velocity, CurrentRates())]
    {
      keys[keyIndex] := keys[keyIndex].(keyDown := true);
      keys[keyIndex] := keys[keyIndex].(active := true);
      keys[keyIndex] := keys[keyIndex].(initialAmplitude := velocity);
      keys[keyIndex] := keys[keyIndex].(amplitudeDelta := attackSpeed);
      keys[keyIndex] := keys[keyIndex].(amplitude := cutoffAmplitude);
    }

    /** `SetKeyOff`: key `keyIndex` is released; nothing else changes. */
    method SetKeyOff(keyIndex: int)
      requires Valid() && 0 <= keyIndex < KeyCount
      modifies keys
      ensures keys[..] == old(keys[..])[keyIndex := KeyOff(old(keys[keyIndex]), footPedal, CurrentRates())]
    {
      keys[keyIndex] := keys[keyIndex].(keyDown := false);
      if !footPedal {
        keys[keyIndex] := keys[keyIndex].(amplitudeDelta := decaySpeed);
      }
    }

    /** `KeySustain`: one frame of envelope on key `keyIndex`; nothing else changes. */
    method KeySustain(keyIndex: int)
      requires Valid() && 0 <= keyIndex < KeyCount
      modifies keys
      ensures keys[..] == old(keys[..])[keyIndex := Sustain(old(keys[keyIndex]), CurrentRates(), footPedal)]
    {
      ghost var rates := CurrentRates();
      ghost var before := keys[..];
      if keys[keyIndex].amplitude > keys[keyIndex].initialAmplitude {
        keys[keyIndex] := keys[keyIndex].(amplitudeDelta := sustainSpeed);
      }
      keys[keyIndex] := keys[keyIndex].(amplitude := keys[keyIndex].amplitude * keys[keyIndex].amplitudeDelta);
      if keys[keyIndex].amplitude <= cutoffAmplitude {
        keys[keyIndex] := keys[keyIndex].(active := false);
      }
      ghost var stepped := keys[keyIndex];
      ghost var k0 := before[keyIndex];
      ghost var delta := if k0.amplitude > k0.initialAmplitude then rates.sustainSpeed else k0.amplitudeDelta;
      assert stepped == k0.(amplitudeDelta := delta, amplitude := k0.amplitude * delta,
                            active := if k0.amplitude * delta <= rates.cutoffAmplitude then false else k0.active);
      assert keys[..] == before[keyIndex := stepped];
      assert Sustain(k0, rates, footPedal).amplitude == k0.amplitude * delta;
      assert Sustain(k0, rates, footPedal).active == stepped.active;
      assert Sustain(k0, rates, footPedal) ==
        (if !stepped.keyDown && !footPedal && stepped.active then KeyOff(stepped, footPedal, rates) else stepped);
      if !keys[keyIndex].keyDown && !footPedal && keys[keyIndex].active {
        SetKeyOff(keyIndex);
        assert keys[keyIndex] == KeyOff(stepped, footPedal, rates);
      }
      assert keys[keyIndex] == Sustain(k0, rates, footPedal);
      assert keys[..] == before[keyIndex := Sustain(k0, rates, footPedal)];
    }
  }

  /** Retuning twice on the same fundamental leaves the keys as one retuning does. */
  method RetuneTwice(keyboard: KeyBoard, fundamentalIndex: int)
    requires keyboard.Valid() && 0 <= fundamentalIndex < 12
    modifies keyboard.keys
    ensures forall k :: 0 <= k < KeyCount ==>
              keyboard.keys[k] == old(keyboard.keys[k]).(frequency := JustFrequency(k, fundamentalIndex))
  {
    keyboard.SetFundamentalPitch(fundamentalIndex);
    keyboard.SetFundamentalPitch(fundamentalIndex);
  }
}
