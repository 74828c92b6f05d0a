# MicroSynth in Dafny

A verified model of the core of MicroSynth, a microtonal software synthesizer.

Its keyboard has 96 keys. Each key has a frequency and an envelope:
- an attack ramp up to the velocity it was struck with;
- then a sustain rate;
- then, once released, a decay rate until its amplitude reaches a cutoff floor.

The keyboard can be tuned two ways:
- **just intonation** on any of the twelve pitch classes as fundamental;
- **equal temperament**.

The synthesizer fills its stream buffer one chunk at a time. For each frame it:
- renders every sounding key;
- advances that key's envelope one step;
- divides the mix by the summed amplitude when that sum exceeds 1;
- ticks a wrapping sample clock.

Input arrives in three forms: three-byte MIDI messages, console chords typed as space-separated integers, and computer-keyboard presses.

The model has five modules: one for the C++ integer arithmetic the source relies on, and one for each of the four parts of `MicroSynth.cpp` it models:

- `CppArith` — C++ truncating `/` and `%` on `int`.
- `MusicTheory` — the pitch tables, `pow(2.0, e)`, `BaseFrequency` and `FFF`.
- `Keyboard`:
  - the `Key` value and the pure envelope transitions `KeyOn`, `KeyOff` and `Sustain`;
  - the tuning functions;
  - the class `KeyBoard`, whose methods update its key array in place and are proved against those functions.
- `Synthesis`:
  - the chunk specification `Run`, built from `MixPrefix`, `Normalize` and `AdvanceAll`;
  - the class `Synthesizer`, whose `SampleActiveKeys` loop is proved against `Run`.
- `Input`:
  - a model of `std::stoi`;
  - the chord splitter, proved against a token-level specification;
  - the MIDI and console-chord decoders, as pure functions from input to keyboard events;
  - the keyboard call each event makes.

C++ doubles are modelled as reals. Every table entry is a decimal or rational constant, and every octave factor is an exact power of two, so the model involves no rounding.

## Model

| member | source | states |
|---|---|---|
| CppArith.TruncDiv | MicroSynth.cpp:77 | C++ `/` on `int` truncates toward zero: the remainder has the sign of the dividend and is smaller than the divisor |
| CppArith.TruncRem | MicroSynth.cpp:524 | C++ `%` on `int` is `a - (a / b) * b`, with the sign of the dividend |
| MusicTheory.Pow2 | MicroSynth.cpp:33 | `pow(2.0, e)` is positive for every integer exponent |
| MusicTheory.Pow2Succ | MicroSynth.cpp:33 | `pow(2.0, e + 1)` is twice `pow(2.0, e)` |
| MusicTheory.FundamentalPitchPositive | MicroSynth.cpp:46 | every base pitch is positive |
| MusicTheory.FundamentalPitchStep | MicroSynth.cpp:46 | base pitches rise from C to B, and B lies below twice C |
| MusicTheory.JustIntervalStep | MicroSynth.cpp:31 | every just ratio lies in [1, 2), and each is smaller than the next |
| MusicTheory.JustIntervalsIncreasing | MicroSynth.cpp:31 | the just-ratio table is strictly increasing |
| MusicTheory.BaseFrequency | MicroSynth.cpp:41-44 | the equal-tempered frequency is positive |
| MusicTheory.FFF | MicroSynth.cpp:24-38 | interval 0 gives the equal-tempered pitch of the fundamental; every interval lies between that pitch and its octave |
| MusicTheory.FFFOctaveDoubles | MicroSynth.cpp:33-37 | one octave up doubles the just frequency |
| MusicTheory.FFFIncreasingInInterval | MicroSynth.cpp:31-37 | within one fundamental and octave, a larger interval gives a higher frequency |
| MusicTheory.BaseFrequencyOctaveDoubles | MicroSynth.cpp:43 | one octave up doubles the equal-tempered frequency |
| Keyboard.JustPitchClass | MicroSynth.cpp:76 | the pitch class is in [0, 12) and congruent to `k - f` modulo 12 |
| Keyboard.JustOctave | MicroSynth.cpp:77-78 | the octave is in [-1, 7], and key `k` is exactly `12 * o + f + pitchClass` |
| Keyboard.OctavePatchIsFloor | MicroSynth.cpp:77-78 | truncating division patched with `o = -1` when `k < pitchClass` equals floor division |
| Keyboard.TruncationNeedsPatch | MicroSynth.cpp:77-78 | without the patch, key 0 with pitch class 11 lands in octave 0 instead of -1 |
| Keyboard.JustFrequencyStep | MicroSynth.cpp:74-81 | under just tuning, each key sounds higher than the one below it |
| Keyboard.RisingSteps | MicroSynth.cpp:74-96 | a sequence whose every entry is below the next is strictly increasing, which lifts the one-key steps to the whole keyboard |
| Keyboard.JustFrequencyIncreasing | MicroSynth.cpp:74-81 | under just tuning, frequency strictly increases with the key index |
| Keyboard.EqualFrequencyStep | MicroSynth.cpp:89-96 | under equal temperament, each key sounds higher than the one below it |
| Keyboard.EqualFrequencyIncreasing | MicroSynth.cpp:89-96 | under equal temperament, frequency strictly increases with the key index |
| Keyboard.JustKeyZero | MicroSynth.cpp:76-80 | on a fundamental other than C, key 0 gets the fundamental's base pitch times the ratio of interval `12 - f` |
| Keyboard.JustKeyZeroIsNotEqual | MicroSynth.cpp:601-603 | on a fundamental other than C, key 0 is never at twice the base C |
| Keyboard.JustKeyOneOnC | MicroSynth.cpp:601-603 | with C as fundamental, key 1 is a just minor second, not twice the base C sharp |
| Keyboard.EqualKeysZeroOne | MicroSynth.cpp:601-603 | equal temperament puts keys 0 and 1 at twice the first two base pitches |
| Keyboard.EqualTemperamentTest | MicroSynth.cpp:601-603 | the "already equal-tempered" test holds after equal tuning and fails after just tuning on every fundamental |
| Keyboard.KeyOn | MicroSynth.cpp:100-107 | a note-on makes the key active and down, at the amplitude floor, with the attack rate and the velocity as target; frequency is kept |
| Keyboard.KeyOnForgetsEnvelope | MicroSynth.cpp:100-107 | a note-on keeps nothing of the previous envelope |
| Keyboard.KeyOff | MicroSynth.cpp:110-115 | a release clears `keyDown`; it sets the decay rate if and only if the pedal is up; amplitude, activity, frequency and target are kept |
| Keyboard.Sustain | MicroSynth.cpp:119-129 | one envelope step never wakes a key and keeps frequency, `keyDown` and target. The multiplier is the sustain rate past the target, else the key's own rate. The key stays active if and only if it was active and ends above the floor. A still-sounding key that is up with the pedal up is decaying. A rate in (0,1) strictly lowers an amplitude in (0, target]. Unless the key is re-released, the rate it keeps is the sustain rate once it was past the target, else its own rate |
| Keyboard.ScaleBelowOne | MicroSynth.cpp:124 | multiplying a positive amplitude by a rate in (0,1) lowers it and keeps it positive |
| Keyboard.ReleaseDecays | MicroSynth.cpp:119-129 | a released key loses amplitude on its next step and, while it sounds, stays released |
| Keyboard.KeyBoard.SetFundamentalPitch | MicroSynth.cpp:71-82 | every one of the 96 keys gets its just frequency on the fundamental; no other field changes |
| Keyboard.KeyBoard.SetEqualTemperament | MicroSynth.cpp:84-97 | every one of the 96 keys gets its equal-tempered frequency; no other field changes |
| Keyboard.KeyBoard.SetKeyOn | MicroSynth.cpp:100-107 | the key array after the call is the old array with key `i` replaced by `KeyOn` of it |
| Keyboard.KeyBoard.SetKeyOff | MicroSynth.cpp:110-115 | the key array after the call is the old array with key `i` replaced by `KeyOff` of it |
| Keyboard.KeyBoard.KeySustain | MicroSynth.cpp:119-129 | the key array after the call is the old array with key `i` replaced by `Sustain` of it |
| Keyboard.RetuneTwice | MicroSynth.cpp:71-82 | retuning twice on the same fundamental leaves the keys as one retuning does |
| Synthesis.Normalize | MicroSynth.cpp:318 | a frame is divided by the summed amplitude exactly when that exceeds 1, and its magnitude never grows |
| Synthesis.Run | MicroSynth.cpp:304-323 | `n` frames produce `n` stored values and keep all 96 keys |
| Synthesis.ClockTick | MicroSynth.cpp:320 | one tick of the wrapping clock commutes with reduction modulo `SIZE_MAX` |
| Synthesis.RunTime | MicroSynth.cpp:320 | a chunk of `n` frames advances the sample clock by `n` modulo `SIZE_MAX` |
| Synthesis.RunPerKey | MicroSynth.cpp:309-317 | keys evolve independently: after `n` frames each key is its own start advanced `n` times |
| Synthesis.SilentKeyStaysSilent | MicroSynth.cpp:311 | a key that has fallen silent is not touched again |
| Synthesis.InactiveKeysUntouched | MicroSynth.cpp:311 | a chunk leaves keys that are silent at its start unchanged |
| Synthesis.MixSilent | MicroSynth.cpp:309-317 | with no sounding key, the frame and the summed amplitude are both 0 |
| Synthesis.SilentChunk | MicroSynth.cpp:304-323 | with no sounding key every frame is 0, no division happens, and the keys are unchanged |
| Keyboard.ReleasedAboveTargetHolds | MicroSynth.cpp:119-129 | a sounding key above its target is scaled by the sustain rate, released or not; with a sustain rate of at least 1 it stays sounding, above its target, and loses no amplitude |
| Synthesis.ReleasedAboveTargetNeverFades | MicroSynth.cpp:119-129 | a key released above its target, with a sustain rate of at least 1, sounds on every later frame at no less than its amplitude |
| Synthesis.ReleaseFades | MicroSynth.cpp:309-317 | a released key loses amplitude on every frame for as long as it sounds |
| Synthesis.Resize | MicroSynth.cpp:169 | `std::vector::resize(count, value)` keeps the first `count` elements and pads with `value` |
| Synthesis.SwappedResizeLeavesNoRoom | MicroSynth.cpp:169 | with the arguments swapped, the buffer has length 0, so every frame index lies past its end |
| Synthesis.StreamBuffer | MicroSynth.cpp:167-169 | the intended buffer holds `samplesToStream` zero frames |
| Synthesis.Synthesizer.constructor | MicroSynth.cpp:151-175 | 1024-frame chunks at 44100 Hz, read position and clock at 0, a zeroed buffer, and every key just-tuned on C and silent |
| Synthesis.Synthesizer.SampleActiveKeys | MicroSynth.cpp:296-324 | the keys, the clock and frames `[0, n)` end as `Run` of `n` frames describes; frames from `n` on are untouched |
| Synthesis.Synthesizer.MixActiveKeys | MicroSynth.cpp:309-317 | one pass over the keys advances each sounding key once and yields the frame and total `MixPrefix` describes |
| Synthesis.Synthesizer.OnGetData | MicroSynth.cpp:327-337 | reports `samplesToStream` frames from the old read position, rewinds it to 0, fills the whole buffer as `Run` describes, and returns true |
| Input.LeadingSpaces | MicroSynth.cpp:376 | `stoi` skips exactly the leading white space |
| Input.DigitRun | MicroSynth.cpp:376 | `stoi` reads exactly the longest run of digits |
| Input.LeadingNumber | MicroSynth.cpp:376 | there is a number only when the text starts with a digit |
| Input.Stoi | MicroSynth.cpp:376 | a successful `stoi` returns an `int` in range; text with no digit throws `invalid_argument` |
| Input.NatToStringValue | MicroSynth.cpp:376 | the decimal digits of `n` read back as `n` |
| Input.StoiOfDecimal | MicroSynth.cpp:376 | `stoi` reads back the decimal form of every `int` |
| Input.StoiOfNegative | MicroSynth.cpp:376 | `stoi` reads `-` followed by the digits of `n` as `-n`, for every negative `int` |
| Input.StoiOfNatural | MicroSynth.cpp:376 | `stoi` reads the digits of a non-negative `int` as that `int` |
| Input.Tokens | MicroSynth.cpp:372-389 | no token of the split contains a space |
| Input.Sequence | MicroSynth.cpp:376-382 | the list succeeds if and only if every entry does, and then holds every value in order; otherwise it fails with the first failing entry's error |
| Input.ParseChord | MicroSynth.cpp:367-392 | empty input gives an empty list; every entry is an `int` |
| Input.DeconstructStringInput | MicroSynth.cpp:367-392 | the loop returns the list `ParseChord` specifies, or the exception it raises |
| Input.SpaceStep | MicroSynth.cpp:374-378 | a space pushes the pending token's value and clears it, or the whole parse fails with its error |
| Input.WordStep | MicroSynth.cpp:379-388 | any other character extends the pending token; at the end of the input it is pushed |
| Input.ParseAllFailureStops | MicroSynth.cpp:376-382 | once a token throws, later tokens make no difference |
| Input.DoneIsPrefix | MicroSynth.cpp:372-389 | tokens completed so far stay at the front of the final split |
| Input.TokensOfJoin | MicroSynth.cpp:372-389 | integers joined by single spaces split back into their decimal forms, with or without one trailing space |
| Input.TokensOfJoinWords | MicroSynth.cpp:372-389 | non-empty words without spaces, joined with single spaces, split back into the words, with or without one trailing space |
| Input.TokensWithTrailingSpace | MicroSynth.cpp:372-389 | with a non-empty token pending, the split is the completed tokens plus that one, and a trailing space completes it without adding a token |
| Input.ParseChordRoundTrip | MicroSynth.cpp:367-392 | joining integers' decimal forms with single spaces and parsing gives the same integers in order |
| Input.TrailingSpaceAddsNothing | MicroSynth.cpp:374-378 | one trailing space adds no entry |
| Input.LeadingSpaceFails | MicroSynth.cpp:374-376 | a leading space makes `stoi` throw `invalid_argument` on an empty token |
| Input.DoubledSpaceFails | MicroSynth.cpp:374-377 | a doubled space makes parsing fail |
| Input.MidiTriple | MicroSynth.cpp:444-476 | status 144 or 128 with a note in (35,108) presses or releases key `note - 12`, in [24,95]. Status 144 with a note in (20,35) retunes to `note % 12`. Byte 1 of 64 with value 127 or 0 sets or clears the pedal whatever the status. Velocity is `value / 130`, below 1 for MIDI data bytes. Every event is in range, and nothing else happens. At most one key event and one pedal event, the key event first, as the key branch runs before the pedal branch |
| Input.KeyEvents | MicroSynth.cpp:444-464 | status 144 with a note in (35,108) presses key `note - 12`; with a note in (20,35) it retunes to `note % 12`; status 128 with a note in (35,108) releases key `note - 12`; nothing else, and every event is in range |
| Input.PedalEvents | MicroSynth.cpp:466-476 | byte 1 of 64 with value 127 presses the pedal and with value 0 lifts it; nothing else |
| Input.Note35DoesNothing | MicroSynth.cpp:447-452 | note 35 triggers nothing |
| Input.MidiEvents | MicroSynth.cpp:440-477 | every event decoded from a message is in range, at most two per three-byte group |
| Input.MidiEventsOfTriple | MicroSynth.cpp:440-477 | a one-group message decodes to exactly that group's events, so with `MidiEventsAppend` every message decodes to its groups' events in order |
| Input.MidiEventsAppend | MicroSynth.cpp:440-477 | each three-byte group is decoded on its own, in order |
| Input.ChordEvent | MicroSynth.cpp:523-524 | a positive entry presses a key at full velocity, zero or negative releases one; the key is in [0,96) and congruent to the entry's magnitude modulo 96 |
| Input.ChordEventAsWritten | MicroSynth.cpp:523-524 | in 32-bit arithmetic the rule agrees with `ChordEvent` on every entry except `INT_MIN` |
| Input.ChordMinIntEscapesKeyboard | MicroSynth.cpp:524 | the entry `INT_MIN` releases key -32, outside the keyboard |
| Input.ChordEvents | MicroSynth.cpp:521-525 | one in-range event per entry, in order: a press at full velocity exactly for the positive ones, and otherwise a release, of a key congruent to the entry's magnitude modulo 96 |
| Input.Dispatch | MicroSynth.cpp:449-475 | each event makes its keyboard call: press, release, retune, or the pedal write; nothing else changes |

## Left out

- `GenerateNoteSin` (MicroSynth.cpp:271-292) is floating-point trigonometry over the instrument timbre. The chunk model takes it as a parameter `note(time, frequency, amplitude)`. The timbre and sample rate are bound inside it, and its 0.125 attenuation is not modelled.
- The store of a frame into an `sf::Int16` sample (MicroSynth.cpp:322) is modelled as storing the real value; the conversion is abstracted.
- `ReadConfigFile` (MicroSynth.cpp:184-268) reads the envelope rates from a file and is not modelled. The rates and the cutoff are constructor parameters, and the header that declares their defaults is not part of this model.
- `SetInstrumentTimbre` (MicroSynth.cpp:178-181) replaces the timbre that `GenerateNoteSin` reads. It is not modelled as an operation: its effect is captured by which note renderer is passed to `SampleActiveKeys` and `OnGetData`.
- `initialize` and `play` are SFML stream setup and are not modelled. Neither is `onSeek` (MicroSynth.cpp:340-344), which converts an SFML time to a sample index.
- The polling loops of `WatchMidiInputs`, `WatchConsoleInputs` and `WatchKeyboardInputs`, and `InitializeMidiConnection` (MicroSynth.cpp:395-631), are device and console I/O. Only the MIDI byte dispatch, the chord dispatch and the equal-temperament test the keyboard loop applies are modelled.
- The console's root change (MicroSynth.cpp:506) passes an unchecked `stoi` result to `SetFundamentalPitch`; it belongs to the console polling loop and is not modelled.
- Console lines are read with `cin >> line`, which stops at white space, so in the program `DeconstructStringInput` only ever sees one token. The model specifies the function for every input.
- Concurrency between the audio thread (`onGetData`) and the input threads is not modelled: the model is a single-threaded sequence of calls.
- `noteNames` (MicroSynth.cpp:48) is display text.
- Input.MidiEvents: requires the message length to be a multiple of 3. For other lengths the source reads past the end of the message.
- Synthesis.Synthesizer.SampleActiveKeys: the inner loop over the 96 keys is a separate method, `MixActiveKeys`, so that each loop is proved on its own. The statements and their order are those of the source.
- Synthesis.Synthesizer.SampleActiveKeys: the buffer is modelled with the length `samplesToStream` that the stream setup intends, not the length the swapped `resize` call leaves (see Findings).
- Synthesis.Synthesizer.constructor: the sample clock `m_sampleTime` is assumed to be a 64-bit `size_t` starting at 0, since its declaration and initial value are in a header that is not part of this model. `SIZE_MAX` is therefore 2^64 - 1, and the clock is kept below it.
- Keyboard.KeyBoard.constructor: keys start silent at the amplitude floor with frequency 0 until tuned, since the key array's initial values are declared in a header that is not part of this model.
- The overload `SetFundamentalPitch()` is named `SetEqualTemperament`, because Dafny has no overloading.

## Findings

| source | as written | input that shows it | evidently intended | confidence | as-written member | corrected member |
|---|---|---|---|---|---|---|
| MicroSynth.cpp:169 | `m_samples.resize(0.0, samplesToStream)` passes the fill value as the count, so the vector's size stays 0 and `m_samples[f]` at :322 indexes past its end | any buffer size, e.g. 1024: frame index 0 is already out of range | `resize(samplesToStream, 0.0)`: a buffer of `samplesToStream` zero frames | not executed | Synthesis.SwappedResizeLeavesNoRoom | Synthesis.StreamBuffer |
| MicroSynth.cpp:524 | `SetKeyOff(abs(chord[n]) % 96)`: `abs(INT_MIN)` overflows to `INT_MIN`, and C++ `%` keeps its sign | the chord entry `-2147483648`, which `stoi` accepts, releases key -32 | the key `|entry| mod 96`, always in [0, 96) | not executed | Input.ChordMinIntEscapesKeyboard | Input.ChordEvent |
