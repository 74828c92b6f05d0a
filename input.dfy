/** Input decoding, with the device and console polling stripped away:
    the space-separated chord parser (`DeconstructStringInput` over a model
    of `std::stoi`), the three-byte MIDI dispatch, the console chord
    dispatch, and the keyboard calls each decoded event makes. */
module Input {
  import opened CppArith
  import opened Keyboard

  const INT_MIN: int := -0x8000_0000
  const INT_MAX: int := 0x7FFF_FFFF

  /** The two exceptions `std::stoi` throws. */
  datatype StoiError = InvalidArgument | OutOfRange

  datatype Result<T> = Success(value: T) | Failure(error: StoiError)

  datatype Option<T> = None | Some(value: T)

  // ---------------------------------------------------------------------------
  // std::stoi

  /** `isspace` in the C locale. */
  predicate IsSpace(c: char)
  {
    c == ' ' || c == '\t' || c == '\n' || c == '\U{000B}' || c == '\U{000C}' || c == '\r'
  }

  predicate IsDigit(c: char)
  {
    '0' <= c <= '9'
  }

  predicate AllDigits(s: string)
  {
    forall i :: 0 <= i < |s| ==> IsDigit(s[i])
  }

  /** Length of the run of white space that starts `s`. */
  function LeadingSpaces(s: string): (n: nat)
    ensures n <= |s|
    ensures forall i :: 0 <= i < n ==> IsSpace(s[i])
    ensures n < |s| ==> !IsSpace(s[n])
  {
    if |s| == 0 || !IsSpace(s[0]) then 0 else 1 + LeadingSpaces(s[1..])
  }

  /** Length of the run of decimal digits that starts `s`. */
  function DigitRun(s: string): (n: nat)
    ensures n <= |s| && AllDigits(s[..n])
    ensures n < |s| ==> !IsDigit(s[n])
  {
    if |s| == 0 || !IsDigit(s[0]) then 0 else 1 + DigitRun(s[1..])
  }

  function DigitValue(c: char): nat
    requires IsDigit(c)
  {
    c as int - '0' as int
  }

  /** The value of a string of decimal digits, most significant first. */
  function DigitsValue(d: string): nat
    requires AllDigits(d)
  {
    if |d| == 0 then 0 else DigitsValue(d[..|d| - 1]) * 10 + DigitValue(d[|d| - 1])
  }

  /** The number spelled by the digits that start `u`, if there are any. */
  function LeadingNumber(u: string): (r: Option<nat>)
    ensures r.None? <==> |u| == 0 || !IsDigit(u[0])
  {
    var n := DigitRun(u);
    if n == 0 then None else Some(DigitsValue(u[..n]))
  }

  /** `std::stoi(s)` in base 10: skip leading white space, take an optional
      sign and the longest run of digits after it, ignore the rest. No digit
      there throws `invalid_argument`; a value outside `int` throws
      `out_of_range`. */
  function Stoi(s: string): (r: Result<int>)
    ensures r.Success? ==> INT_MIN <= r.value <= INT_MAX
    ensures (forall i :: 0 <= i < |s| ==> !IsDigit(s[i])) ==> r == Failure(InvalidArgument)
  {
    var rest := s[LeadingSpaces(s)..];
    var negative := |rest| > 0 && rest[0] == '-';
    var signed := negative || (|rest| > 0 && rest[0] == '+');
    var unsigned := if signed then rest[1..] else rest;
    match LeadingNumber(unsigned)
    case None => Failure(InvalidArgument)
    case Some(m) =>
      assert IsDigit(unsigned[0]);
      var magnitude: int := m;
      var v := if negative then -magnitude else magnitude;
      if v < INT_MIN || INT_MAX < v then Failure(OutOfRange) else Success(v)
  }

  // ---------------------------------------------------------------------------
  // Decimal forms, the inverse of Stoi

  function DigitChar(d: nat): (c: char)
    requires d < 10
    ensures IsDigit(c) && DigitValue(c) == d
  {
    ('0' as int + d) as char
  }

  /** The decimal digits of `n`, most significant first, without leading zeros. */
  function NatToString(n: nat): (s: string)
    ensures |s| > 0 && AllDigits(s)
  {
    if n < 10 then [DigitChar(n)] else NatToString(n / 10) + [DigitChar(n % 10)]
  }

  /** The decimal form of an integer, with a leading '-' when negative. */
  function IntToString(x: int): (s: string)
    ensures |s| > 0 && ' ' !in s
  {
    if x < 0 then "-" + NatToString(-x) else NatToString(x)
  }

  lemma {:induction false} NatToStringValue(n: nat)
    ensures DigitsValue(NatToString(n)) == n
  {
    if n >= 10 {
      NatToStringValue(n / 10);
      var s := NatToString(n);
      assert s[..|s| - 1] == NatToString(n / 10);
    }
  }

  lemma LeadingNumberOfDigits(u: string)
    requires |u| > 0 && AllDigits(u)
    ensures LeadingNumber(u) == Some(DigitsValue(u))
  {
    assert u[..|u|] == u;
  }

  /** `stoi` reads back the decimal form of every `int`. */
  lemma StoiOfDecimal(x: int)
    requires INT_MIN <= x <= INT_MAX
    ensures Stoi(IntToString(x)) == Success(x)
  {
    if x < 0 {
      StoiOfNegative(x);
    } else {
      StoiOfNatural(x);
    }
  }

  lemma StoiOfNegative(x: int)
    requires INT_MIN <= x < 0
    ensures Stoi("-" + NatToString(-x)) == Success(x)
  {
    var d := NatToString(-x);
    var s := "-" + d;
    assert LeadingSpaces(s) == 0;
    assert s[0..] == s && s[1..] == d;
    NatToStringValue(-x);
    LeadingNumberOfDigits(d);
  }

  lemma StoiOfNatural(x: int)
    requires 0 <= x <= INT_MAX
    ensures Stoi(NatToString(x)) == Success(x)
  {
    var s := NatToString(x);
    assert LeadingSpaces(s) == 0;
    assert s[0..] == s && !(s[0] == '-' || s[0] == '+');
    NatToStringValue(x);
    LeadingNumberOfDigits(s);
  }

  // ---------------------------------------------------------------------------
  // DeconstructStringInput

  /** The tokens a prefix `p` of the input has completed: every space ends
      one (possibly empty) token. */
  function Done(p: string): (ts: seq<string>)
  {
    if |p| == 0 then []
    else if p[|p| - 1] == ' ' then Done(p[..|p| - 1]) + [Pending(p[..|p| - 1])]
    else Done(p[..|p| - 1])
  }

  /** The characters of prefix `p` after its last space: the token being built. */
  function Pending(p: string): (t: string)
    ensures ' ' !in t
  {
    if |p| == 0 then ""
    else if p[|p| - 1] == ' ' then ""
    else Pending(p[..|p| - 1]) + [p[|p| - 1]]
  }

  /** The tokens of a whole input: the completed ones, then the last one if
      it is not empty. A trailing space therefore adds no token, while a
      leading or doubled space yields an empty one. */
  function Tokens(s: string): (ts: seq<string>)
    ensures forall i :: 0 <= i < |ts| ==> ' ' !in ts[i]
  {
    DoneHasNoSpaces(s);
    Done(s) + (if Pending(s) == "" then [] else [Pending(s)])
  }

  lemma {:induction false} DoneHasNoSpaces(p: string)
    ensures forall i :: 0 <= i < |Done(p)| ==> ' ' !in Done(p)[i]
  {
    if |p| > 0 {
      DoneHasNoSpaces(p[..|p| - 1]);
    }
  }

  /** One more result after `acc`: an earlier failure stands, otherwise a
      failure replaces the list and a success extends it. */
  function Append(acc: Result<seq<int>>, x: Result<int>): Result<seq<int>>
  {
    match acc
    case Failure(_) => acc
    case Success(vs) =>
      match x
      case Failure(e) => Failure(e)
      case Success(v) => Success(vs + [v])
  }

  /** Results taken in order; the first failure stops the sequence. */
  function Sequence(rs: seq<Result<int>>): (r: Result<seq<int>>)
    ensures r.Success? <==> forall i :: 0 <= i < |rs| ==> rs[i].Success?
    ensures r.Success? ==> |r.value| == |rs| && forall i :: 0 <= i < |rs| ==> rs[i] == Success(r.value[i])
    ensures r.Failure? ==> exists i :: 0 <= i < |rs| && rs[i] == Failure(r.error) && forall j :: 0 <= j < i ==> rs[j].Success?
  {
    if |rs| == 0 then Success([]) else Append(Sequence(rs[..|rs| - 1]), rs[|rs| - 1])
  }

  lemma {:induction false} SequenceOfSuccesses(rs: seq<Result<int>>, vs: seq<int>)
    requires |rs| == |vs| && forall i :: 0 <= i < |rs| ==> rs[i] == Success(vs[i])
    ensures Sequence(rs) == Success(vs)
  {
    if |rs| > 0 {
      SequenceOfSuccesses(rs[..|rs| - 1], vs[..|vs| - 1]);
      assert vs[..|vs| - 1] + [vs[|vs| - 1]] == vs;
    }
  }

  /** A parser applied to each token. */
  function Each(parse: string -> Result<int>, ts: seq<string>): (rs: seq<Result<int>>)
    ensures |rs| == |ts|
  {
    seq(|ts|, i requires 0 <= i < |ts| => parse(ts[i]))
  }

  lemma EachAppend(parse: string -> Result<int>, a: seq<string>, b: seq<string>)
    ensures Each(parse, a + b) == Each(parse, a) + Each(parse, b)
  {
  }

  /** `stoi` applied to each token in order; the first exception stops it. */
  function ParseAll(ts: seq<string>): Result<seq<int>>
  {
    Sequence(Each(Stoi, ts))
  }

  lemma SequenceSnoc(rs: seq<Result<int>>, x: Result<int>)
    ensures Sequence(rs + [x]) == Append(Sequence(rs), x)
  {
    assert (rs + [x])[..|rs|] == rs;
  }

  lemma ParseAllSnoc(ts: seq<string>, t: string)
    ensures ParseAll(ts + [t]) == Append(ParseAll(ts), Stoi(t))
  {
    EachAppend(Stoi, ts, [t]);
    assert Each(Stoi, [t]) == [Stoi(t)];
    SequenceSnoc(Each(Stoi, ts), Stoi(t));
  }

  /** Reading one more character of the input. */
  lemma DoneSnoc(p: string, ch: char)
    ensures Done(p + [ch]) == if ch == ' ' then Done(p) + [Pending(p)] else Done(p)
    ensures Pending(p + [ch]) == if ch == ' ' then "" else Pending(p) + [ch]
  {
    assert (p + [ch])[..|p|] == p;
  }

  /** The list `DeconstructStringInput` returns for an input, or the exception it throws. */
  function ParseChord(s: string): (r: Result<seq<int>>)
    ensures s == "" ==> r == Success([])
    ensures r.Success? ==> forall i :: 0 <= i < |r.value| ==> INT_MIN <= r.value[i] <= INT_MAX
  {
    var ts := Tokens(s);
    assert forall i :: 0 <= i < |ts| ==> Each(Stoi, ts)[i] == Stoi(ts[i]);
    ParseAll(ts)
  }

  /** `InputManager::DeconstructStringInput`: split at single spaces and
      `stoi` each token, surfacing the exception `stoi` throws. */
  method DeconstructStringInput(rawInput: string) returns (r: Result<seq<int>>)
    ensures r == ParseChord(rawInput)
  {
    var deconstructedChord: seq<int> := [];
    var probablyANumber: string := "";
    for c := 0 to |rawInput|
      invariant c < |rawInput| ==> ParseAll(Done(rawInput[..c])) == Success(deconstructedChord)
      invariant c < |rawInput| ==> probablyANumber == Pending(rawInput[..c])
      invariant c == |rawInput| ==> ParseChord(rawInput) == Success(deconstructedChord)
    {
      if rawInput[c] == ' ' {
        SpaceStep(rawInput, c, deconstructedChord);
        var n := Stoi(probablyANumber);
        if n.Failure? {
          return Failure(n.error);
        }
        deconstructedChord := deconstructedChord + [n.value];
        probablyANumber := "";
      } else {
        WordStep(rawInput, c, deconstructedChord);
        probablyANumber := probablyANumber + [rawInput[c]];
        if c == |rawInput| - 1 {
          var n := Stoi(probablyANumber);
          if n.Failure? {
            return Failure(n.error);
          }
          deconstructedChord := deconstructedChord + [n.value];
          probablyANumber := "";
        }
      }
    }
    return Success(deconstructedChord);
  }

  /** A space ends the pending token: its `stoi` result is appended, or is
      the outcome of the whole parse if it fails. */
  lemma SpaceStep(s: string, c: nat, chord: seq<int>)
    requires c < |s| && s[c] == ' '
    requires ParseAll(Done(s[..c])) == Success(chord)
    ensures Stoi(Pending(s[..c])).Failure? ==> ParseChord(s) == Failure(Stoi(Pending(s[..c])).error)
    ensures Stoi(Pending(s[..c])).Success? ==>
      var chord' := chord + [Stoi(Pending(s[..c])).value];
      (c + 1 < |s| ==> ParseAll(Done(s[..c + 1])) == Success(chord') && Pending(s[..c + 1]) == "") &&
      (c + 1 == |s| ==> ParseChord(s) == Success(chord'))
  {
    var p := s[..c];
    assert s[..c + 1] == p + [' '];
    DoneSnoc(p, ' ');
    ParseAllSnoc(Done(p), Pending(p));
    if Stoi(Pending(p)).Failure? {
      DoneIsPrefix(s, c + 1);
      var rest := Tokens(s)[|Done(p + [' '])|..];
      assert Tokens(s) == Done(p + [' ']) + rest;
      ParseAllFailureStops(Done(p + [' ']), rest);
    } else if c + 1 == |s| {
      assert p + [' '] == s;
      assert Tokens(s) == Done(p) + [Pending(p)];
    }
  }

  /** Any other character extends the pending token; at the end of the
      input that token is the last one. */
  lemma WordStep(s: string, c: nat, chord: seq<int>)
    requires c < |s| && s[c] != ' '
    requires ParseAll(Done(s[..c])) == Success(chord)
    ensures ParseAll(Done(s[..c + 1])) == Success(chord)
    ensures Pending(s[..c + 1]) == Pending(s[..c]) + [s[c]]
    ensures c + 1 == |s| ==> ParseChord(s) == Append(Success(chord), Stoi(Pending(s[..c]) + [s[c]]))
  {
    var p := s[..c];
    assert s[..c + 1] == p + [s[c]];
    DoneSnoc(p, s[c]);
    if c + 1 == |s| {
      assert p + [s[c]] == s;
      assert Tokens(s) == Done(p) + [Pending(s)];
      ParseAllSnoc(Done(p), Pending(s));
    }
  }

  lemma {:induction false} SequenceFailureStops(a: seq<Result<int>>, b: seq<Result<int>>)
    requires Sequence(a).Failure?
    ensures Sequence(a + b) == Sequence(a)
  {
    if |b| > 0 {
      var init := b[..|b| - 1];
      assert a + b == (a + init) + [b[|b| - 1]];
      SequenceFailureStops(a, init);
      SequenceSnoc(a + init, b[|b| - 1]);
    } else {
      assert a + b == a;
    }
  }

  /** Once a token fails, later tokens make no difference. */
  lemma ParseAllFailureStops(a: seq<string>, b: seq<string>)
    requires ParseAll(a).Failure?
    ensures ParseAll(a + b) == ParseAll(a)
  {
    EachAppend(Stoi, a, b);
    SequenceFailureStops(Each(Stoi, a), Each(Stoi, b));
  }

  /** Reading one more character never takes back a completed token. */
  lemma {:induction false} DoneIsPrefix(s: string, c: nat)
    requires c <= |s|
    ensures Done(s[..c]) <= Tokens(s)
    decreases |s| - c
  {
    if c == |s| {
      assert s[..c] == s;
    } else {
      DoneIsPrefix(s, c + 1);
      assert s[..c + 1] == s[..c] + [s[c]];
      DoneSnoc(s[..c], s[c]);
    }
  }

  /** Words joined by single spaces. */
  function JoinWords(ws: seq<string>): string
  {
    if |ws| == 0 then ""
    else if |ws| == 1 then ws[0]
    else JoinWords(ws[..|ws| - 1]) + " " + ws[|ws| - 1]
  }

  /** The decimal forms of `xs`. */
  function Decimals(xs: seq<int>): (ts: seq<string>)
    ensures |ts| == |xs|
    ensures forall i :: 0 <= i < |ts| ==> ts[i] != "" && ' ' !in ts[i]
  {
    seq(|xs|, i requires 0 <= i < |xs| => IntToString(xs[i]))
  }

  /** The decimal forms of `xs` joined by single spaces: the chord as typed. */
  function Join(xs: seq<int>): string
  {
    JoinWords(Decimals(xs))
  }

  /** Appending a word without spaces extends the pending token only. */
  lemma {:induction false} AppendWord(a: string, w: string)
    requires ' ' !in w
    ensures Done(a + w) == Done(a) && Pending(a + w) == Pending(a) + w
  {
    if |w| > 0 {
      var init := w[..|w| - 1];
      assert a + w == (a + init) + [w[|w| - 1]];
      assert init + [w[|w| - 1]] == w;
      AppendWord(a, init);
      DoneSnoc(a + init, w[|w| - 1]);
    } else {
      assert a + w == a;
    }
  }

  /** Joining non-empty words without spaces and splitting gives the words back. */
  lemma {:induction false} JoinWordsTokens(ws: seq<string>)
    requires |ws| > 0
    requires forall i :: 0 <= i < |ws| ==> ' ' !in ws[i]
    ensures Done(JoinWords(ws)) == ws[..|ws| - 1]
    ensures Pending(JoinWords(ws)) == ws[|ws| - 1]
  {
    var w := ws[|ws| - 1];
    if |ws| == 1 {
      AppendWord("", w);
      assert "" + w == w;
    } else {
      var init := ws[..|ws| - 1];
      var a := JoinWords(init);
      assert JoinWords(ws) == (a + [' ']) + w;
      JoinWordsTokens(init);
      DoneSnoc(a, ' ');
      AppendWord(a + [' '], w);
      assert init[..|init| - 1] + [init[|init| - 1]] == init;
    }
  }

  /** The typed chord splits into the decimal forms of its entries, with or
      without one trailing space. */
  lemma TokensOfJoin(xs: seq<int>)
    ensures Tokens(Join(xs)) == Decimals(xs)
    ensures |xs| > 0 ==> Tokens(Join(xs) + " ") == Decimals(xs)
  {
    if |xs| > 0 {
      TokensOfJoinWords(Decimals(xs));
    }
  }

  /** Non-empty words without spaces, joined with single spaces, split back
      into the words, with or without one trailing space. */
  lemma TokensOfJoinWords(ws: seq<string>)
    requires |ws| > 0
    requires forall i :: 0 <= i < |ws| ==> ws[i] != "" && ' ' !in ws[i]
    ensures Tokens(JoinWords(ws)) == ws
    ensures Tokens(JoinWords(ws) + " ") == ws
  {
    JoinWordsTokens(ws);
    TokensWithTrailingSpace(JoinWords(ws), ws);
  }

  /** Once the last token is pending and non-empty, the text splits into the
      completed tokens and that one, and a trailing space only completes it. */
  lemma TokensWithTrailingSpace(s: string, ws: seq<string>)
    requires |ws| > 0 && ws[|ws| - 1] != ""
    requires Done(s) == ws[..|ws| - 1] && Pending(s) == ws[|ws| - 1]
    ensures Tokens(s) == ws
    ensures Tokens(s + " ") == ws
  {
    assert ws[..|ws| - 1] + [ws[|ws| - 1]] == ws;
    DoneSnoc(s, ' ');
    assert s + " " == s + [' '];
  }

  /** Joining integers' decimal forms with single spaces and parsing gives
      back the same integers, in order. */
  lemma ParseChordRoundTrip(xs: seq<int>)
    requires forall i :: 0 <= i < |xs| ==> INT_MIN <= xs[i] <= INT_MAX
    ensures ParseChord(Join(xs)) == Success(xs)
  {
    TokensOfJoin(xs);
    var rs := Each(Stoi, Decimals(xs));
    forall i | 0 <= i < |xs| ensures rs[i] == Success(xs[i]) {
      StoiOfDecimal(xs[i]);
    }
    SequenceOfSuccesses(rs, xs);
  }

  /** A single trailing space adds no entry. */
  lemma TrailingSpaceAddsNothing(xs: seq<int>)
    requires |xs| > 0
    requires forall i :: 0 <= i < |xs| ==> INT_MIN <= xs[i] <= INT_MAX
    ensures ParseChord(Join(xs) + " ") == Success(xs)
  {
    TokensOfJoin(xs);
    ParseChordRoundTrip(xs);
  }

  lemma {:induction false} LeadingSpaceToken(p: string)
    requires |p| > 0 && p[0] == ' '
    ensures |Done(p)| > 0 && Done(p)[0] == ""
  {
    if |p| > 1 {
      LeadingSpaceToken(p[..|p| - 1]);
    }
  }

  /** A failing first result is the outcome of the whole sequence. */
  lemma {:induction false} SequenceFirstFails(rs: seq<Result<int>>)
    requires |rs| > 0 && rs[0].Failure?
    ensures Sequence(rs) == Failure(rs[0].error)
  {
    if |rs| > 1 {
      SequenceFirstFails(rs[..|rs| - 1]);
    }
  }

  /** A leading space produces an empty first token, on which `stoi` throws
      `invalid_argument`. */
  lemma LeadingSpaceFails(s: string)
    requires |s| > 0 && s[0] == ' '
    ensures ParseChord(s) == Failure(InvalidArgument)
  {
    LeadingSpaceToken(s);
    var ts := Tokens(s);
    var rs := Each(Stoi, ts);
    assert ts[0] == "";
    assert rs[0] == Stoi("") == Failure(InvalidArgument);
    SequenceFirstFails(rs);
  }

  /** A doubled space produces an empty token, so parsing fails. */
  lemma DoubledSpaceFails(s: string, i: int)
    requires 0 <= i < |s| - 1 && s[i] == ' ' && s[i + 1] == ' '
    ensures ParseChord(s).Failure?
  {
    assert s[..i + 1] == s[..i] + [' '];
    assert s[..i + 2] == s[..i + 1] + [' '];
    DoneSnoc(s[..i], ' ');
    DoneSnoc(s[..i + 1], ' ');
    var d := Done(s[..i + 2]);
    assert d[|d| - 1] == "";
    DoneIsPrefix(s, i + 2);
    var ts := Tokens(s);
    assert ts[|d| - 1] == "";
    assert Each(Stoi, ts)[|d| - 1] == Stoi("") == Failure(InvalidArgument);
  }

  // ---------------------------------------------------------------------------
  // Keyboard events

  /** The keyboard calls the input loops make. */
  datatype Event =
    | NoteOn(key: int, velocity: real)    // SetKeyOn
    | NoteOff(key: int)                   // SetKeyOff
    | Retune(fundamental: int)            // SetFundamentalPitch(fundamental)
    | Pedal(down: bool)                   // footPedal = down

  /** The event meets the precondition of the keyboard call it makes. */
  predicate WellFormed(e: Event)
  {
    match e
    case NoteOn(k, _) => 0 <= k < KeyCount
    case NoteOff(k) => 0 <= k < KeyCount
    case Retune(f) => 0 <= f < 12
    case Pedal(_) => true
  }

  type Byte = x: int | 0 <= x < 256

  /** The key part of a three-byte MIDI message: status 144 (note on)
      presses a playing key or retunes, status 128 (note off) releases a
      playing key. */
  function KeyEvents(status: Byte, note: Byte, value: Byte): (r: seq<Event>)
    ensures forall e :: e in r ==> WellFormed(e)
    ensures forall e :: e in r ==>
              e == NoteOn(note - 12, value as real / 130.0) || e == NoteOff(note - 12) || e == Retune(note % 12)
    ensures NoteOn(note - 12, value as real / 130.0) in r <==> status == 144 && 35 < note < 108
    ensures NoteOff(note - 12) in r <==> status == 128 && 35 < note < 108
    ensures Retune(note % 12) in r <==> status == 144 && 20 < note < 35
  {
    if status == 144 then
      if 35 < note < 108 then [NoteOn(note - 12, value as real / 130.0)]
      else if note < 35 && note > 20 then [Retune(note % 12)]
      else []
    else if status == 128 then
      if 35 < note < 108 then [NoteOff(note - 12)] else []
    else []
  }

  /** The pedal part of a three-byte MIDI message: controller 64 at 127
      presses the pedal and at 0 lifts it, whatever the status. */
  function PedalEvents(note: Byte, value: Byte): (r: seq<Event>)
    ensures forall e :: e in r ==> e == Pedal(true) || e == Pedal(false)
    ensures Pedal(true) in r <==> note == 64 && value == 127
    ensures Pedal(false) in r <==> note == 64 && value == 0
  {
    if note == 64 && value == 127 then [Pedal(true)]
    else if note == 64 && value == 0 then [Pedal(false)]
    else []
  }

  /** One three-byte MIDI message: status (144 note on, 128 note off),
      note number, velocity or controller value. */
  function MidiTriple(status: Byte, note: Byte, value: Byte): (r: seq<Event>)
    ensures forall e :: e in r ==> WellFormed(e)
    ensures forall e :: e in r ==>
              e == NoteOn(note - 12, value as real / 130.0) || e == NoteOff(note - 12) ||
              e == Retune(note % 12) || e == Pedal(true) || e == Pedal(false)
    ensures NoteOn(note - 12, value as real / 130.0) in r <==> status == 144 && 35 < note < 108
    ensures NoteOff(note - 12) in r <==> status == 128 && 35 < note < 108
    ensures Retune(note % 12) in r <==> status == 144 && 20 < note < 35
    ensures Pedal(true) in r <==> note == 64 && value == 127
    ensures Pedal(false) in r <==> note == 64 && value == 0
    ensures forall e :: e in r && (e.NoteOn? || e.NoteOff?) ==> 24 <= e.key <= 95
    ensures forall e :: e in r && e.NoteOn? ==> 0.0 <= e.velocity && (value <= 127 ==> e.velocity < 1.0)
    ensures |r| <= 1 || (|r| == 2 && !r[0].Pedal? && r[1].Pedal?)
  {
    var keys, pedal := KeyEvents(status, note, value), PedalEvents(note, value);
    assert forall e :: e in keys + pedal <==> e in keys || e in pedal;
    keys + pedal
  }

  /** Note 35 lies between the retuning keys and the playing keys: it does nothing. */
  lemma Note35DoesNothing(status: Byte, value: Byte)
    ensures MidiTriple(status, 35, value) == []
  {
  }

  /** A MIDI message read three bytes at a time. */
  function MidiEvents(message: seq<Byte>): (r: seq<Event>)
    requires |message| % 3 == 0
    ensures forall e :: e in r ==> WellFormed(e)
    ensures |r| <= 2 * |message| / 3
  {
    if |message| == 0 then []
    else MidiTriple(message[0], message[1], message[2]) + MidiEvents(message[3..])
  }

  /** A message of one three-byte group decodes to that group's events. */
  lemma MidiEventsOfTriple(status: Byte, note: Byte, value: Byte)
    ensures MidiEvents([status, note, value]) == MidiTriple(status, note, value)
  {
    assert [status, note, value][3..] == [];
  }

  /** Each group of three bytes is decoded on its own, in order. */
  lemma {:induction false} MidiEventsAppend(a: seq<Byte>, b: seq<Byte>)
    requires |a| % 3 == 0 && |b| % 3 == 0
    ensures MidiEvents(a + b) == MidiEvents(a) + MidiEvents(b)
  {
    if |a| > 0 {
      var ab := a + b;
      assert ab[0] == a[0] && ab[1] == a[1] && ab[2] == a[2];
      assert ab[3..] == a[3..] + b;
      MidiEventsAppend(a[3..], b);
    } else {
      assert a + b == b;
    }
  }

  function Abs(x: int): nat
  {
    if x < 0 then -x else x
  }

  /** One chord entry from the console: a positive entry presses key
      `entry % 96` at full velocity; zero or a negative entry releases key
      `|entry| % 96`. */
  function ChordEvent(entry: int): (e: Event)
    ensures WellFormed(e)
    ensures e.NoteOn? <==> entry > 0
    ensures e.NoteOn? || e.NoteOff?
    ensures e.NoteOn? ==> e.velocity == 1.0
    ensures (e.key - Abs(entry)) % 96 == 0
  {
    if entry > 0 then NoteOn(entry % 96, 1.0) else NoteOff(Abs(entry) % 96)
  }

  /** `abs` on a 32-bit `int`: the negation of `INT_MIN` overflows back to `INT_MIN`. */
  function Int32Abs(x: int): int
    requires INT_MIN <= x <= INT_MAX
  {
    if x == INT_MIN then INT_MIN else Abs(x)
  }

  /** The chord entry rule as the console loop writes it, in 32-bit C++
      arithmetic (`abs` then truncating `%`). */
  function ChordEventAsWritten(entry: int): (e: Event)
    requires INT_MIN <= entry <= INT_MAX
    ensures entry != INT_MIN ==> e == ChordEvent(entry)
  {
    if entry > 0 then NoteOn(TruncRem(entry, 96), 1.0) else NoteOff(TruncRem(Int32Abs(entry), 96))
  }

  /** The entry `INT_MIN` (which `stoi` accepts) releases key -32, outside the keyboard. */
  lemma ChordMinIntEscapesKeyboard()
    ensures ChordEventAsWritten(INT_MIN) == NoteOff(-32)
    ensures !WellFormed(ChordEventAsWritten(INT_MIN))
  {
  }

  /** A whole chord, entry by entry. */
  function ChordEvents(chord: seq<int>): (r: seq<Event>)
    ensures |r| == |chord|
    ensures forall i :: 0 <= i < |r| ==> WellFormed(r[i]) && (r[i].NoteOn? <==> chord[i] > 0)
    ensures forall i :: 0 <= i < |r| ==>
              (r[i].NoteOn? || r[i].NoteOff?) && (r[i].key - Abs(chord[i])) % 96 == 0 &&
              (r[i].NoteOn? ==> r[i].velocity == 1.0)
  {
    seq(|chord|, i requires 0 <= i < |chord| => ChordEvent(chord[i]))
  }

  /** The keyboard call a decoded event makes. */
  method Dispatch(keyboard: KeyBoard, e: Event)
    requires keyboard.Valid() && WellFormed(e)
    modifies keyboard, keyboard.keys
    ensures keyboard.CurrentRates() == old(keyboard.CurrentRates())
    ensures !e.Pedal? ==> keyboard.footPedal == old(keyboard.footPedal)
    ensures e.NoteOn? ==>
      keyboard.keys[..] == old(keyboard.keys[..])[e.key := KeyOn(old(keyboard.keys[e.key]), e.velocity, keyboard.CurrentRates())]
    ensures e.NoteOff? ==>
      keyboard.keys[..] == old(keyboard.keys[..])[e.key := KeyOff(old(keyboard.keys[e.key]), keyboard.footPedal, keyboard.CurrentRates())]
    ensures e.Retune? ==>
      forall k :: 0 <= k < KeyCount ==> keyboard.keys[k] == old(keyboard.keys[k]).(frequency := JustFrequency(k, e.fundamental))
    ensures e.Pedal? ==> keyboard.footPedal == e.down && keyboard.keys[..] == old(keyboard.keys[..])
  {
    match e
    case NoteOn(k, v) => keyboard.SetKeyOn(k, v);
    case NoteOff(k) => keyboard.SetKeyOff(k);
    case Retune(f) => keyboard.SetFundamentalPitch(f);
    case Pedal(down) => keyboard.footPedal := down;
  }
}
