/** The character-to-pitch table that drives the audio feedback: letters
    climb a chromatic scale over three octaves, digits cycle through a
    pentatonic scale, and every other character lands in a band above the
    base octave. Frequencies are in hertz. */
module Notes {

  /** The chromatic notes C4 .. B4, in the order C, C#, D, ..., B. */
  const BaseNotes: seq<real> :=
    [261.63, 277.18, 293.66, 311.13, 329.63, 349.23,
     369.99, 392.00, 415.30, 440.00, 466.16, 493.88]

  /** The C-major pentatonic notes C4, D4, E4, G4, A4. */
  const Pentatonic: seq<real> := [261.63, 293.66, 329.63, 392.00, 440.00]

  /** Base and step of the band for characters that are neither letters nor digits. */
  const OtherBase: real := 523.25
  const OtherStep: real := 50.0

  /** The lowest pitch any character sounds (C4, for 'a' and '0') and the
      highest ('z', C#4 two octaves up). */
  const LowestNote: real := 261.63
  const HighestNote: real := 277.18 * 4.0

  /** Lower-cases ASCII 'A'..'Z'; every other character is left as it is. */
  function ToLowerAscii(c: char): (r: char)
    ensures 'A' <= c <= 'Z' ==> 'a' <= r <= 'z' && r as int - c as int == 32
    ensures !('A' <= c <= 'Z') ==> r == c
  {
    if 'A' <= c <= 'Z' then (c as int + 32) as char else c
  }

  /** 2 raised to a natural power. */
  function Pow2(n: nat): (r: real)
    ensures r >= 1.0
    ensures n > 0 ==> r >= 2.0
  {
    if n == 0 then 1.0 else 2.0 * Pow2(n - 1)
  }

  /** Powers of two multiply by adding exponents. */
  lemma {:induction false} Pow2Adds(a: nat, b: nat)
    ensures Pow2(a + b) == Pow2(a) * Pow2(b)
    decreases a
  {
    if a > 0 {
      Pow2Adds(a - 1, b);
      assert Pow2(a + b) == 2.0 * Pow2(a - 1 + b);
    }
  }

  predicate IsLetterCode(code: int) { 97 <= code <= 122 }
  predicate IsDigitCode(code: int) { 48 <= code <= 57 }

  /** The pitch sounded for a character. The letter and digit tests look at
      the lower-cased code; the fallback band uses the original code. */
  function NoteFrequency(c: char): (f: real)
    ensures LowestNote <= f <= HighestNote
  {
    var code := ToLowerAscii(c) as int;
    if IsLetterCode(code) then
      var noteIndex := (code - 97) % |BaseNotes|;
      var octaveShift := (code - 97) / |BaseNotes|;
      assert octaveShift == 2 ==> noteIndex <= 1;
      UnfoldPow2(octaveShift);
      BaseNotes[noteIndex] * Pow2(octaveShift)
    else if IsDigitCode(code) then
      Pentatonic[(code - 48) % |Pentatonic|]
    else
      BandNote(c as int % 12)
  }

  /** The k-th 50 Hz step of the band above the base octave. */
  function BandNote(k: int): real
  {
    OtherBase + k as real * OtherStep
  }

  lemma UnfoldPow2(n: nat)
    requires n <= 2
    ensures Pow2(n) == if n == 0 then 1.0 else if n == 1 then 2.0 else 4.0
  {
  }

  /** A letter sounds one of the 12 base notes, left as it is, raised one
      octave (times 2) or raised two octaves (times 4). */
  lemma LetterOctaves(c: char)
    requires 'a' <= c <= 'z'
    ensures var i := (c as int - 97) % 12;
            0 <= i < 12 && 0 <= (c as int - 97) / 12 <= 2 &&
            NoteFrequency(c) in {BaseNotes[i], 2.0 * BaseNotes[i], 4.0 * BaseNotes[i]}
  {
    UnfoldPow2((c as int - 97) / 12);
  }

  /** Letters twelve apart sound an octave apart. */
  lemma {:induction false} OctaveAbove(c: char)
    requires 'a' <= c <= 'n'
    ensures NoteFrequency((c as int + 12) as char) == 2.0 * NoteFrequency(c)
  {
    var k := c as int - 97;
    var d := (c as int + 12) as char;
    var i, o := k % 12, k / 12;
    assert d as int - 97 == k + 12;
    assert (k + 12) % 12 == i && (k + 12) / 12 == o + 1 && o <= 1;
    LetterFrequency(c);
    LetterFrequency(d);
    UnfoldPow2(o);
    UnfoldPow2(o + 1);
    if o == 0 {
      assert NoteFrequency(c) == BaseNotes[i];
      assert NoteFrequency(d) == 2.0 * BaseNotes[i];
    } else {
      assert NoteFrequency(c) == 2.0 * BaseNotes[i];
      assert NoteFrequency(d) == 4.0 * BaseNotes[i];
    }
  }

  /** Upper- and lower-case ASCII letters sound the same note. */
  lemma CaseInsensitive(c: char)
    requires 'A' <= c <= 'Z'
    ensures NoteFrequency(c) == NoteFrequency((c as int + 32) as char)
  {
  }

  /** The pitch of a letter in terms of its offset k from 'a'. */
  lemma LetterFrequency(c: char)
    requires 'a' <= c <= 'z'
    ensures var k := c as int - 97;
            NoteFrequency(c) == BaseNotes[k % 12] * Pow2(k / 12)
  {
  }

  /** Within one octave the base notes rise, and B of one octave lies
      below C of the next. */
  lemma {:induction false} ScaleStep(i: int, o: nat)
    requires 0 <= i < 12 && o <= 1
    ensures i < 11 ==> BaseNotes[i] * Pow2(o) < BaseNotes[i + 1] * Pow2(o)
    ensures i == 11 ==> BaseNotes[i] * Pow2(o) < BaseNotes[0] * Pow2(o + 1)
  {
    UnfoldPow2(o);
    UnfoldPow2(o + 1);
  }

  lemma DivModStep(k: int)
    requires 0 <= k < 25
    ensures k % 12 < 11 ==> (k + 1) % 12 == k % 12 + 1 && (k + 1) / 12 == k / 12
    ensures k % 12 == 11 ==> (k + 1) % 12 == 0 && (k + 1) / 12 == k / 12 + 1 && k / 12 <= 1
    ensures k / 12 == 2 ==> k % 12 == 0
  {
  }

  /** Consecutive letters strictly rise in pitch, across octave boundaries too. */
  lemma {:induction false} NextLetterHigher(c: char)
    requires 'a' <= c < 'z'
    ensures NoteFrequency(c) < NoteFrequency((c as int + 1) as char)
  {
    var k := c as int - 97;
    LetterFrequency(c);
    LetterFrequency((c as int + 1) as char);
    DivModStep(k);
    if k / 12 == 2 {
      UnfoldPow2(2);
      assert BaseNotes[0] * 4.0 < BaseNotes[1] * 4.0;
    } else {
      ScaleStep(k % 12, k / 12);
    }
  }

  /** Pitch strictly increases along the alphabet: a later letter always
      sounds higher. */
  lemma {:induction false} LettersAscend(c1: char, c2: char)
    requires 'a' <= c1 < c2 <= 'z'
    ensures NoteFrequency(c1) < NoteFrequency(c2)
    decreases c2 as int - c1 as int
  {
    var mid := (c1 as int + 1) as char;
    NextLetterHigher(c1);
    if mid != c2 {
      LettersAscend(mid, c2);
    }
  }

  /** Digits cycle through the pentatonic scale with period 5, so '0' and
      '5' (and every pair five apart) sound alike. */
  lemma DigitsRepeat(d: char)
    requires '0' <= d <= '4'
    ensures NoteFrequency(d) == NoteFrequency((d as int + 5) as char)
    ensures NoteFrequency(d) == Pentatonic[d as int - 48]
  {
  }

  /** Every digit sounds a pentatonic note. */
  lemma DigitIsPentatonic(d: char)
    requires '0' <= d <= '9'
    ensures NoteFrequency(d) in Pentatonic
  {
  }

  /** Any character that is neither an ASCII letter nor a digit sounds
      523.25 Hz plus a whole number (0 to 11) of 50 Hz steps, so inside
      [523.25, 1073.25]. */
  lemma OtherBand(c: char)
    requires !('a' <= c <= 'z') && !('A' <= c <= 'Z') && !('0' <= c <= '9')
    ensures OtherBase <= NoteFrequency(c) <= OtherBase + 11.0 * OtherStep
    ensures exists k :: 0 <= k < 12 && NoteFrequency(c) == BandNote(k)
  {
    var k := c as int % 12;
    assert NoteFrequency(c) == BandNote(k);
  }
}
