/** Pitch naming: the `noteNameToMidi` / `midiToNoteName` pair the trainers use
    to talk to the sampler. `midiToNoteName` is written out identically in
    four pages; it is defined once here. */
module Pitch {
  import opened Results
  import opened JsText

  /** The table `midiToNoteName` indexes by pitch class: sharps only. */
  const SharpNames: seq<string> := ["C", "C#", "D", "D#", "E", "F", "F#", "G", "G#", "A", "A#", "B"]

  /** What a template literal prints for an array read past its end. */
  const Undefined: string := "undefined"

  predicate IsLetter(c: char) {
    'A' <= c <= 'G' || 'a' <= c <= 'g'
  }

  predicate IsAccidental(c: char) {
    c == '#' || c == 'b'
  }

  /** The note-name pattern `^([A-Ga-g])([#b]?)(\d)$`: a letter of either case,
      an optional sharp or flat, and exactly one decimal digit. */
  predicate IsNoteName(s: string) {
    || (|s| == 2 && IsLetter(s[0]) && IsDigit(s[1]))
    || (|s| == 3 && IsLetter(s[0]) && IsAccidental(s[1]) && IsDigit(s[2]))
  }

  /** Semitones above C of a natural note, looked up after upper-casing. */
  function LetterBase(c: char): (b: int)
    requires IsLetter(c)
    ensures b in {0, 2, 4, 5, 7, 9, 11}
  {
    var u := if 'a' <= c <= 'g' then c as int - 32 else c as int;
    if u == 'C' as int then 0
    else if u == 'D' as int then 2
    else if u == 'E' as int then 4
    else if u == 'F' as int then 5
    else if u == 'G' as int then 7
    else if u == 'A' as int then 9
    else 11
  }

  /** The three capture groups of a successful match: letter, accidental
      (possibly empty) and octave digit. */
  datatype NoteMatch = NoteMatch(letter: char, accidental: string, octave: char)

  function MatchNoteName(s: string): Option<NoteMatch> {
    if |s| == 2 && IsLetter(s[0]) && IsDigit(s[1]) then Some(NoteMatch(s[0], "", s[1]))
    else if |s| == 3 && IsLetter(s[0]) && IsAccidental(s[1]) && IsDigit(s[2]) then
      Some(NoteMatch(s[0], [s[1]], s[2]))
    else None
  }

  /** `noteNameToMidi`: `None` is the source's `null`. */
  function NoteNameToMidi(s: string): (r: Option<int>)
    ensures r.Some? <==> IsNoteName(s)
    ensures r.Some? ==> 11 <= r.value <= 132
    ensures r.Some? ==> 12 * DigitValue(s[|s| - 1]) + 11 <= r.value <= 12 * DigitValue(s[|s| - 1]) + 24
    ensures r.Some? ==>
      r.value == 12 * (DigitValue(s[|s| - 1]) + 1) + LetterBase(s[0]) + (if |s| == 3 then (if s[1] == '#' then 1 else -1) else 0)
  {
    match MatchNoteName(s)
    case None => None
    case Some(NoteMatch(letter, accidental, octave)) =>
      var midi := 12 * (DigitValue(octave) + 1) + LetterBase(letter);
      if accidental == "#" then Some(midi + 1)
      else if accidental == "b" then Some(midi - 1)
      else Some(midi)
  }

  /** JavaScript's `a % d`: the remainder takes the sign of the dividend. */
  function JsRem(a: int, d: int): (r: int)
    requires d > 0
    ensures a >= 0 ==> r == a % d
    ensures a < 0 ==> -d < r <= 0
  {
    if a >= 0 then a % d else -((-a) % d)
  }

  /** The name part `notes[midi % 12]`; a negative index reads `undefined`. */
  function PitchClassName(m: int): (p: string)
    ensures |p| > 0
    ensures m >= 0 ==> p == SharpNames[m % 12]
  {
    var pc := JsRem(m, 12);
    if pc < 0 then Undefined else SharpNames[pc]
  }

  /** `midiToNoteName`. `Math.floor(m / 12)` is Dafny's `/` with a positive divisor. */
  function MidiToNoteName(m: int): (name: string)
    ensures m >= 0 ==> 'b' !in name
    ensures |name| > 0 && (m >= 0 ==> 'A' <= name[0] <= 'G')
  {
    var octave := IntToString(m / 12 - 1);
    SharpNamesSpelling();
    IntToStringCharacters(m / 12 - 1);
    PitchClassName(m) + octave
  }

  /** Every sharp name starts with an upper-case letter and has no flat. */
  lemma SharpNamesSpelling()
    ensures forall pc :: 0 <= pc < 12 ==> |SharpNames[pc]| > 0 && 'A' <= SharpNames[pc][0] <= 'G' && 'b' !in SharpNames[pc]
  {
  }

  /** The spellings `midiToNoteName` produces in octaves 0 to 9: an upper-case
      letter, `#` only on C, D, F, G and A, and one digit. */
  predicate IsSharpName(s: string) {
    && IsNoteName(s)
    && 'A' <= s[0] <= 'G'
    && (|s| == 3 ==> s[1] == '#' && s[0] in "CDFGA")
  }

  lemma SharpNamesAreSharpNames(pc: nat, d: nat)
    requires pc < 12 && d < 10
    ensures IsSharpName(SharpNames[pc] + [DigitChar(d)])
    ensures NoteNameToMidi(SharpNames[pc] + [DigitChar(d)]) == Some(12 * (d + 1) + pc)
  {
  }

  /** Round trip from numbers: the name of every pitch from C0 (12) to B9 (131)
      parses back to the same number, and no other non-negative number's name
      parses at all (octave -1 carries a minus sign, octaves from 10 on have
      two digits). */
  lemma MidiNameRoundTrip(m: int)
    requires m >= 0
    ensures NoteNameToMidi(MidiToNoteName(m)) == if 12 <= m <= 131 then Some(m) else None
  {
    var pc := m % 12;
    var octave := m / 12 - 1;
    NameParts(m);
    if 12 <= m <= 131 {
      OneDigitOctave(m);
      SharpNamesAreSharpNames(pc, octave);
    } else if m < 12 {
      assert IntToString(octave) == "-1";
    } else {
      assert |IntToString(octave)| >= 2;
    }
  }

  /** Round trip from names: every sharp spelling in octaves 0 to 9 is
      reproduced from the number it denotes. */
  lemma SharpNameRoundTrip(s: string)
    requires IsSharpName(s)
    ensures NoteNameToMidi(s).Some?
    ensures MidiToNoteName(NoteNameToMidi(s).value) == s
  {
    var pc := SharpNameSplits(s);
    var d := DigitValue(s[|s| - 1]);
    var m := NoteNameToMidi(s).value;
    Divide(m, d, pc);
    NameOfSharp(m, pc, d);
  }

  /** A sharp spelling is the table's name for its pitch class, then its digit. */
  lemma SharpNameSplits(s: string) returns (pc: nat)
    requires IsSharpName(s)
    ensures pc == LetterBase(s[0]) + (if |s| == 3 then 1 else 0)
    ensures pc < 12 && s == SharpNames[pc] + [s[|s| - 1]]
  {
    LetterSpelling(s[0]);
    pc := LetterBase(s[0]) + (if |s| == 3 then 1 else 0);
    if |s| == 2 {
      assert s == [s[0]] + [s[1]];
    } else {
      assert s == [s[0], s[1]] + [s[2]];
    }
  }

  /** The name of a pitch in pitch class `pc` of a one-digit octave `d`. */
  lemma NameOfSharp(m: int, pc: nat, d: nat)
    requires 12 <= m < 132 && m % 12 == pc && m / 12 - 1 == d
    ensures MidiToNoteName(m) == SharpNames[pc] + [DigitChar(d)]
  {
    OneDigitOctave(m);
  }

  /** From C0 up to B9 the octave is one digit. */
  lemma OneDigitOctave(m: int)
    requires 12 <= m < 132
    ensures MidiToNoteName(m) == SharpNames[m % 12] + [DigitChar(m / 12 - 1)]
  {
  }

  /** Pitch class and octave of a pitch given as `12 * (octave + 1) + pc`. */
  lemma Divide(m: int, octave: int, pc: nat)
    requires pc < 12 && m == 12 * (octave + 1) + pc
    ensures m % 12 == pc && m / 12 - 1 == octave
  {
    OctaveAndClass(octave + 1, pc);
  }

  /** Pitch class and octave of `12 * q + pc`. */
  lemma OctaveAndClass(q: int, pc: int)
    requires 0 <= pc < 12
    ensures (12 * q + pc) / 12 == q && (12 * q + pc) % 12 == pc
  {
  }

  /** An upper-case letter is the natural name at its base, and the letters
      that take a sharp have it one semitone up. */
  lemma LetterSpelling(c: char)
    requires 'A' <= c <= 'G'
    ensures SharpNames[LetterBase(c)] == [c]
    ensures c in "CDFGA" ==> LetterBase(c) < 11 && SharpNames[LetterBase(c) + 1] == [c, '#']
  {
  }

  /** Distinct non-negative pitches get distinct names, so a name identifies
      the pitch the sampler is asked for. */
  lemma MidiToNoteNameInjective(a: int, b: int)
    requires a >= 0 && b >= 0
    requires MidiToNoteName(a) == MidiToNoteName(b)
    ensures a == b
  {
    NameParts(a);
    NameParts(b);
    PartsInjective(a % 12, a / 12 - 1, b % 12, b / 12 - 1);
    SameOctaveAndClass(a, b);
  }

  /** A sharp name followed by a printed octave gives back both. */
  lemma PartsInjective(i: nat, o: int, j: nat, p: int)
    requires i < 12 && j < 12
    requires SharpNames[i] + IntToString(o) == SharpNames[j] + IntToString(p)
    ensures i == j && o == p
  {
    SplitName(i, IntToString(o), j, IntToString(p));
    IntToStringInjective(o, p);
  }

  /** A non-negative pitch is fixed by its octave and its pitch class. */
  lemma SameOctaveAndClass(a: int, b: int)
    requires a >= 0 && b >= 0
    ensures a / 12 == b / 12 && a % 12 == b % 12 ==> a == b
  {
  }

  /** The name of a non-negative pitch is its sharp pitch-class name followed by its octave. */
  lemma NameParts(m: int)
    requires m >= 0
    ensures MidiToNoteName(m) == SharpNames[m % 12] + IntToString(m / 12 - 1)
  {
  }

  /** A sharp name followed by a rendered integer splits in only one way:
      the character after a one-letter name is a digit or `-`, never `#`. */
  lemma SplitName(i: nat, o: string, j: nat, p: string)
    requires i < 12 && j < 12
    requires |o| > 0 && (IsDigit(o[0]) || o[0] == '-')
    requires |p| > 0 && (IsDigit(p[0]) || p[0] == '-')
    requires SharpNames[i] + o == SharpNames[j] + p
    ensures i == j && o == p
  {
    var name := SharpNames[i] + o;
    var n, m := SharpNames[i], SharpNames[j];
    assert |n| == |m| by {
      assert name[1] == (if |n| == 1 then o[0] else n[1]);
      assert name[1] == (if |m| == 1 then p[0] else m[1]);
      assert |n| == 2 ==> n[1] == '#';
      assert |m| == 2 ==> m[1] == '#';
    }
    assert n == name[..|n|] == m;
    assert o == name[|n|..] == p;
  }

  /** Worked values of the parser. */
  lemma NoteNameExamples()
    ensures NoteNameToMidi("A4") == Some(69)
    ensures NoteNameToMidi("C#5") == Some(73)
    ensures NoteNameToMidi("bb3") == Some(58)
    ensures NoteNameToMidi("H4") == None
    ensures NoteNameToMidi("C10") == None
    ensures NoteNameToMidi("C#") == None
  {
  }
}
