/** The chord trainer (`src/pages/ChordTest.jsx`): a chord of the curriculum
    table over a sampled root, played as a block or arpeggiated up or down, and
    a running score of the player's answers. The chord table and the preset
    list are curriculum data and enter as parameters. */
module ChordTrainer {
  import opened Results
  import opened Draws
  import opened Quiz
  import opened Playback
  import opened JsText
  import opened Pitch

  /** One entry of `CHORDS`: its name and its notes in semitones above the root. */
  datatype Chord = Chord(name: string, intervals: seq<int>)

  /** The keys of the sampler's sample map: A, C, D# and F# from C3 to C6. */
  const SampleKeys: seq<string> := ["C3", "D#3", "F#3", "A3", "C4", "D#4", "F#4", "A4", "C5", "D#5", "F#5", "A5", "C6"]

  const MinMidi: int := 48
  const MaxMidi: int := 84

  /** The root used when no pitch qualifies: C4. */
  const FallbackRoot: int := 60

  /** `Math.max(...intervals)`. */
  function MaxInterval(intervals: seq<int>): (m: int)
    requires |intervals| > 0
    ensures m in intervals
    ensures forall k :: 0 <= k < |intervals| ==> intervals[k] <= m
  {
    if |intervals| == 1 then intervals[0]
    else
      var rest := MaxInterval(intervals[1..]);
      if intervals[0] >= rest then intervals[0] else rest
  }

  /** A pitch has its own sample: `sampleMap[midiToNoteName(midi)]` is set. */
  predicate IsSampled(midi: int) {
    HasSample(SampleKeys, midi)
  }

  predicate HasSample(keys: seq<string>, midi: int) {
    MidiToNoteName(midi) in keys
  }

  /** The candidate roots of `getRandomRoot`, lowest first: the sampled pitches
      from C3 up to the highest root whose top note stays within C6. */
  method RootCandidates(maxInterval: int, sampled: int -> bool) returns (roots: seq<int>)
    ensures forall m :: m in roots <==> MinMidi <= m <= MaxMidi - maxInterval && sampled(m)
    ensures forall j, k :: 0 <= j < k < |roots| ==> roots[j] < roots[k]
  {
    var top := MaxMidi - maxInterval;
    roots := [];
    var midi := MinMidi;
    while midi <= top
      invariant MinMidi <= midi && (midi <= top + 1 || midi == MinMidi)
      invariant forall m :: m in roots <==> MinMidi <= m < midi && sampled(m)
      invariant forall k :: 0 <= k < |roots| ==> roots[k] < midi
      invariant forall j, k :: 0 <= j < k < |roots| ==> roots[j] < roots[k]
      decreases top - midi
    {
      if sampled(midi) {
        roots := roots + [midi];
      }
      midi := midi + 1;
    }
  }

  /** `getRandomRoot(chord)`: a sampled root that keeps the whole chord within
      C6, or C4 when there is none; for a chord spanning at most three octaves
      there always is one. */
  method RandomRoot(chord: Chord, u: real) returns (root: int)
    requires |chord.intervals| > 0 && IsDraw(u)
    ensures root == FallbackRoot ||
      (MinMidi <= root && IsSampled(root) && forall k :: 0 <= k < |chord.intervals| ==> root + chord.intervals[k] <= MaxMidi)
    ensures (forall m :: MinMidi <= m <= MaxMidi - MaxInterval(chord.intervals) ==> !IsSampled(m)) ==> root == FallbackRoot
    ensures (exists m :: MinMidi <= m <= MaxMidi - MaxInterval(chord.intervals) && IsSampled(m)) ==>
      MinMidi <= root <= MaxMidi - MaxInterval(chord.intervals) && IsSampled(root)
  {
    var roots := RootCandidates(MaxInterval(chord.intervals), IsSampled);
    if |roots| == 0 {
      root := FallbackRoot;
    } else {
      var i := Pick(u, |roots|);
      assert roots[i] in roots;
      root := roots[i];
    }
  }

  /** A chord spanning at most three octaves always has a candidate root, C3
      at least, so the fallback is never used for it. */
  lemma SomeRootFits(maxInterval: int)
    requires maxInterval <= MaxMidi - MinMidi
    ensures exists m :: MinMidi <= m <= MaxMidi - maxInterval && IsSampled(m)
  {
    SampledPitchClasses(MinMidi);
  }

  /** The k-th sample key is the pitch three semitones above the previous one. */
  lemma SampleKeyAt(k: nat)
    requires k < |SampleKeys|
    ensures SampleKeys[k] == MidiToNoteName(MinMidi + 3 * k)
  {
    OneDigitOctave(MinMidi + 3 * k);
    if k < 4 {
      SampleKeyInOctave(k, 3);
    } else if k < 8 {
      SampleKeyInOctave(k, 4);
    } else if k < 12 {
      SampleKeyInOctave(k, 5);
    } else {
      assert MidiToNoteName(MaxMidi) == "C" + [DigitChar(6)];
    }
  }

  /** The four keys of one octave: C, D#, F# and A. */
  lemma SampleKeyInOctave(k: nat, octave: nat)
    requires 4 * (octave - 3) <= k < 4 * (octave - 2) && 3 <= octave <= 5
    ensures (MinMidi + 3 * k) / 12 - 1 == octave
    ensures SampleKeys[k] == SharpNames[(MinMidi + 3 * k) % 12] + [DigitChar(octave)]
  {
    var j := k - 4 * (octave - 3);
    var m := MinMidi + 3 * k;
    assert m == 12 * (octave + 1) + 3 * j;
    assert m / 12 - 1 == octave && m % 12 == 3 * j;
    OctaveKeys(k - j, octave, j);
  }

  /** The `j`-th key of the octave starting at index `first`. */
  lemma OctaveKeys(first: nat, octave: nat, j: nat)
    requires first == 4 * (octave - 3) && 3 <= octave <= 5 && j < 4
    ensures SampleKeys[first + j] == SharpNames[3 * j] + [DigitChar(octave)]
  {
    if octave == 3 {
      assert SampleKeys[..4] == ["C3", "D#3", "F#3", "A3"];
    } else if octave == 4 {
      assert SampleKeys[4..8] == ["C4", "D#4", "F#4", "A4"];
    } else {
      assert SampleKeys[8..12] == ["C5", "D#5", "F#5", "A5"];
    }
  }

  /** Within C3..C6 exactly the multiples of three (C, D#, F#, A) are sampled. */
  lemma SampledPitchClasses(m: int)
    requires MinMidi <= m <= MaxMidi
    ensures IsSampled(m) <==> m % 3 == 0
  {
    forall k | 0 <= k < |SampleKeys| ensures SampleKeys[k] == MidiToNoteName(MinMidi + 3 * k) {
      SampleKeyAt(k);
    }
    forall a, b | 0 <= a && 0 <= b && MidiToNoteName(a) == MidiToNoteName(b) ensures a == b {
      MidiToNoteNameInjective(a, b);
    }
    EveryThirdPitch(SampleKeys, MidiToNoteName, m);
  }

  /** Under any one-to-one spelling, keys spelling every third pitch upwards
      from C3 name exactly those pitches. */
  lemma EveryThirdPitch(keys: seq<string>, spell: int -> string, m: int)
    requires forall k :: 0 <= k < |keys| ==> keys[k] == spell(MinMidi + 3 * k)
    requires forall a, b :: 0 <= a && 0 <= b && spell(a) == spell(b) ==> a == b
    requires MinMidi <= m < MinMidi + 3 * |keys|
    ensures spell(m) in keys <==> m % 3 == 0
  {
    if m % 3 == 0 {
      var k := (m - MinMidi) / 3;
      assert MinMidi + 3 * k == m;
      assert keys[k] == spell(m);
    } else {
      forall k | 0 <= k < |keys| ensures keys[k] != spell(m) {
        assert MinMidi + 3 * k != m;
      }
    }
  }

  /** The notes of a chord over a root, in the table's order. */
  function ChordNotes(root: int, intervals: seq<int>): (notes: seq<int>)
    ensures |notes| == |intervals|
    ensures forall k :: 0 <= k < |notes| ==> notes[k] - root == intervals[k]
  {
    seq(|intervals|, k requires 0 <= k < |intervals| => root + intervals[k])
  }

  function Reverse(xs: seq<int>): (r: seq<int>)
    ensures |r| == |xs|
    ensures forall k :: 0 <= k < |xs| ==> r[k] == xs[|xs| - 1 - k]
  {
    seq(|xs|, k requires 0 <= k < |xs| => xs[|xs| - 1 - k])
  }

  /** One note every 1000 ms, each held 1.1 s. */
  function Arpeggio(notes: seq<int>): (es: seq<Event>)
    ensures |es| == |notes|
    ensures forall k :: 0 <= k < |notes| ==> es[k] == Event((k * 1000) as real, [notes[k]], 1.1)
  {
    seq(|notes|, k requires 0 <= k < |notes| => Event((k * 1000) as real, [notes[k]], 1.1))
  }

  /** What a play leaves behind: the calls made and the number of timeouts
      still pending. */
  datatype Played = Played(events: seq<Event>, pending: nat)

  /** `playChord`. Before the sampler has loaded nothing happens, and pending
      timeouts stay; otherwise they are cleared first. "block" sounds every
      note at once for 1.5 s; "up" and "down" arpeggiate in table order or in
      reverse, one timeout per note. */
  function PlayChord(loaded: bool, pending: nat, root: int, chord: Chord, mode: string): (r: Played)
    ensures !loaded ==> r == Played([], pending)
    ensures loaded && mode == "block" ==> r == Played([Event(0.0, ChordNotes(root, chord.intervals), 1.5)], 0)
    ensures loaded && mode == "up" ==> r == Played(Arpeggio(ChordNotes(root, chord.intervals)), |chord.intervals|)
    ensures loaded && mode == "down" ==> r == Played(Arpeggio(Reverse(ChordNotes(root, chord.intervals))), |chord.intervals|)
    ensures loaded ==> r.pending <= |chord.intervals|
  {
    var notes := ChordNotes(root, chord.intervals);
    if !loaded then Played([], pending)
    else if mode == "block" then Played([Event(0.0, notes, 1.5)], 0)
    else if mode == "up" then Played(Arpeggio(notes), |notes|)
    else if mode == "down" then Played(Arpeggio(Reverse(notes)), |notes|)
    else Played([], 0)
  }

  lemma {:induction false} ArpeggioNotes(notes: seq<int>)
    ensures NotesInOrder(Arpeggio(notes)) == notes
    decreases |notes|
  {
    if notes != [] {
      var es := Arpeggio(notes);
      ArpeggioNotes(notes[1..]);
      var rest := Arpeggio(notes[1..]);
      assert NotesInOrder(es[1..]) == NotesInOrder(rest) by {
        NotesIgnoreOffsets(es[1..], rest);
      }
      assert notes == [notes[0]] + notes[1..];
    }
  }

  /** The notes of a run of calls do not depend on when the calls are made. */
  lemma {:induction false} NotesIgnoreOffsets(a: seq<Event>, b: seq<Event>)
    requires |a| == |b| && forall k :: 0 <= k < |a| ==> a[k].notes == b[k].notes
    ensures NotesInOrder(a) == NotesInOrder(b)
    decreases |a|
  {
    if a != [] {
      NotesIgnoreOffsets(a[1..], b[1..]);
    }
  }

  /** The arpeggios sound every note of the chord once, upwards in table order
      and downwards in reverse, one second apart. */
  lemma ArpeggiosPlayTheChord(root: int, chord: Chord)
    ensures NotesInOrder(PlayChord(true, 0, root, chord, "up").events) == ChordNotes(root, chord.intervals)
    ensures NotesInOrder(PlayChord(true, 0, root, chord, "down").events) == Reverse(ChordNotes(root, chord.intervals))
    ensures NonDecreasingOffsets(PlayChord(true, 0, root, chord, "up").events)
    ensures NonDecreasingOffsets(PlayChord(true, 0, root, chord, "down").events)
  {
    ArpeggioNotes(ChordNotes(root, chord.intervals));
    ArpeggioNotes(Reverse(ChordNotes(root, chord.intervals)));
  }

  /** The setup screen. */
  datatype Setup = Setup(selectedChords: seq<string>, preset: string, selectedModes: seq<string>)

  datatype Question = Question(chord: Chord, root: int, mode: string)

  datatype Test = Test(question: Option<Question>, userGuess: string, feedback: string, showAnswer: bool, score: Score)

  /** The `alert`s of `startTest`, and a selection naming no chord of the table
      (the page would fail reading `undefined.intervals`). */
  datatype StartError = NoChords | NoModes | NoKnownChord

  /** `CHORDS.filter(c => selected.includes(c.name))`, in table order. */
  function Chosen(table: seq<Chord>, selected: seq<string>): (r: seq<Chord>)
    ensures forall c :: c in r <==> c in table && c.name in selected
  {
    if table == [] then []
    else (if table[0].name in selected then [table[0]] else []) + Chosen(table[1..], selected)
  }

  /** Every chord of the table has at least one note. */
  ghost predicate NoEmptyChord(table: seq<Chord>) {
    forall k :: 0 <= k < |table| ==> |table[k].intervals| > 0
  }

  /** The draws of `startTest` and `nextChord`: chord, root, then order. */
  method DrawQuestion(s: Setup, table: seq<Chord>, d: nat -> real) returns (q: Result<Question, StartError>)
    requires IsDrawStream(d) && NoEmptyChord(table)
    ensures q.Err? <==> |Chosen(table, s.selectedChords)| == 0 || |s.selectedModes| == 0
    ensures q.Ok? ==>
      && q.value.chord in table && q.value.chord.name in s.selectedChords
      && q.value.mode in s.selectedModes
      && (q.value.root == FallbackRoot || forall k :: 0 <= k < |q.value.chord.intervals| ==> q.value.root + q.value.chord.intervals[k] <= MaxMidi)
  {
    var available := Chosen(table, s.selectedChords);
    if |available| == 0 {
      return Err(NoKnownChord);
    }
    if |s.selectedModes| == 0 {
      return Err(NoModes);
    }
    var chord := available[Pick(d(0), |available|)];
    assert chord in available;
    var root := RandomRoot(chord, d(1));
    var mode := s.selectedModes[Pick(d(2), |s.selectedModes|)];
    q := Ok(Question(chord, root, mode));
  }

  /** `startTest`: refused with nothing selected; otherwise a first question
      and a fresh score. */
  method StartTest(s: Setup, table: seq<Chord>, t: Test, d: nat -> real) returns (r: Result<Test, StartError>)
    requires IsDrawStream(d) && NoEmptyChord(table)
    ensures r == Err(NoChords) <==> |s.selectedChords| == 0
    ensures r == Err(NoModes) <==> |s.selectedChords| > 0 && |s.selectedModes| == 0
    ensures r == Err(NoKnownChord) <==>
      |s.selectedChords| > 0 && |s.selectedModes| > 0 && |Chosen(table, s.selectedChords)| == 0
    ensures r.Ok? ==>
      && r.value.score == FreshScore
      && r.value.question.Some? && r.value.question.value.chord.name in s.selectedChords
      && r.value.question.value.mode in s.selectedModes
      && r.value.userGuess == "" && r.value.feedback == "" && !r.value.showAnswer
  {
    if |s.selectedChords| == 0 {
      return Err(NoChords);
    }
    if |s.selectedModes| == 0 {
      return Err(NoModes);
    }
    var q := DrawQuestion(s, table, d);
    match q {
      case Err(e) => r := Err(NoKnownChord);
      case Ok(question) => r := Ok(Test(Some(question), "", "", false, FreshScore));
    }
  }

  /** `nextChord`: a new question, the score kept. */
  method NextChord(s: Setup, table: seq<Chord>, t: Test, d: nat -> real) returns (r: Result<Test, StartError>)
    requires IsDrawStream(d) && NoEmptyChord(table)
    ensures r.Ok? <==> |Chosen(table, s.selectedChords)| > 0 && |s.selectedModes| > 0
    ensures r.Ok? ==>
      && r.value.score == t.score && r.value.question.Some?
      && r.value.question.value.chord.name in s.selectedChords
      && r.value.userGuess == "" && r.value.feedback == "" && !r.value.showAnswer
  {
    var q := DrawQuestion(s, table, d);
    match q {
      case Err(e) => r := Err(e);
      case Ok(question) => r := Ok(t.(question := Some(question), userGuess := "", feedback := "", showAnswer := false));
    }
  }

  /** `handleGuess`: every guess counts towards the total; the right name also
      counts as correct and reveals the answer. */
  function HandleGuess(t: Test, guess: string): (r: Test)
    requires t.question.Some?
    ensures r.score == RecordGuess(t.score, guess == t.question.value.chord.name)
    ensures r.feedback == if guess == t.question.value.chord.name then "Correct!" else "Try again!"
    ensures r.showAnswer <==> t.showAnswer || guess == t.question.value.chord.name
    ensures r.question == t.question && r.userGuess == guess
  {
    var right := guess == t.question.value.chord.name;
    t.(userGuess := guess, score := RecordGuess(t.score, right),
       feedback := if right then "Correct!" else "Try again!",
       showAnswer := t.showAnswer || right)
  }

  /** A session of guesses keeps `correct <= total`, the total rising by one per guess. */
  lemma GuessKeepsScoreValid(t: Test, guess: string)
    requires t.question.Some? && ValidScore(t.score)
    ensures ValidScore(HandleGuess(t, guess).score)
    ensures HandleGuess(t, guess).score.total == t.score.total + 1
  {
  }

  /** `handleChordChange`: one box flips, the preset becomes "Custom". */
  function ChordChange(s: Setup, name: string): (r: Setup)
    ensures name in r.selectedChords <==> name !in s.selectedChords
    ensures forall x :: x != name ==> (x in r.selectedChords <==> x in s.selectedChords)
    ensures r.selectedModes == s.selectedModes && r.preset == "Custom"
  {
    s.(selectedChords := Toggle(s.selectedChords, name), preset := "Custom")
  }

  /** `handlePlaybackModeChange`: one order flips, the preset becomes "Custom". */
  function ModeChange(s: Setup, mode: string): (r: Setup)
    ensures mode in r.selectedModes <==> mode !in s.selectedModes
    ensures forall x :: x != mode ==> (x in r.selectedModes <==> x in s.selectedModes)
    ensures r.selectedChords == s.selectedChords && r.preset == "Custom"
  {
    s.(selectedModes := Toggle(s.selectedModes, mode), preset := "Custom")
  }


  /** `handlePresetChange`: the preset's chords replace the selection; any
      preset but "Custom" leaves block playback as the only order. A name not
      in the list has no preset. */
  function PresetChange(s: Setup, presets: seq<Preset<seq<string>>>, name: string): (r: Option<Setup>)
    ensures r.Some? <==> exists k :: 0 <= k < |presets| && presets[k].name == name
    ensures r.Some? ==> r.value.preset == name && Preset(name, r.value.selectedChords) in presets
    ensures r.Some? && name != "Custom" ==> r.value.selectedModes == ["block"]
    ensures r.Some? && name == "Custom" ==> r.value.selectedModes == s.selectedModes
  {
    match FindPreset(presets, name)
    case None => None
    case Some(p) =>
      var picked := s.(preset := name, selectedChords := p.value);
      if name != "Custom" then Some(picked.(selectedModes := ["block"])) else Some(picked)
  }
}
