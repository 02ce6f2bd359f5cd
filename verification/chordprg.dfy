/** The chord-progression trainer (`src/pages/ChordPrgTest.jsx`): a progression
    is generated from the ticked chords of one mode, voiced over a random root
    and played chord by chord; the player names each chord in turn and scores a
    point for a progression named without a mistake. */
module ChordProgression {
  import opened Results
  import opened Draws
  import opened Quiz
  import opened Playback

  datatype Mode = Major | Minor

  /** The mode radio buttons: a fixed mode or `"random"`. */
  datatype ModeChoice = RandomMode | Only(mode: Mode)

  function Tonic(mode: Mode): string {
    if mode == Major then "I" else "i"
  }

  function Cad64(mode: Mode): string {
    if mode == Major then "I6/4" else "i6/4"
  }

  const Dominant: string := "V"

  /** What `getRandomFromArray` returns from an empty array, standing in a
      progression; no chord value equals it. */
  const UndefinedChord: string := "undefined"

  /** One entry of `CHORDS_MAJOR` / `CHORDS_MINOR`: the chord's value and its
      notes in semitones above the root. */
  datatype ChordDef = ChordDef(value: string, notes: seq<int>)

  const ChordsMajor: seq<ChordDef> := [
    ChordDef("I", [0, 4, 7, 12]),
    ChordDef("IV", [5, 9, 12, 17]),
    ChordDef("V", [7, 11, 14, 19]),
    ChordDef("vi", [9, 12, 16, 21]),
    ChordDef("I6/4", [7, 12, 16, 19])
  ]

  const ChordsMinor: seq<ChordDef> := [
    ChordDef("i", [0, 3, 7, 12]),
    ChordDef("iv", [5, 8, 12, 17]),
    ChordDef("V", [7, 11, 14, 19]),
    ChordDef("VI", [8, 12, 15, 20]),
    ChordDef("i6/4", [7, 12, 15, 19])
  ]

  function ChordDefs(mode: Mode): seq<ChordDef> {
    if mode == Major then ChordsMajor else ChordsMinor
  }

  /** `PRESET_PROGRESSION_MAP[name]`: the hard-coded progressions of a preset,
      `None` for a preset without any. */
  function PresetProgressions(name: string): (r: Option<seq<seq<string>>>)
    ensures r.Some? ==> |r.value| > 0
  {
    if name == "RCM Level 5" then
      Some([["I", "IV", "I"], ["I", "V", "I"]])
    else if name == "RCM Level 6" then
      Some([["I", "IV", "I"], ["I", "V", "I"], ["i", "iv", "i"], ["i", "V", "i"]])
    else if name == "RCM Level 7" then
      Some([["I", "IV", "I"], ["I", "V", "I"], ["i", "iv", "i"], ["i", "V", "i"], ["I", "IV", "V"], ["i", "iv", "V"]])
    else if name == "RCM Level 8" then
      Some([["I", "IV", "V", "I"], ["I", "IV", "V", "vi"], ["I", "vi", "IV", "V"], ["I", "vi", "IV", "I"],
            ["i", "iv", "V", "i"], ["i", "iv", "V", "VI"], ["i", "VI", "iv", "V"], ["i", "VI", "iv", "i"]])
    else None
  }

  /** `prog.every(chord => chords.includes(chord))`. */
  predicate AllSelected(prog: seq<string>, chords: seq<string>) {
    forall k :: 0 <= k < |prog| ==> prog[k] in chords
  }

  /** The progressions whose chords are all ticked, in their listed order. */
  function Selectable(progs: seq<seq<string>>, chords: seq<string>): (r: seq<seq<string>>)
    ensures forall p :: p in r <==> p in progs && AllSelected(p, chords)
  {
    if progs == [] then []
    else (if AllSelected(progs[0], chords) then [progs[0]] else []) + Selectable(progs[1..], chords)
  }

  /** `chords.filter(c => c !== tonic && c !== cad64)`. */
  function Available(mode: Mode, chords: seq<string>): (r: seq<string>)
    ensures forall c :: c in r <==> c in chords && c != Tonic(mode) && c != Cad64(mode)
  {
    Without(Without(chords, Tonic(mode)), Cad64(mode))
  }

  /** `available.length ? available : chords`: where the middle chords come from. */
  function Pool(mode: Mode, chords: seq<string>): (r: seq<string>)
    ensures |chords| > 0 ==> |r| > 0
    ensures forall c :: c in r ==> c in chords
  {
    var available := Available(mode, chords);
    if |available| > 0 then available else chords
  }

  /** `count` pushes of `getRandomFromArray(pool)` using the draws from `start` on;
      a loop whose bound is below its start pushes nothing. */
  function Fill(pool: seq<string>, count: int, d: nat -> real, start: nat): (r: seq<string>)
    requires IsDrawStream(d)
    ensures |r| == if count > 0 then count else 0
    ensures |pool| > 0 ==> forall k :: 0 <= k < |r| ==> r[k] == pool[Pick(d(start + k), |pool|)]
    ensures |pool| > 0 ==> AllSelected(r, pool)
  {
    if count <= 0 then []
    else if |pool| == 0 then seq(count, _ => UndefinedChord)
    else seq(count, k requires 0 <= k < count => pool[Pick(d(start + k), |pool|)])
  }

  /** Whether the random branch ends on the cadential 6/4. */
  predicate CadenceApplies(mode: Mode, chords: seq<string>, length: int) {
    Cad64(mode) in chords && length >= 3
  }

  /** `generateProgression`. A preset with hard-coded progressions yields one of
      them, drawn from those whose chords are all ticked when there are any.
      Otherwise the progression opens on the tonic, is filled with chords drawn
      from the pool and, when the cadential 6/4 is ticked and at least three
      chords are asked for, closes on `[cad64, V]` or, on a coin toss from four
      chords on, `[cad64, V, tonic]`. The coin is the first draw, and only drawn
      from four chords on. */
  function GenerateProgression(mode: Mode, chords: seq<string>, length: int, presetLabel: string, d: nat -> real): (r: seq<string>)
    requires IsDrawStream(d)
    ensures PresetProgressions(presetLabel).Some? ==> r in PresetProgressions(presetLabel).value
    ensures PresetProgressions(presetLabel).Some? && |Selectable(PresetProgressions(presetLabel).value, chords)| > 0
      ==> AllSelected(r, chords)
    ensures PresetProgressions(presetLabel).None? ==>
      && |r| == (if length >= 1 then length else 1)
      && r[0] == Tonic(mode)
  {
    match PresetProgressions(presetLabel)
    case Some(all) =>
      var filtered := Selectable(all, chords);
      if |filtered| > 0 then filtered[Pick(d(0), |filtered|)] else all[Pick(d(0), |all|)]
    case None =>
      RandomProgression(mode, chords, length, d)
  }

  /** The branch of `generateProgression` for presets without hard-coded progressions. */
  function RandomProgression(mode: Mode, chords: seq<string>, length: int, d: nat -> real): (r: seq<string>)
    requires IsDrawStream(d)
    ensures |r| == (if length >= 1 then length else 1)
    ensures r[0] == Tonic(mode)
  {
    var tonic, cad64, pool := Tonic(mode), Cad64(mode), Pool(mode, chords);
    if CadenceApplies(mode, chords, length) then
      if length >= 4 && d(0) < 0.5 then
        [tonic] + Fill(pool, length - 4, d, 1) + [cad64, Dominant, tonic]
      else
        [tonic] + Fill(pool, length - 3, d, if length >= 4 then 1 else 0) + [cad64, Dominant]
    else
      [tonic] + Fill(pool, length - 1, d, 0)
  }

  /** The shape a random progression may take, stated without draws: the tonic,
      then chords of the pool, then the cadence when it applies. */
  predicate WellShaped(r: seq<string>, mode: Mode, chords: seq<string>, length: int) {
    var pool := Pool(mode, chords);
    && |r| == (if length >= 1 then length else 1)
    && r[0] == Tonic(mode)
    && if CadenceApplies(mode, chords, length) then
         || (r[|r| - 2..] == [Cad64(mode), Dominant] && AllSelected(r[1..|r| - 2], pool))
         || (length >= 4 && r[|r| - 3..] == [Cad64(mode), Dominant, Tonic(mode)] && AllSelected(r[1..|r| - 3], pool))
       else AllSelected(r[1..], pool)
  }

  /** Every random progression has that shape (when some chord is ticked, so
      that the pool is not empty). */
  lemma RandomProgressionWellShaped(mode: Mode, chords: seq<string>, length: int, d: nat -> real)
    requires IsDrawStream(d) && |chords| > 0
    ensures WellShaped(RandomProgression(mode, chords, length, d), mode, chords, length)
  {
    var r := RandomProgression(mode, chords, length, d);
    var tonic, cad64, pool := Tonic(mode), Cad64(mode), Pool(mode, chords);
    if CadenceApplies(mode, chords, length) {
      if length >= 4 && d(0) < 0.5 {
        var middle := Fill(pool, length - 4, d, 1);
        assert r[1..|r| - 3] == middle;
        assert r[|r| - 3..] == [cad64, Dominant, tonic];
      } else {
        var middle := Fill(pool, length - 3, d, if length >= 4 then 1 else 0);
        assert r[1..|r| - 2] == middle;
        assert r[|r| - 2..] == [cad64, Dominant];
      }
    } else {
      assert r[1..] == Fill(pool, length - 1, d, 0);
    }
  }

  /** The position of `c` in `pool`, `0` when it is absent. */
  function IndexOf(pool: seq<string>, c: string): (i: nat)
    ensures c in pool ==> i < |pool| && pool[i] == c
  {
    if pool == [] || pool[0] == c then 0 else 1 + IndexOf(pool[1..], c)
  }

  /** The draws that make `Fill` push exactly `middle`, with `coin` before them. */
  function DrawsFor(pool: seq<string>, middle: seq<string>, start: nat, coin: real): nat -> real
    requires |pool| > 0
  {
    (k: nat) =>
      if k < start then coin
      else if k - start < |middle| then IndexOf(pool, middle[k - start]) as real / |pool| as real
      else 0.0
  }

  lemma DrawsForIsDrawStream(pool: seq<string>, middle: seq<string>, start: nat, coin: real)
    requires |pool| > 0 && AllSelected(middle, pool) && IsDraw(coin)
    ensures IsDrawStream(DrawsFor(pool, middle, start, coin))
  {
    var d := DrawsFor(pool, middle, start, coin);
    forall k: nat ensures IsDraw(d(k)) {
      if start <= k && k - start < |middle| {
        PickReachesEveryIndex(IndexOf(pool, middle[k - start]), |pool|);
      }
    }
  }

  lemma FillOfDrawsFor(pool: seq<string>, middle: seq<string>, start: nat, coin: real)
    requires |pool| > 0 && AllSelected(middle, pool) && IsDraw(coin)
    ensures IsDrawStream(DrawsFor(pool, middle, start, coin))
    ensures Fill(pool, |middle|, DrawsFor(pool, middle, start, coin), start) == middle
  {
    var d := DrawsFor(pool, middle, start, coin);
    DrawsForIsDrawStream(pool, middle, start, coin);
    var r := Fill(pool, |middle|, d, start);
    forall k | 0 <= k < |middle| ensures r[k] == middle[k] {
      PickReachesEveryIndex(IndexOf(pool, middle[k]), |pool|);
    }
  }

  /** Conversely every progression of that shape can come out: some run of
      draws produces it. */
  lemma WellShapedIsReachable(r: seq<string>, mode: Mode, chords: seq<string>, length: int)
    requires |chords| > 0 && WellShaped(r, mode, chords, length)
    ensures exists d :: IsDrawStream(d) && RandomProgression(mode, chords, length, d) == r
  {
    var pool := Pool(mode, chords);
    if !CadenceApplies(mode, chords, length) {
      ReachNoCadence(mode, chords, length, r[1..]);
      assert r == [r[0]] + r[1..];
    } else if r[|r| - 2..] == [Cad64(mode), Dominant] && AllSelected(r[1..|r| - 2], pool) {
      ShortCadenceShape(r, mode, chords, length);
    } else {
      LongCadenceShape(r, mode, chords, length);
    }
  }

  lemma ShortCadenceShape(r: seq<string>, mode: Mode, chords: seq<string>, length: int)
    requires |chords| > 0 && CadenceApplies(mode, chords, length)
    requires |r| == length && r[0] == Tonic(mode)
    requires r[|r| - 2..] == [Cad64(mode), Dominant] && AllSelected(r[1..|r| - 2], Pool(mode, chords))
    ensures exists d :: IsDrawStream(d) && RandomProgression(mode, chords, length, d) == r
  {
    var middle := r[1..|r| - 2];
    ReachShortCadence(mode, chords, length, middle);
    assert r == [Tonic(mode)] + middle + [Cad64(mode), Dominant];
  }

  lemma LongCadenceShape(r: seq<string>, mode: Mode, chords: seq<string>, length: int)
    requires |chords| > 0 && CadenceApplies(mode, chords, length) && length >= 4
    requires |r| == length && r[0] == Tonic(mode)
    requires r[|r| - 3..] == [Cad64(mode), Dominant, Tonic(mode)] && AllSelected(r[1..|r| - 3], Pool(mode, chords))
    ensures exists d :: IsDrawStream(d) && RandomProgression(mode, chords, length, d) == r
  {
    var middle := r[1..|r| - 3];
    ReachLongCadence(mode, chords, length, middle);
    assert r == [Tonic(mode)] + middle + [Cad64(mode), Dominant, Tonic(mode)];
  }

  lemma ReachShortCadence(mode: Mode, chords: seq<string>, length: int, middle: seq<string>)
    requires |chords| > 0 && CadenceApplies(mode, chords, length)
    requires |middle| == length - 3 && AllSelected(middle, Pool(mode, chords))
    ensures exists d :: IsDrawStream(d) && RandomProgression(mode, chords, length, d) == [Tonic(mode)] + middle + [Cad64(mode), Dominant]
  {
    var pool := Pool(mode, chords);
    var start: nat := if length >= 4 then 1 else 0;
    var d := DrawsFor(pool, middle, start, 0.5);
    FillOfDrawsFor(pool, middle, start, 0.5);
    assert length >= 4 ==> d(0) == 0.5;
    assert RandomProgression(mode, chords, length, d) == [Tonic(mode)] + Fill(pool, length - 3, d, start) + [Cad64(mode), Dominant];
  }

  lemma ReachLongCadence(mode: Mode, chords: seq<string>, length: int, middle: seq<string>)
    requires |chords| > 0 && CadenceApplies(mode, chords, length) && length >= 4
    requires |middle| == length - 4 && AllSelected(middle, Pool(mode, chords))
    ensures exists d :: IsDrawStream(d) && RandomProgression(mode, chords, length, d) == [Tonic(mode)] + middle + [Cad64(mode), Dominant, Tonic(mode)]
  {
    var pool := Pool(mode, chords);
    var d := DrawsFor(pool, middle, 1, 0.0);
    FillOfDrawsFor(pool, middle, 1, 0.0);
    assert d(0) == 0.0;
    assert RandomProgression(mode, chords, length, d) == [Tonic(mode)] + Fill(pool, length - 4, d, 1) + [Cad64(mode), Dominant, Tonic(mode)];
  }

  lemma ReachNoCadence(mode: Mode, chords: seq<string>, length: int, middle: seq<string>)
    requires |chords| > 0 && !CadenceApplies(mode, chords, length)
    requires |middle| == (if length >= 1 then length else 1) - 1 && AllSelected(middle, Pool(mode, chords))
    ensures exists d :: IsDrawStream(d) && RandomProgression(mode, chords, length, d) == [Tonic(mode)] + middle
  {
    var pool := Pool(mode, chords);
    var d := DrawsFor(pool, middle, 0, 0.0);
    FillOfDrawsFor(pool, middle, 0, 0.0);
    assert Fill(pool, length - 1, d, 0) == middle;
  }

  /** `getRandomRootMidi`: C3 (48) to B4 (71). */
  function RandomRootMidi(u: real): (root: int)
    requires IsDraw(u)
    ensures 48 <= root <= 71
  {
    48 + Pick(u, 24)
  }

  lemma EveryRootReachable(root: int)
    requires 48 <= root <= 71
    ensures IsDraw((root - 48) as real / 24.0) && RandomRootMidi((root - 48) as real / 24.0) == root
  {
    PickReachesEveryIndex(root - 48, 24);
  }

  /** `CHORDS_*.find(c => c.value === chord)`. */
  function FindChord(defs: seq<ChordDef>, chord: string): (r: Option<ChordDef>)
    ensures r.Some? ==> r.value in defs && r.value.value == chord
    ensures r.None? ==> forall k :: 0 <= k < |defs| ==> defs[k].value != chord
  {
    if defs == [] then None
    else if defs[0].value == chord then Some(defs[0])
    else FindChord(defs[1..], chord)
  }

  function Transpose(intervals: seq<int>, root: int): (r: seq<int>)
    ensures |r| == |intervals|
    ensures forall k :: 0 <= k < |r| ==> r[k] == root + intervals[k]
  {
    seq(|intervals|, k requires 0 <= k < |intervals| => root + intervals[k])
  }

  predicate IsCad64Value(chord: string) {
    chord == "I6/4" || chord == "i6/4"
  }

  /** The notes `playChord` sounds. The cadential 6/4 and the dominant are
      voiced around the root, with the fifth of the key below it; any other
      chord is its table entry over the root. A chord the mode's table lacks
      has no voicing (the page fails reading `notes` of `undefined`). */
  function Voicing(chord: string, mode: Mode, root: int): (r: Option<seq<int>>)
    ensures IsCad64Value(chord) ==>
      r == Some([root - 5, root, root + (if chord == "I6/4" then 4 else 3), root + 7])
    ensures chord == Dominant ==> r == Some([root - 5, root - 1, root + 2, root + 7])
    ensures !IsCad64Value(chord) && chord != Dominant ==>
      && (r.Some? <==> exists k :: 0 <= k < |ChordDefs(mode)| && ChordDefs(mode)[k].value == chord)
      && (r.Some? ==> exists def :: def in ChordDefs(mode) && def.value == chord && r.value == Transpose(def.notes, root))
  {
    if IsCad64Value(chord) then
      Some([root + 7 - 12, root, root + (if chord == "I6/4" then 4 else 3), root + 7])
    else if chord == Dominant then
      Some([root + 7 - 12, root + 11 - 12, root + 14 - 12, root + 7])
    else
      match FindChord(ChordDefs(mode), chord)
      case None => None
      case Some(def) => Some(Transpose(def.notes, root))
  }

  /** Every chord of a mode's table has a voicing, and the two specially voiced
      chords are exactly their table notes an octave down. */
  lemma VoicingMatchesTable(mode: Mode, k: nat, root: int)
    requires k < |ChordDefs(mode)|
    ensures var def := ChordDefs(mode)[k];
      Voicing(def.value, mode, root)
        == Some(Transpose(def.notes, if IsCad64Value(def.value) || def.value == Dominant then root - 12 else root))
  {
    var defs := ChordDefs(mode);
    var def := defs[k];
    if IsCad64Value(def.value) || def.value == Dominant {
      var second := if def.value == Dominant then 11 else 12;
      var third := if def.value == Dominant then 14 else if def.value == "I6/4" then 16 else 15;
      assert def.notes == [7, second, third, 19];
      var t := Transpose(def.notes, root - 12);
      assert t == [root - 5, root - 12 + second, root - 12 + third, root + 7];
    } else {
      assert forall j :: 0 <= j < k ==> defs[j].value != def.value;
      FindFirst(defs, k);
    }
  }

  /** `find` returns the first entry with the value. */
  lemma {:induction false} FindFirst(defs: seq<ChordDef>, k: nat)
    requires k < |defs|
    requires forall j :: 0 <= j < k ==> defs[j].value != defs[k].value
    ensures FindChord(defs, defs[k].value) == Some(defs[k])
  {
    if k > 0 {
      assert defs[0].value != defs[k].value;
      FindFirst(defs[1..], k - 1);
    }
  }

  /** The two modes' lists of ticked chords. */
  datatype Selection = Selection(major: seq<string>, minor: seq<string>)

  function Selected(s: Selection, mode: Mode): seq<string> {
    if mode == Major then s.major else s.minor
  }

  /** The setup screen: mode, ticked chords, preset and length. */
  datatype Setup = Setup(mode: ModeChoice, selected: Selection, preset: string, length: int)

  /** The test screen's state. `actualMode` starts as `"random"`. */
  datatype Session = Session(
    setup: Setup,
    actualMode: ModeChoice,
    showSetup: bool,
    progression: seq<string>,
    guessIndex: nat,
    guesses: seq<string>,
    feedback: seq<string>,
    showAnswer: bool,
    initialPlayback: bool,
    mistakeMade: bool,
    complete: bool,
    root: int,
    score: Score)

  /** The state a started test keeps: one guess and one feedback slot per
      chord, and the chord being named lies in the progression. */
  predicate WellFormed(t: Session) {
    && |t.guesses| == |t.progression|
    && |t.feedback| == |t.progression|
    && t.guessIndex < |t.progression|
  }

  /** The three `alert`s of `startTest`. */
  datatype StartError = TonicMissing | TooFewChords | TooShort

  datatype StartOutcome = StartOutcome(session: Session, refused: Option<StartError>)

  function Blank(n: nat): (r: seq<string>)
    ensures |r| == n && forall k :: 0 <= k < n ==> r[k] == ""
  {
    seq(n, _ => "")
  }

  /** `startTest`. The mode is settled first (a coin for `"random"`) and becomes
      `actualMode` even when the start is then refused. A refusal leaves
      everything else unchanged; a start draws a root and a progression and
      clears the answers, but keeps the running score. */
  function StartTest(t: Session, d: nat -> real): (r: StartOutcome)
    requires IsDrawStream(d)
    ensures r.session.actualMode.Only?
    ensures t.setup.mode.Only? ==> r.session.actualMode == t.setup.mode
    ensures var mode := r.session.actualMode.mode; var chords := Selected(t.setup.selected, mode);
      && (r.refused == Some(TonicMissing) <==> Tonic(mode) !in chords)
      && (r.refused == Some(TooFewChords) <==> Tonic(mode) in chords && |chords| < 2)
      && (r.refused == Some(TooShort) <==> Tonic(mode) in chords && |chords| >= 2 && t.setup.length < 2)
    ensures r.refused.Some? ==> r.session.(actualMode := t.actualMode) == t
    ensures r.refused.None? ==>
      && WellFormed(r.session)
      && r.session.guessIndex == 0
      && (forall k :: 0 <= k < |r.session.guesses| ==> r.session.guesses[k] == "" && r.session.feedback[k] == "")
      && 48 <= r.session.root <= 71
      && r.session.score == t.score && r.session.setup == t.setup
      && !r.session.showSetup && r.session.initialPlayback
      && !r.session.mistakeMade && !r.session.complete && !r.session.showAnswer
      && (PresetProgressions(t.setup.preset).None? ==>
            |r.session.progression| == t.setup.length && r.session.progression[0] == Tonic(r.session.actualMode.mode))
  {
    var chosen := SettleMode(t.setup.mode, d(0));
    var used: nat := if t.setup.mode.RandomMode? then 1 else 0;
    var t1 := t.(actualMode := Only(chosen));
    var chords := Selected(t.setup.selected, chosen);
    match Refusal(chosen, chords, t.setup.length)
    case Some(e) => StartOutcome(t1, Some(e))
    case None => StartOutcome(Begin(t1, chosen, chords, d, used), None)
  }

  /** The mode a test runs in: the chosen one, or a coin toss for "random". */
  function SettleMode(choice: ModeChoice, u: real): (m: Mode)
    ensures choice.Only? ==> m == choice.mode
    ensures choice.RandomMode? ==> (m == Major <==> u < 0.5)
  {
    match choice
    case RandomMode => if u < 0.5 then Major else Minor
    case Only(m) => m
  }

  /** The checks of `startTest`, in order. */
  function Refusal(mode: Mode, chords: seq<string>, length: int): (e: Option<StartError>)
    ensures e == Some(TonicMissing) <==> Tonic(mode) !in chords
    ensures e == Some(TooFewChords) <==> Tonic(mode) in chords && |chords| < 2
    ensures e == Some(TooShort) <==> Tonic(mode) in chords && |chords| >= 2 && length < 2
    ensures e.None? ==> |chords| >= 2 && length >= 2
  {
    if Tonic(mode) !in chords then Some(TonicMissing)
    else if |chords| < 2 then Some(TooFewChords)
    else if length < 2 then Some(TooShort)
    else None
  }

  /** The accepted start: a root, then a progression from the draws after it,
      with a blank answer sheet. */
  function Begin(t: Session, mode: Mode, chords: seq<string>, d: nat -> real, used: nat): (r: Session)
    requires IsDrawStream(d) && t.setup.length >= 2 && t.actualMode == Only(mode)
    ensures WellFormed(r) && r.guessIndex == 0 && 48 <= r.root <= 71
    ensures forall k :: 0 <= k < |r.guesses| ==> r.guesses[k] == "" && r.feedback[k] == ""
    ensures r.score == t.score && r.setup == t.setup && r.actualMode == t.actualMode
    ensures !r.showSetup && r.initialPlayback && !r.mistakeMade && !r.complete && !r.showAnswer
    ensures PresetProgressions(t.setup.preset).None? ==> |r.progression| == t.setup.length && r.progression[0] == Tonic(mode)
  {
    SkipIsDrawStream(d, used + 1);
    var root := RandomRootMidi(d(used));
    var prog := GenerateProgression(mode, chords, t.setup.length, t.setup.preset, Skip(d, used + 1));
    PresetsNonEmpty(t.setup.preset);
    t.(root := root, progression := prog, guessIndex := 0,
      guesses := Blank(|prog|), feedback := Blank(|prog|),
      showSetup := false, showAnswer := false, initialPlayback := true,
      mistakeMade := false, complete := false)
  }

  /** Every hard-coded progression has at least three chords. */
  lemma PresetsNonEmpty(name: string)
    ensures PresetProgressions(name).Some? ==> forall p :: p in PresetProgressions(name).value ==> |p| >= 3
  {
  }

  /** `handleGuess(guess, idx)`. The guess and its feedback are recorded; a
      wrong guess marks a mistake. A right guess shows the answer, except on
      the last chord, where it completes the progression and scores it: the
      total always rises, the correct count only when no mistake was made
      before this guess. */
  function HandleGuess(t: Session, guess: string, idx: nat): (r: Session)
    requires WellFormed(t) && idx < |t.progression|
    ensures WellFormed(r) && r.progression == t.progression && r.guessIndex == t.guessIndex
    ensures r.guesses == t.guesses[idx := guess]
    ensures r.feedback[idx] == (if guess == t.progression[idx] then "Correct!" else "Try again!")
    ensures r.mistakeMade <==> t.mistakeMade || guess != t.progression[idx]
    ensures r.complete <==> t.complete || (guess == t.progression[idx] && idx == |t.progression| - 1)
    ensures r.score.total == t.score.total + (if guess == t.progression[idx] && idx == |t.progression| - 1 then 1 else 0)
    ensures r.score.correct == t.score.correct
      + (if guess == t.progression[idx] && idx == |t.progression| - 1 && !t.mistakeMade then 1 else 0)
    ensures ValidScore(t.score) ==> ValidScore(r.score)
  {
    var right := guess == t.progression[idx];
    var noted := t.(
      guesses := t.guesses[idx := guess],
      feedback := t.feedback[idx := if right then "Correct!" else "Try again!"],
      mistakeMade := t.mistakeMade || !right);
    if !right then noted
    else if idx == |t.progression| - 1 then
      var s := t.score;
      noted.(complete := true, showAnswer := false,
        score := if !t.mistakeMade then Score(s.correct + 1, s.total + 1) else Score(s.correct, s.total + 1))
    else noted.(showAnswer := true)
  }

  /** `nextChord`: move to the next chord, if there is one. */
  function NextChord(t: Session): (r: Session)
    requires WellFormed(t)
    ensures WellFormed(r)
    ensures r.guessIndex == if t.guessIndex < |t.progression| - 1 then t.guessIndex + 1 else t.guessIndex
    ensures r.score == t.score && r.progression == t.progression && r.mistakeMade == t.mistakeMade
  {
    if t.guessIndex < |t.progression| - 1 then t.(guessIndex := t.guessIndex + 1, showAnswer := false) else t
  }

  /** The chord `nextChord` plays 200 ms later. */
  function NextChordPlay(t: Session): (r: Option<Event>)
    requires WellFormed(t)
    ensures r.Some? <==> t.guessIndex < |t.progression| - 1
                         && Voicing(t.progression[t.guessIndex + 1], ActualMode(t), t.root).Some?
    ensures r.Some? ==> r.value.offsetMs == 200.0 && r.value.seconds == 1.0
                        && r.value.notes == Voicing(t.progression[t.guessIndex + 1], ActualMode(t), t.root).value
  {
    if t.guessIndex < |t.progression| - 1 then
      var chord := t.progression[t.guessIndex + 1];
      match Voicing(chord, ActualMode(t), t.root)
      case Some(notes) => Some(Event(200.0, notes, 1.0))
      case None => None
    else None
  }

  /** `actualMode === "major" ? CHORDS_MAJOR : CHORDS_MINOR`: anything but major
      reads the minor table. */
  function ActualMode(t: Session): Mode {
    if t.actualMode == Only(Major) then Major else Minor
  }

  /** Naming every remaining chord right, pressing "Next Chord" after each. */
  function AnswerRest(t: Session): (r: Session)
    requires WellFormed(t)
    ensures WellFormed(r)
    decreases |t.progression| - t.guessIndex
  {
    var answered := HandleGuess(t, t.progression[t.guessIndex], t.guessIndex);
    if t.guessIndex == |t.progression| - 1 then answered else AnswerRest(NextChord(answered))
  }

  /** A progression named chord by chord without a mistake scores one point
      out of one. */
  lemma {:induction false} PerfectRoundScores(t: Session)
    requires WellFormed(t) && !t.mistakeMade
    ensures AnswerRest(t).score == Score(t.score.correct + 1, t.score.total + 1)
    ensures AnswerRest(t).complete
    decreases |t.progression| - t.guessIndex
  {
    var answered := HandleGuess(t, t.progression[t.guessIndex], t.guessIndex);
    if t.guessIndex < |t.progression| - 1 {
      PerfectRoundScores(NextChord(answered));
    }
  }

  /** One wrong guess anywhere forfeits the point: the progression still
      counts towards the total, never towards the correct count. */
  lemma {:induction false} MistakeForfeitsPoint(t: Session)
    requires WellFormed(t) && t.mistakeMade
    ensures AnswerRest(t).score == Score(t.score.correct, t.score.total + 1)
    decreases |t.progression| - t.guessIndex
  {
    var answered := HandleGuess(t, t.progression[t.guessIndex], t.guessIndex);
    if t.guessIndex < |t.progression| - 1 {
      MistakeForfeitsPoint(NextChord(answered));
    }
  }

  /** The voicing of every chord of a progression over one root. */
  function Voicings(prog: seq<string>, mode: Mode, root: int): (vs: seq<Option<seq<int>>>)
    ensures |vs| == |prog|
    ensures forall k :: 0 <= k < |prog| ==> vs[k] == Voicing(prog[k], mode, root)
  {
    seq(|prog|, k requires 0 <= k < |prog| => Voicing(prog[k], mode, root))
  }

  /** Chord `i` at `i * 1100` ms for one second, stopping at the first chord
      without a voicing. */
  function Sounding(vs: seq<Option<seq<int>>>, i: nat): (es: seq<Event>)
    requires i <= |vs|
    ensures |es| <= |vs| - i
    ensures (forall k :: i <= k < |vs| ==> vs[k].Some?) ==> |es| == |vs| - i
    decreases |vs| - i
  {
    if i == |vs| then []
    else match vs[i]
      case None => []
      case Some(notes) => [Event((i * 1100) as real, notes, 1.0)] + Sounding(vs, i + 1)
  }

  /** The first playback of a progression. */
  function ProgressionPlayback(prog: seq<string>, mode: Mode, root: int): (es: seq<Event>)
    ensures |es| <= |prog|
  {
    Sounding(Voicings(prog, mode, root), 0)
  }

  /** The `k`-th call of the playback sounds chord `i + k`, 1100 ms after the one before. */
  lemma {:induction false} SoundingEvent(vs: seq<Option<seq<int>>>, i: nat, k: nat)
    requires i <= |vs| && k < |Sounding(vs, i)|
    ensures i + k < |vs| && vs[i + k].Some?
    ensures Sounding(vs, i)[k] == Event(((i + k) * 1100) as real, vs[i + k].value, 1.0)
    decreases k
  {
    if k > 0 {
      SoundingEvent(vs, i + 1, k - 1);
    }
  }

  /** Chords of a progression whose chords all have voicings sound one after
      another, 1100 ms apart, each for one second. */
  lemma PlaybackInOrder(prog: seq<string>, mode: Mode, root: int)
    requires forall k :: 0 <= k < |prog| ==> Voicing(prog[k], mode, root).Some?
    ensures |ProgressionPlayback(prog, mode, root)| == |prog|
    ensures forall k :: 0 <= k < |prog| ==>
      ProgressionPlayback(prog, mode, root)[k] == Event((k * 1100) as real, Voicing(prog[k], mode, root).value, 1.0)
    ensures NonDecreasingOffsets(ProgressionPlayback(prog, mode, root))
  {
    var vs := Voicings(prog, mode, root);
    assert forall k :: 0 <= k < |vs| ==> vs[k].Some?;
    var es := Sounding(vs, 0);
    forall k | 0 <= k < |prog|
      ensures es[k] == Event((k * 1100) as real, vs[k].value, 1.0)
    {
      SoundingEvent(vs, 0, k);
    }
  }

  /** The length box: `Math.max(2, Math.min(5, Number(value)))`. */
  function ClampLength(v: int): (r: int)
    ensures 2 <= r <= 5
    ensures 2 <= v <= 5 ==> r == v
    ensures v < 2 ==> r == 2
    ensures v > 5 ==> r == 5
  {
    var upper := if v < 5 then v else 5;
    if upper > 2 then upper else 2
  }

  /** The length box's `onChange`: the typed length clamped into 2..5, and
      the custom preset chosen. */
  function LengthChange(s: Setup, v: int): (r: Setup)
    ensures r.length == ClampLength(v) && r.preset == "Custom"
    ensures r.selected == s.selected && r.mode == s.mode
  {
    s.(length := ClampLength(v), preset := "Custom")
  }

  /** Once the length is edited no level's hard-coded progressions apply:
      the next progression is drawn at random with the typed length. */
  lemma LengthChangeDrawsRandomly(s: Setup, v: int, mode: Mode, chords: seq<string>, d: nat -> real)
    requires IsDrawStream(d)
    ensures var r := LengthChange(s, v);
      && PresetProgressions(r.preset).None?
      && |GenerateProgression(mode, chords, r.length, r.preset, d)| == ClampLength(v)
      && GenerateProgression(mode, chords, r.length, r.preset, d)[0] == Tonic(mode)
  {
  }

  /** `handleChordChange(modeKey, value)`: ticks or unticks one chord of one
      mode and switches to the custom preset. */
  function ChordChange(s: Setup, mode: Mode, chord: string): (r: Setup)
    ensures r.preset == "Custom" && r.mode == s.mode && r.length == s.length
    ensures chord in Selected(r.selected, mode) <==> chord !in Selected(s.selected, mode)
    ensures forall c :: c != chord ==> (c in Selected(r.selected, mode) <==> c in Selected(s.selected, mode))
    ensures forall other :: other != mode ==> Selected(r.selected, other) == Selected(s.selected, other)
  {
    var toggled := Toggle(Selected(s.selected, mode), chord);
    var selected := if mode == Major then s.selected.(major := toggled) else s.selected.(minor := toggled);
    s.(selected := selected, preset := "Custom")
  }

  /** `PRESETS`: name and ticked chords of each mode. */
  const Presets: seq<Preset<Selection>> := [
    Preset("Custom", Selection([], [])),
    Preset("RCM Level 5", Selection(["I", "IV", "V"], [])),
    Preset("RCM Level 6", Selection(["I", "IV", "V"], ["i", "iv", "V"])),
    Preset("RCM Level 7", Selection(["I", "IV", "V"], ["i", "iv", "V"])),
    Preset("RCM Level 8", Selection(["I", "IV", "V", "vi"], ["i", "iv", "V", "VI"])),
    Preset("RCM Level 9", Selection(["I", "IV", "V", "vi"], ["i", "iv", "V", "VI"])),
    Preset("RCM Level 10", Selection(["I", "IV", "V", "vi", "I6/4"], ["i", "iv", "V", "VI", "i6/4"]))
  ]

  /** `handlePresetChange` followed by the effect on `preset`: the preset's
      chords are ticked, and levels 5 to 10 fix mode and length. A name not in
      the list has no preset (the page would fail reading it). */
  function PresetChange(s: Setup, name: string): (r: Option<Setup>)
    ensures r.Some? <==> exists k :: 0 <= k < |Presets| && Presets[k].name == name
    ensures r.Some? ==> r.value.preset == name && Preset(name, r.value.selected) in Presets
    ensures r.Some? && name == "RCM Level 5" ==> r.value.mode == Only(Major) && r.value.length == 3
    ensures r.Some? && name in {"RCM Level 6", "RCM Level 7", "RCM Level 8"} ==> r.value.mode == RandomMode && r.value.length == 4
    ensures r.Some? && name in {"RCM Level 9", "RCM Level 10"} ==> r.value.mode == RandomMode && r.value.length == 5
    ensures r.Some? && name == "Custom" ==> r.value.mode == s.mode && r.value.length == s.length
  {
    match FindPreset(Presets, name)
    case None => None
    case Some(p) =>
      var picked := s.(preset := name, selected := p.value);
      if name == "RCM Level 5" then Some(picked.(mode := Only(Major), length := 3))
      else if name == "RCM Level 6" || name == "RCM Level 7" || name == "RCM Level 8" then
        Some(picked.(mode := RandomMode, length := 4))
      else if name == "RCM Level 9" || name == "RCM Level 10" then Some(picked.(mode := RandomMode, length := 5))
      else Some(picked)
  }

  /** Choosing a mode radio button also switches to the custom preset. */
  function SelectMode(s: Setup, mode: ModeChoice): (r: Setup)
    ensures r.mode == mode && r.preset == "Custom" && r.selected == s.selected && r.length == s.length
  {
    s.(mode := mode, preset := "Custom")
  }
}
