/** The melody-playback trainer (`src/pages/MelodyPlayback.jsx`): a tonic chord
    followed by a melody whose notes are spaced by their written durations, and
    a limit of two replays. */
module MelodyPlayback {
  import opened Results
  import opened Draws
  import opened Pitch
  import opened Playback

  /** A pitch as the melody data writes it: a MIDI number or a note name. */
  datatype PitchSpec = Midi(m: int) | Named(name: string)

  /** One `{ note | midi, duration }` entry; `beats` is the duration in quarter notes. */
  datatype MelodyNote = MelodyNote(pitch: PitchSpec, beats: real)

  /** One melody of the data set. `tempo` is absent for melodies without one. */
  datatype Melody = Melody(tonic: PitchSpec, tonicQuality: string, tempo: Option<real>, notes: seq<MelodyNote>)

  const DefaultTempo: real := 100.0

  /** Delay between the start of the tonic chord and the melody (2 s chord + 0.1 s). */
  const ChordLeadInMs: real := 2100.0

  /** Extra wait after the last slot before `onDone` runs. */
  const DoneMarginMs: real := 100.0

  /** The MIDI number the page computes with. A name the pattern rejects gives
      `null`, which JavaScript arithmetic and `midiToNoteName` both treat as 0
      (`midiToNoteName(null)` is `"C-1"`, the name of 0). */
  function ResolvePitch(p: PitchSpec): (r: int)
    ensures p.Midi? ==> r == p.m
    ensures p.Named? && IsNoteName(p.name) ==> 11 <= r <= 132
    ensures p.Named? && !IsNoteName(p.name) ==> r == 0
  {
    match p
    case Midi(m) => m
    case Named(s) => NoteNameToMidi(s).GetOr(0)
  }

  /** A melody note written as a name sounds the pitch its number would:
      the page may spell a pitch either way. */
  lemma SpellingsAgree(m: int)
    requires 12 <= m <= 131
    ensures ResolvePitch(Named(MidiToNoteName(m))) == ResolvePitch(Midi(m))
  {
    MidiNameRoundTrip(m);
  }

  /** `melodyObj.tempo || DEFAULT_TEMPO`: a missing or zero tempo means 100 bpm. */
  function EffectiveTempo(t: Option<real>): (bpm: real)
    ensures bpm != 0.0
  {
    if t.Some? && t.value != 0.0 then t.value else DefaultTempo
  }

  /** Milliseconds per quarter note. */
  function BeatMs(m: Melody): (ms: real)
    ensures EffectiveTempo(m.tempo) > 0.0 ==> ms > 0.0
  {
    var bpm := EffectiveTempo(m.tempo);
    if bpm > 0.0 then PositiveQuotient(60000.0, bpm); 60000.0 / bpm else 60000.0 / bpm
  }

  lemma PositiveQuotient(a: real, b: real)
    requires a > 0.0 && b > 0.0
    ensures a / b > 0.0
  {
    assert (a / b) * b == a;
  }

  /** Total written length, in beats, of a run of notes. */
  function SumBeats(notes: seq<MelodyNote>): real {
    if notes == [] then 0.0 else notes[0].beats + SumBeats(notes[1..])
  }

  /** The slot of each note, `beatDurationMs * noteObj.duration`, in milliseconds. */
  function NoteSlots(notes: seq<MelodyNote>, beatMs: real): (slots: seq<real>)
    ensures |slots| == |notes|
    ensures forall i :: 0 <= i < |notes| ==> slots[i] == beatMs * notes[i].beats
  {
    seq(|notes|, i requires 0 <= i < |notes| => beatMs * notes[i].beats)
  }

  function Sum(xs: seq<real>): real {
    if xs == [] then 0.0 else xs[0] + Sum(xs[1..])
  }

  /** The call for one note started at `atMs`: it sounds for 90% of its slot. */
  function NoteEvent(n: MelodyNote, slotMs: real, atMs: real): Event {
    Event(atMs, [ResolvePitch(n.pitch)], slotMs * 0.9 / 1000.0)
  }

  /** A play of the melody: the note calls and the delay of `onDone`. */
  datatype Play = Play(events: seq<Event>, doneMs: real)

  /** The `forEach` of `playMelodyNotes` from a running `time`: each note is
      scheduled at the current time, which then grows by the note's slot;
      `onDone` is scheduled 100 ms after the final time. */
  function Schedule(notes: seq<MelodyNote>, slots: seq<real>, timeMs: real): (p: Play)
    requires |slots| == |notes|
    ensures |p.events| == |notes|
    decreases |notes|
  {
    if notes == [] then Play([], timeMs + DoneMarginMs)
    else
      var rest := Schedule(notes[1..], slots[1..], timeMs + slots[0]);
      Play([NoteEvent(notes[0], slots[0], timeMs)] + rest.events, rest.doneMs)
  }

  /** Note `i` starts once the slots of all notes before it have elapsed. */
  lemma {:induction false} ScheduleEvent(notes: seq<MelodyNote>, slots: seq<real>, timeMs: real, i: nat)
    requires |slots| == |notes| && i < |notes|
    ensures Schedule(notes, slots, timeMs).events[i] == NoteEvent(notes[i], slots[i], timeMs + Sum(slots[..i]))
    decreases i
  {
    if i == 0 {
      assert slots[..0] == [];
    } else {
      ScheduleEvent(notes[1..], slots[1..], timeMs + slots[0], i - 1);
      assert slots[..i][1..] == slots[1..][..i - 1];
    }
  }

  /** `onDone` waits for the slots of all notes plus 100 ms. */
  lemma {:induction false} ScheduleDone(notes: seq<MelodyNote>, slots: seq<real>, timeMs: real)
    requires |slots| == |notes|
    ensures Schedule(notes, slots, timeMs).doneMs == timeMs + Sum(slots) + DoneMarginMs
    decreases |notes|
  {
    if notes != [] {
      ScheduleDone(notes[1..], slots[1..], timeMs + slots[0]);
    }
  }

  /** `playMelodyNotes(sampler, melody, onDone)`: one call per note, and
      `onDone` once the written length at the tempo and 100 ms have passed. */
  function PlayMelodyNotes(m: Melody): (p: Play)
    ensures |p.events| == |m.notes|
    ensures p.doneMs == BeatMs(m) * SumBeats(m.notes) + DoneMarginMs
  {
    var slots := NoteSlots(m.notes, BeatMs(m));
    ScheduleDone(m.notes, slots, 0.0);
    SumOfSlots(m.notes, BeatMs(m));
    Schedule(m.notes, slots, 0.0)
  }

  lemma Distribute(k: real, a: real, b: real)
    ensures k * (a + b) == k * a + k * b
  {
  }

  /** The slots add up to the written length at the tempo. */
  lemma {:induction false} SumOfSlots(notes: seq<MelodyNote>, beatMs: real)
    ensures Sum(NoteSlots(notes, beatMs)) == beatMs * SumBeats(notes)
    decreases |notes|
  {
    if notes != [] {
      var slots, rest := NoteSlots(notes, beatMs), NoteSlots(notes[1..], beatMs);
      forall k | 0 <= k < |rest| ensures slots[1..][k] == rest[k] {
        assert notes[1..][k] == notes[k + 1];
      }
      assert slots[1..] == rest;
      SumOfSlots(notes[1..], beatMs);
      Distribute(beatMs, notes[0].beats, SumBeats(notes[1..]));
    }
  }

  /** One call per note, in the melody's order; note `i` starts after the
      written length of the notes before it at the melody's tempo (100 bpm when
      it has none) and sounds for 90% of its own slot; `onDone` runs 100 ms
      after the total written length. */
  lemma MelodyTimeline(m: Melody)
    ensures |PlayMelodyNotes(m).events| == |m.notes|
    ensures forall i :: 0 <= i < |m.notes| ==> NoteAt(m, PlayMelodyNotes(m), i)
    ensures PlayMelodyNotes(m).doneMs == BeatMs(m) * SumBeats(m.notes) + 100.0
  {
    var p := PlayMelodyNotes(m);
    forall i | 0 <= i < |m.notes|
      ensures NoteAt(m, p, i)
    {
      TimelineAt(m, i);
    }
  }

  /** Call `i` of a play sounds note `i` of the melody where the timeline puts it. */
  predicate NoteAt(m: Melody, p: Play, i: nat)
    requires i < |m.notes| && i < |p.events|
  {
    && p.events[i].notes == [ResolvePitch(m.notes[i].pitch)]
    && p.events[i].offsetMs == BeatMs(m) * SumBeats(m.notes[..i])
    && 1000.0 * p.events[i].seconds == 0.9 * (BeatMs(m) * m.notes[i].beats)
  }

  lemma TimelineAt(m: Melody, i: nat)
    requires i < |m.notes|
    ensures PlayMelodyNotes(m).events[i].notes == [ResolvePitch(m.notes[i].pitch)]
    ensures PlayMelodyNotes(m).events[i].offsetMs == BeatMs(m) * SumBeats(m.notes[..i])
    ensures 1000.0 * PlayMelodyNotes(m).events[i].seconds == 0.9 * (BeatMs(m) * m.notes[i].beats)
  {
    var beatMs := BeatMs(m);
    var slots := NoteSlots(m.notes, beatMs);
    ScheduleEvent(m.notes, slots, 0.0, i);
    SlotsBefore(m.notes, beatMs, i);
    var e := PlayMelodyNotes(m).events[i];
    assert e == NoteEvent(m.notes[i], slots[i], 0.0 + Sum(slots[..i]));
  }

  /** The slots before note `i` add up to the written length before it. */
  lemma SlotsBefore(notes: seq<MelodyNote>, beatMs: real, i: nat)
    requires i <= |notes|
    ensures Sum(NoteSlots(notes, beatMs)[..i]) == beatMs * SumBeats(notes[..i])
  {
    var slots := NoteSlots(notes, beatMs);
    var prefix := NoteSlots(notes[..i], beatMs);
    forall k | 0 <= k < i ensures slots[..i][k] == prefix[k] {
      assert notes[..i][k] == notes[k];
    }
    assert slots[..i] == prefix;
    SumOfSlots(notes[..i], beatMs);
  }

  ghost predicate NoNegativeDurations(notes: seq<MelodyNote>) {
    forall i :: 0 <= i < |notes| ==> notes[i].beats >= 0.0
  }

  ghost predicate NonNegative(xs: seq<real>) {
    forall i :: 0 <= i < |xs| ==> xs[i] >= 0.0
  }

  lemma {:induction false} SumPrefixStep(xs: seq<real>, i: nat)
    requires i < |xs|
    ensures Sum(xs[..i + 1]) == Sum(xs[..i]) + xs[i]
    decreases i
  {
    if i == 0 {
      assert xs[..1] == [xs[0]];
      assert xs[..0] == [];
    } else {
      SumPrefixStep(xs[1..], i - 1);
      assert xs[..i + 1][1..] == xs[1..][..i];
      assert xs[..i][1..] == xs[1..][..i - 1];
    }
  }

  /** Prefix sums of non-negative slots never decrease. */
  lemma {:induction false} SumPrefixMonotone(xs: seq<real>, i: nat, j: nat)
    requires NonNegative(xs) && i <= j <= |xs|
    ensures Sum(xs[..i]) <= Sum(xs[..j])
    decreases j - i
  {
    if i < j {
      SumPrefixMonotone(xs, i, j - 1);
      SumPrefixStep(xs, j - 1);
    }
  }

  /** With non-negative slots the calls are made in time order, and each note
      has been released before `onDone` runs. */
  lemma ScheduleInTimeOrder(notes: seq<MelodyNote>, slots: seq<real>, timeMs: real)
    requires |slots| == |notes| && NonNegative(slots)
    ensures NonDecreasingOffsets(Schedule(notes, slots, timeMs).events)
    ensures forall i :: 0 <= i < |notes| ==>
      Schedule(notes, slots, timeMs).events[i].offsetMs + 1000.0 * Schedule(notes, slots, timeMs).events[i].seconds
        < Schedule(notes, slots, timeMs).doneMs
  {
    var play := Schedule(notes, slots, timeMs);
    forall i, j | 0 <= i < j < |play.events| ensures play.events[i].offsetMs <= play.events[j].offsetMs {
      ScheduleEvent(notes, slots, timeMs, i);
      ScheduleEvent(notes, slots, timeMs, j);
      SumPrefixMonotone(slots, i, j);
    }
    forall i | 0 <= i < |notes|
      ensures play.events[i].offsetMs + 1000.0 * play.events[i].seconds < play.doneMs
    {
      ScheduleEvent(notes, slots, timeMs, i);
      ScheduleDone(notes, slots, timeMs);
      SumPrefixStep(slots, i);
      SumPrefixMonotone(slots, i + 1, |slots|);
      assert slots[..|slots|] == slots;
    }
  }

  lemma MulMonotone(k: real, a: real, b: real)
    requires k >= 0.0 && a <= b
    ensures k * a <= k * b
  {
    assert k * b - k * a == k * (b - a);
  }

  lemma SlotsNonNegative(notes: seq<MelodyNote>, beatMs: real)
    requires NoNegativeDurations(notes) && beatMs >= 0.0
    ensures NonNegative(NoteSlots(notes, beatMs))
  {
    forall i | 0 <= i < |notes| ensures beatMs * notes[i].beats >= 0.0 {
      MulMonotone(beatMs, 0.0, notes[i].beats);
    }
  }

  /** With no negative durations and a positive tempo the notes are started in
      time order, and every note has been released before `onDone` runs. */
  lemma MelodyInTimeOrder(m: Melody)
    requires NoNegativeDurations(m.notes)
    requires EffectiveTempo(m.tempo) > 0.0
    ensures NonDecreasingOffsets(PlayMelodyNotes(m).events)
    ensures forall i :: 0 <= i < |m.notes| ==>
      PlayMelodyNotes(m).events[i].offsetMs + 1000.0 * PlayMelodyNotes(m).events[i].seconds < PlayMelodyNotes(m).doneMs
  {
    SlotsNonNegative(m.notes, BeatMs(m));
    ScheduleInTimeOrder(m.notes, NoteSlots(m.notes, BeatMs(m)), 0.0);
  }

  /** `[root, third, fifth]` of `handlePlayMelody`: a minor third above the
      tonic when `tonicQuality === "minor"`, a major third otherwise, and a
      perfect fifth. */
  function TonicTriad(m: Melody): (chord: seq<int>)
    ensures |chord| == 3 && chord[0] == ResolvePitch(m.tonic)
    ensures chord[2] - chord[0] == 7
    ensures chord[1] - chord[0] == (if m.tonicQuality == "minor" then 3 else 4)
    ensures chord[2] - chord[1] == (if m.tonicQuality == "minor" then 4 else 3)
  {
    var root := ResolvePitch(m.tonic);
    var isMinor := m.tonicQuality == "minor";
    [root, root + (if isMinor then 3 else 4), root + 7]
  }

  /** The player's state: `loaded`, `currentMelody`, `isPlaying`, `playCount`. */
  datatype Player = Player(loaded: bool, melody: Option<Melody>, isPlaying: bool, playCount: nat)

  /** The replay button is enabled: `!(!loaded || isPlaying || playCount >= 2)`. */
  predicate ReplayEnabled(p: Player) {
    p.loaded && !p.isPlaying && p.playCount < 2
  }

  datatype PlayOutcome = PlayOutcome(player: Player, scheduled: Option<Play>)

  /** `handlePlayMelody(isAuto)`. A play is refused unless the sampler is
      loaded, a melody is set and nothing is playing. Only a manual play counts
      towards `playCount`. The automatic first play sounds the tonic chord for
      2 s and starts the melody 2100 ms later; a replay is the melody alone. */
  function HandlePlayMelody(p: Player, isAuto: bool): (r: PlayOutcome)
    ensures r.scheduled.Some? <==> p.loaded && p.melody.Some? && !p.isPlaying
    ensures r.scheduled.None? ==> r.player == p
    ensures r.scheduled.Some? ==>
      && r.player == p.(isPlaying := true, playCount := if isAuto then p.playCount else p.playCount + 1)
    ensures r.scheduled.Some? && isAuto ==>
      var melody := PlayMelodyNotes(p.melody.value);
      && r.scheduled.value.events == [Event(0.0, TonicTriad(p.melody.value), 2.0)] + Delay(melody.events, ChordLeadInMs)
      && r.scheduled.value.doneMs == melody.doneMs + ChordLeadInMs
    ensures r.scheduled.Some? && !isAuto ==> r.scheduled.value == PlayMelodyNotes(p.melody.value)
  {
    if !p.loaded || p.melody.None? || p.isPlaying then PlayOutcome(p, None)
    else
      var playing := p.(isPlaying := true);
      var counted := if isAuto then playing else playing.(playCount := playing.playCount + 1);
      var melody := PlayMelodyNotes(p.melody.value);
      if isAuto then
        var chord := Event(0.0, TonicTriad(p.melody.value), 2.0);
        PlayOutcome(counted, Some(Play([chord] + Delay(melody.events, ChordLeadInMs), melody.doneMs + ChordLeadInMs)))
      else
        PlayOutcome(counted, Some(melody))
  }

  /** `onDone`: playback has finished. */
  function FinishPlay(p: Player): (r: Player)
    ensures !r.isPlaying && r.playCount == p.playCount && r.melody == p.melody
  {
    p.(isPlaying := false)
  }

  /** `startTest`: a melody drawn from the preset's list and a fresh replay
      budget; an empty list leaves no melody (`arr[0]` is `undefined`). */
  function StartTest(p: Player, melodies: seq<Melody>, u: real): (r: Player)
    requires IsDraw(u)
    ensures r.playCount == 0 && r.loaded == p.loaded && r.isPlaying == p.isPlaying
    ensures r.melody.Some? <==> |melodies| > 0
    ensures r.melody.Some? ==> r.melody.value in melodies
  {
    var melody := if |melodies| == 0 then None else Some(melodies[Pick(u, |melodies|)]);
    p.(melody := melody, playCount := 0)
  }

  /** A replay pressed only while its button is enabled keeps the replay
      count within the two the page allows, and a third press is impossible. */
  lemma ReplayBudget(p: Player)
    requires ReplayEnabled(p) && p.melody.Some?
    ensures HandlePlayMelody(p, false).player.playCount == p.playCount + 1 <= 2
    ensures HandlePlayMelody(p, false).player.playCount == 2 ==> !ReplayEnabled(FinishPlay(HandlePlayMelody(p, false).player))
  {
  }
}
