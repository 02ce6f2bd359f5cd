# rcm-help, the trainers' logic in Dafny

rcm-help is a browser app for piano students preparing RCM examinations. It offers:

- four ear-training pages: intervals, chords, chord progressions and melody playback;
- a technique-exercise generator;
- a metronome.

This project models the logic behind those pages as pure Dafny functions and methods, and proves properties of that model.

All the audio goes through a sampler (Tone.js) or Web Audio oscillators. Every page fires notes with `setTimeout` offsets, and the metronome re-arms a plain `setInterval`. A play is therefore modelled as the list of calls it schedules: each `Event` holds a delay in milliseconds, the MIDI notes and a duration in seconds. The model does not simulate time passing. Every `Math.random()` call becomes a parameter `u` with `0 <= u < 1`, or a stream of such draws, so each property holds for every run of random outcomes.

Modules, one per page plus shared pieces:

| module | file | what it covers |
|---|---|---|
| `Results` | results.dfy | `Option` / `Result` |
| `Draws` | draws.dfy | random draws; `getRandomFromArray`'s index |
| `JsText` | jstext.dfy | `${int}`, `parseInt(s, 10)`, `String.prototype.includes` |
| `Pitch` | pitch.dfy | `noteNameToMidi` / `midiToNoteName` (the latter is written out in four pages; modelled once) |
| `Playback` | playback.dfy | the scheduled-call record and delays |
| `Quiz` | quiz.dfy | the shared score and check-box lists |
| `MelodyPlayback` | melody.dfy | src/pages/MelodyPlayback.jsx |
| `IntervalTrainer` | intervals.dfy | src/pages/IntervalTest.jsx |
| `ChordTrainer` | chords.dfy | src/pages/ChordTest.jsx |
| `ChordProgression` | chordprg.dfy | src/pages/ChordPrgTest.jsx |
| `Metronome` | metronome.dfy | src/components/Metronome.jsx |
| `Technique` | technique.dfy | src/pages/Technique.jsx |

## Behaviour as written

In these places the model follows the code, not what a reader might expect from the page or from the comments:

- `Pitch.NoteNameToMidi`: the note pattern `^([A-Ga-g])([#b]?)(\d)$` accepts lower-case letters too. `"bb3"` is B-flat 3.
- `Pitch.MidiNameRoundTrip`: the round trip holds for every pitch from C0 (12) to B9 (131), not only up to 119. For every other non-negative pitch the name does not parse at all.
- `Metronome.Toggle`: starting sets the counter to 0 and then clicks at once, and that click moves the counter on. The running metronome therefore starts with the counter at 1.
- `ChordProgression.StartTest`: the mode is settled and stored as `actualMode` before the checks run. A refused start still changes `actualMode`, and an accepted start keeps the running score; nothing resets it.
- `IntervalTrainer.PresetChange`: the "Custom" preset's interval list is empty, so choosing it clears the selection. It leaves the playback orders alone.
- `Metronome.InputBlur`: `handleInputChange` stores `parseInt` of the text, a number, and `handleInputBlur` calls `parseInt` on that number again, which first prints it. From 10^21 the print is exponent form ("1e+21"), which reads back as its leading digit, so a typed tempo from 10^21 up to about 1.8·10^308 commits 40. From 2^1024 − 2^970 (309 digits) the first `parseInt` already gives `Infinity`: `isNaN` lets it through, its print "Infinity" reads as `NaN`, and the old tempo stays.
- `ChordProgression.PresetChange`: the effect on `preset` (ChordPrgTest.jsx:104-117) is folded into the preset change. The RCM levels fix mode and length.

## Model

| member | source | states |
|---|---|---|
| Pitch.NoteNameToMidi | src/pages/MelodyPlayback.jsx:7-17 | a number exactly for a letter A-G or a-g, an optional `#`/`b` and one digit (`null` otherwise); the number is 12·(d+1) plus the upper-cased letter's base, plus 1 for `#` and minus 1 for `b` |
| Pitch.LetterBase | src/pages/MelodyPlayback.jsx:12 | the base of a letter, after upper-casing, is one of the seven natural pitch classes |
| Pitch.NoteNameExamples | src/pages/MelodyPlayback.jsx:7-17 | "A4" is 69, "C#5" is 73, "bb3" is 58; "H4", "C10" and "C#" are rejected |
| Pitch.JsRem | src/pages/MelodyPlayback.jsx:22 | `midi % 12` takes the dividend's sign: Euclidean for non-negative pitches, in (-12, 0] for negative ones |
| Pitch.PitchClassName | src/pages/MelodyPlayback.jsx:21-22 | a non-negative pitch reads its sharp name from the table; the name is never empty |
| Pitch.MidiToNoteName | src/pages/MelodyPlayback.jsx:20-25 | a non-negative pitch is spelled with an upper-case letter and never with a flat |
| Pitch.SharpNamesAreSharpNames | src/pages/MelodyPlayback.jsx:11-16 | every sharp spelling with an octave digit is a valid note name and denotes 12·(d+1)+pc |
| Pitch.MidiNameRoundTrip | src/pages/MelodyPlayback.jsx:7-25 | for m ≥ 0, `noteNameToMidi(midiToNoteName(m))` is m exactly when 12 ≤ m ≤ 131, and `null` otherwise |
| Pitch.SharpNameRoundTrip | src/pages/MelodyPlayback.jsx:7-25 | every name `midiToNoteName` can produce in octaves 0-9 is reproduced from the number it denotes |
| Pitch.OneDigitOctave | src/pages/MelodyPlayback.jsx:20-25 | a pitch from C0 below C10 is spelled as its sharp name and one octave digit |
| Pitch.MidiToNoteNameInjective | src/pages/MelodyPlayback.jsx:20-25 | distinct non-negative pitches get distinct names |
| JsText.IntToString | src/pages/MelodyPlayback.jsx:23-24 | the octave is printed with a leading minus sign exactly when it is negative, otherwise starting with a digit |
| JsText.NatToString | src/pages/MelodyPlayback.jsx:24 | a natural number prints as digits, one digit exactly below 10 |
| JsText.DigitsValueOfNatToString | src/pages/MelodyPlayback.jsx:24 | the digits printed for n denote n |
| JsText.ParseIntOfIntToString | src/components/Metronome.jsx:51 | `parseInt` reads back every integer printed in plain decimal, as an exact integer (the page's double agrees below 2^53; see Left out) |
| JsText.ParseInt | src/components/Metronome.jsx:51 | a number exactly when, after leading white space, a digit follows an optional sign; negative only after a `-` |
| JsText.ParseIntIgnoresTrailing | src/components/Metronome.jsx:51 | `parseInt` of an integer followed by a non-digit is that integer ("120.5" or "1e3", which a number field can deliver, read 120 and 1) |
| JsText.ContainsAt | src/pages/Technique.jsx:79 | `includes` holds exactly when the substring starts at some position |
| Draws.Pick | src/pages/MelodyPlayback.jsx:27-29 | `Math.floor(Math.random() * n)` is an index into the array |
| Draws.PickReachesEveryIndex | src/pages/MelodyPlayback.jsx:27-29 | every index of the array can be drawn |
| Playback.Delay | src/pages/MelodyPlayback.jsx:110-112 | an enclosing timeout shifts every call by its delay and changes nothing else |
| Quiz.RecordGuess | src/pages/IntervalTest.jsx:192-202 | a guess raises the total by one, and the correct count by one exactly when it is right; correct ≤ total is kept |
| Quiz.ScoreCountsGuesses | src/pages/IntervalTest.jsx:185-202 | after the reset, total is the number of guesses and correct the number of right ones |
| Quiz.Without | src/pages/IntervalTest.jsx:152 | filtering removes the item and keeps every other member |
| Quiz.Toggle | src/pages/IntervalTest.jsx:150-154 | a click flips membership of the clicked item only |
| Quiz.WithoutKeepsDistinct | src/pages/IntervalTest.jsx:152 | filtering a list without repeats leaves no repeats |
| Quiz.ToggleKeepsDistinct | src/pages/IntervalTest.jsx:150-154 | a check-box list never lists an item twice, however it is clicked |
| Quiz.ToggleTwice | src/pages/IntervalTest.jsx:150-154 | clicking one box twice restores the ticked set |
| Quiz.FindPreset | src/pages/IntervalTest.jsx:135 | `PRESETS.find` by label finds a preset exactly when one has the label; the one found is the first in the list with that label |
| MelodyPlayback.ResolvePitch | src/pages/MelodyPlayback.jsx:127 | a number is used as it is; a valid name gives a pitch in 11..132; a name the pattern rejects gives 0 |
| MelodyPlayback.SpellingsAgree | src/pages/MelodyPlayback.jsx:7-25 | a pitch from C0 to B9 sounds the same written as a number or as its name |
| MelodyPlayback.EffectiveTempo | src/pages/MelodyPlayback.jsx:122 | `tempo \|\| 100` is never zero |
| MelodyPlayback.BeatMs | src/pages/MelodyPlayback.jsx:123 | a positive tempo gives a positive beat length |
| MelodyPlayback.NoteSlots | src/pages/MelodyPlayback.jsx:132 | note i occupies beat length × its duration |
| MelodyPlayback.Schedule | src/pages/MelodyPlayback.jsx:125-135 | the `forEach` schedules exactly one call per note |
| MelodyPlayback.ScheduleEvent | src/pages/MelodyPlayback.jsx:125-133 | note i is scheduled once the slots of all earlier notes have elapsed, for 90% of its slot |
| MelodyPlayback.ScheduleDone | src/pages/MelodyPlayback.jsx:132-135 | `onDone` waits for all slots plus 100 ms |
| MelodyPlayback.SumOfSlots | src/pages/MelodyPlayback.jsx:123-132 | the slots add up to beat length × total duration |
| MelodyPlayback.SlotsBefore | src/pages/MelodyPlayback.jsx:125-132 | the slots before note i add up to beat length × the durations before it |
| MelodyPlayback.TimelineAt | src/pages/MelodyPlayback.jsx:126-132 | note i is its resolved pitch at beat length × Σ earlier durations, sounding 0.9 of its slot |
| MelodyPlayback.PlayMelodyNotes | src/pages/MelodyPlayback.jsx:120-136 | one call per note, and `onDone` after beat length × the total duration plus 100 ms |
| MelodyPlayback.MelodyTimeline | src/pages/MelodyPlayback.jsx:120-136 | one call per note in melody order, at prefix-sum onsets and 90% durations; `onDone` after the total length + 100 ms |
| MelodyPlayback.ScheduleInTimeOrder | src/pages/MelodyPlayback.jsx:125-135 | with non-negative slots, onsets never decrease and every note ends before `onDone` |
| MelodyPlayback.SlotsNonNegative | src/pages/MelodyPlayback.jsx:132 | non-negative durations at a positive tempo give non-negative slots |
| MelodyPlayback.MelodyInTimeOrder | src/pages/MelodyPlayback.jsx:120-136 | with non-negative durations and a positive tempo, notes start in time order and end before `onDone` |
| MelodyPlayback.TonicTriad | src/pages/MelodyPlayback.jsx:97-107 | the chord is root, a minor or major third above, and a fifth above |
| MelodyPlayback.HandlePlayMelody | src/pages/MelodyPlayback.jsx:84-117 | a play happens exactly when loaded, a melody is set and nothing plays; only manual plays count; the automatic one sounds the triad for 2 s and the melody 2100 ms later |
| MelodyPlayback.FinishPlay | src/pages/MelodyPlayback.jsx:111 | `onDone` ends playing and keeps the count and melody |
| MelodyPlayback.StartTest | src/pages/MelodyPlayback.jsx:75-81 | a melody from the preset's list (none from an empty list) and a fresh replay count |
| MelodyPlayback.ReplayBudget | src/pages/MelodyPlayback.jsx:195-197 | a replay while the button is enabled raises the count by one to at most 2, after which the button is disabled |
| IntervalTrainer.AtMost | src/pages/IntervalTest.jsx:49 | the filter keeps exactly the intervals within the bound |
| IntervalTrainer.Names | src/pages/IntervalTest.jsx:45 | `map(i => i.name)` lists the names in table order, one per interval |
| IntervalTrainer.Chosen | src/pages/IntervalTest.jsx:178 | the available intervals are exactly the table's selected ones |
| IntervalTrainer.IntervalTableIsChromatic | src/pages/IntervalTest.jsx:21-36 | the table lists semitones 1 to 14, strictly increasing |
| IntervalTrainer.TableSemitones | src/pages/IntervalTest.jsx:21-36 | every table interval spans 1 to 14 semitones |
| IntervalTrainer.PresetsFromTable | src/pages/IntervalTest.jsx:38-51 | "RCM 10" is every name of the table; "RCM 9" is the names up to 12 semitones, the first twelve |
| IntervalTrainer.AllNamesFromTable | src/pages/IntervalTest.jsx:45 | the "RCM 10" list is the table's names in order |
| IntervalTrainer.InitialSelectionFromTable | src/pages/IntervalTest.jsx:96 | the page opens with the table's first seven names ticked, minor 2nd to perfect 5th, and all seven are among the intervals the first question draws from |
| IntervalTrainer.AtMostOfChromatic | src/pages/IntervalTest.jsx:49 | filtering the table at n semitones keeps its first n entries |
| IntervalTrainer.RootCandidates | src/pages/IntervalTest.jsx:71-80 | the candidates are exactly the m in [48, 84] with m + semitones in [48, 84], increasing, 37 - \|semitones\| of them |
| IntervalTrainer.RandomRoot | src/pages/IntervalTest.jsx:71-83 | a root exists exactly for intervals of at most 36 semitones up or down, and then both notes lie in [48, 84] |
| IntervalTrainer.DrawQuestion | src/pages/IntervalTest.jsx:178-183 | a question exists exactly when a selected interval is in the table and some order is ticked; it uses a selected interval, an in-range root and a ticked order |
| IntervalTrainer.StartTest | src/pages/IntervalTest.jsx:169-189 | refused with no interval ticked, else with no order ticked, else when no ticked name is in the table; otherwise a first ticked question, the score reset to 0/0 and the answer hidden |
| IntervalTrainer.NextInterval | src/pages/IntervalTest.jsx:205-215 | a new question with the score kept |
| IntervalTrainer.HandleGuess | src/pages/IntervalTest.jsx:192-202 | every guess counts; the right name also counts as correct and reveals the answer |
| IntervalTrainer.GuessesKeepScoreValid | src/pages/IntervalTest.jsx:192-202 | a guess keeps correct ≤ total and raises the total by one |
| IntervalTrainer.PlayInterval | src/pages/IntervalTest.jsx:218-251 | nothing before loading; ascending is lower then higher at +1000 ms; descending the reverse; together both for 1.5 s |
| IntervalTrainer.PendingAfterPlay | src/pages/IntervalTest.jsx:218-251 | before loading the call returns first and the earlier timeout stays pending; otherwise it is cleared, and what is pending is the play's calls made after a delay, at most one |
| IntervalTrainer.PlayOrdersAgree | src/pages/IntervalTest.jsx:231-250 | every order sounds exactly the two notes of the interval, in time order |
| IntervalTrainer.DescendingReversesAscending | src/pages/IntervalTest.jsx:236-247 | descending is ascending reversed, and ascending rises by the interval |
| IntervalTrainer.IntervalChange | src/pages/IntervalTest.jsx:149-156 | one interval flips, the others and the orders stay, the preset becomes "Custom" |
| IntervalTrainer.ModeChange | src/pages/IntervalTest.jsx:159-166 | one order flips, the others and the intervals stay, the preset becomes "Custom" |
| IntervalTrainer.PresetChange | src/pages/IntervalTest.jsx:132-146 | the preset's list replaces the selection; the RCM presets tick every order, "Custom" keeps the orders and clears the intervals |
| ChordTrainer.MaxInterval | src/pages/ChordTest.jsx:27 | `Math.max` is an element no smaller than any other |
| ChordTrainer.RootCandidates | src/pages/ChordTest.jsx:28-31 | the candidates are exactly the sampled m in [48, 84 - max interval], increasing |
| ChordTrainer.RandomRoot | src/pages/ChordTest.jsx:24-37 | C4 when no candidate exists; otherwise a sampled candidate with the top chord note ≤ 84 |
| ChordTrainer.SomeRootFits | src/pages/ChordTest.jsx:24-35 | a chord spanning at most three octaves always has a candidate root |
| ChordTrainer.SampleKeyAt | src/data/soundSampleMap.js:1-15 | the k-th sample key names pitch 48 + 3k |
| ChordTrainer.SampledPitchClasses | src/data/soundSampleMap.js:1-15 | within C3..C6, a pitch is sampled exactly when it is a multiple of three (C, D#, F#, A) |
| ChordTrainer.ChordNotes | src/pages/ChordTest.jsx:181 | note k is the root plus interval k, in table order |
| ChordTrainer.Reverse | src/pages/ChordTest.jsx:200 | the reversed list reads the notes from the top |
| ChordTrainer.Arpeggio | src/pages/ChordTest.jsx:190-196 | note k at k·1000 ms for 1.1 s |
| ChordTrainer.PlayChord | src/pages/ChordTest.jsx:165-208 | nothing before loading (pending timeouts kept); block plays all notes for 1.5 s; up and down arpeggiate; at most one pending timeout per note |
| ChordTrainer.ArpeggioNotes | src/pages/ChordTest.jsx:189-197 | an arpeggio sounds each note once, in list order |
| ChordTrainer.ArpeggiosPlayTheChord | src/pages/ChordTest.jsx:187-207 | up sounds the chord in table order, down in reverse, both in time order |
| ChordTrainer.Chosen | src/pages/ChordTest.jsx:125 | the available chords are exactly the table's selected ones |
| ChordTrainer.DrawQuestion | src/pages/ChordTest.jsx:125-130 | a question exists exactly when a selected chord is in the table and an order is ticked; the root keeps the chord within C6 or is the fallback |
| ChordTrainer.StartTest | src/pages/ChordTest.jsx:116-136 | refused with no chord ticked, else with no order ticked, else when no ticked name is in the table; otherwise a first ticked question, the score reset and the answer hidden |
| ChordTrainer.NextChord | src/pages/ChordTest.jsx:152-162 | a new question with the score kept |
| ChordTrainer.HandleGuess | src/pages/ChordTest.jsx:139-149 | every guess counts; the right name also counts as correct and reveals the answer |
| ChordTrainer.GuessKeepsScoreValid | src/pages/ChordTest.jsx:139-149 | a guess keeps correct ≤ total and raises the total by one |
| ChordTrainer.ChordChange | src/pages/ChordTest.jsx:96-103 | one chord flips, the preset becomes "Custom" |
| ChordTrainer.ModeChange | src/pages/ChordTest.jsx:106-113 | one order flips, the preset becomes "Custom" |
| ChordTrainer.PresetChange | src/pages/ChordTest.jsx:82-93 | the preset's chords replace the selection; any preset but "Custom" leaves only "block" ticked, "Custom" keeps the orders |
| ChordProgression.PresetProgressions | src/data/chordPrgTestData.js:17-46 | the hard-coded progressions of a preset are never an empty list |
| ChordProgression.PresetsNonEmpty | src/data/chordPrgTestData.js:17-45 | every hard-coded progression has at least three chords |
| ChordProgression.Selectable | src/pages/ChordPrgTest.jsx:26-28 | the kept progressions are exactly those whose chords are all ticked |
| ChordProgression.Available | src/pages/ChordPrgTest.jsx:41 | the middle-chord list is the ticked chords minus tonic and cadential 6/4 |
| ChordProgression.Pool | src/pages/ChordPrgTest.jsx:49 | the middle chords are drawn from ticked chords only, and there is always one to draw when any chord is ticked |
| ChordProgression.Fill | src/pages/ChordPrgTest.jsx:59-61 | a loop pushes max(count, 0) draws from the pool |
| ChordProgression.GenerateProgression | src/pages/ChordPrgTest.jsx:22-64 | a preset's progression is one of its own, all ticked when any such exists; otherwise the length asked for (at least 1), starting on the tonic |
| ChordProgression.RandomProgression | src/pages/ChordPrgTest.jsx:37-63 | the random branch has the requested length and opens on the tonic |
| ChordProgression.RandomProgressionWellShaped | src/pages/ChordPrgTest.jsx:38-63 | tonic, pool chords, then `[cad64, V]` or (from four chords) `[cad64, V, tonic]` when the 6/4 is ticked and length ≥ 3 |
| ChordProgression.WellShapedIsReachable | src/pages/ChordPrgTest.jsx:43-63 | conversely, every progression of that shape comes out of some run of draws |
| ChordProgression.RandomRootMidi | src/pages/ChordPrgTest.jsx:17-20 | the root lies in [48, 71] |
| ChordProgression.EveryRootReachable | src/pages/ChordPrgTest.jsx:17-20 | every root in [48, 71] can be drawn |
| ChordProgression.FindChord | src/pages/ChordPrgTest.jsx:192 | `find` returns an entry with the value, or none exists |
| ChordProgression.FindFirst | src/pages/ChordPrgTest.jsx:192 | `find` returns the first entry with the value |
| ChordProgression.Transpose | src/pages/ChordPrgTest.jsx:210 | note k is root + offset k |
| ChordProgression.Voicing | src/pages/ChordPrgTest.jsx:191-211 | 6/4 is [r-5, r, r+4 or r+3, r+7]; V is [r-5, r-1, r+2, r+7]; others are the table notes over r, absent when the mode's table lacks the chord |
| ChordProgression.VoicingMatchesTable | src/pages/ChordPrgTest.jsx:194-211 | every table chord is voiced; the 6/4 and V voicings are their table notes an octave down |
| ChordProgression.Blank | src/pages/ChordPrgTest.jsx:176-177 | the answer sheet has one empty slot per chord |
| ChordProgression.SettleMode | src/pages/ChordPrgTest.jsx:146-152 | a fixed mode is kept; "random" gives major exactly when the coin is below 0.5 |
| ChordProgression.Refusal | src/pages/ChordPrgTest.jsx:153-165 | the three refusals, in order: tonic missing, fewer than two chords, length below two |
| ChordProgression.Begin | src/pages/ChordPrgTest.jsx:166-182 | an accepted start has a root in [48, 71], a blank answer sheet, the score kept and, without presets, the requested length opening on the tonic |
| ChordProgression.StartTest | src/pages/ChordPrgTest.jsx:145-183 | the mode is settled; each refusal exactly when its check fails, changing nothing but the mode; otherwise a fresh round |
| ChordProgression.HandleGuess | src/pages/ChordPrgTest.jsx:234-266 | a wrong guess marks a mistake; a right last guess completes and scores the round: total + 1, correct + 1 only without a mistake |
| ChordProgression.NextChord | src/pages/ChordPrgTest.jsx:269-276 | the index advances while a chord remains, the score kept |
| ChordProgression.NextChordPlay | src/pages/ChordPrgTest.jsx:269-275 | the next chord's voicing sounds 200 ms later for one second, exactly when there is a next chord and it has a voicing |
| ChordProgression.PerfectRoundScores | src/pages/ChordPrgTest.jsx:234-276 | naming every chord right scores one out of one |
| ChordProgression.MistakeForfeitsPoint | src/pages/ChordPrgTest.jsx:234-276 | after a mistake the round counts towards the total only |
| ChordProgression.Voicings | src/pages/ChordPrgTest.jsx:220-222 | each chord of the progression is voiced over the one root |
| ChordProgression.Sounding | src/pages/ChordPrgTest.jsx:218-226 | one call per chord while every chord is voiced, never more |
| ChordProgression.ProgressionPlayback | src/pages/ChordPrgTest.jsx:216-231 | a playback never makes more calls than the progression has chords |
| ChordProgression.SoundingEvent | src/pages/ChordPrgTest.jsx:220-224 | the k-th call sounds chord k at k·1100 ms for one second |
| ChordProgression.PlaybackInOrder | src/pages/ChordPrgTest.jsx:216-231 | a progression of known chords plays every chord, 1100 ms apart, in time order |
| ChordProgression.ClampLength | src/pages/ChordPrgTest.jsx:385 | the typed length is brought into [2, 5] |
| ChordProgression.ChordChange | src/pages/ChordPrgTest.jsx:131-142 | one chord of one mode flips, the other mode is untouched, the preset becomes "Custom" |
| ChordProgression.PresetChange | src/pages/ChordPrgTest.jsx:104-128 | the preset's chords are ticked; level 5 fixes major and 3, levels 6-8 random and 4, levels 9-10 random and 5 |
| ChordProgression.LengthChange | src/pages/ChordPrgTest.jsx:384-387 | editing the length sets the clamped length and switches to "Custom", keeping chords and mode |
| ChordProgression.LengthChangeDrawsRandomly | src/pages/ChordPrgTest.jsx:384-387 | after a length edit no level's hard-coded list applies: the next progression is random, of the clamped length, opening on the tonic |
| ChordProgression.SelectMode | src/pages/ChordPrgTest.jsx:316-319 | choosing a mode switches to "Custom" and keeps chords and length |
| Metronome.Round | src/components/Metronome.jsx:7 | `Math.round` is the nearest integer, halves rounding up |
| Metronome.Turns | src/components/Metronome.jsx:8 | `%` removes whole turns rounded towards zero |
| Metronome.Mod360 | src/components/Metronome.jsx:8 | `angle % 360` lies in [0, 360) for non-negative angles, keeps the sign otherwise, differs by whole turns |
| Metronome.AngleToBpm | src/components/Metronome.jsx:6-10 | a non-negative angle gives a tempo in [40, 200] |
| Metronome.BpmToAngle | src/components/Metronome.jsx:12-14 | the angle is (bpm - 40)·9/4 degrees |
| Metronome.KnobScale | src/components/Metronome.jsx:12-14 | 40 maps to 0°, 200 to 360°, strictly increasing and linear |
| Metronome.AngleRoundTrip | src/components/Metronome.jsx:6-14 | every integer tempo 40..199 comes back from its angle |
| Metronome.FullTurnWraps | src/components/Metronome.jsx:6-14 | 200 comes back as 40, a full turn being no turn |
| Metronome.PointerBpm | src/components/Metronome.jsx:39-41 | a pointer angle from `atan2` gives a tempo in [40, 200] |
| Metronome.Clamp | src/components/Metronome.jsx:59-60 | the typed tempo is brought into [40, 200] |
| Metronome.DoubleClick | src/components/Metronome.jsx:44-48 | editing starts from the current tempo |
| Metronome.InputChange | src/components/Metronome.jsx:50-54 | typing does not end editing |
| Metronome.Reread | src/components/Metronome.jsx:57 | `parseInt` of the stored number gives it back below 10^21 in size, from there only its leading digit with its sign, and `NaN` exactly for the overflowed `±Infinity` from 2^1024 − 2^970 |
| Metronome.InputBlur | src/components/Metronome.jsx:56-63 | committing re-reads the stored number: below 10^21 in size it is clamped, from 10^21 short of overflow it reads as one digit and commits 40; an overflowed number or nothing readable keeps the old tempo (clamped); editing ends |
| Metronome.KeyDown | src/components/Metronome.jsx:65-72 | Enter commits, Escape ends editing with the tempo unchanged, other keys do nothing |
| Metronome.Sync | src/components/Metronome.jsx:74-76 | outside editing the field follows the tempo |
| Metronome.TypedTempoLands | src/components/Metronome.jsx:50-72 | Enter always lands in [40, 200]; unreadable input keeps the tempo; Escape keeps it |
| Metronome.TypedNumberCommits | src/components/Metronome.jsx:50-67 | typing an integer, possibly followed by non-digits, then Enter sets the clamped integer when it is below 10^21 in size, 40 from there short of overflow, and the old tempo from 2^1024 − 2^970 |
| Metronome.Mount | src/components/Metronome.jsx:136-141 | the metronome starts stopped at the given tempo, counter 0, no context, no timer |
| Metronome.PeriodMs | src/components/Metronome.jsx:168 | the click period is 60000/bpm ms, 300 to 1500 ms in range |
| Metronome.Pitch | src/components/Metronome.jsx:154 | 1000 Hz exactly on beat 0, 800 Hz otherwise |
| Metronome.Tick | src/components/Metronome.jsx:147-159 | a click needs a context; it sounds the current beat's pitch and advances the counter modulo 4 |
| Metronome.TickAsWritten | src/components/Metronome.jsx:147-168 | the interval's click reads the counter captured when the timer was armed |
| Metronome.Clicks | src/components/Metronome.jsx:168 | n interval firings sound n clicks |
| Metronome.EveryFourthAccented | src/components/Metronome.jsx:154-158 | reading the current counter, click k is accented exactly when beat + k ≡ 0 (mod 4) |
| Metronome.AsWrittenNeverChanges | src/components/Metronome.jsx:154-168 | as written every interval click has the captured beat's pitch |
| Metronome.AccentDiscrepancy | src/components/Metronome.jsx:161-176 | after starting, four clicks are 1000 Hz four times as written, and 800, 800, 800, 1000 Hz as intended |
| Metronome.Toggle | src/components/Metronome.jsx:161-176 | a context is created when none is open; starting clicks at once and arms the timer at the tempo; stopping clears it and resets the counter |
| Metronome.SetBpm | src/components/Metronome.jsx:187-193 | a new tempo while playing re-arms the timer at it and resets the counter; otherwise only the tempo changes |
| Metronome.Unmount | src/components/Metronome.jsx:178-185 | the timer is cleared and an existing context closed |
| Metronome.StepsKeepValid | src/components/Metronome.jsx:147-193 | counter in 0..3, a timer exactly while playing, over an open context, after every step |
| Metronome.ToggleTwice | src/components/Metronome.jsx:161-176 | start then stop returns to rest with the counter at 0 |
| Technique.AllSpellingsFlatten | src/pages/Technique.jsx:33-44 | "Random" offers the table's eight spellings in order |
| Technique.SpellingsOf | src/pages/Technique.jsx:44 | a root's spellings are found exactly when the table lists it |
| Technique.Candidates | src/pages/Technique.jsx:44 | "Random" gives every spelling, a known root its spellings, an unknown root itself |
| Technique.FlatMapKeys | src/pages/Technique.jsx:47-68 | the keys are exactly those of some candidate, `KeysPerRoot` per candidate |
| Technique.PossibleKeys | src/pages/Technique.jsx:43-71 | candidates × 1, 2, 2 or 4 keys, each the key of a candidate |
| Technique.KeysFor | src/pages/Technique.jsx:47-68 | `KeysPerRoot` keys, each the root followed by a space; major exactly outside "Minor"; natural minor for "Minor" outside scales and for "Random"; harmonic and melodic minor exactly for scales outside "Major" |
| Technique.KeyShapes | src/pages/Technique.jsx:47-68 | the key names per mode: major; harmonic and melodic minor for scales; minor; all of these under "Random" |
| Technique.RandomRootOffersEverySpelling | src/pages/Technique.jsx:44-68 | with a random root every key of every spelling is offered, for any mode and type |
| Technique.ArpeggioInversion | src/pages/Technique.jsx:73-86 | root position when asked; otherwise one of four inversions for names containing "7th", else of three |
| Technique.ArpeggioNames | src/pages/Technique.jsx:26-29 | the two seventh arpeggios contain "7th", the tonic does not |
| Technique.EveryInversionReachable | src/pages/Technique.jsx:79-85 | every inversion of the list can be drawn |
| Technique.Lookup | src/pages/Technique.jsx:116 | a type's entries are found exactly when the catalogue has the type |
| Technique.Kinds | src/pages/Technique.jsx:108 | `Object.keys` lists the catalogue's types in order |
| Technique.Lower | src/pages/Technique.jsx:119 | `toLowerCase` lowers exactly the ASCII capitals |
| Technique.WithStyle | src/pages/Technique.jsx:119 | the kept entries are exactly those of the style |
| Technique.KeysAmong | src/pages/Technique.jsx:138 | the kept keys are exactly the entry's allowed ones |
| Technique.Matching | src/pages/Technique.jsx:131-133 | the kept entries are exactly those with some allowed key |
| Technique.Eligible | src/pages/Technique.jsx:116-120 | chords with a chosen style keep only that lowercased style; otherwise every entry |
| Technique.DrawFree | src/pages/Technique.jsx:126-128 | an unconstrained pass takes any entry and one of its keys |
| Technique.DrawAllowed | src/pages/Technique.jsx:129-140 | a constrained pass draws nothing exactly when no eligible entry has an allowed key; otherwise an entry with allowed keys and one of those keys |
| Technique.DrawKind | src/pages/Technique.jsx:108-115 | the type is the chosen one, or one of the catalogue's under "Random" |
| Technique.Pass | src/pages/Technique.jsx:114-157 | an exercise made by a pass is allowed by the settings; a pass throws exactly when no type is drawn, the type is not in the catalogue, or an unconstrained pass has no eligible entry; it skips exactly when a constrained pass finds no eligible entry with an allowed key |
| Technique.PassNeverThrows | src/pages/Technique.jsx:108-140 | a pass cannot throw when the chosen type (or, under "Random", every type) is in the catalogue with an eligible entry where one is needed |
| Technique.HandleSubmit | src/pages/Technique.jsx:106-165 | at most 1000 passes and `count` exercises, each allowed; the warning exactly when fewer were made; unconstrained settings make exactly `count` up to 1000; a catalogue where no pass can throw always gives exercises, and an error means some pass threw; a shortfall is warned only after all 1000 passes; when no pass can skip, exactly `count` exercises up to 1000 (none for a negative count) |
| Technique.PassNeverSkips | src/pages/Technique.jsx:114-135 | a pass cannot skip when every type it can draw has an eligible entry listing an allowed key, or nothing constrains the draw |
| Technique.OnePass | src/pages/Technique.jsx:114-157 | a made exercise is allowed; only a constrained pass without a match skips; a throw needs a catalogue where some pass can throw |
| Technique.Capped | src/pages/Technique.jsx:111-113 | the number of exercises the loop can make for a count: none for a negative count, the count up to 1000, 1000 above |
| Technique.Level10Groups | src/pages/Technique.jsx:4-31 | the level-10 catalogue has the types Scales, Chords and Arpeggios in order, each found with its entries |
| Technique.SpellingOffered | src/pages/Technique.jsx:33-44 | every root the form offers has among its candidates a spelling the catalogue lists keys for |
| Technique.SpellingsOfFirst | src/pages/Technique.jsx:44 | `enharmonics[root]` of a root listed once yields that entry's spellings |
| Technique.MajorListed | src/pages/Technique.jsx:6 | the catalogue lists the major key of every flat spelling of the form's roots |
| Technique.MinorListed | src/pages/Technique.jsx:19 | the catalogue lists the minor key of every sharp spelling of the form's roots |
| Technique.HarmonicListed | src/pages/Technique.jsx:6-12 | the four-octave scale lists the harmonic minor of every minor key of the form's roots |
| Technique.WitnessEligible | src/pages/Technique.jsx:116-120 | for every chord style of the form, the four-octave scale, the tonic chord of that style and the tonic arpeggio stay drawable |
| Technique.Level10FindsMatch | src/pages/Technique.jsx:129-135 | under every form setting, a constrained pass of any level-10 type finds an entry with an allowed key |
| Technique.Level10Safe | src/pages/Technique.jsx:106-157 | every setting the form's menus offer neither throws nor skips on the level-10 catalogue |
| Technique.Submit | src/pages/Technique.jsx:106-165 | on the page's own catalogue every form setting gives exercises: exactly `count` up to 1000 (none for a negative or unreadable count), each allowed, with the warning exactly for a count above 1000 |

## Left out

- Rendering, routing and the pages without logic (main.jsx, Navbar.jsx, Home.jsx, EarTraining.jsx, SightReading.jsx, MetronomePage.jsx). They are pure UI.
- The sampler and the audio context: `Tone.start`, `releaseAll`, `triggerAttackRelease` and oscillators are external. Only the notes, delays and durations passed to them are modelled.
- Timers firing and `await` interleaving: they belong to the host. Schedules are data; the metronome's timer is a record of the tempo it was armed at.
- The knob's pointer geometry (`getBoundingClientRect`, `atan2`, `sin`, `cos`): floating-point trigonometry. `Metronome.PointerBpm` takes the angle `atan2` produced.
- Floating point in general: times, angles and durations are exact rationals.
- The curriculum tables of chordTestData.js and melodyPlaybackData.js: the chord table, the chord presets and the melody list are parameters. The interval table, the progression tables, the sample-map keys and the technique page's inline level-10 catalogue (`Technique.Level10`) are constants, because properties rest on them. `Technique.HandleSubmit` takes any catalogue; `Technique.Submit` runs it on `Technique.Level10`. src/data/techniqueData.js is imported by no page and is not part of this model.
- `ChordTrainer.RandomRoot`: requires a chord with at least one interval. `Math.max()` of nothing is `-Infinity`, and the page's root loop would then never end.
- `ChordTrainer.PlayChord`: the `null` root alert and the `"NaN"` note alert are left out. Every modelled root is an integer, so neither can fire.
- `IntervalTrainer.RandomRoot`: an interval wider than the range yields no root (`None`) where the page would carry `undefined` on. The table never holds one.
- `MelodyPlayback.ResolvePitch`: a name the pattern rejects gives `null`, which JavaScript arithmetic treats as 0. The model resolves it to 0 and does not track `NaN`.
- `ChordProgression.ProgressionPlayback`: the cancellation flag of the playback effect is left out (a React closure). The model stops at the first chord without a voicing, where the page would throw.
- `ChordProgression.HandleGuess`: `idx` is a parameter; the page passes the current guess index.
- The `restart` and `nextProgression` buttons of the progression page, and the setup toggles of the melody page. They only show a screen or call `startTest` again.
- `Metronome.InputChange`: its contract states only that typing keeps the editor open. What the field then holds is stated by `Metronome.TypedNumberCommits`, for every integer followed by a non-digit.
- `Metronome.Tick`: the corrected click; the model's main path reads the counter's current value. The captured-closure reading is kept as `Metronome.TickAsWritten` (see Findings).
- `ChordProgression.ClampLength`: takes an integer. The page clamps `Number(value)`, which keeps a fraction: a typed 2.5 passes the `< 2` check and the loops of ChordPrgTest.jsx:47-60 then build ⌈2.5⌉ = 3 chords. Fractional lengths are not modelled.
- `JsText.IntToString`: prints every integer in plain decimal. JavaScript switches to exponent form from 10^21 in size; the pages print only octaves and counts this way.
- `Metronome.InputBlur`: the field's number is an exact integer. In the page it is a double, so an integer just below 10^21 (twenty-one nines) rounds to 1e21 and commits 40, where the model clamps it to 200. Likewise a number just below the overflow bound may round up to `Infinity` and keep the old tempo.
- `JsText.ParseInt`: returns the exact integer. JavaScript's `parseInt` returns the nearest double: above 2^53 it rounds ("9007199254740993" reads as 9007199254740992), engines may zero the digits after the twentieth, and from 2^1024 − 2^970 the result is `Infinity`. The overflow is modelled where the metronome stores the number (`Metronome.Reread`); the rounding changes no committed tempo, since every number that large clamps to 40 or 200, except near the bounds named under `Metronome.InputBlur`.
- `Metronome.TypedNumberCommits`: `text` is what the field hands to `onChange`. The field is `type="number"` (Metronome.jsx:99), so a browser delivers "" for text such as "120bpm", which keeps the tempo (`Metronome.TypedTempoLands`); trailing characters only arrive in what a number field accepts, such as "120.5" or "1e3". Which strings a browser accepts as a number is not modelled.
- `IntervalTrainer.StartTest`: a selection that names no interval of the table returns `Err(NoKnownInterval)`. The page has no such check and throws a TypeError reading `undefined.semitones` (IntervalTest.jsx:178-180); the model reports that case as an error value instead.
- `ChordTrainer.StartTest`: a selection that names no chord of the table returns `Err(NoKnownChord)`. The page throws a TypeError reading `chord.intervals` with `chord` undefined (ChordTest.jsx:125-127 and 27); the model reports that case as an error value instead.
- `Technique.HandleSubmit`: a count field `parseInt` cannot read (`NaN`) is `None` and makes no exercise. A pass that throws (an empty type list or an empty entry list) ends the submission as `Err`; on the level-10 catalogue no setting of the form throws (`Technique.Submit`). The effect that hides the metronome afterwards is UI.

## Findings

| source | as written | input that shows it | evidently intended | confidence | as-written member | corrected member |
|---|---|---|---|---|---|---|
| src/components/Metronome.jsx:154-168 | the interval runs the `playClick` created when it was armed, whose `currentBeat` is the value at that render; every interval click reads the same beat | start from rest at any tempo: the immediate click is 1000 Hz, then the interval clicks are 1000, 1000, 1000, 1000 Hz | an accent on every fourth click: 800, 800, 800, 1000 Hz after the first | not executed | Metronome.AsWrittenNeverChanges | Metronome.EveryFourthAccented |
