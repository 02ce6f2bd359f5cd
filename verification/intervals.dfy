/** The interval trainer (`src/pages/IntervalTest.jsx`): two notes a chosen
    number of semitones apart, played upwards, downwards or together, and a
    running score of the player's answers. */
module IntervalTrainer {
  import opened Results
  import opened Draws
  import opened Quiz
  import opened Playback

  datatype Interval = Interval(name: string, semitones: int)

  /** The page's interval table. */
  const Intervals: seq<Interval> := [
    Interval("Minor 2nd", 1),
    Interval("Major 2nd", 2),
    Interval("Minor 3rd", 3),
    Interval("Major 3rd", 4),
    Interval("Perfect 4th", 5),
    Interval("Tritone", 6),
    Interval("Perfect 5th", 7),
    Interval("Minor 6th", 8),
    Interval("Major 6th", 9),
    Interval("Minor 7th", 10),
    Interval("Major 7th", 11),
    Interval("Perfect 8th", 12),
    Interval("Minor 9th", 13),
    Interval("Major 9th", 14)
  ]

  /** The lowest and highest pitch the trainer plays: C3 and C6. */
  const MinMidi: int := 48
  const MaxMidi: int := 84

  /** `list.map(i => i.name)`. */
  function Names(list: seq<Interval>): (r: seq<string>)
    ensures |r| == |list|
    ensures forall k :: 0 <= k < |list| ==> r[k] == list[k].name
  {
    seq(|list|, k requires 0 <= k < |list| => list[k].name)
  }

  /** `list.filter(i => i.semitones <= max)`, in table order. */
  function AtMost(list: seq<Interval>, max: int): (r: seq<Interval>)
    ensures forall i :: i in r <==> i in list && i.semitones <= max
    ensures |r| <= |list|
  {
    if list == [] then []
    else (if list[0].semitones <= max then [list[0]] else []) + AtMost(list[1..], max)
  }

  /** `intervals.filter(i => selected.includes(i.name))`, in table order. */
  function Chosen(list: seq<Interval>, selected: seq<string>): (r: seq<Interval>)
    ensures forall i :: i in r <==> i in list && i.name in selected
  {
    if list == [] then []
    else (if list[0].name in selected then [list[0]] else []) + Chosen(list[1..], selected)
  }

  /** The table lists one interval per semitone count from 1 to 14, in order. */
  lemma IntervalTableIsChromatic()
    ensures |Intervals| == 14
    ensures forall k :: 0 <= k < |Intervals| ==> Intervals[k].semitones == k + 1
    ensures forall j, k :: 0 <= j < k < |Intervals| ==> Intervals[j].semitones < Intervals[k].semitones
  {
  }

  lemma TableSemitones(i: Interval)
    requires i in Intervals
    ensures 1 <= i.semitones <= 14
  {
    IntervalTableIsChromatic();
  }

  /** The check boxes ticked when the page opens: up to the perfect fifth. */
  const InitialSelection: seq<string> := Names(AtMost(Intervals, 7))

  /** `PRESETS`: the interval lists the presets tick. */
  const Presets: seq<Preset<seq<string>>> := [
    Preset("Custom", []),
    Preset("RCM 10 (All Intervals)", AllNames),
    Preset("RCM 9 (Up to Octave)", UpToOctave)
  ]

  const AllNames: seq<string> := [
    "Minor 2nd", "Major 2nd", "Minor 3rd", "Major 3rd", "Perfect 4th", "Tritone", "Perfect 5th",
    "Minor 6th", "Major 6th", "Minor 7th", "Major 7th", "Perfect 8th", "Minor 9th", "Major 9th"
  ]

  const UpToOctave: seq<string> := AllNames[..12]

  /** The two RCM presets are the source's `intervals.map(i => i.name)` and
      `intervals.filter(i => i.semitones <= 12).map(i => i.name)`: "RCM 9" is
      the first twelve names of the table, minor second to octave. */
  lemma PresetsFromTable()
    ensures AllNames == Names(Intervals)
    ensures UpToOctave == Names(Intervals[..12])
    ensures UpToOctave == Names(AtMost(Intervals, 12))
  {
    AllNamesFromTable();
    NamesOfPrefix(Intervals, 12);
    AtMostOfChromatic(12);
  }

  /** The page opens with the first seven names of the table ticked, minor
      second to perfect fifth, each naming an interval of the table, so a
      first question can be drawn without touching the boxes. */
  lemma InitialSelectionFromTable()
    ensures InitialSelection == AllNames[..7]
    ensures forall k :: 0 <= k < 7 ==> Intervals[k] in Chosen(Intervals, InitialSelection)
  {
    InitialNames();
    PrefixChosen(Intervals, 7, InitialSelection);
  }

  /** The initial names are the first seven of the table, in order. */
  lemma InitialNames()
    ensures InitialSelection == Names(Intervals[..7])
    ensures InitialSelection == AllNames[..7]
  {
    AtMostOfChromatic(7);
    NamesOfPrefix(Intervals, 7);
    AllNamesFromTable();
  }

  /** Ticking the names of a list's first `n` entries chooses each of them. */
  lemma PrefixChosen(list: seq<Interval>, n: nat, selected: seq<string>)
    requires n <= |list| && selected == Names(list[..n])
    ensures forall k :: 0 <= k < n ==> list[k] in Chosen(list, selected)
  {
    forall k | 0 <= k < n ensures list[k] in Chosen(list, selected) {
      NameInPrefix(list, n, k);
      assert selected[k] in selected;
    }
  }

  lemma NameInPrefix(list: seq<Interval>, n: nat, j: nat)
    requires j < n <= |list|
    ensures Names(list[..n])[j] == list[j].name
  {
  }

  lemma NamesOfPrefix(list: seq<Interval>, n: nat)
    requires n <= |list|
    ensures Names(list)[..n] == Names(list[..n])
  {
  }

  lemma AllNamesFromTable()
    ensures AllNames == Names(Intervals)
  {
    var names := Names(Intervals);
    forall k | 0 <= k < 14 ensures AllNames[k] == names[k] {
      assert names[k] == Intervals[k].name;
    }
  }

  lemma AtMostOfChromatic(max: nat)
    requires max <= 14
    ensures AtMost(Intervals, max) == Intervals[..max]
  {
    IntervalTableIsChromatic();
    AtMostOfRun(Intervals, max);
  }

  /** A run counting up from one semitone, filtered at `max`, is its first `max` entries. */
  lemma AtMostOfRun(list: seq<Interval>, max: nat)
    requires forall k :: 0 <= k < |list| ==> list[k].semitones == k + 1
    requires max <= |list|
    ensures AtMost(list, max) == list[..max]
  {
    assert list == list[..max] + list[max..];
    AtMostAppend(list[..max], list[max..], max);
    AtMostKeepsAll(list[..max], max);
    AtMostDropsAll(list[max..], max);
  }

  /** The filter distributes over concatenation. */
  lemma {:induction false} AtMostAppend(a: seq<Interval>, b: seq<Interval>, max: int)
    ensures AtMost(a + b, max) == AtMost(a, max) + AtMost(b, max)
    decreases |a|
  {
    if a == [] {
      assert a + b == b;
    } else {
      assert (a + b)[1..] == a[1..] + b;
      AtMostAppend(a[1..], b, max);
    }
  }

  /** Entries all within `max` are all kept. */
  lemma {:induction false} AtMostKeepsAll(list: seq<Interval>, max: int)
    requires forall k :: 0 <= k < |list| ==> list[k].semitones <= max
    ensures AtMost(list, max) == list
    decreases |list|
  {
    if list != [] {
      AtMostKeepsAll(list[1..], max);
    }
  }

  /** Entries all above `max` are all dropped. */
  lemma {:induction false} AtMostDropsAll(list: seq<Interval>, max: int)
    requires forall k :: 0 <= k < |list| ==> list[k].semitones > max
    ensures AtMost(list, max) == []
    decreases |list|
  {
    if list != [] {
      AtMostDropsAll(list[1..], max);
    }
  }

  /** The order check boxes: their values. */
  const PlaybackModes: seq<string> := ["ascending", "descending", "together"]

  /** The roots `getRandomRoot(semitones)` chooses among, lowest first: every
      pitch of C3..C6 whose partner `semitones` away is also in C3..C6. */
  method RootCandidates(semitones: int) returns (roots: seq<int>)
    ensures forall m :: m in roots <==> MinMidi <= m <= MaxMidi && MinMidi <= m + semitones <= MaxMidi
    ensures forall j, k :: 0 <= j < k < |roots| ==> roots[j] < roots[k]
    ensures |roots| == if -36 <= semitones <= 36 then 37 - (if semitones < 0 then -semitones else semitones) else 0
  {
    var lo := if semitones < 0 then MinMidi - semitones else MinMidi;
    roots := [];
    var midi := MinMidi;
    while midi <= MaxMidi
      invariant MinMidi <= midi <= MaxMidi + 1
      invariant |roots| == (if midi <= lo then 0 else if midi - lo > MaxMidi - semitones - lo + 1 then (if MaxMidi - semitones - lo + 1 < 0 then 0 else MaxMidi - semitones - lo + 1) else midi - lo)
      invariant forall k :: 0 <= k < |roots| ==> roots[k] == lo + k
      invariant forall m :: m in roots <==> MinMidi <= m < midi && MinMidi <= m + semitones <= MaxMidi
    {
      var intervalMidi := midi + semitones;
      if intervalMidi >= MinMidi && intervalMidi <= MaxMidi {
        roots := roots + [midi];
      }
      midi := midi + 1;
    }
  }

  /** `getRandomRoot(semitones)`: one of the candidates; none exists for an
      interval wider than the range (the page would get `undefined`). */
  method RandomRoot(semitones: int, u: real) returns (root: Option<int>)
    requires IsDraw(u)
    ensures root.Some? <==> -36 <= semitones <= 36
    ensures root.Some? ==> MinMidi <= root.value <= MaxMidi && MinMidi <= root.value + semitones <= MaxMidi
  {
    var roots := RootCandidates(semitones);
    if |roots| == 0 {
      root := None;
    } else {
      var i := Pick(u, |roots|);
      assert roots[i] in roots;
      root := Some(roots[i]);
    }
  }

  /** The setup screen. */
  datatype Setup = Setup(selectedIntervals: seq<string>, preset: string, selectedModes: seq<string>)

  /** One question: the interval, its lower note and the playback order. */
  datatype Question = Question(interval: Interval, root: int, mode: string)

  /** The test screen. */
  datatype Test = Test(question: Option<Question>, userGuess: string, feedback: string, showAnswer: bool, score: Score)

  /** The `alert`s of `startTest`, and a selection that names no interval of
      the table (the page would fail reading `undefined.semitones`). */
  datatype StartError = NoIntervals | NoModes | NoKnownInterval

  /** The draws of `startTest` and `nextInterval`: interval, root, then order. */
  method DrawQuestion(s: Setup, d: nat -> real) returns (q: Result<Question, StartError>)
    requires IsDrawStream(d)
    ensures q.Err? <==> |Chosen(Intervals, s.selectedIntervals)| == 0 || |s.selectedModes| == 0
    ensures q.Ok? ==>
      && q.value.interval in Intervals && q.value.interval.name in s.selectedIntervals
      && MinMidi <= q.value.root <= MaxMidi && MinMidi <= q.value.root + q.value.interval.semitones <= MaxMidi
      && q.value.mode in s.selectedModes
  {
    var available := Chosen(Intervals, s.selectedIntervals);
    if |available| == 0 {
      return Err(NoKnownInterval);
    }
    if |s.selectedModes| == 0 {
      return Err(NoModes);
    }
    var interval := available[Pick(d(0), |available|)];
    assert interval in available;
    TableSemitones(interval);
    var root := RandomRoot(interval.semitones, d(1));
    var mode := s.selectedModes[Pick(d(2), |s.selectedModes|)];
    q := Ok(Question(interval, root.value, mode));
  }

  /** `startTest`: refused with nothing selected; otherwise a first question
      and a fresh score. */
  method StartTest(s: Setup, t: Test, d: nat -> real) returns (r: Result<Test, StartError>)
    requires IsDrawStream(d)
    ensures r == Err(NoIntervals) <==> |s.selectedIntervals| == 0
    ensures r == Err(NoModes) <==> |s.selectedIntervals| > 0 && |s.selectedModes| == 0
    ensures r == Err(NoKnownInterval) <==>
      |s.selectedIntervals| > 0 && |s.selectedModes| > 0 && |Chosen(Intervals, s.selectedIntervals)| == 0
    ensures r.Ok? ==>
      && r.value.score == FreshScore
      && r.value.question.Some? && r.value.question.value.interval.name in s.selectedIntervals
      && r.value.question.value.mode in s.selectedModes
      && r.value.userGuess == "" && r.value.feedback == "" && !r.value.showAnswer
  {
    if |s.selectedIntervals| == 0 {
      return Err(NoIntervals);
    }
    if |s.selectedModes| == 0 {
      return Err(NoModes);
    }
    var q := DrawQuestion(s, d);
    match q {
      case Err(e) => r := Err(NoKnownInterval);
      case Ok(question) => r := Ok(Test(Some(question), "", "", false, FreshScore));
    }
  }

  /** `nextInterval`: a new question, the score kept. */
  method NextInterval(s: Setup, t: Test, d: nat -> real) returns (r: Result<Test, StartError>)
    requires IsDrawStream(d)
    ensures r.Ok? <==> |Chosen(Intervals, s.selectedIntervals)| > 0 && |s.selectedModes| > 0
    ensures r.Ok? ==>
      && r.value.score == t.score && r.value.question.Some?
      && r.value.question.value.interval.name in s.selectedIntervals
      && r.value.userGuess == "" && r.value.feedback == "" && !r.value.showAnswer
  {
    var q := DrawQuestion(s, d);
    match q {
      case Err(e) => r := Err(e);
      case Ok(question) => r := Ok(t.(question := Some(question), userGuess := "", feedback := "", showAnswer := false));
    }
  }

  /** `handleGuess`: every guess counts towards the total; the right name also
      counts as correct and reveals the answer. */
  function HandleGuess(t: Test, guess: string): (r: Test)
    requires t.question.Some?
    ensures r.score == RecordGuess(t.score, guess == t.question.value.interval.name)
    ensures r.feedback == if guess == t.question.value.interval.name then "Correct!" else "Try again!"
    ensures r.showAnswer <==> t.showAnswer || guess == t.question.value.interval.name
    ensures r.question == t.question && r.userGuess == guess
  {
    var right := guess == t.question.value.interval.name;
    t.(userGuess := guess, score := RecordGuess(t.score, right),
       feedback := if right then "Correct!" else "Try again!",
       showAnswer := t.showAnswer || right)
  }

  /** A run of guesses on questions leaves `correct` at most `total`, the total
      the number of guesses. */
  lemma GuessesKeepScoreValid(t: Test, guess: string)
    requires t.question.Some? && ValidScore(t.score)
    ensures ValidScore(HandleGuess(t, guess).score)
    ensures HandleGuess(t, guess).score.total == t.score.total + 1
  {
  }

  /** `playInterval`. Nothing sounds before the sampler has loaded. Upwards:
      the lower note, then the higher 1000 ms later, each for 1.1 s;
      downwards the other way round; together: both at once for 1.5 s. An
      unknown order plays nothing. */
  function PlayInterval(loaded: bool, q: Question): (es: seq<Event>)
    ensures !loaded ==> es == []
    ensures loaded && q.mode == "ascending" ==>
      es == [Event(0.0, [q.root], 1.1), Event(1000.0, [q.root + q.interval.semitones], 1.1)]
    ensures loaded && q.mode == "descending" ==>
      es == [Event(0.0, [q.root + q.interval.semitones], 1.1), Event(1000.0, [q.root], 1.1)]
    ensures loaded && q.mode == "together" ==> es == [Event(0.0, [q.root, q.root + q.interval.semitones], 1.5)]
  {
    var lower, higher := q.root, q.root + q.interval.semitones;
    if !loaded then []
    else if q.mode == "ascending" then [Event(0.0, [lower], 1.1), Event(1000.0, [higher], 1.1)]
    else if q.mode == "descending" then [Event(0.0, [higher], 1.1), Event(1000.0, [lower], 1.1)]
    else if q.mode == "together" then [Event(0.0, [lower, higher], 1.5)]
    else []
  }

  /** The timeouts pending after `playInterval`: before loading it returns
      at once and the earlier one stays; otherwise the earlier one is cleared
      and the calls of this play that wait on a timeout are what remains. */
  function PendingAfterPlay(loaded: bool, pending: nat, q: Question): (n: nat)
    ensures !loaded ==> n == pending
    ensures loaded ==> n == Delayed(PlayInterval(loaded, q)) && n <= 1
  {
    if !loaded then pending
    else
      DelayedOfShort(PlayInterval(loaded, q));
      if q.mode == "ascending" || q.mode == "descending" then 1 else 0
  }

  /** Every order sounds exactly the two notes of the interval, in time order. */
  lemma PlayOrdersAgree(q: Question)
    requires q.mode in PlaybackModes
    ensures multiset(NotesInOrder(PlayInterval(true, q))) == multiset{q.root, q.root + q.interval.semitones}
    ensures NonDecreasingOffsets(PlayInterval(true, q))
  {
    var lower, higher := q.root, q.root + q.interval.semitones;
    if q.mode == "ascending" {
      TwoCalls(PlayInterval(true, q), lower, higher, 1.1);
    } else if q.mode == "descending" {
      TwoCalls(PlayInterval(true, q), higher, lower, 1.1);
      assert multiset([higher, lower]) == multiset{lower, higher};
    } else {
      assert q.mode == "together";
      OneCall(PlayInterval(true, q), [lower, higher], 1.5);
    }
  }

  /** A harmonic interval: both notes in one call. */
  lemma OneCall(es: seq<Event>, notes: seq<int>, seconds: real)
    requires es == [Event(0.0, notes, seconds)]
    ensures NotesInOrder(es) == notes
    ensures NonDecreasingOffsets(es)
  {
    NotesOfTwo(es[0], es[0]);
  }

  /** A melodic interval: one note, then the other a second later. */
  lemma TwoCalls(es: seq<Event>, first: int, second: int, seconds: real)
    requires es == [Event(0.0, [first], seconds), Event(1000.0, [second], seconds)]
    ensures NotesInOrder(es) == [first, second]
    ensures NonDecreasingOffsets(es)
  {
    NotesOfTwo(es[0], es[1]);
  }

  /** Downwards is upwards reversed, and upwards rises by the interval. */
  lemma DescendingReversesAscending(q: Question)
    ensures var up := NotesInOrder(PlayInterval(true, q.(mode := "ascending")));
      var down := NotesInOrder(PlayInterval(true, q.(mode := "descending")));
      |up| == 2 && down == [up[1], up[0]] && up[1] - up[0] == q.interval.semitones
  {
    var lower, higher := q.root, q.root + q.interval.semitones;
    NotesOfTwo(Event(0.0, [lower], 1.1), Event(1000.0, [higher], 1.1));
    NotesOfTwo(Event(0.0, [higher], 1.1), Event(1000.0, [lower], 1.1));
  }

  lemma NotesOfTwo(a: Event, b: Event)
    ensures NotesInOrder([a]) == a.notes
    ensures NotesInOrder([a, b]) == a.notes + b.notes
  {
    assert [a][1..] == [];
    assert [a, b][1..] == [b];
    assert [b][1..] == [];
  }

  /** `handleIntervalChange`: one box flips, the preset becomes "Custom". */
  function IntervalChange(s: Setup, name: string): (r: Setup)
    ensures name in r.selectedIntervals <==> name !in s.selectedIntervals
    ensures forall x :: x != name ==> (x in r.selectedIntervals <==> x in s.selectedIntervals)
    ensures r.selectedModes == s.selectedModes && r.preset == "Custom"
  {
    s.(selectedIntervals := Toggle(s.selectedIntervals, name), preset := "Custom")
  }

  /** `handlePlaybackModeChange`: one order flips, the preset becomes "Custom". */
  function ModeChange(s: Setup, mode: string): (r: Setup)
    ensures mode in r.selectedModes <==> mode !in s.selectedModes
    ensures forall x :: x != mode ==> (x in r.selectedModes <==> x in s.selectedModes)
    ensures r.selectedIntervals == s.selectedIntervals && r.preset == "Custom"
  {
    s.(selectedModes := Toggle(s.selectedModes, mode), preset := "Custom")
  }

  /** `handlePresetChange`: the preset's intervals replace the selection
      ("Custom" empties it); the two RCM presets tick every order, "Custom"
      keeps the orders. A name not in the list has no preset. */
  function PresetChange(s: Setup, name: string): (r: Option<Setup>)
    ensures r.Some? <==> exists k :: 0 <= k < |Presets| && Presets[k].name == name
    ensures r.Some? ==> r.value.preset == name && Preset(name, r.value.selectedIntervals) in Presets
    ensures r.Some? && name == "Custom" ==> r.value.selectedIntervals == [] && r.value.selectedModes == s.selectedModes
    ensures r.Some? && name in {"RCM 10 (All Intervals)", "RCM 9 (Up to Octave)"} ==> r.value.selectedModes == PlaybackModes
  {
    match FindPreset(Presets, name)
    case None => None
    case Some(p) =>
      var picked := s.(preset := name, selectedIntervals := p.value);
      if name == "RCM 10 (All Intervals)" || name == "RCM 9 (Up to Octave)" then Some(picked.(selectedModes := PlaybackModes))
      else Some(picked)
  }
}
