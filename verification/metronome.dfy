/** The metronome (`src/components/Metronome.jsx`): the tempo knob, the typed
    tempo editor, and the play/stop state machine with its four-beat counter.
    Angles are exact rationals; the knob's trigonometry is left to the caller,
    who supplies the pointer angle. */
module Metronome {
  import opened Results
  import opened JsText

  const MinBpm: int := 40
  const MaxBpm: int := 200

  /** Frequencies of the accented first beat and of the other beats, in Hz. */
  const AccentHz: int := 1000
  const BeatHz: int := 800

  /** `Math.round`: halves round up. */
  function Round(x: real): (n: int)
    ensures n as real - 0.5 <= x < n as real + 0.5
  {
    (x + 0.5).Floor
  }

  /** `angle % 360` on numbers: JavaScript's remainder takes the dividend's
      sign. */
  function Mod360(a: real): (r: real)
    ensures a >= 0.0 ==> 0.0 <= r < 360.0
    ensures a < 0.0 ==> -360.0 < r <= 0.0
    ensures 0.0 <= a < 360.0 ==> r == a
    ensures ((a - r) / 360.0).Floor as real == (a - r) / 360.0
  {
    var q := Turns(a);
    assert (a - (a - 360.0 * q as real)) / 360.0 == q as real;
    a - 360.0 * q as real
  }

  /** The whole turns `%` removes: rounded towards zero. */
  function Turns(a: real): (q: int)
    ensures a >= 0.0 ==> 0 <= q && 360.0 * q as real <= a < 360.0 * q as real + 360.0
    ensures a < 0.0 ==> q <= 0 && 360.0 * q as real - 360.0 < a <= 360.0 * q as real
    ensures 0.0 <= a < 360.0 ==> q == 0
  {
    if a >= 0.0 then (a / 360.0).Floor else -((-a) / 360.0).Floor
  }

  /** `angleToBpm`: a turn of the knob clockwise from the top spans 40 to 200. */
  function AngleToBpm(angle: real): (bpm: int)
    ensures angle >= 0.0 ==> MinBpm <= bpm <= MaxBpm
  {
    var turned := Mod360(angle) / 360.0 * (MaxBpm - MinBpm) as real;
    Round(turned + MinBpm as real)
  }

  /** `bpmToAngle`: degrees clockwise from the top. */
  function BpmToAngle(bpm: real): (angle: real)
    ensures angle == (bpm - MinBpm as real) * 9.0 / 4.0
  {
    (bpm - MinBpm as real) / (MaxBpm - MinBpm) as real * 360.0
  }

  /** The knob's scale: 40 at the top, 200 a full turn later, linear between. */
  lemma KnobScale(a: real, b: real)
    ensures BpmToAngle(MinBpm as real) == 0.0 && BpmToAngle(MaxBpm as real) == 360.0
    ensures a < b ==> BpmToAngle(a) < BpmToAngle(b)
    ensures BpmToAngle(a) - BpmToAngle(b) == (a - b) * 9.0 / 4.0
  {
  }

  /** Every tempo below the maximum survives the trip to an angle and back. */
  lemma AngleRoundTrip(bpm: int)
    requires MinBpm <= bpm < MaxBpm
    ensures AngleToBpm(BpmToAngle(bpm as real)) == bpm
  {
    var angle := BpmToAngle(bpm as real);
    assert 0.0 <= angle < 360.0;
    assert Mod360(angle) == angle;
    assert angle / 360.0 * 160.0 + 40.0 == bpm as real;
  }

  /** The maximum does not: a full turn is no turn, so 200 comes back as 40. */
  lemma FullTurnWraps()
    ensures AngleToBpm(BpmToAngle(MaxBpm as real)) == MinBpm
  {
    assert Mod360(360.0) == 0.0 by {
      assert (360.0 / 360.0).Floor == 1;
    }
  }

  /** `handlePointerMove` after the trigonometry: `atan2` gives an angle in
      (-180, 180], negative angles are brought into [0, 360), and the tempo
      becomes the angle's. */
  function PointerBpm(raw: real): (bpm: int)
    requires -180.0 < raw <= 180.0
    ensures MinBpm <= bpm <= MaxBpm
    ensures raw >= 0.0 ==> bpm == AngleToBpm(raw)
    ensures raw < 0.0 ==> bpm == AngleToBpm(raw + 360.0)
  {
    AngleToBpm(if raw < 0.0 then raw + 360.0 else raw)
  }

  /** The tempo editor of `CircularBpmKnob`. The typed value is a number, or
      the empty string after input `parseInt` cannot read: `None`. */
  datatype Knob = Knob(editing: bool, typed: Option<int>)

  /** `Math.min`/`Math.max` by hand, as in `handleInputBlur`. */
  function Clamp(n: int): (c: int)
    ensures MinBpm <= c <= MaxBpm
    ensures MinBpm <= n <= MaxBpm ==> c == n
    ensures n < MinBpm ==> c == MinBpm
    ensures n > MaxBpm ==> c == MaxBpm
  {
    if n < MinBpm then MinBpm else if n > MaxBpm then MaxBpm else n
  }

  /** `handleDoubleClick`: editing starts from the current tempo. */
  function DoubleClick(bpm: int): (r: Knob)
    ensures r.editing && r.typed == Some(bpm)
  {
    Knob(true, Some(bpm))
  }

  /** `handleInputChange`: the field holds `parseInt(text, 10)`, or nothing. */
  function InputChange(k: Knob, text: string): (r: Knob)
    ensures r.editing == k.editing
  {
    k.(typed := ParseInt(text))
  }

  /** What committing the editor does: the new tempo and the knob. */
  datatype Commit = Commit(bpm: int, knob: Knob)

  /** From this magnitude on JavaScript prints a number in exponent form. */
  const ExponentFrom: int := 1_000_000_000_000_000_000_000

  /** The first decimal digit of a positive number. */
  function LeadingDigit(n: nat): (d: nat)
    requires n > 0
    ensures 1 <= d <= 9 && d <= n
  {
    if n < 10 then n else LeadingDigit(n / 10)
  }

  /** The smallest magnitude `parseInt` turns into `Infinity`: 2^1024 - 2^970,
      half a unit above the largest double (about 1.8 * 10^308). */
  const OverflowFrom: int := 179769313486231580793728971405303415079934132710037826936173778980444968292764750946649017977587207096330286416692887910946555547851940402630657488671505820681908902000708383676273854845817711531764475730270069855571366959622842914819860834936475292719074168444365510704342711559699508093042880177904174497792

  /** `parseInt(n, 10)` of a number the field already holds: the number is
      printed first. In exponent form (`"1e+21"`) `parseInt` stops after the
      leading digit; an overflowed number prints as `"Infinity"` or
      `"-Infinity"`, which reads as `NaN`. */
  function Reread(n: int): (r: Option<int>)
    ensures -ExponentFrom < n < ExponentFrom ==> r == Some(n)
    ensures ExponentFrom <= n < OverflowFrom ==> r.Some? && 1 <= r.value <= 9
    ensures -OverflowFrom < n <= -ExponentFrom ==> r.Some? && -9 <= r.value <= -1
    ensures r.None? <==> n >= OverflowFrom || n <= -OverflowFrom
  {
    if -ExponentFrom < n < ExponentFrom then Some(n)
    else if n >= OverflowFrom || n <= -OverflowFrom then None
    else if n > 0 then Some(LeadingDigit(n))
    else var d: int := LeadingDigit(-n); Some(-d)
  }

  /** `handleInputBlur`: the field's number read again, or the old tempo when
      that reads as `NaN`, clamped to 40..200; editing ends. A number of 10^21
      or more (short of overflow) therefore commits 40. */
  function InputBlur(k: Knob, bpm: int): (r: Commit)
    ensures MinBpm <= r.bpm <= MaxBpm && !r.knob.editing
    ensures k.typed.Some? && -ExponentFrom < k.typed.value < ExponentFrom ==> r.bpm == Clamp(k.typed.value)
    ensures k.typed.Some? && (ExponentFrom <= k.typed.value < OverflowFrom || -OverflowFrom < k.typed.value <= -ExponentFrom) ==>
      r.bpm == MinBpm
    ensures k.typed.Some? && (k.typed.value >= OverflowFrom || k.typed.value <= -OverflowFrom) ==> r.bpm == Clamp(bpm)
    ensures k.typed.None? ==> r.bpm == Clamp(bpm)
    ensures r.knob.typed == k.typed
  {
    match k.typed
    case Some(n) =>
      (match Reread(n)
       case Some(v) => Commit(Clamp(v), k.(editing := false))
       case None => Commit(Clamp(bpm), k.(editing := false)))
    case None => Commit(Clamp(bpm), k.(editing := false))
  }

  /** `handleKeyDown`: Enter commits, Escape abandons the edit and keeps the
      tempo, any other key changes nothing. */
  function KeyDown(k: Knob, bpm: int, key: string): (r: Commit)
    ensures key == "Enter" ==> r == InputBlur(k, bpm)
    ensures key == "Escape" ==> r.bpm == bpm && !r.knob.editing && r.knob.typed == k.typed
    ensures key != "Enter" && key != "Escape" ==> r == Commit(bpm, k)
  {
    if key == "Enter" then InputBlur(k, bpm)
    else if key == "Escape" then Commit(bpm, k.(editing := false))
    else Commit(bpm, k)
  }

  /** The effect that follows the tempo while not editing. */
  function Sync(k: Knob, bpm: int): (r: Knob)
    ensures r.editing == k.editing
    ensures !k.editing ==> r.typed == Some(bpm)
    ensures k.editing ==> r == k
  {
    if k.editing then k else k.(typed := Some(bpm))
  }

  /** A typed tempo is committed clamped; typing nonsense and committing keeps
      a tempo already in range. */
  lemma TypedTempoLands(k: Knob, bpm: int, text: string)
    requires MinBpm <= bpm <= MaxBpm
    ensures MinBpm <= KeyDown(InputChange(k, text), bpm, "Enter").bpm <= MaxBpm
    ensures ParseInt(text).None? ==> KeyDown(InputChange(k, text), bpm, "Enter").bpm == bpm
    ensures KeyDown(InputChange(k, text), bpm, "Escape").bpm == bpm
  {
  }

  /** Typing a number, possibly followed by other characters, and pressing
      Enter sets the tempo to that number brought into 40..200, except that
      a number of 10^21 or more, re-read from its exponent form, gives 40, and
      one that overflows to `Infinity` keeps the old tempo. */
  lemma TypedNumberCommits(k: Knob, bpm: int, i: int, rest: string)
    requires rest == [] || !IsDigit(rest[0])
    ensures KeyDown(InputChange(k, IntToString(i) + rest), bpm, "Enter").bpm
      == if -ExponentFrom < i < ExponentFrom then Clamp(i)
         else if -OverflowFrom < i < OverflowFrom then MinBpm
         else Clamp(bpm)
  {
    ParseIntIgnoresTrailing(i, rest);
  }

  /** The audio context: not created yet, running, or closed. */
  datatype Context = NoContext | Open | Closed

  /** The repeating timer: armed at a tempo, by a callback that captured the
      beat counter's value when it was armed. */
  datatype Timer = Timer(bpm: int, captured: int)

  datatype Metronome = Metronome(bpm: int, playing: bool, beat: int, context: Context, timer: Option<Timer>)

  /** The component as first rendered. */
  function Mount(tempo: int): (m: Metronome)
    ensures m.bpm == tempo && !m.playing && m.beat == 0 && m.timer.None? && m.context.NoContext?
  {
    Metronome(tempo, false, 0, NoContext, None)
  }

  /** A timer runs exactly while playing, over an open context, and the beat
      is one of four. */
  predicate Valid(m: Metronome) {
    && 0 <= m.beat < 4
    && (m.playing <==> m.timer.Some?)
    && (m.playing ==> m.context == Open)
  }

  /** `(60 / bpm) * 1000`: milliseconds between clicks. */
  function PeriodMs(bpm: int): (ms: real)
    requires bpm > 0
    ensures MinBpm <= bpm <= MaxBpm ==> 300.0 <= ms <= 1500.0
    ensures ms * bpm as real == 60000.0
  {
    60.0 / bpm as real * 1000.0
  }

  /** One click: the frequency sounded and the state after it. */
  datatype Click = Click(hz: int, after: Metronome)

  /** The frequency for a beat: the first of four is accented. */
  function Pitch(beat: int): (hz: int)
    ensures hz == AccentHz <==> beat == 0
    ensures hz == BeatHz <==> beat != 0
  {
    if beat == 0 then AccentHz else BeatHz
  }

  /** `playClick`, reading the accent from the counter's current value: a
      click per call once a context exists, the counter moving on by one
      modulo four. */
  function Tick(m: Metronome): (r: Option<Click>)
    ensures r.None? <==> m.context.NoContext?
    ensures r.Some? ==> r.value.hz == Pitch(m.beat) && r.value.after == m.(beat := (m.beat + 1) % 4)
  {
    if m.context.NoContext? then None
    else Some(Click(Pitch(m.beat), m.(beat := (m.beat + 1) % 4)))
  }

  /** `playClick` as the interval runs it: the callback is the one created
      when the timer was armed, so the accent test reads the counter's value
      at that moment, not its current one. */
  function TickAsWritten(m: Metronome): (r: Option<Click>)
    requires m.timer.Some?
    ensures r.None? <==> m.context.NoContext?
    ensures r.Some? ==> r.value.hz == Pitch(m.timer.value.captured) && r.value.after == m.(beat := (m.beat + 1) % 4)
  {
    if m.context.NoContext? then None
    else Some(Click(Pitch(m.timer.value.captured), m.(beat := (m.beat + 1) % 4)))
  }

  /** The frequencies of `n` interval clicks. */
  function Clicks(m: Metronome, n: nat, asWritten: bool): (hz: seq<int>)
    requires m.timer.Some? && m.context == Open
    ensures |hz| == n
    decreases n
  {
    if n == 0 then []
    else
      var c := if asWritten then TickAsWritten(m) else Tick(m);
      [c.value.hz] + Clicks(c.value.after, n - 1, asWritten)
  }

  /** With the counter read when the click happens, exactly every fourth
      click is accented. */
  lemma {:induction false} EveryFourthAccented(m: Metronome, n: nat)
    requires m.timer.Some? && m.context == Open && 0 <= m.beat < 4
    ensures forall k :: 0 <= k < n ==> (Clicks(m, n, false)[k] == AccentHz <==> (m.beat + k) % 4 == 0)
    decreases n
  {
    if n > 0 {
      var after := Tick(m).value.after;
      EveryFourthAccented(after, n - 1);
      forall k | 0 <= k < n ensures Clicks(m, n, false)[k] == AccentHz <==> (m.beat + k) % 4 == 0 {
        if k > 0 {
          assert Clicks(m, n, false)[k] == Clicks(after, n - 1, false)[k - 1];
          assert (after.beat + (k - 1)) % 4 == (m.beat + k) % 4;
        }
      }
    }
  }

  /** As written, every interval click has the frequency of the first: the
      counter captured when the timer was armed never changes. */
  lemma {:induction false} AsWrittenNeverChanges(m: Metronome, n: nat)
    requires m.timer.Some? && m.context == Open
    ensures forall k :: 0 <= k < n ==> Clicks(m, n, true)[k] == Pitch(m.timer.value.captured)
    decreases n
  {
    if n > 0 {
      var after := TickAsWritten(m).value.after;
      AsWrittenNeverChanges(after, n - 1);
      forall k | 0 < k < n ensures Clicks(m, n, true)[k] == Pitch(m.timer.value.captured) {
        assert Clicks(m, n, true)[k] == Clicks(after, n - 1, true)[k - 1];
      }
    }
  }

  /** Started from rest, the immediate click is accented and leaves the
      counter at 1. The next four clicks should then be 800, 800, 800 and
      1000 Hz; as written all four are accented. */
  lemma AccentDiscrepancy(tempo: int)
    ensures Toggle(Mount(tempo)).state.timer.Some?
    ensures Clicks(Toggle(Mount(tempo)).state, 4, true) == [AccentHz, AccentHz, AccentHz, AccentHz]
    ensures Clicks(Toggle(Mount(tempo)).state, 4, false) == [BeatHz, BeatHz, BeatHz, AccentHz]
  {
    var s := Toggle(Mount(tempo)).state;
    assert s.beat == 1 && s.timer == Some(Timer(tempo, 0));
    AsWrittenNeverChanges(s, 4);
    EveryFourthAccented(s, 4);
  }

  /** What a press of the button does: the state after it, the immediate
      click if one sounded, and whether a new context was created. */
  datatype Toggled = Toggled(state: Metronome, hz: Option<int>, created: bool)

  /** `toggleMetronome`. A context is created when there is none or it has
      been closed. Starting resets the counter, clicks at once (which moves
      the counter to 1) and arms the timer at the current tempo; stopping
      clears the timer and resets the counter. */
  function Toggle(m: Metronome): (r: Toggled)
    ensures r.state.context == Open && (r.created <==> m.context != Open)
    ensures r.state.bpm == m.bpm && r.state.playing == !m.playing
    ensures !m.playing ==> r.state.beat == 1 && r.state.timer == Some(Timer(m.bpm, m.beat)) && r.hz == Some(Pitch(m.beat))
    ensures m.playing ==> r.state.beat == 0 && r.state.timer.None? && r.hz.None?
  {
    var live := m.(context := Open);
    var created := m.context != Open;
    if !m.playing then
      Toggled(live.(beat := 1, playing := true, timer := Some(Timer(m.bpm, m.beat))), Some(Pitch(m.beat)), created)
    else
      Toggled(live.(playing := false, beat := 0, timer := None), None, created)
  }

  /** The tempo effect: a new tempo while playing re-arms the timer at that
      tempo and resets the counter; while stopped, or when the tempo does not
      change, only the tempo is recorded. */
  function SetBpm(m: Metronome, bpm: int): (r: Metronome)
    ensures r.bpm == bpm && r.playing == m.playing && r.context == m.context
    ensures m.playing && bpm != m.bpm ==> r.beat == 0 && r.timer == Some(Timer(bpm, m.beat))
    ensures !m.playing || bpm == m.bpm ==> r == m.(bpm := bpm)
  {
    if m.playing && bpm != m.bpm then m.(bpm := bpm, beat := 0, timer := Some(Timer(bpm, m.beat)))
    else m.(bpm := bpm)
  }

  /** Unmounting clears the timer and closes a context that exists. */
  function Unmount(m: Metronome): (r: Metronome)
    ensures r.timer.None?
    ensures r.context == (if m.context.NoContext? then NoContext else Closed)
    ensures r.bpm == m.bpm && r.beat == m.beat && r.playing == m.playing
  {
    m.(timer := None, context := if m.context.NoContext? then NoContext else Closed)
  }

  /** Every step but unmounting keeps the machine well formed. */
  lemma StepsKeepValid(m: Metronome, bpm: int)
    requires Valid(m)
    ensures Valid(Toggle(m).state)
    ensures Valid(SetBpm(m, bpm))
    ensures Tick(m).Some? ==> Valid(Tick(m).value.after)
    ensures m.timer.Some? && TickAsWritten(m).Some? ==> Valid(TickAsWritten(m).value.after)
  {
  }

  /** Pressing the button twice stops the metronome where it started. */
  lemma ToggleTwice(m: Metronome)
    requires Valid(m) && !m.playing
    ensures Toggle(Toggle(m).state).state == m.(context := Open, beat := 0)
  {
  }
}
