/** The bookkeeping the three listening trainers share: the running score,
    the check-box lists of the setup screens and their named presets. */
module Quiz {
  import opened Results

  /** `score` state: `{ correct, total }`. */
  datatype Score = Score(correct: nat, total: nat)

  const FreshScore: Score := Score(0, 0)

  predicate ValidScore(s: Score) {
    s.correct <= s.total
  }

  /** `handleGuess` of the interval and chord trainers: every guess counts
      towards the total, a right one also towards the correct count. */
  function RecordGuess(s: Score, right: bool): (r: Score)
    ensures r.total == s.total + 1
    ensures r.correct == s.correct || r.correct == s.correct + 1
    ensures r.correct == s.correct + 1 <==> right
    ensures ValidScore(s) ==> ValidScore(r)
  {
    var counted := s.(total := s.total + 1);
    if right then counted.(correct := counted.correct + 1) else counted
  }

  /** How many guesses in a session were right. */
  function CountRight(guesses: seq<bool>): nat {
    if guesses == [] then 0 else CountRight(guesses[..|guesses| - 1]) + (if guesses[|guesses| - 1] then 1 else 0)
  }

  function ScoreAfter(guesses: seq<bool>): Score {
    if guesses == [] then FreshScore else RecordGuess(ScoreAfter(guesses[..|guesses| - 1]), guesses[|guesses| - 1])
  }

  /** After any session that began with `startTest`'s reset, the total is the
      number of guesses and the correct count the number of right ones. */
  lemma {:induction false} ScoreCountsGuesses(guesses: seq<bool>)
    ensures ScoreAfter(guesses).total == |guesses|
    ensures ScoreAfter(guesses).correct == CountRight(guesses)
    ensures ValidScore(ScoreAfter(guesses))
  {
    if guesses != [] {
      ScoreCountsGuesses(guesses[..|guesses| - 1]);
    }
  }

  /** `prev.filter(x => x !== item)`; the lists hold names and mode values. */
  function Without(xs: seq<string>, item: string): (r: seq<string>)
    ensures item !in r
    ensures forall x :: x != item ==> (x in r <==> x in xs)
    ensures |r| <= |xs|
  {
    if xs == [] then []
    else if xs[0] == item then Without(xs[1..], item)
    else [xs[0]] + Without(xs[1..], item)
  }

  predicate Distinct<T(==)>(xs: seq<T>) {
    forall i, j :: 0 <= i < j < |xs| ==> xs[i] != xs[j]
  }

  /** A check-box click: `prev.includes(item) ? prev.filter(...) : [...prev, item]`. */
  function Toggle(xs: seq<string>, item: string): (r: seq<string>)
    ensures item in r <==> item !in xs
    ensures forall x :: x != item ==> (x in r <==> x in xs)
  {
    if item in xs then Without(xs, item) else xs + [item]
  }

  lemma {:induction false} WithoutKeepsDistinct(xs: seq<string>, item: string)
    requires Distinct(xs)
    ensures Distinct(Without(xs, item))
  {
    if xs != [] {
      WithoutKeepsDistinct(xs[1..], item);
      if xs[0] != item {
        var rest := Without(xs[1..], item);
        assert xs[0] !in rest by {
          assert xs[0] !in xs[1..];
        }
      }
    }
  }

  /** A list of ticked boxes never lists an item twice, however it is clicked. */
  lemma ToggleKeepsDistinct(xs: seq<string>, item: string)
    requires Distinct(xs)
    ensures Distinct(Toggle(xs, item))
  {
    if item in xs {
      WithoutKeepsDistinct(xs, item);
    }
  }

  /** Clicking the same box twice ticks exactly the boxes ticked before. */
  lemma ToggleTwice(xs: seq<string>, item: string, x: string)
    ensures x in Toggle(Toggle(xs, item), item) <==> x in xs
  {
  }

  /** A setup-screen preset: a label and the selection it ticks. */
  datatype Preset<T> = Preset(name: string, value: T)

  /** `PRESETS.find(p => p.label === name)`: the first preset with the label. */
  function FindPreset<T>(presets: seq<Preset<T>>, name: string): (r: Option<Preset<T>>)
    ensures r.Some? <==> exists k :: 0 <= k < |presets| && presets[k].name == name
    ensures r.Some? ==> r.value in presets && r.value.name == name
    ensures r.Some? ==> exists k :: 0 <= k < |presets| && presets[k] == r.value
                                    && forall j :: 0 <= j < k ==> presets[j].name != name
  {
    if presets == [] then None
    else if presets[0].name == name then Some(presets[0])
    else
      var rest := FindPreset(presets[1..], name);
      assert rest.Some? ==> exists k :: 0 <= k < |presets| && presets[k].name == name by {
        if rest.Some? {
          var j :| 0 <= j < |presets[1..]| && presets[1..][j].name == name;
          assert presets[j + 1].name == name;
        }
      }
      assert rest.Some? ==> exists k :: 0 <= k < |presets| && presets[k] == rest.value
                                        && forall j :: 0 <= j < k ==> presets[j].name != name by {
        if rest.Some? {
          var k :| 0 <= k < |presets[1..]| && presets[1..][k] == rest.value
                   && forall j :: 0 <= j < k ==> presets[1..][j].name != name;
          assert presets[k + 1] == rest.value;
          forall j | 0 <= j < k + 1 ensures presets[j].name != name {
            if j > 0 { assert presets[j] == presets[1..][j - 1]; }
          }
        }
      }
      rest
  }
}
