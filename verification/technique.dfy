/** The technique-exercise generator (`src/pages/Technique.jsx`): the keys a
    root and mode allow, the inversion drawn for an arpeggio, and the bounded
    loop that draws exercises from the level's catalogue. The catalogue is
    curriculum data and enters as a parameter. */
module Technique {
  import opened Results
  import opened Draws
  import opened JsText

  /** The enharmonic spellings offered for each root. */
  datatype Spelling = Spelling(root: string, names: seq<string>)

  const Enharmonics: seq<Spelling> := [
    Spelling("Gb/F#", ["Gb", "F#"]),
    Spelling("Ab/G#", ["Ab", "G#"]),
    Spelling("A", ["A"]),
    Spelling("Bb", ["Bb"]),
    Spelling("B", ["B"]),
    Spelling("G", ["G"])
  ]

  /** `Object.values(enharmonics).flat()`. */
  const AllSpellings: seq<string> := ["Gb", "F#", "Ab", "G#", "A", "Bb", "B", "G"]

  /** Flattening the table gives every spelling, in order. */
  lemma AllSpellingsFlatten()
    ensures AllSpellings == Flatten(Enharmonics)
  {
    assert Flatten(Enharmonics[5..]) == ["G"];
    assert Flatten(Enharmonics[4..]) == ["B", "G"];
    assert Flatten(Enharmonics[3..]) == ["Bb", "B", "G"];
    assert Flatten(Enharmonics[2..]) == ["A", "Bb", "B", "G"];
    assert Flatten(Enharmonics[1..]) == ["Ab", "G#", "A", "Bb", "B", "G"];
  }

  function Flatten(table: seq<Spelling>): seq<string> {
    if table == [] then [] else table[0].names + Flatten(table[1..])
  }

  /** `enharmonics[root]`: the first entry under that name. */
  function SpellingsOf(table: seq<Spelling>, root: string): (r: Option<seq<string>>)
    ensures r.Some? <==> exists k :: 0 <= k < |table| && table[k].root == root
    ensures r.Some? ==> Spelling(root, r.value) in table
  {
    if table == [] then None
    else if table[0].root == root then Some(table[0].names)
    else
      var rest := SpellingsOf(table[1..], root);
      assert rest.Some? ==> exists k :: 0 <= k < |table| && table[k].root == root by {
        if rest.Some? {
          var j :| 0 <= j < |table[1..]| && table[1..][j].root == root;
          assert table[j + 1].root == root;
        }
      }
      rest
  }

  /** The roots a setting stands for: every spelling for "Random", a known
      root's spellings, or an unknown root as it is. */
  function Candidates(root: string): (c: seq<string>)
    ensures root == "Random" ==> c == AllSpellings
    ensures root != "Random" && SpellingsOf(Enharmonics, root).None? ==> c == [root]
    ensures root != "Random" && SpellingsOf(Enharmonics, root).Some? ==> Spelling(root, c) in Enharmonics
    ensures 1 <= |c| <= |AllSpellings|
  {
    if root == "Random" then AllSpellings
    else match SpellingsOf(Enharmonics, root)
      case Some(names) =>
        assert Spelling(root, names) in Enharmonics;
        names
      case None => [root]
  }

  /** Two names on one root are equal only with equal qualities. */
  lemma SameRoot(r: string, a: string, b: string)
    ensures r + a == r + b ==> a == b
  {
    if r + a == r + b {
      assert a == (r + a)[|r|..] && b == (r + b)[|r|..];
    }
  }

  /** The key names each candidate root gives: the root and a quality, major
      unless the mode is minor, plain minor unless the mode is major or minor
      scales are asked for, harmonic and melodic minor for scales unless the
      mode is major. */
  function KeysFor(r: string, mode: string, kind: string): (ks: seq<string>)
    ensures |ks| == KeysPerRoot(mode, kind)
    ensures forall k :: 0 <= k < |ks| ==> r + " " <= ks[k]
    ensures r + " major" in ks <==> mode != "Minor"
    ensures r + " minor" in ks <==> (mode == "Minor" && kind != "Scales") || (mode != "Minor" && mode != "Major")
    ensures r + " minor (harmonic)" in ks <==> kind == "Scales" && mode != "Major"
    ensures r + " minor (melodic)" in ks <==> kind == "Scales" && mode != "Major"
  {
    SameRoot(r, " major", " minor");
    SameRoot(r, " major", " minor (harmonic)");
    SameRoot(r, " major", " minor (melodic)");
    SameRoot(r, " minor", " minor (harmonic)");
    SameRoot(r, " minor", " minor (melodic)");
    SameRoot(r, " minor (harmonic)", " minor (melodic)");
    if mode == "Minor" && kind == "Scales" then [r + " minor (harmonic)", r + " minor (melodic)"]
    else if mode == "Minor" then [r + " minor"]
    else if mode == "Major" then [r + " major"]
    else [r + " major", r + " minor"] + (if kind == "Scales" then [r + " minor (harmonic)", r + " minor (melodic)"] else [])
  }

  /** How many keys each candidate root gives. */
  function KeysPerRoot(mode: string, kind: string): nat {
    if mode == "Minor" && kind == "Scales" then 2
    else if mode == "Minor" || mode == "Major" then 1
    else if kind == "Scales" then 4
    else 2
  }

  function FlatMapKeys(cs: seq<string>, mode: string, kind: string): (ks: seq<string>)
    ensures |ks| == |cs| * KeysPerRoot(mode, kind)
    ensures forall k :: k in ks <==> exists i :: 0 <= i < |cs| && k in KeysFor(cs[i], mode, kind)
  {
    if cs == [] then []
    else
      var rest := FlatMapKeys(cs[1..], mode, kind);
      assert forall k :: k in rest <==> exists i :: 1 <= i < |cs| && k in KeysFor(cs[i], mode, kind) by {
        forall k | k in rest ensures exists i :: 1 <= i < |cs| && k in KeysFor(cs[i], mode, kind) {
          var j :| 0 <= j < |cs[1..]| && k in KeysFor(cs[1..][j], mode, kind);
          assert k in KeysFor(cs[j + 1], mode, kind);
        }
        forall k | exists i :: 1 <= i < |cs| && k in KeysFor(cs[i], mode, kind) ensures k in rest {
          var i :| 1 <= i < |cs| && k in KeysFor(cs[i], mode, kind);
          assert k in KeysFor(cs[1..][i - 1], mode, kind);
        }
      }
      KeysFor(cs[0], mode, kind) + rest
  }

  /** `getPossibleKeys(root, mode, type)`: the key names a root and mode allow,
      one to four per candidate root. */
  function PossibleKeys(root: string, mode: string, kind: string): (ks: seq<string>)
    ensures |ks| == |Candidates(root)| * KeysPerRoot(mode, kind)
    ensures forall k :: k in ks <==> exists i :: 0 <= i < |Candidates(root)| && k in KeysFor(Candidates(root)[i], mode, kind)
  {
    FlatMapKeys(Candidates(root), mode, kind)
  }

  /** The keys named for one root under each mode setting. */
  lemma KeyShapes(r: string, kind: string)
    ensures KeysFor(r, "Major", kind) == [r + " major"]
    ensures KeysFor(r, "Minor", "Scales") == [r + " minor (harmonic)", r + " minor (melodic)"]
    ensures kind != "Scales" ==> KeysFor(r, "Minor", kind) == [r + " minor"]
    ensures KeysFor(r, "Random", "Scales") == [r + " major", r + " minor", r + " minor (harmonic)", r + " minor (melodic)"]
    ensures kind != "Scales" ==> KeysFor(r, "Random", kind) == [r + " major", r + " minor"]
  {
  }

  /** With a random root every spelling is offered, with every key the mode
      and type give it. */
  lemma RandomRootOffersEverySpelling(r: string, mode: string, kind: string)
    requires r in AllSpellings
    ensures forall key :: key in KeysFor(r, mode, kind) ==> key in PossibleKeys("Random", mode, kind)
  {
    var i :| 0 <= i < |AllSpellings| && AllSpellings[i] == r;
    assert Candidates("Random")[i] == r;
  }

  const Inversions3: seq<string> := ["Root position", "1st inversion", "2nd inversion"]
  const Inversions4: seq<string> := ["Root position", "1st inversion", "2nd inversion", "3rd inversion"]

  /** `getArpeggioInversions`: root position when asked for it; otherwise any
      of the inversions of the chord, four for a seventh chord and three for a
      triad. */
  function ArpeggioInversion(name: string, setting: string, u: real): (inv: string)
    requires IsDraw(u)
    ensures setting == "Root only" ==> inv == "Root position"
    ensures setting != "Root only" && Contains(name, "7th") ==> inv in Inversions4
    ensures setting != "Root only" && !Contains(name, "7th") ==> inv in Inversions3
    ensures inv == "3rd inversion" ==> Contains(name, "7th") && setting != "Root only"
  {
    if setting == "Root only" then "Root position"
    else
      var inversions := if Contains(name, "7th") then Inversions4 else Inversions3;
      inversions[Pick(u, |inversions|)]
  }

  /** The level's arpeggios: the two seventh chords have four inversions, the
      tonic triad three. */
  lemma ArpeggioNames()
    ensures Contains("Dominant 7th", "7th") && Contains("Leading-tone Dim 7th", "7th")
    ensures !Contains("Tonic", "7th")
  {
    assert "7th" <= "Dominant 7th"[9..];
    assert "7th" <= "Leading-tone Dim 7th"[17..];
    ContainsAt("Dominant 7th", "7th");
    ContainsAt("Leading-tone Dim 7th", "7th");
    ContainsAt("Tonic", "7th");
    forall i | 0 <= i <= |"Tonic"| ensures !("7th" <= "Tonic"[i..]) {
      if i < |"Tonic"| {
        assert "Tonic"[i..][0] != '7';
      }
    }
  }

  /** Every inversion of the list can be drawn. */
  lemma EveryInversionReachable(name: string, k: nat)
    requires k < (if Contains(name, "7th") then 4 else 3)
    ensures exists u :: IsDraw(u) && ArpeggioInversion(name, "All Inversions", u) == (if Contains(name, "7th") then Inversions4 else Inversions3)[k]
  {
    var n := if Contains(name, "7th") then 4 else 3;
    PickReachesEveryIndex(k, n);
    assert ArpeggioInversion(name, "All Inversions", k as real / n as real) == (if Contains(name, "7th") then Inversions4 else Inversions3)[k];
  }

  /** One exercise of the catalogue. Only chord exercises have a style. */
  datatype Entry = Entry(name: string, keys: seq<string>, tempo: int, style: Option<string>)

  /** The exercises of one type: "Scales", "Chords" or "Arpeggios". */
  datatype Group = Group(kind: string, entries: seq<Entry>)

  /** `techniqueData10[kind]`. */
  function Lookup(catalog: seq<Group>, kind: string): (r: Option<seq<Entry>>)
    ensures r.Some? <==> exists k :: 0 <= k < |catalog| && catalog[k].kind == kind
    ensures r.Some? ==> Group(kind, r.value) in catalog
  {
    if catalog == [] then None
    else if catalog[0].kind == kind then Some(catalog[0].entries)
    else
      var rest := Lookup(catalog[1..], kind);
      assert rest.Some? ==> exists k :: 0 <= k < |catalog| && catalog[k].kind == kind by {
        if rest.Some? {
          var j :| 0 <= j < |catalog[1..]| && catalog[1..][j].kind == kind;
          assert catalog[j + 1].kind == kind;
        }
      }
      rest
  }

  /** `Object.keys(techniqueData10)`. */
  function Kinds(catalog: seq<Group>): (ks: seq<string>)
    ensures |ks| == |catalog|
    ensures forall k :: 0 <= k < |catalog| ==> ks[k] == catalog[k].kind
  {
    seq(|catalog|, k requires 0 <= k < |catalog| => catalog[k].kind)
  }

  /** `toLowerCase` on the ASCII letters the style menu uses. */
  function Lower(s: string): (t: string)
    ensures |t| == |s|
    ensures forall k :: 0 <= k < |s| ==> t[k] == if 'A' <= s[k] <= 'Z' then (s[k] as int + 32) as char else s[k]
  {
    seq(|s|, k requires 0 <= k < |s| => if 'A' <= s[k] <= 'Z' then (s[k] as int + 32) as char else s[k])
  }

  /** The entries of one style. */
  function WithStyle(entries: seq<Entry>, style: string): (r: seq<Entry>)
    ensures forall e :: e in r <==> e in entries && e.style == Some(style)
  {
    if entries == [] then []
    else (if entries[0].style == Some(style) then [entries[0]] else []) + WithStyle(entries[1..], style)
  }

  function KeysAmong(keys: seq<string>, allowed: seq<string>): (r: seq<string>)
    ensures forall k :: k in r <==> k in keys && k in allowed
  {
    if keys == [] then []
    else (if keys[0] in allowed then [keys[0]] else []) + KeysAmong(keys[1..], allowed)
  }

  /** The entries with at least one allowed key. */
  function Matching(entries: seq<Entry>, allowed: seq<string>): (r: seq<Entry>)
    ensures forall e :: e in r <==> e in entries && exists k :: k in e.keys && k in allowed
  {
    if entries == [] then []
    else
      var e := entries[0];
      assert (exists k :: k in e.keys && k in allowed) <==> |KeysAmong(e.keys, allowed)| > 0 by {
        if exists k :: k in e.keys && k in allowed {
          var k :| k in e.keys && k in allowed;
          assert k in KeysAmong(e.keys, allowed);
        }
        if |KeysAmong(e.keys, allowed)| > 0 {
          assert KeysAmong(e.keys, allowed)[0] in KeysAmong(e.keys, allowed);
        }
      }
      (if |KeysAmong(e.keys, allowed)| > 0 then [e] else []) + Matching(entries[1..], allowed)
  }

  const Majors: seq<string> := ["Gb major", "G major", "Ab major", "A major", "Bb major", "B major"]
  const Minors: seq<string> := ["F# minor", "G minor", "G# minor", "A minor", "Bb minor", "B minor"]

  /** The four-octave scales: every major key, and both minor forms of every
      minor key. */
  const FourOctaveKeys: seq<string> := Majors + MinorScales

  /** Both minor scales of each minor key, "F# minor (harmonic)" to
      "B minor (melodic)". */
  const MinorScales: seq<string> := [
    Harmonic("F#"), Melodic("F#"), Harmonic("G"), Melodic("G"), Harmonic("G#"), Melodic("G#"),
    Harmonic("A"), Melodic("A"), Harmonic("Bb"), Melodic("Bb"), Harmonic("B"), Melodic("B")]

  function Harmonic(r: string): string { r + " minor (harmonic)" }
  function Melodic(r: string): string { r + " minor (melodic)" }

  const ScaleEntries: seq<Entry> := [
    Entry("Four-octave", FourOctaveKeys, 120, None),
    Entry("Separated by a 3rd", ["Gb major", "G major", "Ab major"], 104, None),
    Entry("Separated by a 6th", ["A major", "Bb major", "B major"], 104, None),
    Entry("In Octaves", ["Bb", "Bb minor", "B", "B minor"], 80, None),
    Entry("Chromatic in Octaves", ["any note F#\U{2013}B"], 80, None)
  ]

  const ChordEntries: seq<Entry> := [
    Entry("Tonic Four-note (broken)", Majors + Minors, 96, Some("broken")),
    Entry("Tonic Four-note (solid)", Majors + Minors, 120, Some("solid")),
    Entry("Dominant 7th (broken)", Majors, 96, Some("broken")),
    Entry("Dominant 7th (solid)", Majors, 120, Some("solid")),
    Entry("Leading-tone Dim 7th (broken)", Minors, 96, Some("broken")),
    Entry("Leading-tone Dim 7th (solid)", Minors, 120, Some("solid"))
  ]

  const ArpeggioEntries: seq<Entry> := [
    Entry("Tonic", Majors + Minors, 92, None),
    Entry("Dominant 7th", Majors, 92, None),
    Entry("Leading-tone Dim 7th", Minors, 92, None)
  ]

  /** `techniqueData10`, the level-10 catalogue the page keeps inline. */
  const Level10: seq<Group> := [Group("Scales", ScaleEntries), Group("Chords", ChordEntries), Group("Arpeggios", ArpeggioEntries)]

  /** The form of the page. `count` is `parseInt` of the count field. */
  datatype Settings = Settings(root: string, mode: string, kind: string, inversions: string, count: Option<int>, chordStyle: string)

  /** One generated exercise. A missing key is `undefined` on the page. */
  datatype Exercise = Exercise(kind: string, name: string, key: Option<string>, tempo: int, inversion: Option<string>, style: Option<string>)

  /** The outcome of one pass of the loop: a skipped pass (`continue`), an
      exercise, or a `TypeError` that ends the submission. */
  datatype Attempt = Skipped | Made(exercise: Exercise) | Crashed

  /** The entries one pass may draw from for a type: the type's entries,
      narrowed to one style for chords when a style is chosen. */
  function Eligible(entries: seq<Entry>, s: Settings, kind: string): (r: seq<Entry>)
    ensures kind == "Chords" && s.chordStyle != "Random" ==>
      forall e :: e in r <==> e in entries && e.style == Some(Lower(s.chordStyle))
    ensures !(kind == "Chords" && s.chordStyle != "Random") ==> r == entries
  {
    if kind == "Chords" && s.chordStyle != "Random" then WithStyle(entries, Lower(s.chordStyle)) else entries
  }

  predicate Unconstrained(s: Settings) {
    s.root == "Random" && s.mode == "Random"
  }

  /** What the rest of a pass adds once entry and key are drawn: an inversion
      for arpeggios, the entry's style for chords. */
  function Finish(kind: string, entry: Entry, key: Option<string>, s: Settings, u: real): (e: Exercise)
    requires IsDraw(u)
  {
    Exercise(kind, entry.name, key, entry.tempo,
      if kind == "Arpeggios" then Some(ArpeggioInversion(entry.name, s.inversions, u)) else None,
      if kind == "Chords" then entry.style else None)
  }

  /** An exercise that could come from `entry` under the settings: its name,
      tempo and key come from the entry, constrained keys are allowed ones,
      and each type carries its own extra field. */
  predicate MadeFrom(x: Exercise, entry: Entry, s: Settings) {
    && x.name == entry.name && x.tempo == entry.tempo
    && (Unconstrained(s) ==> (x.key.Some? <==> |entry.keys| > 0) && (x.key.Some? ==> x.key.value in entry.keys))
    && (!Unconstrained(s) ==>
         (&& x.key.Some?
          && ((x.key.value in entry.keys && x.key.value in PossibleKeys(s.root, s.mode, x.kind)) ||
              (x.key.value == "N/A" && "" in entry.keys && "" in PossibleKeys(s.root, s.mode, x.kind)))))
    && (x.kind == "Arpeggios" <==> x.inversion.Some?)
    && (x.kind == "Arpeggios" && s.inversions == "Root only" ==> x.inversion == Some("Root position"))
    && (x.kind == "Chords" ==> x.style == entry.style)
    && (x.kind != "Chords" ==> x.style.None?)
  }

  /** An exercise the settings allow: made from an eligible entry of a type
      the settings allow. */
  ghost predicate Allowed(catalog: seq<Group>, s: Settings, x: Exercise) {
    && (s.kind == "Random" ==> x.kind in Kinds(catalog))
    && (s.kind != "Random" ==> x.kind == s.kind)
    && Lookup(catalog, x.kind).Some?
    && exists entry :: entry in Eligible(Lookup(catalog, x.kind).value, s, x.kind) && MadeFrom(x, entry, s)
  }

  /** Entry and key drawn freely: any entry, any of its keys. */
  function DrawFree(kind: string, options: seq<Entry>, s: Settings, u1: real, u2: real, u3: real): (x: Exercise)
    requires IsDraw(u1) && IsDraw(u2) && IsDraw(u3) && |options| > 0 && Unconstrained(s)
    ensures x.kind == kind && exists entry :: entry in options && MadeFrom(x, entry, s)
  {
    var entry := options[Pick(u1, |options|)];
    var key := if |entry.keys| == 0 then None else Some(entry.keys[Pick(u2, |entry.keys|)]);
    var x := Finish(kind, entry, key, s, u3);
    assert entry in options && MadeFrom(x, entry, s);
    x
  }

  /** Entry and key drawn among those the root and mode allow; an empty key
      name reads as "N/A". Nothing is drawn when no entry has an allowed key. */
  function DrawAllowed(kind: string, options: seq<Entry>, s: Settings, u1: real, u2: real, u3: real): (x: Option<Exercise>)
    requires IsDraw(u1) && IsDraw(u2) && IsDraw(u3) && !Unconstrained(s)
    ensures x.None? <==> |Matching(options, PossibleKeys(s.root, s.mode, kind))| == 0
    ensures x.Some? ==> x.value.kind == kind && exists entry :: entry in options && MadeFrom(x.value, entry, s)
  {
    var allowed := PossibleKeys(s.root, s.mode, kind);
    var matching := Matching(options, allowed);
    if |matching| == 0 then None
    else
      var entry := matching[Pick(u1, |matching|)];
      assert entry in matching;
      var keys := KeysAmong(entry.keys, allowed);
      assert |keys| > 0 by {
        var k :| k in entry.keys && k in allowed;
        assert k in keys;
      }
      var picked := keys[Pick(u2, |keys|)];
      assert picked in keys;
      var x := Finish(kind, entry, Some(if picked == "" then "N/A" else picked), s, u3);
      assert MadeFrom(x, entry, s);
      Some(x)
  }

  /** How many draws a pass that makes an exercise uses. */
  function DrawsUsed(kind: string, s: Settings): nat {
    if kind == "Arpeggios" && s.inversions != "Root only" then 4 else 3
  }

  /** The type a pass draws, if the settings name one. */
  function DrawKind(catalog: seq<Group>, s: Settings, u: real): (kind: Option<string>)
    requires IsDraw(u)
    ensures kind.Some? <==> s.kind != "Random" || |catalog| > 0
    ensures kind.Some? && s.kind == "Random" ==> kind.value in Kinds(catalog)
    ensures kind.Some? && s.kind != "Random" ==> kind.value == s.kind
  {
    var types := if s.kind == "Random" then Kinds(catalog) else [s.kind];
    if |types| == 0 then None
    else
      var kind := types[Pick(u, |types|)];
      assert kind in types;
      Some(kind)
  }

  /** One pass of the `handleSubmit` loop over the draws `d`, and how many
      draws it used: the type, then entry and key, then an inversion. */
  function Pass(catalog: seq<Group>, s: Settings, d: nat -> real): (r: (Attempt, nat))
    requires IsDrawStream(d)
    ensures r.0.Made? ==> Allowed(catalog, s, r.0.exercise)
    ensures var kind := DrawKind(catalog, s, d(0));
      r.0.Crashed? <==>
        || kind.None? || Lookup(catalog, kind.value).None?
        || (Unconstrained(s) && |Eligible(Lookup(catalog, kind.value).value, s, kind.value)| == 0)
    ensures var kind := DrawKind(catalog, s, d(0));
      r.0.Skipped? <==>
        && kind.Some? && Lookup(catalog, kind.value).Some? && !Unconstrained(s)
        && |Matching(Eligible(Lookup(catalog, kind.value).value, s, kind.value), PossibleKeys(s.root, s.mode, kind.value))| == 0
    ensures r.1 <= 4
  {
    match DrawKind(catalog, s, d(0))
    case None => (Crashed, 1)
    case Some(kind) =>
      match Lookup(catalog, kind)
      case None => (Crashed, 1)
      case Some(all) =>
        var options := Eligible(all, s, kind);
        if Unconstrained(s) then
          if |options| == 0 then (Crashed, 2)
          else (Made(DrawFree(kind, options, s, d(1), d(2), d(3))), DrawsUsed(kind, s))
        else
          match DrawAllowed(kind, options, s, d(1), d(2), d(3))
          case None => (Skipped, 1)
          case Some(x) => (Made(x), DrawsUsed(kind, s))
  }

  /** The catalogue has every type a pass can draw and, when nothing
      constrains the draw, an entry of the chosen style under each: then no
      pass throws. */
  predicate NeverThrows(catalog: seq<Group>, s: Settings) {
    && (s.kind == "Random" ==> |catalog| > 0)
    && (s.kind != "Random" ==> Lookup(catalog, s.kind).Some? && (Unconstrained(s) ==> |Eligible(Lookup(catalog, s.kind).value, s, s.kind)| > 0))
    && (s.kind == "Random" ==> forall k :: 0 <= k < |catalog| ==>
          Lookup(catalog, catalog[k].kind).Some? && (Unconstrained(s) ==> |Eligible(Lookup(catalog, catalog[k].kind).value, s, catalog[k].kind)| > 0))
  }

  /** A pass over such a catalogue never throws. */
  lemma PassNeverThrows(catalog: seq<Group>, s: Settings, d: nat -> real)
    requires IsDrawStream(d)
    ensures NeverThrows(catalog, s) ==> !Pass(catalog, s, d).0.Crashed?
  {
    var kind := DrawKind(catalog, s, d(0));
    if NeverThrows(catalog, s) && s.kind == "Random" {
      var j :| 0 <= j < |Kinds(catalog)| && Kinds(catalog)[j] == kind.value;
      assert catalog[j].kind == kind.value;
    }
  }

  /** A pass that draws `kind` finds an entry with an allowed key, or needs
      none because nothing constrains the draw. */
  predicate FindsMatch(catalog: seq<Group>, s: Settings, kind: string) {
    || Unconstrained(s) || Lookup(catalog, kind).None?
    || |Matching(Eligible(Lookup(catalog, kind).value, s, kind), PossibleKeys(s.root, s.mode, kind))| > 0
  }

  /** Every type a pass can draw finds a match: then no pass skips. */
  predicate NoSkip(catalog: seq<Group>, s: Settings) {
    && (s.kind != "Random" ==> FindsMatch(catalog, s, s.kind))
    && (s.kind == "Random" ==> forall k :: 0 <= k < |catalog| ==> FindsMatch(catalog, s, catalog[k].kind))
  }

  /** A pass under such settings never skips. */
  lemma PassNeverSkips(catalog: seq<Group>, s: Settings, d: nat -> real)
    requires IsDrawStream(d)
    ensures NoSkip(catalog, s) ==> !Pass(catalog, s, d).0.Skipped?
  {
    var kind := DrawKind(catalog, s, d(0));
    if NoSkip(catalog, s) && s.kind == "Random" && kind.Some? {
      var j :| 0 <= j < |Kinds(catalog)| && Kinds(catalog)[j] == kind.value;
      assert catalog[j].kind == kind.value;
    }
  }

  /** The settings the form's menus offer: "Random" or a key of
      `enharmonics` for the root, and the listed options for mode, type and
      chord style. */
  predicate OnForm(s: Settings) {
    && s.root in ["Random", "Gb/F#", "Ab/G#", "A", "Bb", "B", "G"]
    && s.mode in ["Random", "Major", "Minor"]
    && s.kind in ["Random", "Scales", "Chords", "Arpeggios"]
    && s.chordStyle in ["Random", "Solid", "Broken"]
  }

  /** The three groups of the level-10 catalogue, found by their type. */
  lemma Level10Groups()
    ensures Kinds(Level10) == ["Scales", "Chords", "Arpeggios"]
    ensures Lookup(Level10, "Scales") == Some(ScaleEntries)
    ensures Lookup(Level10, "Chords") == Some(ChordEntries)
    ensures Lookup(Level10, "Arpeggios") == Some(ArpeggioEntries)
  {
    Level10Kinds();
    var rest := Level10[1..];
    assert rest[0] == Group("Chords", ChordEntries) && rest[1..] == [Group("Arpeggios", ArpeggioEntries)];
    assert Lookup(rest[1..], "Arpeggios") == Some(ArpeggioEntries);
  }

  /** The chord-style menu's options, lower-cased. */
  lemma StyleNames()
    ensures Lower("Solid") == "solid" && Lower("Broken") == "broken"
  {
  }

  /** The spelling of a root under which the level lists keys of the mode:
      the sharp spelling for minor keys, the flat one otherwise, and A for a
      random root. */
  function ListedSpelling(root: string, mode: string): string {
    if root == "Gb/F#" then (if mode == "Minor" then "F#" else "Gb")
    else if root == "Ab/G#" then (if mode == "Minor" then "G#" else "Ab")
    else if root == "Random" then "A"
    else root
  }

  /** A key of that spelling the mode allows for the type. */
  function WitnessKey(r: string, mode: string, kind: string): string {
    if mode == "Minor" then (if kind == "Scales" then r + " minor (harmonic)" else r + " minor") else r + " major"
  }

  /** The entry that lists the witness key: the four-octave scale, the tonic
      chord of the chosen style (broken unless solid is chosen), or the tonic
      arpeggio. */
  function WitnessEntry(kind: string, style: string): Entry
    requires kind in ["Scales", "Chords", "Arpeggios"]
  {
    if kind == "Scales" then ScaleEntries[0]
    else if kind == "Chords" then (if style == "Solid" then ChordEntries[1] else ChordEntries[0])
    else ArpeggioEntries[0]
  }

  /** A form root offers its listed spelling as a candidate. */
  lemma SpellingOffered(root: string, mode: string)
    requires root in ["Random", "Gb/F#", "Ab/G#", "A", "Bb", "B", "G"]
    ensures ListedSpelling(root, mode) in Candidates(root)
  {
    if root == "Random" {
      assert AllSpellings[4] == "A";
    } else {
      var k := if root == "Gb/F#" then 0 else if root == "Ab/G#" then 1 else if root == "A" then 2
               else if root == "Bb" then 3 else if root == "B" then 4 else 5;
      assert Enharmonics[k].root == root;
      SpellingsOfFirst(Enharmonics, k);
    }
  }

  /** `enharmonics[root]` for a root listed once: that entry's spellings. */
  lemma {:induction false} SpellingsOfFirst(table: seq<Spelling>, k: nat)
    requires k < |table|
    requires forall j :: 0 <= j < k ==> table[j].root != table[k].root
    ensures SpellingsOf(table, table[k].root) == Some(table[k].names)
  {
    if k > 0 {
      SpellingsOfFirst(table[1..], k - 1);
    }
  }

  /** The witness key is one the settings allow. */
  lemma WitnessAllowed(s: Settings, kind: string)
    requires OnForm(s)
    ensures WitnessKey(ListedSpelling(s.root, s.mode), s.mode, kind) in PossibleKeys(s.root, s.mode, kind)
  {
    var r := ListedSpelling(s.root, s.mode);
    SpellingOffered(s.root, s.mode);
    var i :| 0 <= i < |Candidates(s.root)| && Candidates(s.root)[i] == r;
    assert WitnessKey(r, s.mode, kind) in KeysFor(Candidates(s.root)[i], s.mode, kind);
  }

  /** The witness entry lists the witness key. */
  lemma WitnessListed(s: Settings, kind: string)
    requires OnForm(s) && kind in ["Scales", "Chords", "Arpeggios"]
    ensures WitnessKey(ListedSpelling(s.root, s.mode), s.mode, kind) in WitnessEntry(kind, s.chordStyle).keys
  {
    var r := ListedSpelling(s.root, s.mode);
    var e := WitnessEntry(kind, s.chordStyle);
    if s.mode == "Minor" {
      MinorListed(r);
      HarmonicListed(r);
      if kind != "Scales" {
        assert e.keys == Majors + Minors;
      }
    } else {
      MajorListed(r);
      assert e.keys[..6] == Majors;
    }
  }

  /** The major keys of the level, one per flat spelling. */
  lemma MajorListed(r: string)
    requires r in ["Gb", "Ab", "A", "Bb", "B", "G"]
    ensures r + " major" in Majors
  {
    if r == "Gb" { assert Majors[0] == r + " major"; }
    else if r == "G" { assert Majors[1] == r + " major"; }
    else if r == "Ab" { assert Majors[2] == r + " major"; }
    else if r == "A" { assert Majors[3] == r + " major"; }
    else if r == "Bb" { assert Majors[4] == r + " major"; }
    else { assert Majors[5] == r + " major"; }
  }

  /** The minor keys of the level, one per sharp spelling. */
  lemma MinorListed(r: string)
    requires r in ["F#", "G#", "A", "Bb", "B", "G"]
    ensures r + " minor" in Minors
  {
    if r == "F#" { assert Minors[0] == r + " minor"; }
    else if r == "G" { assert Minors[1] == r + " minor"; }
    else if r == "G#" { assert Minors[2] == r + " minor"; }
    else if r == "A" { assert Minors[3] == r + " minor"; }
    else if r == "Bb" { assert Minors[4] == r + " minor"; }
    else { assert Minors[5] == r + " minor"; }
  }

  /** The harmonic minor scale of every minor key of the level. */
  lemma HarmonicListed(r: string)
    requires r in ["F#", "G#", "A", "Bb", "B", "G"]
    ensures r + " minor (harmonic)" in FourOctaveKeys
  {
    var scales := MinorScales;
    if r == "F#" { assert scales[0] == Harmonic(r); }
    else if r == "G" { assert scales[2] == Harmonic(r); }
    else if r == "G#" { assert scales[4] == Harmonic(r); }
    else if r == "A" { assert scales[6] == Harmonic(r); }
    else if r == "Bb" { assert scales[8] == Harmonic(r); }
    else { assert scales[10] == Harmonic(r); }
    assert Harmonic(r) in MinorScales;
  }

  /** The witness entry is one a pass of that type may draw from. */
  lemma WitnessEligible(s: Settings, kind: string)
    requires s.chordStyle in ["Random", "Solid", "Broken"] && kind in ["Scales", "Chords", "Arpeggios"]
    ensures Lookup(Level10, kind).Some?
    ensures WitnessEntry(kind, s.chordStyle) in Eligible(Lookup(Level10, kind).value, s, kind)
  {
    Level10Groups();
    if kind == "Chords" {
      assert Lookup(Level10, kind) == Some(ChordEntries);
      ChordWitnessEligible(s);
    } else if kind == "Scales" {
      assert Lookup(Level10, kind) == Some(ScaleEntries) && WitnessEntry(kind, s.chordStyle) == ScaleEntries[0];
      assert ScaleEntries[0] in Eligible(ScaleEntries, s, kind);
    } else {
      assert Lookup(Level10, kind) == Some(ArpeggioEntries) && WitnessEntry(kind, s.chordStyle) == ArpeggioEntries[0];
      assert ArpeggioEntries[0] in Eligible(ArpeggioEntries, s, kind);
    }
  }

  /** The tonic chord of the chosen style is drawable; either one is under a
      random style. */
  lemma ChordWitnessEligible(s: Settings)
    requires s.chordStyle in ["Random", "Solid", "Broken"]
    ensures WitnessEntry("Chords", s.chordStyle) in Eligible(ChordEntries, s, "Chords")
  {
    var e := WitnessEntry("Chords", s.chordStyle);
    if s.chordStyle == "Solid" {
      StyleNames();
      assert e == ChordEntries[1] && e.style == Some(Lower(s.chordStyle));
    } else if s.chordStyle == "Broken" {
      StyleNames();
      assert e == ChordEntries[0] && e.style == Some(Lower(s.chordStyle));
    } else {
      assert e == ChordEntries[0];
    }
  }

  /** Under every form setting, a pass of any level-10 type finds a match. */
  lemma Level10FindsMatch(s: Settings, kind: string)
    requires OnForm(s) && kind in ["Scales", "Chords", "Arpeggios"]
    ensures FindsMatch(Level10, s, kind)
  {
    WitnessAllowed(s, kind);
    WitnessListed(s, kind);
    WitnessEligible(s, kind);
  }

  /** Every setting the form offers is safe on the level-10 catalogue: no
      pass throws and no pass skips. */
  lemma Level10Safe(s: Settings)
    requires OnForm(s)
    ensures NeverThrows(Level10, s) && NoSkip(Level10, s)
  {
    Level10Kinds();
    forall k | 0 <= k < |Level10| ensures Safe(Level10, s, Level10[k].kind) {
      KindSafe(s, Level10[k].kind);
    }
    if s.kind != "Random" {
      KindSafe(s, s.kind);
    }
    SafeByKinds(Level10, s);
  }

  /** A catalogue whose every type is safe under the settings, as is the
      type the settings name, is safe for every pass. */
  lemma SafeByKinds(catalog: seq<Group>, s: Settings)
    requires |catalog| > 0
    requires forall k :: 0 <= k < |catalog| ==> Safe(catalog, s, catalog[k].kind)
    requires s.kind == "Random" || Safe(catalog, s, s.kind)
    ensures NeverThrows(catalog, s) && NoSkip(catalog, s)
  {
  }

  /** A pass of `kind` under the settings neither throws nor skips. */
  predicate Safe(catalog: seq<Group>, s: Settings, kind: string) {
    && Lookup(catalog, kind).Some?
    && (Unconstrained(s) ==> |Eligible(Lookup(catalog, kind).value, s, kind)| > 0)
    && FindsMatch(catalog, s, kind)
  }

  /** The catalogue's types, by position. */
  lemma Level10Kinds()
    ensures |Level10| == 3
    ensures Level10[0].kind == "Scales" && Level10[1].kind == "Chords" && Level10[2].kind == "Arpeggios"
  {
  }

  /** A pass of one level-10 type under a form setting neither throws nor skips. */
  lemma KindSafe(s: Settings, kind: string)
    requires OnForm(s) && kind in ["Scales", "Chords", "Arpeggios"]
    ensures Safe(Level10, s, kind)
  {
    WitnessEligible(s, kind);
    Level10FindsMatch(s, kind);
  }

  /** At most 1000 passes are made. */
  const MaxAttempts: nat := 1000

  /** How many exercises a count asks for once the pass limit applies. */
  function Capped(count: int): (n: nat)
    ensures n <= MaxAttempts
    ensures 0 <= count <= MaxAttempts ==> n == count
    ensures count < 0 ==> n == 0
    ensures count > MaxAttempts ==> n == MaxAttempts
  {
    if count < 0 then 0 else if count > MaxAttempts then MaxAttempts else count
  }

  /** One pass of the loop, with the facts the loop relies on: a made
      exercise is allowed, only a constrained pass without a match skips, and
      a throw needs a catalogue where some pass can throw. */
  method OnePass(catalog: seq<Group>, s: Settings, d: nat -> real) returns (a: Attempt, used: nat)
    requires IsDrawStream(d)
    ensures a.Made? ==> Allowed(catalog, s, a.exercise)
    ensures Unconstrained(s) ==> !a.Skipped?
    ensures NoSkip(catalog, s) ==> !a.Skipped?
    ensures a.Crashed? ==> !NeverThrows(catalog, s)
  {
    PassNeverThrows(catalog, s, d);
    PassNeverSkips(catalog, s, d);
    var pass := Pass(catalog, s, d);
    a, used := pass.0, pass.1;
  }

  /** What a submission leaves: the exercises (absent when a pass threw), the
      passes made, and whether the shortfall warning was logged. */
  datatype Submitted = Submitted(exercises: Result<seq<Exercise>, string>, attempts: nat, warned: bool)

  /** `handleSubmit`: passes continue until `count` exercises exist or 1000
      passes are spent. A `NaN` count makes none. Every exercise is one the
      settings allow, and the warning is logged exactly when fewer than
      `count` were made. */
  method HandleSubmit(catalog: seq<Group>, s: Settings, d: nat -> real) returns (r: Submitted)
    requires IsDrawStream(d)
    ensures r.attempts <= MaxAttempts
    ensures r.exercises.Ok? ==> s.count.Some? || |r.exercises.value| == 0
    ensures r.exercises.Ok? && s.count.Some? ==> |r.exercises.value| <= if s.count.value < 0 then 0 else s.count.value
    ensures r.exercises.Ok? ==> |r.exercises.value| <= r.attempts
    ensures r.exercises.Ok? ==> forall k :: 0 <= k < |r.exercises.value| ==> Allowed(catalog, s, r.exercises.value[k])
    ensures r.exercises.Ok? ==> (r.warned <==> s.count.Some? && |r.exercises.value| < s.count.value)
    ensures r.exercises.Ok? && Unconstrained(s) && s.count.Some? && s.count.value <= MaxAttempts ==>
      |r.exercises.value| == if s.count.value < 0 then 0 else s.count.value
    ensures NeverThrows(catalog, s) ==> r.exercises.Ok?
    ensures r.exercises.Err? ==> r.attempts > 0 && !NeverThrows(catalog, s)
    ensures r.exercises.Ok? && r.warned ==> r.attempts == MaxAttempts
    ensures r.exercises.Ok? && NoSkip(catalog, s) && s.count.Some? ==> |r.exercises.value| == Capped(s.count.value)
  {
    var generated: seq<Exercise> := [];
    var attempts: nat := 0;
    var cursor: nat := 0;
    while s.count.Some? && |generated| < s.count.value && attempts < MaxAttempts
      invariant attempts <= MaxAttempts
      invariant |generated| <= attempts
      invariant s.count.Some? ==> |generated| <= if s.count.value < 0 then 0 else s.count.value
      invariant s.count.None? ==> generated == []
      invariant Unconstrained(s) ==> |generated| == attempts
      invariant NoSkip(catalog, s) ==> |generated| == attempts
      invariant forall k :: 0 <= k < |generated| ==> Allowed(catalog, s, generated[k])
      decreases MaxAttempts - attempts
    {
      attempts := attempts + 1;
      SkipIsDrawStream(d, cursor);
      var attempt, used := OnePass(catalog, s, Skip(d, cursor));
      cursor := cursor + used;
      match attempt {
        case Crashed =>
          return Submitted(Err("TypeError"), attempts, false);
        case Skipped =>
        case Made(x) =>
          generated := generated + [x];
      }
    }
    r := Submitted(Ok(generated), attempts, s.count.Some? && |generated| < s.count.value);
  }

  /** The page's `handleSubmit` on its own catalogue: every setting the form
      offers gives exercises, exactly `count` of them up to 1000, and the
      warning only for a count above 1000. */
  method Submit(s: Settings, d: nat -> real) returns (r: Submitted)
    requires IsDrawStream(d)
    ensures OnForm(s) ==> r.exercises.Ok?
    ensures OnForm(s) && s.count.Some? ==> |r.exercises.value| == Capped(s.count.value)
    ensures OnForm(s) && s.count.None? ==> r.exercises == Ok([])
    ensures OnForm(s) ==> (r.warned <==> s.count.Some? && s.count.value > MaxAttempts)
    ensures r.exercises.Ok? ==> forall k :: 0 <= k < |r.exercises.value| ==> Allowed(Level10, s, r.exercises.value[k])
  {
    if OnForm(s) {
      Level10Safe(s);
    }
    r := HandleSubmit(Level10, s, d);
  }
}
