/** What the pages hand to the sampler, as data. A page never waits for audio:
    it calls `triggerAttackRelease` now or inside a `setTimeout`, so a play is
    fully described by the list of (delay, notes, duration) it schedules. */
module Playback {

  /** One `triggerAttackRelease(notes, seconds)` call, made `offsetMs`
      milliseconds after the play starts. Notes are MIDI numbers; the sampler
      receives their `MidiToNoteName` spellings. */
  datatype Event = Event(offsetMs: real, notes: seq<int>, seconds: real)

  ghost predicate NonDecreasingOffsets(es: seq<Event>) {
    forall i, j :: 0 <= i < j < |es| ==> es[i].offsetMs <= es[j].offsetMs
  }

  /** The same calls, each made `delayMs` later (an enclosing `setTimeout`). */
  function Delay(es: seq<Event>, delayMs: real): (r: seq<Event>)
    ensures |r| == |es|
    ensures forall i :: 0 <= i < |es| ==>
      r[i].offsetMs == es[i].offsetMs + delayMs && r[i].notes == es[i].notes && r[i].seconds == es[i].seconds
  {
    seq(|es|, i requires 0 <= i < |es| => es[i].(offsetMs := es[i].offsetMs + delayMs))
  }

  /** Every note of every call, in call order. */
  function NotesInOrder(es: seq<Event>): seq<int> {
    if es == [] then [] else es[0].notes + NotesInOrder(es[1..])
  }

  /** The calls made after a positive delay. */
  function Delayed(es: seq<Event>): nat {
    if es == [] then 0 else (if es[0].offsetMs > 0.0 then 1 else 0) + Delayed(es[1..])
  }

  /** `Delayed` of a play of at most two calls, call by call. */
  lemma DelayedOfShort(es: seq<Event>)
    requires |es| <= 2
    ensures Delayed(es) == (if |es| > 0 && es[0].offsetMs > 0.0 then 1 else 0) + (if |es| > 1 && es[1].offsetMs > 0.0 then 1 else 0)
  {
    if |es| > 0 {
      assert |es| > 1 ==> es[1..][1..] == [];
    }
  }
}
