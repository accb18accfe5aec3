/**
 * The plucks of final/project/main.js: a scale of twelve on/off degrees, a
 * pool of sixteen voices taken in turn, and the control handler that
 * reshapes the notes. A requested degree is moved to the nearest degree
 * that is on, looking at most half the scale away, with the lower side
 * first. The 3D particle scene is reduced to the particle ids and whether
 * they are visible, and the degree-to-hertz formula is a parameter.
 */
module Plucks {
  import opened JsCore
  import opened PluckPatch
  import opened Ctrl

  /** `boolArray[k] === true`: an index outside the array reads undefined. */
  predicate At(b: seq<bool>, k: int)
  {
    0 <= k < |b| && b[k]
  }

  /** The two probes of step j: `boolArray[(i - j + len) % len] === true`
      and `boolArray[(i + j) % len] === true`. */
  predicate LowerHit(i: int, b: seq<bool>, j: int)
    requires |b| > 0
  {
    At(b, JsRem(i - j + |b|, |b|))
  }

  predicate UpperHit(i: int, b: seq<bool>, j: int)
    requires |b| > 0
  {
    At(b, JsRem(i + j, |b|))
  }

  /** The search loop of `getClosest` from step j on. */
  function ClosestFrom(i: int, b: seq<bool>, j: nat): Option<int>
    requires |b| > 0
    decreases |b| - j
  {
    if 2 * j >= |b| then None
    else if LowerHit(i, b, j) then Some(i - j)
    else if UpperHit(i, b, j) then Some(i + j)
    else ClosestFrom(i, b, j + 1)
  }

  /** `getClosest(i, boolArray)`: None for null. On an empty array `i % 0`
      is NaN and the loop does not run. */
  function Closest(i: int, b: seq<bool>): Option<int>
  {
    if |b| == 0 then None
    else if At(b, JsRem(i, |b|)) then Some(i)
    else ClosestFrom(i, b, 0)
  }

  /** `getClosest`, with its loop. */
  method GetClosest(i: int, b: seq<bool>) returns (r: Option<int>)
    ensures r == Closest(i, b)
  {
    var len := |b|;
    if len == 0 {
      return None;
    }
    if At(b, JsRem(i, len)) {
      return Some(i);
    }
    var j := 0;
    while 2 * j < len
      invariant ClosestFrom(i, b, j) == Closest(i, b)
      decreases len - j
    {
      if At(b, JsRem(i - j + len, len)) {
        assert LowerHit(i, b, j);
        return Some(i - j);
      } else if At(b, JsRem(i + j, len)) {
        return Some(i + j);
      }
      j := j + 1;
    }
    return None;
  }

  /** The degree `getPitch(ref, octave)` sounds, `closest + octave * len`;
      None where it returns 0. */
  function Pitch(ref: int, octave: int, scale: seq<bool>): Option<int>
  {
    match Closest(ref, scale)
    case None => None
    case Some(c) => Some(c + octave * |scale|)
  }

  /** `getPitch`, by way of the loop of `getClosest`. */
  method GetPitch(ref: int, octave: int, scale: seq<bool>) returns (m: Option<int>)
    ensures m == Pitch(ref, octave, scale)
  {
    var closest := GetClosest(ref, scale);
    if closest.None? {
      return None;
    }
    return Some(closest.value + octave * |scale|);
  }

  const VoiceCount: nat := 16

  /** The voice `voices[voiceIndex % voiceCount]` names. */
  function VoiceSlot(voiceIndex: nat): (k: nat)
    ensures k < VoiceCount
  {
    voiceIndex % VoiceCount
  }

  /** `modBuffer[0] = 0` and `modBuffer[len - 1] = 0`. */
  function SilentEnds(buf: seq<real>): (r: seq<real>)
    requires |buf| > 0
    ensures |r| == |buf|
  {
    buf[0 := 0.0][|buf| - 1 := 0.0]
  }

  /** The scale the sketch starts with: only the first degree is on. */
  const InitialScale: seq<bool> := [true] + seq(11, _ => false)

  /** The `PLUCKS` object, the voice pool and the globals the control
      handler sets. */
  class Plucks {
    var scale: seq<bool>
    var particles: seq<nat>
    /** The particles made invisible. */
    var hidden: set<nat>
    const modBuffer: array<real>
    var noteLength: real
    var speed: real
    var spin: real
    const voices: seq<Voice>
    var voiceIndex: nat
    var timeStep: real
    var globalSpin: real

    /** Sixteen distinct voices, all playing the one shared curve. */
    predicate Valid()
      reads this, voices
    {
      |voices| == VoiceCount && modBuffer.Length == 16
      && (forall k :: 0 <= k < |voices| ==> voices[k].modCurve == modBuffer)
      && (forall j, k :: 0 <= j < k < |voices| ==> voices[j] != voices[k])
    }

    /** The `PLUCKS` literal, its two edits, and the loop that makes the
        voices. */
    constructor()
      ensures Valid() && fresh(modBuffer)
      ensures scale == InitialScale && particles == [] && hidden == {} && voiceIndex == 0
      ensures modBuffer[..] == seq(16, _ => 0.0)[1 := 0.4]
      ensures noteLength == 0.2 && speed == 0.5 && spin == 0.5
      ensures timeStep == 1.0 && globalSpin == 0.0
      ensures forall k :: 0 <= k < |voices| ==> fresh(voices[k]) && voices[k].State() == NewVoiceState
    {
      var buf := new real[16](_ => 0.0);
      buf[1] := 0.4;
      var vs: seq<Voice> := [];
      for i := 0 to VoiceCount
        invariant |vs| == i
        invariant forall k :: 0 <= k < i ==> fresh(vs[k]) && vs[k].modCurve == buf && vs[k].State() == NewVoiceState
        invariant forall j, k :: 0 <= j < k < i ==> vs[j] != vs[k]
        invariant buf[..] == seq(16, _ => 0.0)[1 := 0.4]
      {
        var voice := new Voice();
        voice.modCurve := buf;
        vs := vs + [voice];
      }
      scale := InitialScale;
      particles := [];
      hidden := {};
      modBuffer := buf;
      noteLength := 0.2;
      speed := 0.5;
      spin := 0.5;
      voices := vs;
      voiceIndex := 0;
      timeStep := 1.0;
      globalSpin := 0.0;
    }

    /** `PLUCKS.play(note, octave, pan)` at time `now`, with `hz` the
        frequency of a degree. The next voice is used only if it is done
        with its note; the index then advances even if the context is
        suspended and the trigger does nothing. */
    method Play(note: int, octave: int, pan: real, now: real, suspended: bool, hz: int -> real)
      requires Valid()
      modifies this, voices[VoiceSlot(voiceIndex)]
      ensures Valid()
      ensures unchanged(this`scale, this`particles, this`hidden, this`noteLength, this`speed, this`spin, this`timeStep, this`globalSpin)
      ensures var v := voices[VoiceSlot(old(voiceIndex))];
              if Pitch(note, octave, scale).Some? && old(v.TriggerDone(now)) then
                voiceIndex == old(voiceIndex) + 1 && v.pan == pan
                && v.State() == TriggerOf(old(v.State()), modBuffer[..], hz(Pitch(note, octave, scale).value), now, suspended)
              else
                voiceIndex == old(voiceIndex) && unchanged(v)
    {
      var pitch := GetPitch(note, octave, scale);
      if pitch.None? {
        return;
      }
      var v := voices[VoiceSlot(voiceIndex)];
      if v.TriggerDone(now) {
        v.pan := pan;
        v.Trigger(hz(pitch.value), now, suspended);
        voiceIndex := voiceIndex + 1;
      }
    }

    /** `PLUCKS.clear()`: every particle is hidden and the list emptied. */
    method Clear()
      modifies this
      ensures particles == [] && hidden == old(hidden) + set p | p in old(particles)
      ensures unchanged(this`scale, this`voiceIndex, this`noteLength, this`speed, this`spin, this`timeStep, this`globalSpin)
    {
      hidden := hidden + set p | p in particles;
      particles := [];
    }

    /** `pluckCtrl.onChange()`: every voice takes the note length the
        control gives, the clock and spin follow theirs, and the curve is
        made to start and end silent. Resuming the context is not modelled. */
    method OnChange()
      requires Valid()
      modifies this, modBuffer, set k | 0 <= k < |voices| :: voices[k]
      ensures Valid()
      ensures forall k :: 0 <= k < |voices| ==>
                voices[k].noteLength == Lerp(0.2, 3.0, noteLength)
                && voices[k].nextTrigger == old(voices[k].nextTrigger) && voices[k].log == old(voices[k].log)
                && voices[k].pan == old(voices[k].pan)
      ensures modBuffer[..] == SilentEnds(old(modBuffer[..]))
      ensures timeStep == Lerp(0.5, 10.0, speed) && globalSpin == Lerp(-1.0, 1.0, spin)
      ensures unchanged(this`scale, this`particles, this`hidden, this`voiceIndex, this`noteLength, this`speed, this`spin)
    {
      var length := Lerp(0.2, 3.0, noteLength);
      for i := 0 to |voices|
        invariant Valid()
        invariant forall k :: 0 <= k < i ==> voices[k].noteLength == length
        invariant forall k :: 0 <= k < |voices| ==>
                    voices[k].nextTrigger == old(voices[k].nextTrigger) && voices[k].log == old(voices[k].log)
                    && voices[k].pan == old(voices[k].pan)
        invariant modBuffer[..] == old(modBuffer[..])
        invariant unchanged(this)
      {
        voices[i].noteLength := length;
      }
      timeStep := Lerp(0.5, 10.0, speed);
      modBuffer[0] := 0.0;
      modBuffer[modBuffer.Length - 1] := 0.0;
      globalSpin := Lerp(-1.0, 1.0, spin);
    }
  }

  // ---------------------------------------------------------------------------
  // Properties of getClosest
  // ---------------------------------------------------------------------------

  /** The distance between two integers. */
  function Dist(r: int, i: int): nat
  {
    if r < i then i - r else r - i
  }

  /** Euclidean `%` recovers the remainder of q * n + r. */
  lemma ModOf(q: int, n: nat, r: int)
    requires n > 0 && 0 <= r < n
    ensures (q * n + r) % n == r
  {
    var m := q * n + r;
    var p := m / n;
    assert m == p * n + m % n;
    assert (p - q) * n == r - m % n;
    MulBound(p - q, n);
  }

  /** A non-zero multiple of n is at least n away from 0. */
  lemma MulBound(a: int, n: int)
    requires n >= 0
    ensures a >= 1 ==> a * n >= n
    ensures a <= -1 ==> a * n <= -n
  {
    if a >= 1 {
      assert a * n == n + (a - 1) * n;
    }
    if a <= -1 {
      assert a * n == -n - (-a - 1) * n;
    }
  }

  /** `x % n` and `(x + n) % n` name the same array slot. */
  lemma RemShift(x: int, n: nat)
    requires n > 0 && 0 <= JsRem(x, n)
    ensures JsRem(x + n, n) == JsRem(x, n)
  {
    if x >= 0 {
      ModOf(x / n, n, x % n);
      ModOf(x / n + 1, n, x % n);
      assert x + n == (x / n + 1) * n + x % n;
    } else {
      var k := (-x) / n;
      assert (-x) % n == 0;
      assert -x == k * n;
      if x + n >= 0 {
        assert x + n == (1 - k) * n + 0;
        ModOf(1 - k, n, 0);
      } else {
        assert -(x + n) == (k - 1) * n + 0;
        ModOf(k - 1, n, 0);
      }
    }
  }

  /** What a hit of the loop from step j on is: at the step of its
      distance, the lower probe if it is below i, else the upper probe
      with the lower one missing; every nearer step missed on both sides. */
  predicate FoundAt(i: int, b: seq<bool>, j: nat, r: int)
    requires |b| > 0
  {
    var d := Dist(r, i);
    j <= d && 2 * d < |b|
    && ((r <= i && LowerHit(i, b, d)) || (r >= i && UpperHit(i, b, d) && !LowerHit(i, b, d)))
    && forall e :: j <= e < d ==> !LowerHit(i, b, e) && !UpperHit(i, b, e)
  }

  lemma {:induction false} ClosestFromHit(i: int, b: seq<bool>, j: nat, r: int)
    requires |b| > 0 && ClosestFrom(i, b, j) == Some(r)
    ensures FoundAt(i, b, j, r)
    decreases |b| - j
  {
    if LowerHit(i, b, j) {
      assert r == i - j;
    } else if UpperHit(i, b, j) {
      assert r == i + j;
    } else {
      ClosestFromHit(i, b, j + 1, r);
    }
  }

  lemma {:induction false} ClosestFromReaches(i: int, b: seq<bool>, j: nat, r: int)
    requires |b| > 0 && FoundAt(i, b, j, r)
    ensures ClosestFrom(i, b, j) == Some(r)
    decreases |b| - j
  {
    if j < Dist(r, i) {
      ClosestFromReaches(i, b, j + 1, r);
    }
  }

  /** The loop from step j on returns exactly the hits `FoundAt`
      describes. */
  lemma ClosestFromIff(i: int, b: seq<bool>, j: nat, r: int)
    requires |b| > 0
    ensures ClosestFrom(i, b, j) == Some(r) <==> FoundAt(i, b, j, r)
  {
    if ClosestFrom(i, b, j) == Some(r) {
      ClosestFromHit(i, b, j, r);
    }
    if FoundAt(i, b, j, r) {
      ClosestFromReaches(i, b, j, r);
    }
  }

  /** A closest degree is on (slot `(r + len) % len`), is less than half the
      scale from i, and no nearer degree on either side is on; at equal
      distance the lower side wins. */
  lemma ClosestIsNearest(i: int, b: seq<bool>, r: int)
    requires Closest(i, b) == Some(r)
    ensures At(b, JsRem(r + |b|, |b|))
    ensures 2 * Dist(r, i) < |b|
    ensures forall d :: 0 <= d < Dist(r, i) ==> !LowerHit(i, b, d) && !UpperHit(i, b, d)
    ensures r > i ==> !LowerHit(i, b, Dist(r, i))
  {
    var n := |b|;
    if At(b, JsRem(i, n)) {
      RemShift(i, n);
    } else {
      ClosestFromHit(i, b, 0, r);
      if r <= i && LowerHit(i, b, Dist(r, i)) {
        assert i - Dist(r, i) + n == r + n;
      } else {
        assert UpperHit(i, b, r - i);
        RemShift(r, n);
      }
    }
  }

  /** The loop from step j finds nothing exactly when no step from j on,
      below half the scale, hits on either side. */
  lemma {:induction false} ClosestFromNone(i: int, b: seq<bool>, j: nat)
    requires |b| > 0
    ensures ClosestFrom(i, b, j).None? <==>
      forall d :: j <= d && 2 * d < |b| ==> !LowerHit(i, b, d) && !UpperHit(i, b, d)
    decreases |b| - j
  {
    if 2 * j < |b| {
      ClosestFromNone(i, b, j + 1);
    }
  }

  /** `getClosest` returns null exactly when neither i itself nor any
      candidate less than half the scale away is on. */
  lemma ClosestNoneIff(i: int, b: seq<bool>)
    requires |b| > 0
    ensures Closest(i, b).None? <==>
      !At(b, JsRem(i, |b|)) && forall d :: 0 <= d && 2 * d < |b| ==> !LowerHit(i, b, d) && !UpperHit(i, b, d)
  {
    ClosestFromNone(i, b, 0);
  }

  /** With an even number of degrees the degree exactly half the scale away
      is never examined: on a two-degree scale with only degree 1 on, 0
      finds nothing. */
  lemma HalfwayUnexamined()
    ensures Closest(0, [false, true]).None?
    ensures At([false, true], JsRem(0 + 1, 2))
  {
    ClosestNoneIff(0, [false, true]);
  }

  /** On the initial scale a degree less than half an octave above a C
      falls back to it, and one more than half an octave above goes up to
      the next C. */
  lemma InitialScaleRounds()
    ensures Closest(5, InitialScale) == Some(0)
    ensures Closest(7, InitialScale) == Some(12)
  {
    var b := InitialScale;
    assert |b| == 12 && b[0] && forall k :: 1 <= k < 12 ==> !b[k];
    forall e | 0 <= e < 5
      ensures !LowerHit(5, b, e) && !UpperHit(5, b, e)
    {
      ModOf(1, 12, 5 - e);
      assert 5 - e + 12 == 1 * 12 + (5 - e);
      ModOf(0, 12, 5 + e);
    }
    ModOf(1, 12, 0);
    assert LowerHit(5, b, 5);
    assert !At(b, JsRem(5, 12)) by { ModOf(0, 12, 5); }
    ClosestFromReaches(5, b, 0, 0);
    forall e | 0 <= e < 5
      ensures !LowerHit(7, b, e) && !UpperHit(7, b, e)
    {
      ModOf(1, 12, 7 - e);
      assert 7 - e + 12 == 1 * 12 + (7 - e);
      ModOf(0, 12, 7 + e);
    }
    assert !LowerHit(7, b, 5) by {
      ModOf(1, 12, 2);
      assert 7 - 5 + 12 == 1 * 12 + 2;
    }
    assert UpperHit(7, b, 5);
    assert !At(b, JsRem(7, 12)) by { ModOf(0, 12, 7); }
    ClosestFromReaches(7, b, 0, 12);
  }

  /** A pitch sounds exactly when a closest degree exists, and its degree
      lies on the same scale step as that one, `octave` octaves away. */
  lemma PitchOnScale(ref: int, octave: int, scale: seq<bool>)
    ensures Pitch(ref, octave, scale).Some? <==> Closest(ref, scale).Some?
    ensures Pitch(ref, octave, scale).Some? ==>
              Pitch(ref, octave, scale).value - octave * |scale| == Closest(ref, scale).value
              && At(scale, JsRem(Closest(ref, scale).value + |scale|, |scale|))
  {
    if Closest(ref, scale).Some? {
      ClosestIsNearest(ref, scale, Closest(ref, scale).value);
    }
  }

  // ---------------------------------------------------------------------------
  // Properties of the voice pool and the control handler
  // ---------------------------------------------------------------------------

  /** The voices sixteen consecutive advances from `start` use. */
  function Slots(start: nat): (s: seq<int>)
    ensures |s| == VoiceCount
  {
    seq(VoiceCount, a requires 0 <= a < VoiceCount => VoiceSlot(start + a))
  }

  /** Sixteen consecutive advances of the voice index use every voice
      once. */
  lemma RoundRobin(start: nat)
    ensures forall a, c :: 0 <= a < c < VoiceCount ==> Slots(start)[a] != Slots(start)[c]
    ensures forall k :: 0 <= k < VoiceCount ==> k in Slots(start)
  {
    forall a, c | 0 <= a < c < VoiceCount
      ensures Slots(start)[a] != Slots(start)[c]
    {
      SlotsApart(start, a, c);
    }
    forall k | 0 <= k < VoiceCount
      ensures k in Slots(start)
    {
      var a := (k - start % VoiceCount + VoiceCount) % VoiceCount;
      SlotOf(start, a, k);
      assert VoiceSlot(start + a) == k;
      assert Slots(start)[a] == k;
    }
  }

  lemma SlotsApart(start: nat, a: nat, c: nat)
    requires a < c < VoiceCount
    ensures (start + a) % VoiceCount != (start + c) % VoiceCount
  {
    var q := (start + a) / VoiceCount;
    var s := (start + c) / VoiceCount;
    assert start + a == q * VoiceCount + (start + a) % VoiceCount;
    assert start + c == s * VoiceCount + (start + c) % VoiceCount;
  }

  lemma SlotOf(start: nat, a: int, k: nat)
    requires k < VoiceCount && a == (k - start % VoiceCount + VoiceCount) % VoiceCount
    ensures 0 <= a < VoiceCount && (start + a) % VoiceCount == k
  {
    var s := start % VoiceCount;
    assert start == (start / VoiceCount) * VoiceCount + s;
    if k >= s {
      assert a == k - s;
      assert start + a == (start / VoiceCount) * VoiceCount + k;
    } else {
      assert a == k - s + VoiceCount;
      assert start + a == (start / VoiceCount + 1) * VoiceCount + k;
    }
  }

  /** A note length set from a control value in [0, 1] runs from 0.2 to 3
      seconds, so a fired voice is held for at least 0.2 seconds. */
  lemma NoteLengthRange(t: real)
    requires 0.0 <= t <= 1.0
    ensures 0.2 <= Lerp(0.2, 3.0, t) <= 3.0
  {
    LerpBetween(0.2, 3.0, t);
  }

  /** After the handler the curve starts and ends at silence, every other
      point is kept, and running the handler again changes nothing more. */
  lemma SilentEndsShape(buf: seq<real>)
    requires |buf| > 0
    ensures SilentEnds(buf)[0] == 0.0 && SilentEnds(buf)[|buf| - 1] == 0.0
    ensures forall k :: 0 < k < |buf| - 1 ==> SilentEnds(buf)[k] == buf[k]
    ensures SilentEnds(SilentEnds(buf)) == SilentEnds(buf)
  {
  }
}
