/**
 * The plucked voice of final/project/patch.js. A voice plays one note at a
 * time: `trigger` glides its base frequency to the note and plays its gain
 * curve over the note length, and then refuses new notes until the note is
 * over. `triggerDone` says whether it would accept one. The audio graph the
 * constructor wires is not modelled; the two automation calls a trigger
 * makes are recorded as events, and the context's clock and state are
 * parameters.
 */
module PluckPatch {
  import opened JsCore

  /** The automation a trigger issues: `frequency.setTargetAtTime(freq,
      start, timeConstant)` and `gain.setValueCurveAtTime(curve, start,
      duration)`. */
  datatype VoiceEvent =
    | FrequencyTarget(freq: real, start: real, timeConstant: real)
    | GainCurve(curve: seq<real>, start: real, duration: real)

  /** `currentTime > nextTrigger`, for a gate that may be -Infinity. */
  predicate After(now: real, nextTrigger: JsNumber)
  {
    nextTrigger.NegInf? || (nextTrigger.Finite? && now > nextTrigger.r)
  }

  /** What a trigger depends on and changes. */
  datatype VoiceState = VoiceState(nextTrigger: JsNumber, noteLength: real, log: seq<VoiceEvent>)

  /** A voice as the constructor leaves it. */
  const NewVoiceState: VoiceState := VoiceState(NegInf, 1.0, [])

  /** `trigger(freq)` at time `now` on a context that is suspended or not,
      with `curve` the voice's modulation curve. */
  function TriggerOf(v: VoiceState, curve: seq<real>, freq: real, now: real, suspended: bool): VoiceState
  {
    if suspended || !After(now, v.nextTrigger) then v
    else v.(nextTrigger := Finite(now + v.noteLength),
            log := v.log + [FrequencyTarget(freq, 0.0, 0.001), GainCurve(curve, now, v.noteLength)])
  }

  class Voice {
    var nextTrigger: JsNumber
    var noteLength: real
    var pan: real
    var log: seq<VoiceEvent>
    /** The gain curve; `main.js` points every voice at one shared buffer. */
    var modCurve: array<real>

    function State(): VoiceState
      reads this
    {
      VoiceState(nextTrigger, noteLength, log)
    }

    /** `new Patch(ctx, ...)`: gate open, notes one second long, a curve of
        eight zeros. */
    constructor()
      ensures State() == NewVoiceState && pan == 0.0
      ensures fresh(modCurve) && modCurve[..] == seq(8, _ => 0.0)
    {
      nextTrigger := NegInf;
      noteLength := 1.0;
      pan := 0.0;
      log := [];
      modCurve := new real[8](_ => 0.0);
    }

    /** `triggerDone`. */
    predicate TriggerDone(now: real)
      reads this
    {
      After(now, nextTrigger)
    }

    /** `trigger(freq)` at time `now`. */
    method Trigger(freq: real, now: real, suspended: bool)
      modifies this
      ensures State() == TriggerOf(old(State()), modCurve[..], freq, now, suspended)
      ensures modCurve == old(modCurve) && pan == old(pan)
    {
      if suspended {
        return;
      }
      if After(now, nextTrigger) {
        log := log + [FrequencyTarget(freq, 0.0, 0.001), GainCurve(modCurve[..], now, noteLength)];
        nextTrigger := Finite(now + noteLength);
      }
    }
  }

  // ---------------------------------------------------------------------------
  // Properties
  // ---------------------------------------------------------------------------

  /** On a suspended context a trigger changes nothing. */
  lemma SuspendedIgnored(v: VoiceState, curve: seq<real>, freq: real, now: real)
    ensures TriggerOf(v, curve, freq, now, true) == v
  {
  }

  /** A trigger fires exactly when the context runs and `triggerDone`
      holds; when it does not fire, no automation is issued and the gate is
      unchanged. When it fires, it issues the glide and the curve and closes
      the gate until the note ends. */
  lemma FiresExactlyWhenDone(v: VoiceState, curve: seq<real>, freq: real, now: real, suspended: bool)
    ensures var w := TriggerOf(v, curve, freq, now, suspended);
            (w.log != v.log <==> !suspended && After(now, v.nextTrigger))
            && (w.log == v.log ==> w == v)
    ensures var w := TriggerOf(v, curve, freq, now, suspended);
            w.log != v.log ==>
              w.nextTrigger == Finite(now + v.noteLength) && w.noteLength == v.noteLength
              && w.log == v.log + [FrequencyTarget(freq, 0.0, 0.001), GainCurve(curve, now, v.noteLength)]
  {
  }

  /** The first trigger on a running context always fires. */
  lemma FirstTriggerFires(curve: seq<real>, freq: real, now: real)
    ensures TriggerOf(NewVoiceState, curve, freq, now, false)
            == VoiceState(Finite(now + 1.0), 1.0, [FrequencyTarget(freq, 0.0, 0.001), GainCurve(curve, now, 1.0)])
  {
  }

  /** After firing at `now`, the voice ignores every trigger up to and
      including `now + noteLength`, and is done with the note at any later
      time. */
  lemma HeldForNoteLength(v: VoiceState, curve: seq<real>, freq: real, now: real, curve2: seq<real>, freq2: real, t: real)
    requires After(now, v.nextTrigger)
    ensures var w := TriggerOf(v, curve, freq, now, false);
            (t <= now + v.noteLength ==> TriggerOf(w, curve2, freq2, t, false) == w)
            && (t > now + v.noteLength <==> After(t, w.nextTrigger))
  {
  }
}
