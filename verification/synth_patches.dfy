/**
 * The older patch layer of tools/synth-patches.js. A `Patch` keeps a table
 * of named parameters, each with a value, a range and a `set`/`setN` pair
 * of closures that store the value and pass it on, either to a host
 * AudioParam as a glide or to a handler method of the patch; `FmPatch`
 * supplies the handlers `_harmonicity` and `_freq`. An `Envelope` schedules
 * attack, decay and release curves on the AudioParams connected to it, at
 * most once per gate period. Host calls are recorded as events; the host's
 * current parameter values and clock are inputs.
 */
module SynthPatches {
  import opened JsCore

  // ---------------------------------------------------------------------------
  // Host parameters and calls
  // ---------------------------------------------------------------------------

  /** Ids of the host AudioParams the patches drive. */
  const MixerGain: nat := 0
  const MixerPan: nat := 1
  const CarrierGain: nat := 2
  const CarrierFrequency: nat := 3
  const ModulatorFrequency: nat := 4
  const ModulatorGain: nat := 5
  const CarrierDetune: nat := 6
  const FilterFrequency: nat := 7
  const DelayTime: nat := 8
  const DampenGain: nat := 9

  /** A call on a host AudioParam. */
  datatype PatchEvent =
    | SetTarget(param: nat, value: JsNumber, start: real, timeConstant: real)
    | CancelScheduled(param: nat, at: real)
    | ValueCurve(param: nat, curve: seq<real>, start: real, duration: real)

  /** The method name given to `exposeFn`. */
  datatype HandlerName = HarmonicityFn | FreqFn | OtherName(name: string)

  /** What the closures of an entry pass the value on to. */
  datatype ParamKind = Automation(param: nat) | Handler(fn: HandlerName)

  /** An entry of `params`: its value and what its closures captured. */
  datatype PatchParam = PatchParam(value: real, min: real, max: real, smoothing: real, kind: ParamKind)

  /** The parameter table, the `playing` flag and the host calls so far. */
  datatype PatchState = PatchState(params: map<string, PatchParam>, playing: bool, log: seq<PatchEvent>)

  /** `this[fn] && typeof this[fn] == 'function'`: only an `FmPatch` has
      the methods `_harmonicity` and `_freq`. */
  predicate Resolves(fm: bool, fn: HandlerName)
  {
    fm && (fn.HarmonicityFn? || fn.FreqFn?)
  }

  /** `this.params['harmonicity']?.value` times the value: NaN when there is
      no `harmonicity` entry. */
  function ModFreq(params: map<string, PatchParam>, value: real): JsNumber
  {
    if "harmonicity" in params then Finite(value * params["harmonicity"].value) else NaN
  }

  /** The calls a handler makes: `_harmonicity` glides the modulator to the
      value times the carrier frequency `carrierFreq`, the host's current
      value; `_freq` glides the carrier to the value and the modulator to
      the value times the harmonicity. */
  function HandlerEvents(fm: bool, fn: HandlerName, value: real, smoothing: real,
                         params: map<string, PatchParam>, carrierFreq: real): seq<PatchEvent>
  {
    if !Resolves(fm, fn) then []
    else if fn.HarmonicityFn? then [SetTarget(ModulatorFrequency, Finite(value * carrierFreq), 0.0, smoothing)]
    else [SetTarget(CarrierFrequency, Finite(value), 0.0, smoothing),
          SetTarget(ModulatorFrequency, ModFreq(params, value), 0.0, smoothing)]
  }

  // ---------------------------------------------------------------------------
  // The closures and the methods of Patch
  // ---------------------------------------------------------------------------

  /** `params[name].set(value)`: store the value, then pass it on. */
  function Set(s: PatchState, fm: bool, name: string, value: real, carrierFreq: real): PatchState
    requires name in s.params
  {
    var p := s.params[name];
    var params := s.params[name := p.(value := value)];
    var events := match p.kind
      case Automation(a) => [SetTarget(a, Finite(value), 0.0, p.smoothing)]
      case Handler(fn) => HandlerEvents(fm, fn, value, p.smoothing, params, carrierFreq);
    s.(params := params, log := s.log + events)
  }

  /** `(max - min) * value + min`. */
  function Denormalised(p: PatchParam, value: real): real
  {
    (p.max - p.min) * value + p.min
  }

  /** `params[name].setN(value)`: `set` of the denormalised value. */
  function SetN(s: PatchState, fm: bool, name: string, value: real, carrierFreq: real): PatchState
    requires name in s.params
  {
    Set(s, fm, name, Denormalised(s.params[name], value), carrierFreq)
  }

  /** `params[name].valueN()`: `(value - min) / (max - min)`. */
  function ValueN(p: PatchParam): JsNumber
  {
    JsDiv(p.value - p.min, p.max - p.min)
  }

  /** `param(name, value)`. */
  function ParamOf(s: PatchState, fm: bool, name: string, value: real, carrierFreq: real): PatchState
  {
    if name !in s.params then s else Set(s, fm, name, value, carrierFreq)
  }

  /** `paramN(name, value)` as written: it calls `set`, exactly as `param`
      does, so the value is stored without being denormalised. */
  function ParamNAsWritten(s: PatchState, fm: bool, name: string, value: real, carrierFreq: real): PatchState
  {
    if name !in s.params then s else Set(s, fm, name, value, carrierFreq)
  }

  /** `paramN(name, value)` as its name and its place beside `setN` say it
      is meant: it calls `setN`. */
  function ParamNIntended(s: PatchState, fm: bool, name: string, value: real, carrierFreq: real): PatchState
  {
    if name !in s.params then s else SetN(s, fm, name, value, carrierFreq)
  }

  /** `exposeParam(name, target, min, max, val, smoothing)`: register the
      entry, then `set(val)`. */
  function ExposeParamOf(s: PatchState, name: string, target: nat, min: real, max: real, val: real, smoothing: real): PatchState
  {
    var t := s.(params := s.params[name := PatchParam(val, min, max, smoothing, Automation(target))]);
    Set(t, false, name, val, 0.0)
  }

  /** `exposeFn(name, fn, min, max, val, smoothing)`. */
  function ExposeFnOf(s: PatchState, fm: bool, name: string, fn: HandlerName, min: real, max: real, val: real, smoothing: real, carrierFreq: real): PatchState
  {
    var t := s.(params := s.params[name := PatchParam(val, min, max, smoothing, Handler(fn))]);
    Set(t, fm, name, val, carrierFreq)
  }

  /** The gain curves of `on` and `off`. */
  const OnCurve: seq<real> := [0.0, 0.25, 1.0]
  const OffCurve: seq<real> := [1.0, 0.75, 0.0]

  /** `on()` at host time `now`. */
  function OnOf(s: PatchState, now: real): PatchState
  {
    s.(playing := true, log := s.log + [CancelScheduled(CarrierGain, now), ValueCurve(CarrierGain, OnCurve, now, 0.3)])
  }

  /** `off()` at host time `now`. */
  function OffOf(s: PatchState, now: real): PatchState
  {
    s.(playing := false, log := s.log + [CancelScheduled(CarrierGain, now), ValueCurve(CarrierGain, OffCurve, now, 0.3)])
  }

  /** A `Patch`, or an `FmPatch` when `fm` holds. */
  class Patch {
    var params: map<string, PatchParam>
    var playing: bool
    var log: seq<PatchEvent>
    const fm: bool

    function State(): PatchState
      reads this
    {
      PatchState(params, playing, log)
    }

    /** The `Patch` constructor: not playing, with `gain` (0.5 in [0, 1])
        and `pan` (0 in [-1, 1]) exposed on the mixer. */
    constructor(fm: bool)
      ensures this.fm == fm
      ensures State() == ExposeParamOf(ExposeParamOf(PatchState(map[], false, []), "gain", MixerGain, 0.0, 1.0, 0.5, 0.1),
                                       "pan", MixerPan, -1.0, 1.0, 0.0, 0.1)
    {
      this.fm := fm;
      params := map[];
      playing := false;
      log := [];
      new;
      ExposeParam("gain", MixerGain, 0.0, 1.0, 0.5, 0.1);
      ExposeParam("pan", MixerPan, -1.0, 1.0, 0.0, 0.1);
    }

    /** The `set` closure of the entry `name`. */
    method SetValue(name: string, value: real, carrierFreq: real)
      requires name in params
      modifies this
      ensures State() == Set(old(State()), fm, name, value, carrierFreq)
    {
      var p := params[name];
      params := params[name := p.(value := value)];
      match p.kind {
        case Automation(a) =>
          log := log + [SetTarget(a, Finite(value), 0.0, p.smoothing)];
        case Handler(fn) =>
          if fm && fn.HarmonicityFn? {
            log := log + [SetTarget(ModulatorFrequency, Finite(value * carrierFreq), 0.0, p.smoothing)];
          } else if fm && fn.FreqFn? {
            var modFreq := if "harmonicity" in params then Finite(value * params["harmonicity"].value) else NaN;
            assert modFreq == ModFreq(params, value);
            log := log + [SetTarget(CarrierFrequency, Finite(value), 0.0, p.smoothing),
                          SetTarget(ModulatorFrequency, modFreq, 0.0, p.smoothing)];
          } else {
            assert !Resolves(fm, fn);
          }
      }
    }

    /** The `setN` closure of the entry `name`. */
    method SetValueN(name: string, value: real, carrierFreq: real)
      requires name in params
      modifies this
      ensures State() == SetN(old(State()), fm, name, value, carrierFreq)
    {
      var p := params[name];
      SetValue(name, Denormalised(p, value), carrierFreq);
    }

    /** `exposeParam(name, target, min, max, val, smoothing)`. */
    method ExposeParam(name: string, target: nat, min: real, max: real, val: real, smoothing: real)
      modifies this
      ensures State() == ExposeParamOf(old(State()), name, target, min, max, val, smoothing)
    {
      params := params[name := PatchParam(val, min, max, smoothing, Automation(target))];
      SetValue(name, val, 0.0);
    }

    /** `exposeFn(name, fn, min, max, val, smoothing)`. */
    method ExposeFn(name: string, fn: HandlerName, min: real, max: real, val: real, smoothing: real, carrierFreq: real)
      modifies this
      ensures State() == ExposeFnOf(old(State()), fm, name, fn, min, max, val, smoothing, carrierFreq)
    {
      params := params[name := PatchParam(val, min, max, smoothing, Handler(fn))];
      SetValue(name, val, carrierFreq);
    }

    /** `param(name, value)`. */
    method Param(name: string, value: real, carrierFreq: real)
      modifies this
      ensures State() == ParamOf(old(State()), fm, name, value, carrierFreq)
    {
      if name !in params {
        return;
      }
      SetValue(name, value, carrierFreq);
    }

    /** `paramN(name, value)`, as written. */
    method ParamN(name: string, value: real, carrierFreq: real)
      modifies this
      ensures State() == ParamNAsWritten(old(State()), fm, name, value, carrierFreq)
    {
      if name !in params {
        return;
      }
      SetValue(name, value, carrierFreq);
    }

    /** `paramN(name, value)`, calling `setN`. */
    method ParamNCorrected(name: string, value: real, carrierFreq: real)
      modifies this
      ensures State() == ParamNIntended(old(State()), fm, name, value, carrierFreq)
    {
      if name !in params {
        return;
      }
      SetValueN(name, value, carrierFreq);
    }

    /** `on()`. */
    method On(now: real)
      modifies this
      ensures State() == OnOf(old(State()), now)
    {
      playing := true;
      log := log + [CancelScheduled(CarrierGain, now)];
      log := log + [ValueCurve(CarrierGain, OnCurve, now, 0.3)];
    }

    /** `off()`. */
    method Off(now: real)
      modifies this
      ensures State() == OffOf(old(State()), now)
    {
      playing := false;
      log := log + [CancelScheduled(CarrierGain, now)];
      log := log + [ValueCurve(CarrierGain, OffCurve, now, 0.3)];
    }

    /** The parameters the `FmPatch` constructor exposes after those of
        `Patch`, in order; `carrierFreq` is the carrier frequency the
        host reports while `harmonicity` is applied. */
    method ExposeFmParams(carrierFreq: real)
      requires fm
      modifies this
      ensures State() == FmParams(old(State()), carrierFreq)
    {
      ExposeFn("harmonicity", HarmonicityFn, 0.1, 100.0, 1.0, 0.1, carrierFreq);
      ExposeParam("modIndex", ModulatorGain, 0.1, 3000.0, 1.0, 0.1);
      ExposeFn("freq", FreqFn, 1.0, 20000.0, 440.0, 0.001, carrierFreq);
      ExposeParam("detune", CarrierDetune, -100.0, 100.0, 0.0, 0.001);
      ExposeParam("filter", FilterFrequency, 1.0, 20000.0, 10000.0, 0.4);
      ExposeParam("d_time", DelayTime, 0.05, 2.0, 0.1, 0.1);
      ExposeParam("d_feed", DampenGain, 0.0, 1.0, 0.7, 0.1);
    }
  }

  /** The seven exposures of the `FmPatch` constructor. */
  function FmParams(s: PatchState, carrierFreq: real): PatchState
  {
    var s1 := ExposeFnOf(s, true, "harmonicity", HarmonicityFn, 0.1, 100.0, 1.0, 0.1, carrierFreq);
    var s2 := ExposeParamOf(s1, "modIndex", ModulatorGain, 0.1, 3000.0, 1.0, 0.1);
    var s3 := ExposeFnOf(s2, true, "freq", FreqFn, 1.0, 20000.0, 440.0, 0.001, carrierFreq);
    var s4 := ExposeParamOf(s3, "detune", CarrierDetune, -100.0, 100.0, 0.0, 0.001);
    var s5 := ExposeParamOf(s4, "filter", FilterFrequency, 1.0, 20000.0, 10000.0, 0.4);
    var s6 := ExposeParamOf(s5, "d_time", DelayTime, 0.05, 2.0, 0.1, 0.1);
    ExposeParamOf(s6, "d_feed", DampenGain, 0.0, 1.0, 0.7, 0.1)
  }

  // ---------------------------------------------------------------------------
  // Envelope
  // ---------------------------------------------------------------------------

  /** The three curves `attack` schedules on one target `p` whose current
      value is `iv`: attack, decay, and a release only when `hold > 0`. */
  function TargetCurves(p: nat, iv: real, a: real, d: real, s: real, r: real, t: real, hold: real): seq<PatchEvent>
  {
    [ValueCurve(p, [iv, 1.0], t, a), ValueCurve(p, [1.0, s], t + a, d)]
    + (if hold > 0.0 then [ValueCurve(p, [s, 0.0], t + a + d + hold, r)] else [])
  }

  /** The curves for the first n targets, in target order; `level` gives
      each target's current value. */
  function AttackUpTo(targets: seq<nat>, n: nat, level: nat -> real, a: real, d: real, s: real, r: real, t: real, hold: real): seq<PatchEvent>
    requires n <= |targets|
  {
    if n == 0 then []
    else AttackUpTo(targets, n - 1, level, a, d, s, r, t, hold) + TargetCurves(targets[n - 1], level(targets[n - 1]), a, d, s, r, t, hold)
  }

  /** The gate time after an attack at t. */
  function NextAfter(a: real, d: real, r: real, t: real, hold: real): real
  {
    if hold <= 0.0 then t + 100.0 else t + a + d + hold + r
  }

  /** An `Envelope(ctx, a, d, s, r)`: the AudioParams connected to it, the
      time before which `attack` is ignored, and the curves scheduled. */
  class Envelope {
    const a: real
    const d: real
    const s: real
    const r: real
    var targets: seq<nat>
    var on: bool
    var next: real
    var log: seq<PatchEvent>

    constructor(a: real, d: real, s: real, r: real)
      ensures this.a == a && this.d == d && this.s == s && this.r == r
      ensures targets == [] && !on && next == 0.0 && log == []
    {
      this.a := a;
      this.d := d;
      this.s := s;
      this.r := r;
      targets := [];
      on := false;
      next := 0.0;
      log := [];
    }

    /** `connect(target)`. */
    method Connect(target: nat)
      modifies this
      ensures targets == old(targets) + [target]
      ensures next == old(next) && log == old(log) && on == old(on)
    {
      targets := targets + [target];
    }

    /** `length()`: attack, decay and release, without the hold. */
    function Length(): real
      reads this
    {
      a + d + r
    }

    /** `attack(hold)` at host time `now`. */
    method Attack(hold: real, now: real, level: nat -> real)
      modifies this
      ensures old(now < next) ==> targets == old(targets) && next == old(next) && log == old(log)
      ensures !old(now < next) ==>
        targets == old(targets) && next == NextAfter(a, d, r, now, hold)
        && log == old(log) + AttackUpTo(targets, |targets|, level, a, d, s, r, now, hold)
      ensures on == old(on)
    {
      var t := now;
      if t < next {
        return;
      }
      ghost var log0 := log;
      var i := 0;
      while i < |targets|
        invariant 0 <= i <= |targets|
        invariant log == log0 + AttackUpTo(targets, i, level, a, d, s, r, t, hold)
        invariant targets == old(targets) && on == old(on)
      {
        var target := targets[i];
        var iv := level(target);
        log := log + [ValueCurve(target, [iv, 1.0], t, a)];
        log := log + [ValueCurve(target, [1.0, s], t + a, d)];
        if hold > 0.0 {
          log := log + [ValueCurve(target, [s, 0.0], t + a + d + hold, r)];
        }
        i := i + 1;
      }
      next := t + a + d + hold + r;
      if hold <= 0.0 {
        next := t + 100.0;
      }
    }
  }

  // ---------------------------------------------------------------------------
  // Properties
  // ---------------------------------------------------------------------------

  /** `set` stores the value as given and changes no other entry. */
  lemma SetStores(s: PatchState, fm: bool, name: string, value: real, carrierFreq: real)
    requires name in s.params
    ensures var r := Set(s, fm, name, value, carrierFreq);
            r.params.Keys == s.params.Keys && r.params[name] == s.params[name].(value := value)
            && (forall n :: n in s.params && n != name ==> r.params[n] == s.params[n])
            && r.playing == s.playing && r.log[..|s.log|] == s.log
  {
  }

  /** An AudioParam entry glides its target to the value with the entry's
      smoothing, starting at once. */
  lemma SetSchedulesGlide(s: PatchState, fm: bool, name: string, value: real, carrierFreq: real)
    requires name in s.params && s.params[name].kind.Automation?
    ensures Set(s, fm, name, value, carrierFreq).log
            == s.log + [SetTarget(s.params[name].kind.param, Finite(value), 0.0, s.params[name].smoothing)]
  {
  }

  /** A handler entry whose method does not exist still stores the value,
      and calls nothing. */
  lemma UnresolvedHandlerOnlyStores(s: PatchState, fm: bool, name: string, value: real, carrierFreq: real)
    requires name in s.params && s.params[name].kind.Handler? && !Resolves(fm, s.params[name].kind.fn)
    ensures Set(s, fm, name, value, carrierFreq) == s.(params := s.params[name := s.params[name].(value := value)])
  {
  }

  /** `setN` then `valueN` gives back the normalised value when the range is
      not empty. */
  lemma SetNRoundTrip(s: PatchState, fm: bool, name: string, value: real, carrierFreq: real)
    requires name in s.params && s.params[name].max != s.params[name].min
    ensures ValueN(SetN(s, fm, name, value, carrierFreq).params[name]) == Finite(value)
  {
    var p := s.params[name];
    var k := p.max - p.min;
    var stored := SetN(s, fm, name, value, carrierFreq).params[name].value;
    assert stored == k * value + p.min;
    assert stored - p.min == k * value;
    ScaleCancels(k, value);
  }

  /** `param` on a name that was never exposed changes nothing, and so does
      `paramN`. */
  lemma UnknownNameNoOp(s: PatchState, fm: bool, name: string, value: real, carrierFreq: real)
    requires name !in s.params
    ensures ParamOf(s, fm, name, value, carrierFreq) == s
    ensures ParamNAsWritten(s, fm, name, value, carrierFreq) == s
    ensures ParamNIntended(s, fm, name, value, carrierFreq) == s
  {
  }

  /** Exposing registers the entry and applies its initial value: an
      AudioParam entry glides its target to `val`. */
  lemma ExposeParamApplies(s: PatchState, name: string, target: nat, min: real, max: real, val: real, smoothing: real)
    ensures var r := ExposeParamOf(s, name, target, min, max, val, smoothing);
            r.params == s.params[name := PatchParam(val, min, max, smoothing, Automation(target))]
            && r.log == s.log + [SetTarget(target, Finite(val), 0.0, smoothing)]
            && r.playing == s.playing
  {
    var t := s.params[name := PatchParam(val, min, max, smoothing, Automation(target))];
    assert t[name := t[name].(value := val)] == t;
  }

  /** The `Patch` constructor leaves `gain` at 0.5 in [0, 1] and `pan` at 0
      in [-1, 1], and glides the mixer to both. */
  lemma NewPatchParams()
    ensures var r := ExposeParamOf(ExposeParamOf(PatchState(map[], false, []), "gain", MixerGain, 0.0, 1.0, 0.5, 0.1),
                                   "pan", MixerPan, -1.0, 1.0, 0.0, 0.1);
            r.params == map["gain" := PatchParam(0.5, 0.0, 1.0, 0.1, Automation(MixerGain)),
                            "pan" := PatchParam(0.0, -1.0, 1.0, 0.1, Automation(MixerPan))]
            && !r.playing
            && r.log == [SetTarget(MixerGain, Finite(0.5), 0.0, 0.1), SetTarget(MixerPan, Finite(0.0), 0.0, 0.1)]
  {
    var s0 := PatchState(map[], false, []);
    ExposeParamApplies(s0, "gain", MixerGain, 0.0, 1.0, 0.5, 0.1);
    ExposeParamApplies(ExposeParamOf(s0, "gain", MixerGain, 0.0, 1.0, 0.5, 0.1), "pan", MixerPan, -1.0, 1.0, 0.0, 0.1);
  }

  /** `on` and `off` set the flag and replace whatever was scheduled on the
      carrier gain with a 0.3 s rise or fall, and change no parameter. */
  lemma OnOffCurves(s: PatchState, now: real)
    ensures OnOf(s, now).playing && !OffOf(s, now).playing
    ensures OnOf(s, now).params == s.params && OffOf(s, now).params == s.params
    ensures OnOf(s, now).log[|s.log|] == CancelScheduled(CarrierGain, now)
    ensures OnOf(s, now).log[|s.log| + 1].curve[0] == 0.0 && OnOf(s, now).log[|s.log| + 1].curve[2] == 1.0
    ensures OffOf(s, now).log[|s.log| + 1].curve[0] == 1.0 && OffOf(s, now).log[|s.log| + 1].curve[2] == 0.0
  {
  }

  /** On an `FmPatch`, `_freq` glides the carrier to the value and the
      modulator to the value times the stored harmonicity; without a
      `harmonicity` entry the modulator target is NaN. */
  lemma FreqFollowsHarmonicity(s: PatchState, name: string, value: real, carrierFreq: real)
    requires name in s.params && s.params[name].kind == Handler(FreqFn) && name != "harmonicity"
    ensures var sm := s.params[name].smoothing;
            Set(s, true, name, value, carrierFreq).log
            == s.log + [SetTarget(CarrierFrequency, Finite(value), 0.0, sm),
                        SetTarget(ModulatorFrequency, ModFreq(s.params, value), 0.0, sm)]
    ensures ModFreq(s.params, value).NaN? <==> "harmonicity" !in s.params
    ensures "harmonicity" in s.params ==> ModFreq(s.params, value) == Finite(value * s.params["harmonicity"].value)
  {
    var params := s.params[name := s.params[name].(value := value)];
    assert ModFreq(params, value) == ModFreq(s.params, value);
    assert HandlerEvents(true, FreqFn, value, s.params[name].smoothing, params, carrierFreq)
        == [SetTarget(CarrierFrequency, Finite(value), 0.0, s.params[name].smoothing),
            SetTarget(ModulatorFrequency, ModFreq(s.params, value), 0.0, s.params[name].smoothing)];
    assert Set(s, true, name, value, carrierFreq).log
        == s.log + HandlerEvents(true, FreqFn, value, s.params[name].smoothing, params, carrierFreq);
  }

  /** On an `FmPatch`, `_harmonicity` glides the modulator to the value
      times the carrier's current frequency. */
  lemma HarmonicityScalesCarrier(s: PatchState, name: string, value: real, carrierFreq: real)
    requires name in s.params && s.params[name].kind == Handler(HarmonicityFn)
    ensures Set(s, true, name, value, carrierFreq).log
            == s.log + [SetTarget(ModulatorFrequency, Finite(value * carrierFreq), 0.0, s.params[name].smoothing)]
  {
  }

  /** The `FmPatch` constructor exposes its seven parameters with their
      initial values, and `freq` sets the modulator to 440 times the
      harmonicity 1, since `harmonicity` is exposed first. */
  lemma FmPatchParams(s: PatchState, carrierFreq: real)
    requires "harmonicity" !in s.params
    ensures var r := FmParams(s, carrierFreq);
            r.params["harmonicity"].value == 1.0 && r.params["freq"].value == 440.0
            && r.params["filter"].value == 10000.0 && r.params["d_feed"].value == 0.7
            && r.params["modIndex"].kind == Automation(ModulatorGain)
  {
  }

  /** Each exposure appends the glides of its initial value; in particular
      `freq` glides the modulator to 440 times the harmonicity 1. */
  lemma FmFreqModulator(s: PatchState, carrierFreq: real)
    ensures var s2 := ExposeParamOf(ExposeFnOf(s, true, "harmonicity", HarmonicityFn, 0.1, 100.0, 1.0, 0.1, carrierFreq),
                                    "modIndex", ModulatorGain, 0.1, 3000.0, 1.0, 0.1);
            var s3 := ExposeFnOf(s2, true, "freq", FreqFn, 1.0, 20000.0, 440.0, 0.001, carrierFreq);
            s3.log == s2.log + [SetTarget(CarrierFrequency, Finite(440.0), 0.0, 0.001),
                                SetTarget(ModulatorFrequency, Finite(440.0), 0.0, 0.001)]
  {
  }

  /** Finding: `paramN` does not denormalise. On a new patch,
      `paramN('pan', 0.75)` stores 0.75, so `valueN()` reads 0.875 instead of
      0.75; `setN(0.75)` would have stored 0.5. */
  lemma ParamNSkipsDenormalising()
    ensures var s := ExposeParamOf(ExposeParamOf(PatchState(map[], false, []), "gain", MixerGain, 0.0, 1.0, 0.5, 0.1),
                                   "pan", MixerPan, -1.0, 1.0, 0.0, 0.1);
            var r := ParamNAsWritten(s, false, "pan", 0.75, 0.0);
            r.params["pan"].value == 0.75 && ValueN(r.params["pan"]) == Finite(0.875)
            && ParamNIntended(s, false, "pan", 0.75, 0.0).params["pan"].value == 0.5
  {
    NewPatchParams();
  }

  /** The corrected `paramN` is undone by `valueN` whenever the range is not
      empty. */
  lemma ParamNIntendedRoundTrip(s: PatchState, fm: bool, name: string, value: real, carrierFreq: real)
    requires name in s.params && s.params[name].max != s.params[name].min
    ensures ValueN(ParamNIntended(s, fm, name, value, carrierFreq).params[name]) == Finite(value)
  {
    SetNRoundTrip(s, fm, name, value, carrierFreq);
  }

  /** Target k's curves are calls k*m .. k*m + m - 1 of the attack, where m
      is 3 with a hold and 2 without. */
  lemma {:induction false} AttackLayout(targets: seq<nat>, n: nat, level: nat -> real, a: real, d: real, s: real, r: real, t: real, hold: real, m: nat)
    requires n <= |targets| && m == if hold > 0.0 then 3 else 2
    ensures var ev := AttackUpTo(targets, n, level, a, d, s, r, t, hold);
            |ev| == n * m
            && forall k :: 0 <= k < n ==>
                 k * m + m <= |ev| && ev[k * m..k * m + m] == TargetCurves(targets[k], level(targets[k]), a, d, s, r, t, hold)
  {
    if n > 0 {
      AttackLayout(targets, n - 1, level, a, d, s, r, t, hold, m);
      var prev := AttackUpTo(targets, n - 1, level, a, d, s, r, t, hold);
      var last := TargetCurves(targets[n - 1], level(targets[n - 1]), a, d, s, r, t, hold);
      assert |prev| + m == n * m;
      forall k | 0 <= k < n
        ensures k * m + m <= |prev + last|
        ensures (prev + last)[k * m..k * m + m] == TargetCurves(targets[k], level(targets[k]), a, d, s, r, t, hold)
      {
        if k < n - 1 {
          MulBelow(k, n - 1, m);
          assert (prev + last)[k * m..k * m + m] == prev[k * m..k * m + m];
        } else {
          assert k * m == |prev|;
          assert (prev + last)[k * m..k * m + m] == last;
        }
      }
    }
  }

  lemma MulBelow(k: nat, n: nat, m: nat)
    requires k < n
    ensures k * m + m <= n * m
  {
    assert (k + 1) * m <= n * m;
  }

  /** Every target gets its attack (from its current value to 1 at t, over
      a) and its decay (from 1 to s at t + a, over d), and a release (from s
      to 0 at t + a + d + hold, over r) exactly when the hold is positive. */
  lemma AttackCurves(targets: seq<nat>, level: nat -> real, a: real, d: real, s: real, r: real, t: real, hold: real, k: nat)
    requires k < |targets|
    ensures var m := if hold > 0.0 then 3 else 2;
            var ev := AttackUpTo(targets, |targets|, level, a, d, s, r, t, hold);
            |ev| == |targets| * m
            && ev[k * m] == ValueCurve(targets[k], [level(targets[k]), 1.0], t, a)
            && ev[k * m + 1] == ValueCurve(targets[k], [1.0, s], t + a, d)
            && (hold > 0.0 ==> ev[k * m + 2] == ValueCurve(targets[k], [s, 0.0], t + a + d + hold, r))
  {
    var m := if hold > 0.0 then 3 else 2;
    AttackLayout(targets, |targets|, level, a, d, s, r, t, hold, m);
    var ev := AttackUpTo(targets, |targets|, level, a, d, s, r, t, hold);
    var block := ev[k * m..k * m + m];
    assert ev[k * m] == block[0] && ev[k * m + 1] == block[1];
    if hold > 0.0 {
      assert ev[k * m + 2] == block[2];
    }
  }

  /** With non-negative stages, an attack at t closes the gate past t, so
      a second attack at the same time schedules nothing; with a hold, the
      gate opens again only once the release has finished. */
  lemma AttackGates(a: real, d: real, r: real, t: real, hold: real)
    requires a >= 0.0 && d >= 0.0 && r >= 0.0
    ensures NextAfter(a, d, r, t, hold) > t
    ensures hold > 0.0 ==> NextAfter(a, d, r, t, hold) >= t + a + d + hold + r
  {
  }

  /** With a hold, the gate after an attack at t opens `length()` plus the
      hold later: `length()` is the envelope's duration without the hold. */
  lemma GateIsLengthPlusHold(e: Envelope, t: real, hold: real)
    requires hold > 0.0
    ensures NextAfter(e.a, e.d, e.r, t, hold) == t + e.Length() + hold
  {
  }
}
