/**
 * `Operator` of tools/synths/operator.js: a sub-graph of audio nodes with a
 * table of named parameters. Setting a parameter stores its new value and
 * then either calls the function it targets or schedules the change on the
 * AudioParam it targets. The host's AudioParams, nodes and clock are outside
 * the model: automation calls and connections are recorded as events, and
 * the current time is a parameter.
 */
module SynthOperator {
  import opened JsCore

  /** What an exposed parameter drives: a host AudioParam, named by an id,
      or a function, named by an id, that is called with the value. */
  datatype Target = AudioParam(param: nat) | Handler(fn: nat)

  /** An entry of `params`: `{value, min, max, target}`. */
  datatype ParamEntry = ParamEntry(value: real, min: real, max: real, target: Target)

  /** A call the operator makes on the host or on a handler. */
  datatype Event =
    | SetValueAt(param: nat, value: real, at: real)
    | SetTargetAt(param: nat, value: real, at: real, timeConstant: JsNumber)
    | Called(fn: nat, value: real, time: Option<JsNumber>)
    | ConnectedNode(from: nat, node: nat)
    | ConnectedParam(from: nat, param: nat)

  /** `!time`: the time was omitted, or is 0 or NaN. */
  predicate Falsy(time: Option<JsNumber>)
  {
    time.None? || time.value == Finite(0.0) || time.value.NaN?
  }

  /** The parameter table and the calls made so far. */
  datatype OpState = OpState(params: map<string, ParamEntry>, log: seq<Event>)

  /** `(param.max - param.min) * value + param.min`. */
  function Denormalised(p: ParamEntry, v: real): real
  {
    (p.max - p.min) * v + p.min
  }

  /** `_setParam(name, value, normalized, time)` at host time `now`. */
  function SetParam(s: OpState, name: string, value: real, normalized: bool, time: Option<JsNumber>, now: real): OpState
  {
    if name !in s.params then s
    else
      var p := s.params[name];
      var stored := if normalized then Denormalised(p, value) else value;
      var params := s.params[name := p.(value := stored)];
      match p.target
      case Handler(f) => OpState(params, s.log + [Called(f, value, time)])
      case AudioParam(a) =>
        OpState(params, s.log + [if Falsy(time) then SetValueAt(a, stored, now) else SetTargetAt(a, stored, now, time.value)])
  }

  /** `expNParam(name, value, time)`. */
  function ExpNParamOf(s: OpState, name: string, value: real, time: Option<JsNumber>, now: real): OpState
  {
    SetParam(s, name, value * value, true, time, now)
  }

  /** `exposeParam(name, target, value, min, max)`: register the entry, then
      apply its value with time 0. */
  function ExposeParamOf(s: OpState, name: string, target: Target, value: real, min: real, max: real, now: real): OpState
  {
    SetParam(OpState(s.params[name := ParamEntry(value, min, max, target)], s.log), name, value, false, Some(Finite(0.0)), now)
  }

  /** What `connect` may be given: a host node, a host AudioParam, or another
      operator, whose `inlet` may be null. */
  datatype Endpoint = NodeEnd(node: nat) | ParamEnd(param: nat) | OperatorEnd(op: nat, inlet: Option<nat>)

  /** The value `connect` returns, or the exception it raises. */
  datatype ConnectResult = NullResult | Returned(target: Endpoint) | UndefinedResult | Threw

  /** `connect(target)` from the node `outlet`: the result and the
      connection made, if any. The host's `AudioNode.connect` returns its
      destination node when given a node, `undefined` when given an
      AudioParam, and throws when given anything else. */
  function ConnectOf(outlet: Option<nat>, target: Endpoint): (rc: (ConnectResult, Option<Event>))
    ensures outlet.None? ==> rc == (NullResult, None)
    ensures outlet.Some? && target.OperatorEnd? && target.inlet.Some? ==>
      rc == (Returned(target), Some(ConnectedNode(outlet.value, target.inlet.value)))
    ensures outlet.Some? && target.NodeEnd? ==> rc == (Returned(target), Some(ConnectedNode(outlet.value, target.node)))
    ensures outlet.Some? && target.ParamEnd? ==> rc == (UndefinedResult, Some(ConnectedParam(outlet.value, target.param)))
    ensures rc.0 == Threw <==> outlet.Some? && target.OperatorEnd? && target.inlet.None?
    ensures rc.1.None? <==> rc.0 == NullResult || rc.0 == Threw
  {
    match outlet
    case None => (NullResult, None)
    case Some(o) =>
      match target
      case OperatorEnd(_, Some(i)) => (Returned(target), Some(ConnectedNode(o, i)))
      case OperatorEnd(_, None) => (Threw, None)
      case NodeEnd(n) => (Returned(target), Some(ConnectedNode(o, n)))
      case ParamEnd(p) => (UndefinedResult, Some(ConnectedParam(o, p)))
  }

  /** An operator: its parameter table, the calls it has made, its outlet
      node and, when the implementation has one, the gain of its scaler. */
  class Operator {
    var params: map<string, ParamEntry>
    var log: seq<Event>
    const outlet: Option<nat>
    const hasScaler: bool
    var scalerGain: real

    function State(): OpState
      reads this
    {
      OpState(params, log)
    }

    /** A new operator has no parameters and has made no calls. */
    constructor(outlet: Option<nat>, hasScaler: bool, scalerGain: real)
      ensures params == map[] && log == []
      ensures this.outlet == outlet && this.hasScaler == hasScaler && this.scalerGain == scalerGain
    {
      this.outlet := outlet;
      this.hasScaler := hasScaler;
      this.scalerGain := scalerGain;
      params := map[];
      log := [];
    }

    /** `_setParam(name, value, normalized, time)`. */
    method SetParamAt(name: string, value: real, normalized: bool, time: Option<JsNumber>, now: real)
      modifies this
      ensures State() == SetParam(old(State()), name, value, normalized, time, now)
      ensures scalerGain == old(scalerGain)
    {
      if name !in params {
        return;
      }
      var p := params[name];
      var stored := if normalized then Denormalised(p, value) else value;
      params := params[name := p.(value := stored)];
      if p.target.Handler? {
        assert p.target == Handler(p.target.fn);
        log := log + [Called(p.target.fn, value, time)];
        return;
      }
      if Falsy(time) {
        log := log + [SetValueAt(p.target.param, stored, now)];
      } else {
        log := log + [SetTargetAt(p.target.param, stored, now, time.value)];
      }
    }

    /** `param(name, value, time)`. */
    method Param(name: string, value: real, time: Option<JsNumber>, now: real)
      modifies this
      ensures State() == SetParam(old(State()), name, value, false, time, now)
      ensures scalerGain == old(scalerGain)
    {
      SetParamAt(name, value, false, time, now);
    }

    /** `nParam(name, value, time)`. */
    method NParam(name: string, value: real, time: Option<JsNumber>, now: real)
      modifies this
      ensures State() == SetParam(old(State()), name, value, true, time, now)
      ensures scalerGain == old(scalerGain)
    {
      SetParamAt(name, value, true, time, now);
    }

    /** `expNParam(name, value, time)`. */
    method ExpNParam(name: string, value: real, time: Option<JsNumber>, now: real)
      modifies this
      ensures State() == ExpNParamOf(old(State()), name, value, time, now)
      ensures scalerGain == old(scalerGain)
    {
      SetParamAt(name, value * value, true, time, now);
    }

    /** `scale(value)`: only an operator with a scaler changes its gain. */
    method Scale(value: real)
      modifies this
      ensures scalerGain == if hasScaler then value else old(scalerGain)
      ensures State() == old(State())
    {
      if hasScaler {
        scalerGain := value;
      }
    }

    /** `connect(target)`. */
    method Connect(target: Endpoint) returns (r: ConnectResult)
      modifies this
      ensures var (res, made) := ConnectOf(outlet, target);
              r == res && log == old(log) + (if made.Some? then [made.value] else [])
      ensures params == old(params) && scalerGain == old(scalerGain)
    {
      if outlet.None? {
        return NullResult;
      }
      match target
      case OperatorEnd(_, inlet) =>
        if inlet.Some? {
          log := log + [ConnectedNode(outlet.value, inlet.value)];
          r := Returned(target);
        } else {
          r := Threw;
        }
      case NodeEnd(n) =>
        log := log + [ConnectedNode(outlet.value, n)];
        r := Returned(target);
      case ParamEnd(p) =>
        log := log + [ConnectedParam(outlet.value, p)];
        r := UndefinedResult;
    }

    /** `exposeParam(name, target, value, min, max, smoothing)`; the
        smoothing is accepted and not used. */
    method ExposeParam(name: string, target: Target, value: real, min: real, max: real, smoothing: real, now: real)
      modifies this
      ensures State() == ExposeParamOf(old(State()), name, target, value, min, max, now)
      ensures scalerGain == old(scalerGain)
    {
      params := params[name := ParamEntry(value, min, max, target)];
      SetParamAt(name, value, false, Some(Finite(0.0)), now);
    }
  }

  // ---------------------------------------------------------------------------
  // Properties
  // ---------------------------------------------------------------------------

  /** Setting a name that was never exposed changes nothing and calls
      nothing. */
  lemma UnknownNameNoOp(s: OpState, name: string, value: real, normalized: bool, time: Option<JsNumber>, now: real)
    requires name !in s.params
    ensures SetParam(s, name, value, normalized, time, now) == s
  {
  }

  /** Setting a known name changes only that entry's value: in normalised
      mode to `(max - min) * value + min`, otherwise to the value itself. */
  lemma SetParamStores(s: OpState, name: string, value: real, normalized: bool, time: Option<JsNumber>, now: real)
    requires name in s.params
    ensures var r := SetParam(s, name, value, normalized, time, now);
            var p := s.params[name];
            r.params.Keys == s.params.Keys
            && r.params[name] == ParamEntry(if normalized then (p.max - p.min) * value + p.min else value, p.min, p.max, p.target)
            && (forall n :: n in s.params && n != name ==> r.params[n] == s.params[n])
            && |r.log| == |s.log| + 1 && r.log[..|s.log|] == s.log
  {
  }

  /** Normalised setting is undone by normalising the stored value. */
  lemma NormalisedRoundTrip(s: OpState, name: string, value: real, time: Option<JsNumber>, now: real)
    requires name in s.params && s.params[name].max != s.params[name].min
    ensures var p := SetParam(s, name, value, true, time, now).params[name];
            (p.value - p.min) / (p.max - p.min) == value
  {
    var p := s.params[name];
    var k := p.max - p.min;
    var stored := SetParam(s, name, value, true, time, now).params[name].value;
    assert stored == k * value + p.min;
    assert stored - p.min == k * value;
    ScaleCancels(k, value);
  }

  /** A normalised value in [0, 1] lands in [min, max]. */
  lemma NormalisedInRange(s: OpState, name: string, value: real, time: Option<JsNumber>, now: real)
    requires name in s.params && s.params[name].min <= s.params[name].max
    requires 0.0 <= value <= 1.0
    ensures var p := SetParam(s, name, value, true, time, now).params[name];
            p.min <= p.value <= p.max
  {
    var p := s.params[name];
    assert SetParam(s, name, value, true, time, now).params[name].value == Denormalised(p, value);
    DenormalisedWithin(p, value);
  }

  /** A function target is called with the argument as given, not the stored
      value, and nothing is scheduled on the host. */
  lemma HandlerTakesRawValue(s: OpState, name: string, value: real, normalized: bool, time: Option<JsNumber>, now: real)
    requires name in s.params && s.params[name].target.Handler?
    ensures SetParam(s, name, value, normalized, time, now).log == s.log + [Called(s.params[name].target.fn, value, time)]
  {
  }

  /** An AudioParam target gets the stored value: at once when the time is
      falsy, as a glide with the time as its constant otherwise. */
  lemma AutomationTiming(s: OpState, name: string, value: real, normalized: bool, time: Option<JsNumber>, now: real)
    requires name in s.params && s.params[name].target.AudioParam?
    ensures var r := SetParam(s, name, value, normalized, time, now);
            var a := s.params[name].target.param;
            var stored := r.params[name].value;
            r.log == s.log + [if Falsy(time) then SetValueAt(a, stored, now) else SetTargetAt(a, stored, now, time.value)]
  {
  }

  /** `expNParam` squares before denormalising: the stored value is the
      denormalised square of the value, it grows with the magnitude of the
      value, and a value in [0, 1] lands in [min, max]. */
  lemma ExpNSquares(s: OpState, name: string, v: real, w: real, time: Option<JsNumber>, now: real)
    requires name in s.params && s.params[name].min <= s.params[name].max
    requires 0.0 <= v <= w
    ensures var p := s.params[name];
            var pv := ExpNParamOf(s, name, v, time, now).params[name].value;
            var pw := ExpNParamOf(s, name, w, time, now).params[name].value;
            pv == Denormalised(p, v * v)
            && pv <= pw
            && (w <= 1.0 ==> p.min <= pv && pw <= p.max)
  {
    var p := s.params[name];
    assert ExpNParamOf(s, name, v, time, now).params[name].value == Denormalised(p, v * v);
    assert ExpNParamOf(s, name, w, time, now).params[name].value == Denormalised(p, w * w);
    SquareGrows(v, w);
    DenormalisedGrows(p, v * v, w * w);
    if w <= 1.0 {
      SquareGrows(w, 1.0);
      DenormalisedWithin(p, v * v);
      DenormalisedWithin(p, w * w);
    }
  }

  /** Denormalising keeps the order of values. */
  lemma DenormalisedGrows(p: ParamEntry, a: real, c: real)
    requires p.min <= p.max && a <= c
    ensures Denormalised(p, a) <= Denormalised(p, c)
  {
    ScaleGrows(p.max - p.min, a, c);
  }

  /** Denormalising takes [0, 1] into [min, max]. */
  lemma DenormalisedWithin(p: ParamEntry, a: real)
    requires p.min <= p.max && 0.0 <= a <= 1.0
    ensures p.min <= Denormalised(p, a) <= p.max
  {
    var k := p.max - p.min;
    FractionWithin(a, k);
    assert 0.0 <= a * k <= k;
    assert k * a == a * k;
  }

  /** The sign of the value given to `expNParam` is lost. */
  lemma ExpNIgnoresSign(s: OpState, name: string, v: real, time: Option<JsNumber>, now: real)
    ensures ExpNParamOf(s, name, -v, time, now) == ExpNParamOf(s, name, v, time, now)
  {
    assert (-v) * (-v) == v * v;
  }

  lemma SquareGrows(v: real, w: real)
    requires 0.0 <= v <= w
    ensures v * v <= w * w
  {
    assert v * v <= v * w;
  }

  lemma ScaleGrows(k: real, a: real, b: real)
    requires 0.0 <= k && a <= b
    ensures k * a <= k * b
  {
  }

  /** Exposing a parameter registers exactly the given entry and applies its
      value at once: AudioParam targets get `setValueAtTime`, because the
      time passed is 0, and handlers are called with time 0. */
  lemma ExposeRegistersAndApplies(s: OpState, name: string, target: Target, value: real, min: real, max: real, now: real)
    ensures var r := ExposeParamOf(s, name, target, value, min, max, now);
            r.params == s.params[name := ParamEntry(value, min, max, target)]
            && r.log == s.log + [match target
                                 case AudioParam(a) => SetValueAt(a, value, now)
                                 case Handler(f) => Called(f, value, Some(Finite(0.0)))]
  {
    var t := OpState(s.params[name := ParamEntry(value, min, max, target)], s.log);
    assert t.params[name := t.params[name].(value := value)] == t.params;
  }

  /** An operator without an outlet connects nothing, and every connection
      made starts at the outlet. */
  lemma ConnectFromOutlet(outlet: Option<nat>, target: Endpoint)
    ensures outlet.None? ==> ConnectOf(outlet, target).1.None?
    ensures ConnectOf(outlet, target).1.Some? ==> ConnectOf(outlet, target).1.value.from == outlet.value
  {
  }
}
