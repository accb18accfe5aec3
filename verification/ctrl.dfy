/**
 * The value logic of tools/synths/ctrl.js. A control is bound to a key of a
 * context object, or to one slot of an array held there (`"name.index"`),
 * or to a function held there. On a change it writes its value back by a
 * fixed priority, then notifies its own handler and its parent's. The
 * widgets' `update` steps turn mouse positions into values that `clamp`
 * keeps in [0, 1]. The context object is a map of keys to JavaScript values,
 * arrays live in a separate heap of sequences, and what a called function or
 * a handler then does is recorded as an effect.
 */
module Ctrl {
  import opened JsCore

  // ---------------------------------------------------------------------------
  // clamp and lerp
  // ---------------------------------------------------------------------------

  /** `clamp(x, min, max)`: `Math.max(Math.min(x, max), min)`. */
  function Clamp(x: JsNumber, min: JsNumber, max: JsNumber): JsNumber
  {
    JsMax(JsMin(x, max), min)
  }

  /** `clamp(x)`, with the default range [0, 1]. */
  function Clamp01(x: JsNumber): JsNumber
  {
    Clamp(x, Finite(0.0), Finite(1.0))
  }

  /** `lerp(a, b, t)`: `a + t * (b - a)`. */
  function Lerp(a: real, b: real, t: real): real
  {
    a + t * (b - a)
  }

  /** A number in [lo, hi]. */
  predicate InRange(x: JsNumber, lo: real, hi: real)
  {
    x.Finite? && lo <= x.r <= hi
  }

  // ---------------------------------------------------------------------------
  // Values and the context object
  // ---------------------------------------------------------------------------

  /** A JavaScript value a context property can hold. Functions, arrays and
      other objects are references, named by ids. */
  datatype Value = Num(n: JsNumber) | Bool(b: bool) | Str(s: string) | Fn(fn: nat) | Arr(arr: nat) | Obj(obj: nat) | Null | Undefined

  /** The result of `typeof`. */
  datatype JsType = TNumber | TBoolean | TString | TFunction | TObject | TUndefined

  function TypeOf(v: Value): JsType
  {
    match v
    case Num(_) => TNumber
    case Bool(_) => TBoolean
    case Str(_) => TString
    case Fn(_) => TFunction
    case Arr(_) => TObject
    case Obj(_) => TObject
    case Null => TObject
    case Undefined => TUndefined
  }

  /** `!!v`. */
  predicate ToBoolean(v: Value)
  {
    match v
    case Num(n) => !(n == Finite(0.0) || n.NaN?)
    case Bool(b) => b
    case Str(s) => s != []
    case Fn(_) => true
    case Arr(_) => true
    case Obj(_) => true
    case Null => false
    case Undefined => false
  }

  /** The number arithmetic turns a value into. Strings, functions and
      objects are taken to give NaN. */
  function ToNumber(v: Value): JsNumber
  {
    match v
    case Num(n) => n
    case Bool(b) => Finite(if b then 1.0 else 0.0)
    case Null => Finite(0.0)
    case _ => NaN
  }

  /** What the code a control calls does: a bound function of the context
      called with a value, or a change handler run. */
  datatype Effect = CalledBound(fn: nat, arg: Value) | OwnOnChange | ParentOnChange

  /** The context object's properties, the arrays they may refer to, and the
      effects so far. */
  datatype ContextState = ContextState(props: map<string, Value>, arrays: map<nat, seq<Value>>, log: seq<Effect>)

  /** `context[key]`. */
  function Get(c: ContextState, key: string): Value
  {
    if key in c.props then c.props[key] else Undefined
  }

  /** The array index a property key names: its text is the decimal form
      of a natural number. */
  function CanonicalIndex(k: string): Option<nat>
  {
    if k != [] && (forall i :: 0 <= i < |k| ==> IsDigit(k[i])) && (k[0] != '0' || |k| == 1)
    then Some(DecimalValue(k)) else None
  }

  /** `context[name][k]` for the property value v: undefined or null throws
      (None); an array gives its element, or undefined past its end or for
      a key that is not an index; other values are taken to have no such
      property. */
  function Element(c: ContextState, v: Value, k: string): Option<Value>
  {
    match v
    case Undefined => None
    case Null => None
    case Arr(id) =>
      var n := CanonicalIndex(k);
      if id in c.arrays && n.Some? && n.value < |c.arrays[id]| then Some(c.arrays[id][n.value]) else Some(Undefined)
    case _ => Some(Undefined)
  }

  /** `a[index] = v` on an array: an index past the end grows the array
      with holes, and a negative index names a property, not an element. */
  function ArraySet(a: seq<Value>, index: int, v: Value): (r: seq<Value>)
    ensures 0 <= index < |a| ==> r == a[index := v]
    ensures index < 0 ==> r == a
    ensures index >= |a| ==> |r| == index + 1 && r[..|a|] == a && r[index] == v
  {
    if index < 0 then a
    else if index < |a| then a[index := v]
    else a + seq(index - |a|, _ => Undefined) + [v]
  }

  /** What `_parseTarget` leaves in a control: its key, the array index,
      its value and the function it is bound to. */
  datatype Binding = Binding(target: string, index: int, value: Value, boundFunc: Option<nat>)

  /** A text holding the separator splits into at least two pieces. */
  lemma {:induction false} SplitAtSeparator(s: string, c: char)
    requires IndexOf(s, c) >= 0
    ensures |Split(s, c)| >= 2
  {
    if s[0] != c {
      SplitAtSeparator(s[1..], c);
    }
  }

  /** `_parseTarget(str)` on a control made with index `index`: None when it
      throws. */
  function ParseTarget(c: ContextState, str: string, index: int): Option<Binding>
  {
    if IndexOf(str, '.') == -1 then
      match Get(c, str)
      case Fn(f) => Some(Binding(str, index, Num(Finite(0.0)), Some(f)))
      case v => Some(Binding(str, index, v, None))
    else
      SplitAtSeparator(str, '.');
      var parts := Split(str, '.');
      var target := parts[0];
      var k := parts[1];
      var idx := match ParseInt(k) case None => 0 case Some(n) => n;
      match Element(c, Get(c, target), k)
      case None => None
      case Some(v) => Some(Binding(target, idx, v, None))
  }

  /** `_setContextvalue(key, value, index)` for a control bound to
      `boundFunc`: replace a property of the same type, else call the bound
      function, else write the array slot, else nothing. */
  function SetContextValue(c: ContextState, key: string, value: Value, index: int, boundFunc: Option<nat>): ContextState
  {
    var cur := Get(c, key);
    if TypeOf(cur) == TypeOf(value) then c.(props := c.props[key := value])
    else if boundFunc.Some? then c.(log := c.log + [CalledBound(boundFunc.value, value)])
    else if cur.Arr? && cur.arr in c.arrays then c.(arrays := c.arrays[cur.arr := ArraySet(c.arrays[cur.arr], index, value)])
    else c
  }

  /** `_onChange()`: write through, then the control's own `onChange` if it
      has one, then its parent's if there is one. */
  function OnChange(c: ContextState, b: Binding, hasOwn: bool, hasParent: bool): ContextState
  {
    var written := SetContextValue(c, b.target, b.value, b.index, b.boundFunc);
    var own := if hasOwn then written.(log := written.log + [OwnOnChange]) else written;
    if hasParent then own.(log := own.log + [ParentOnChange]) else own
  }

  /** `XYPad._onChange()`: the base `_onChange`, then the Y value written to
      `targetY` at index 0. */
  function PadOnChange(c: ContextState, b: Binding, targetY: string, valueY: Value, hasOwn: bool, hasParent: bool): ContextState
  {
    SetContextValue(OnChange(c, b, hasOwn, hasParent), targetY, valueY, 0, b.boundFunc)
  }

  // ---------------------------------------------------------------------------
  // Widget updates
  // ---------------------------------------------------------------------------

  /** A bounding client rectangle. */
  datatype Rect = Rect(left: real, top: real, width: real, height: real)

  /** `(x - rect.left) / rect.width` and `(y - rect.top) / rect.height`. */
  function AlongX(x: real, rect: Rect): JsNumber { JsDiv(x - rect.left, rect.width) }
  function AlongY(y: real, rect: Rect): JsNumber { JsDiv(y - rect.top, rect.height) }

  /** The value `Slider.update` and `Axis.update` store for the mouse at
      (x, y). */
  function SliderValue(x: real, y: real, rect: Rect, vertical: bool): JsNumber
  {
    var internal := if vertical then JsSub(Finite(1.0), Clamp01(AlongY(y, rect))) else Clamp01(AlongX(x, rect));
    Clamp01(internal)
  }

  /** The value `Dial.update` and `Knob.update` store after a drag of
      `delta` pixels. */
  function DialValue(value: Value, delta: real): JsNumber
  {
    Clamp01(JsSub(ToNumber(value), Finite(delta / 1000.0)))
  }

  /** The value `DraggableNumber.update` stores: it is not clamped. */
  function DraggableNumberValue(value: Value, delta: real): JsNumber
  {
    JsSub(ToNumber(value), Finite(delta / 100.0))
  }

  /** The two values `XYPad.update` stores. */
  function PadValues(x: real, y: real, rect: Rect): (JsNumber, JsNumber)
  {
    (Clamp01(AlongX(x, rect)), JsSub(Finite(1.0), Clamp01(AlongY(y, rect))))
  }

  /** The value a `Toggle` or `Bool` click stores. */
  function Toggled(value: Value): Value
  {
    Bool(!ToBoolean(value))
  }

  /** `Math.round`: halves round up. */
  function Round(x: JsNumber): JsNumber
  {
    match x
    case Finite(r) => Finite(((r + 0.5).Floor) as real)
    case _ => x
  }

  /** `DrawBuffer.mouseXToIndex(x)` for a buffer of `len` samples. */
  function MouseXToIndex(x: real, rect: Rect, len: nat): JsNumber
  {
    Round(JsMul(Clamp01(AlongX(x, rect)), Finite((len - 1) as real)))
  }

  /** `DrawBuffer.mouseYToValue(y)`: top is 1, bottom is 0 (unipolar) or
      -1 (bipolar). */
  function MouseYToValue(y: real, rect: Rect, unipolar: bool): JsNumber
  {
    var nY := Clamp01(AlongY(y, rect));
    if unipolar then JsSub(Finite(1.0), nY)
    else JsSub(JsMul(Finite(2.0), JsSub(Finite(1.0), nY)), Finite(1.0))
  }

  /** The slot of a buffer a number names: a whole number inside it. */
  predicate IsSlot(index: JsNumber, len: nat)
  {
    index.Finite? && index.r == (index.r.Floor as real) && 0 <= index.r.Floor < len
  }

  /** `buffer[index] = value` on a `Float32Array`: a number that is not a
      slot of it writes nothing. */
  function BufferWrite(buf: seq<JsNumber>, index: JsNumber, value: JsNumber): (r: seq<JsNumber>)
    ensures |r| == |buf|
  {
    if IsSlot(index, |buf|) then buf[index.r.Floor := value] else buf
  }

  // ---------------------------------------------------------------------------
  // Properties: clamp and lerp
  // ---------------------------------------------------------------------------

  /** With min <= max, a number that is not NaN is clamped into [min, max]. */
  lemma ClampInRange(x: JsNumber, lo: real, hi: real)
    requires lo <= hi && !x.NaN?
    ensures InRange(Clamp(x, Finite(lo), Finite(hi)), lo, hi)
  {
  }

  /** Clamping leaves a number already in range alone, and NaN stays NaN. */
  lemma ClampIdentity(x: JsNumber, lo: real, hi: real)
    ensures InRange(x, lo, hi) ==> Clamp(x, Finite(lo), Finite(hi)) == x
    ensures x.NaN? ==> Clamp(x, Finite(lo), Finite(hi)).NaN?
  {
  }

  /** With min > max the result is min, whatever x is (unless NaN): the
      range must be given in order. */
  lemma ClampReversed(x: JsNumber, lo: real, hi: real)
    requires lo > hi && !x.NaN?
    ensures Clamp(x, Finite(lo), Finite(hi)) == Finite(lo)
  {
  }

  /** `lerp` runs from a at t = 0 to b at t = 1. */
  lemma LerpEnds(a: real, b: real)
    ensures Lerp(a, b, 0.0) == a && Lerp(a, b, 1.0) == b
  {
  }

  /** For t in [0, 1], `lerp` stays between a and b. */
  lemma LerpBetween(a: real, b: real, t: real)
    requires a <= b && 0.0 <= t <= 1.0
    ensures a <= Lerp(a, b, t) <= b
  {
    var w := b - a;
    var p := t * w;
    FractionWithin(t, w);
    assert 0.0 <= p <= w;
    assert Lerp(a, b, t) == a + p;
  }

  /** `(v - a) / (b - a)` recovers t from `lerp(a, b, t)`. */
  lemma LerpInverse(a: real, b: real, t: real)
    requires a != b
    ensures (Lerp(a, b, t) - a) / (b - a) == t
  {
    assert Lerp(a, b, t) - a == (b - a) * t;
    ScaleCancels(b - a, t);
  }

  // ---------------------------------------------------------------------------
  // Properties: binding and writing back
  // ---------------------------------------------------------------------------

  /** `'' + n` read back by `parseInt`, and as an array key, is n. */
  lemma NatToStringRoundTrip(n: nat)
    ensures DecimalValue(NatToString(n)) == n
    ensures ParseInt(NatToString(n)) == Some(n)
    ensures CanonicalIndex(NatToString(n)) == Some(n)
  {
    var s := NatToString(n);
    NatToStringValue(n);
    assert !HasHexPrefix(s);
    ParseIntOfDigits(s);
  }

  /** A dot-free target: a function there is bound and the value is 0;
      anything else is read as the value, and nothing is bound. */
  lemma ParseTargetPlain(c: ContextState, name: string, index: int)
    requires '.' !in name
    ensures var b := ParseTarget(c, name, index);
            b.Some? && b.value.target == name && b.value.index == index
            && (Get(c, name).Fn? ==> b.value.value == Num(Finite(0.0)) && b.value.boundFunc == Some(Get(c, name).fn))
            && (!Get(c, name).Fn? ==> b.value.value == Get(c, name) && b.value.boundFunc.None?)
  {
  }

  /** `"name.k"` with neither part holding a dot splits into the two. */
  lemma DottedSplit(name: string, k: string)
    requires '.' !in name && '.' !in k
    ensures IndexOf(name + "." + k, '.') == |name|
    ensures Split(name + "." + k, '.') == [name, k]
  {
    var str := name + "." + k;
    assert str == name + ['.'] + k;
    assert forall i :: 0 <= i < |name| ==> name[i] != '.';
    IndexOfAfter(name, k, '.');
    SplitFirst(name, k, '.');
    assert forall i :: 0 <= i < |k| ==> k[i] != '.';
    SplitNoSeparator(k, '.');
  }

  /** `"name.k"` on an array: the key is `name`, the index is k, and the
      value is element k, or undefined past the end. */
  lemma ParseTargetIndexed(c: ContextState, name: string, k: nat)
    requires '.' !in name && Get(c, name).Arr? && Get(c, name).arr in c.arrays
    ensures var arr := c.arrays[Get(c, name).arr];
            ParseTarget(c, name + "." + NatToString(k), 0)
            == Some(Binding(name, k, if k < |arr| then arr[k] else Undefined, None))
  {
    var ks := NatToString(k);
    assert forall i :: 0 <= i < |ks| ==> ks[i] != '.';
    DottedSplit(name, ks);
    NatToStringRoundTrip(k);
  }

  /** `"name.k"` where k does not start with a number binds index 0; on a
      missing or null property it throws. */
  lemma ParseTargetOddIndex(c: ContextState, name: string, k: string)
    requires '.' !in name && '.' !in k
    ensures ParseInt(k).None? && ParseTarget(c, name + "." + k, 0).Some? ==> ParseTarget(c, name + "." + k, 0).value.index == 0
    ensures (Get(c, name).Undefined? || Get(c, name).Null?) ==> ParseTarget(c, name + "." + k, 0).None?
  {
    DottedSplit(name, k);
  }

  /** First rule: a property of the value's own type is replaced, and
      nothing else happens. */
  lemma SameTypeReplaces(c: ContextState, key: string, value: Value, index: int, boundFunc: Option<nat>)
    requires TypeOf(Get(c, key)) == TypeOf(value)
    ensures var r := SetContextValue(c, key, value, index, boundFunc);
            Get(r, key) == value && r.arrays == c.arrays && r.log == c.log
            && forall k :: k != key ==> Get(r, k) == Get(c, k)
  {
  }

  /** Second rule: otherwise a bound function is called with the value, and
      no property or array changes. */
  lemma BoundFunctionCalled(c: ContextState, key: string, value: Value, index: int, f: nat)
    requires TypeOf(Get(c, key)) != TypeOf(value)
    ensures var r := SetContextValue(c, key, value, index, Some(f));
            r.props == c.props && r.arrays == c.arrays && r.log == c.log + [CalledBound(f, value)]
  {
  }

  /** Third rule: otherwise, on an array property, only the slot `index` of
      that array is written. */
  lemma ArraySlotWritten(c: ContextState, key: string, value: Value, index: int)
    requires TypeOf(Get(c, key)) != TypeOf(value) && Get(c, key).Arr? && Get(c, key).arr in c.arrays
    requires 0 <= index < |c.arrays[Get(c, key).arr]|
    ensures var r := SetContextValue(c, key, value, index, None);
            var id := Get(c, key).arr;
            r.props == c.props && r.log == c.log && r.arrays.Keys == c.arrays.Keys
            && |r.arrays[id]| == |c.arrays[id]| && r.arrays[id][index] == value
            && (forall j :: 0 <= j < |c.arrays[id]| && j != index ==> r.arrays[id][j] == c.arrays[id][j])
            && (forall other :: other in c.arrays && other != id ==> r.arrays[other] == c.arrays[other])
  {
  }

  /** Last rule: with none of the three, nothing is written. */
  lemma NothingWritten(c: ContextState, key: string, value: Value, index: int)
    requires TypeOf(Get(c, key)) != TypeOf(value) && !(Get(c, key).Arr? && Get(c, key).arr in c.arrays)
    ensures SetContextValue(c, key, value, index, None) == c
  {
  }

  /** `_onChange` writes first and then notifies the control's own handler
      and then the parent's, each at most once: the effects it adds are the
      write's, then `OwnOnChange` if there is a handler, then
      `ParentOnChange` if there is a parent handler. */
  lemma OnChangeOrder(c: ContextState, b: Binding, hasOwn: bool, hasParent: bool)
    ensures var w := SetContextValue(c, b.target, b.value, b.index, b.boundFunc);
            var r := OnChange(c, b, hasOwn, hasParent);
            r.props == w.props && r.arrays == w.arrays
            && r.log == w.log + (if hasOwn then [OwnOnChange] else []) + (if hasParent then [ParentOnChange] else [])
            && |w.log| <= |c.log| + 1 && w.log[..|c.log|] == c.log
  {
  }

  /** `XYPad` writes its Y value only after the parent handler has run: the
      effects of the base `_onChange`, the parent notification last among
      them, come before any the Y write adds. */
  lemma PadWritesYAfterParent(c: ContextState, b: Binding, targetY: string, valueY: Value, hasOwn: bool)
    ensures var base := OnChange(c, b, hasOwn, true);
            var r := PadOnChange(c, b, targetY, valueY, hasOwn, true);
            base.log != [] && base.log[|base.log| - 1] == ParentOnChange
            && |base.log| <= |r.log| && r.log[..|base.log|] == base.log
  {
  }

  /** A `Bool` for slot k of a boolean array flips that slot on a click and
      leaves every other slot and property alone. */
  lemma BoolSlotClickFlips(c: ContextState, name: string, k: nat, hasOwn: bool, hasParent: bool)
    requires '.' !in name && Get(c, name).Arr? && Get(c, name).arr in c.arrays
    requires k < |c.arrays[Get(c, name).arr]| && c.arrays[Get(c, name).arr][k].Bool?
    ensures var arr := c.arrays[Get(c, name).arr];
            ParseTarget(c, name + "." + NatToString(k), 0) == Some(Binding(name, k, arr[k], None))
    ensures var id := Get(c, name).arr;
            var r := OnChange(c, Binding(name, k, Toggled(c.arrays[id][k]), None), hasOwn, hasParent);
            r.props == c.props && r.arrays.Keys == c.arrays.Keys
            && r.arrays[id] == c.arrays[id][k := Bool(!c.arrays[id][k].b)]
            && forall other :: other in c.arrays && other != id ==> r.arrays[other] == c.arrays[other]
  {
    ParseTargetIndexed(c, name, k);
  }

  /** Clicking a `Toggle` or `Bool` twice restores a boolean. */
  lemma ToggleTwice(v: Value)
    ensures Toggled(Toggled(v)) == Bool(ToBoolean(v))
    ensures v.Bool? ==> Toggled(Toggled(v)) == v
  {
  }

  // ---------------------------------------------------------------------------
  // Properties: widget updates
  // ---------------------------------------------------------------------------

  /** `clamp` keeps NaN and puts every other number in [0, 1], where a
      second `clamp` leaves it. */
  lemma ClampUnit(d: JsNumber)
    ensures var q := Clamp01(d);
            Clamp01(q) == q && (q.NaN? <==> d.NaN?) && (!q.NaN? ==> InRange(q, 0.0, 1.0))
  {
  }

  /** `1 - clamp(d)` likewise. */
  lemma FlipUnit(d: JsNumber)
    ensures var q := JsSub(Finite(1.0), Clamp01(d));
            Clamp01(q) == q && (q.NaN? <==> d.NaN?) && (!q.NaN? ==> InRange(q, 0.0, 1.0))
  {
  }

  /** `clamp` of a quotient: in [0, 1], or NaN exactly for 0 / 0. */
  lemma ClampQuotient(a: real, b: real)
    ensures var q := Clamp01(JsDiv(a, b));
            (q.NaN? <==> a == 0.0 && b == 0.0) && (!q.NaN? ==> InRange(q, 0.0, 1.0))
  {
    ClampUnit(JsDiv(a, b));
  }

  /** `1 - clamp(q)` of a quotient: in [0, 1], or NaN exactly for 0 / 0. */
  lemma FlippedQuotient(a: real, b: real)
    ensures var q := JsSub(Finite(1.0), Clamp01(JsDiv(a, b)));
            (q.NaN? <==> a == 0.0 && b == 0.0) && (!q.NaN? ==> InRange(q, 0.0, 1.0))
  {
    FlipUnit(JsDiv(a, b));
  }

  /** A vertical slider's value: `clamp(1 - clamp(q))` is `1 - clamp(q)`. */
  lemma SliderVerticalInUnit(y: real, rect: Rect)
    ensures var v := SliderValue(0.0, y, rect, true);
            (v.NaN? <==> y == rect.top && rect.height == 0.0) && (!v.NaN? ==> InRange(v, 0.0, 1.0))
  {
    var d := AlongY(y, rect);
    FlipUnit(d);
    assert d.NaN? <==> y - rect.top == 0.0 && rect.height == 0.0;
    assert SliderValue(0.0, y, rect, true) == Clamp01(JsSub(Finite(1.0), Clamp01(d)));
  }

  /** A horizontal slider's value: `clamp(clamp(q))` is `clamp(q)`. */
  lemma SliderHorizontalInUnit(x: real, rect: Rect)
    ensures var v := SliderValue(x, 0.0, rect, false);
            (v.NaN? <==> x == rect.left && rect.width == 0.0) && (!v.NaN? ==> InRange(v, 0.0, 1.0))
  {
    var d := AlongX(x, rect);
    ClampUnit(d);
    assert d.NaN? <==> x - rect.left == 0.0 && rect.width == 0.0;
    assert SliderValue(x, 0.0, rect, false) == Clamp01(Clamp01(d));
  }

  /** A slider or axis value lies in [0, 1]; it is NaN only when the
      rectangle has no extent along the slider and the mouse is exactly
      at its edge. */
  lemma SliderInUnit(x: real, y: real, rect: Rect, vertical: bool)
    ensures var v := SliderValue(x, y, rect, vertical);
            (v.NaN? <==> if vertical then y == rect.top && rect.height == 0.0 else x == rect.left && rect.width == 0.0)
            && (!v.NaN? ==> InRange(v, 0.0, 1.0))
  {
    if vertical {
      SliderVerticalInUnit(y, rect);
      assert SliderValue(x, y, rect, vertical) == SliderValue(0.0, y, rect, true);
    } else {
      SliderHorizontalInUnit(x, rect);
      assert SliderValue(x, y, rect, vertical) == SliderValue(x, 0.0, rect, false);
    }
  }

  /** The X value of an `XYPad` update lies in [0, 1], or is NaN exactly
      for the mouse at the edge of a rectangle with no width. */
  lemma PadXInUnit(x: real, y: real, rect: Rect)
    ensures var vx := PadValues(x, y, rect).0;
            (vx.NaN? <==> x == rect.left && rect.width == 0.0) && (!vx.NaN? ==> InRange(vx, 0.0, 1.0))
  {
    assert PadValues(x, y, rect).0 == Clamp01(JsDiv(x - rect.left, rect.width));
    ClampQuotient(x - rect.left, rect.width);
  }

  /** The Y value likewise, with the height. */
  lemma PadYInUnit(x: real, y: real, rect: Rect)
    ensures var vy := PadValues(x, y, rect).1;
            (vy.NaN? <==> y == rect.top && rect.height == 0.0) && (!vy.NaN? ==> InRange(vy, 0.0, 1.0))
  {
    assert PadValues(x, y, rect).1 == JsSub(Finite(1.0), Clamp01(JsDiv(y - rect.top, rect.height)));
    FlippedQuotient(y - rect.top, rect.height);
  }


  /** Clamping `n - d`: NaN stays NaN, any other number lands in [0, 1],
      a non-negative d never raises a number in range, and d = 0 keeps
      it. */
  lemma ClampedDecrement(n: JsNumber, d: real)
    ensures n.NaN? ==> Clamp01(JsSub(n, Finite(d))).NaN?
    ensures !n.NaN? ==> InRange(Clamp01(JsSub(n, Finite(d))), 0.0, 1.0)
    ensures InRange(n, 0.0, 1.0) && d >= 0.0 ==> Clamp01(JsSub(n, Finite(d))).r <= n.r
    ensures InRange(n, 0.0, 1.0) && d == 0.0 ==> Clamp01(JsSub(n, Finite(d))) == n
  {
    match n
    case Finite(x) =>
      assert JsSub(n, Finite(d)) == Finite(x - d);
    case PosInf =>
      assert JsSub(n, Finite(d)) == PosInf;
    case NegInf =>
      assert JsSub(n, Finite(d)) == NegInf;
    case NaN =>
  }

  /** A dial or knob value that is a number ends in [0, 1]; dragging down
      (a positive delta) never raises a value in range, and a zero drag
      keeps it. */
  lemma DialInUnit(value: Value, delta: real)
    ensures ToNumber(value).NaN? ==> DialValue(value, delta).NaN?
    ensures !ToNumber(value).NaN? ==> InRange(DialValue(value, delta), 0.0, 1.0)
    ensures InRange(ToNumber(value), 0.0, 1.0) && delta >= 0.0 ==> DialValue(value, delta).r <= ToNumber(value).r
    ensures InRange(ToNumber(value), 0.0, 1.0) && delta == 0.0 ==> DialValue(value, delta) == ToNumber(value)
  {
    ClampedDecrement(ToNumber(value), delta / 1000.0);
  }

  /** A drawn index is a slot of the buffer, whenever it is a number and
      the buffer is not empty. */
  lemma IndexInBuffer(x: real, rect: Rect, len: nat)
    requires len >= 1
    ensures var i := MouseXToIndex(x, rect, len);
            i.NaN? || (IsSlot(i, len) && 0.0 <= i.r <= (len - 1) as real)
  {
    var nX := Clamp01(AlongX(x, rect));
    assert MouseXToIndex(x, rect, len) == Round(JsMul(nX, Finite((len - 1) as real)));
    ClampUnit(AlongX(x, rect));
    ScaledSlot(nX, len);
  }

  /** A fraction in [0, 1] of the last index rounds to a slot. */
  lemma ScaledSlot(n: JsNumber, len: nat)
    requires len >= 1 && (n.NaN? || InRange(n, 0.0, 1.0))
    ensures var i := Round(JsMul(n, Finite((len - 1) as real)));
            i.NaN? || (IsSlot(i, len) && 0.0 <= i.r <= (len - 1) as real)
  {
    if n.Finite? {
      var w := (len - 1) as real;
      assert 0.0 <= n.r <= 1.0 && 0.0 <= w;
      FractionWithin(n.r, w);
      assert 0.0 <= n.r * w <= w;
      assert JsMul(n, Finite(w)) == Finite(n.r * w);
      RoundSlot(n.r * w, len);
    }
  }

  /** Rounding a position in [0, len - 1] gives a slot. */
  lemma RoundSlot(p: real, len: nat)
    requires len >= 1 && 0.0 <= p <= (len - 1) as real
    ensures IsSlot(Round(Finite(p)), len) && 0.0 <= Round(Finite(p)).r <= (len - 1) as real
  {
    var f := (p + 0.5).Floor;
    assert Round(Finite(p)) == Finite(f as real);
    assert f as real <= p + 0.5 < f as real + 1.0;
    assert -1.0 < f as real < len as real;
    assert -1 < f < len;
  }

  /** A drawn value lies in [0, 1] when unipolar and in [-1, 1] when
      bipolar, or is NaN. */
  lemma DrawnValueInRange(y: real, rect: Rect, unipolar: bool)
    ensures var v := MouseYToValue(y, rect, unipolar);
            v.NaN? || InRange(v, if unipolar then 0.0 else -1.0, 1.0)
  {
    ClampQuotient(y - rect.top, rect.height);
  }

  /** Drawing writes the one slot the mouse names and no other. */
  lemma DrawWritesOneSlot(buf: seq<JsNumber>, index: JsNumber, value: JsNumber)
    ensures var r := BufferWrite(buf, index, value);
            (IsSlot(index, |buf|) ==> r[index.r.Floor] == value)
            && forall j :: 0 <= j < |buf| && !(IsSlot(index, |buf|) && j == index.r.Floor) ==> r[j] == buf[j]
  {
  }
}
