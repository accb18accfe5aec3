/**
 * The control objects of tools/synths/ctrl.js: a `Control` holds its
 * binding and its value and writes back into a shared context object, and
 * the widgets are controls whose clicks and drags first compute a new value
 * (by the functions of `Ctrl`) and then run `_onChange`. Which widget a
 * control is decides only what its `update` does, so the widget classes
 * become one `Control` class with a `Kind`. Rendering and the DOM are not
 * modelled.
 */
module CtrlWidgets {
  import opened JsCore
  import opened Ctrl

  /** The context object the controls of one panel share. */
  class Context {
    var props: map<string, Value>
    var arrays: map<nat, seq<Value>>
    var log: seq<Effect>

    function State(): ContextState
      reads this
    {
      ContextState(props, arrays, log)
    }

    constructor(s: ContextState)
      ensures State() == s
    {
      props := s.props;
      arrays := s.arrays;
      log := s.log;
    }
  }

  /** What a widget's `update` does with a drag: buttons, toggles and
      boolean boxes have none. */
  datatype Kind = ButtonKind | ToggleKind | BoolKind | NumberKind | SliderKind(vertical: bool) | DialKind

  /** The value a widget's `update(delta, x, y)` leaves, with `rect` the
      bounding rectangle it last read. */
  function Updated(kind: Kind, value: Value, delta: real, x: real, y: real, rect: Rect): Value
  {
    match kind
    case NumberKind => Num(DraggableNumberValue(value, delta))
    case SliderKind(vertical) => Num(SliderValue(x, y, rect, vertical))
    case DialKind => Num(DialValue(value, delta))
    case _ => value
  }

  /** The `delta` of `Draggable.mousemove`: the mouse's travel since the
      press along the drag direction, a tenth of it with shift held. */
  function DragDelta(vertical: bool, startX: real, startY: real, x: real, y: real, shift: bool): real
  {
    var d := if vertical then y - startY else x - startX;
    if shift then d / 10.0 else d
  }

  /** A control bound to one key, array slot or function of its context. */
  class Control {
    const context: Context
    const target: string
    const index: int
    const boundFunc: Option<nat>
    const kind: Kind
    var value: Value
    /** Whether `onChange` is set on the control, and on its parent. */
    var hasOwnHandler: bool
    var hasParentHandler: bool

    /** The binding `_parseTarget` set up, with the current value. */
    function Bound(): Binding
      reads this
    {
      Binding(target, index, value, boundFunc)
    }

    /** A control with the binding `_parseTarget` produced. */
    constructor(context: Context, b: Binding, kind: Kind, hasParentHandler: bool)
      ensures this.context == context && Bound() == b && this.kind == kind
      ensures !hasOwnHandler && this.hasParentHandler == hasParentHandler
    {
      this.context := context;
      target := b.target;
      index := b.index;
      boundFunc := b.boundFunc;
      this.kind := kind;
      value := b.value;
      hasOwnHandler := false;
      this.hasParentHandler := hasParentHandler;
    }

    /** `_setContextvalue(key, v, i)`. */
    method SetContextValue(key: string, v: Value, i: int)
      modifies context
      ensures context.State() == Ctrl.SetContextValue(old(context.State()), key, v, i, boundFunc)
    {
      var cur := if key in context.props then context.props[key] else Undefined;
      if TypeOf(cur) == TypeOf(v) {
        context.props := context.props[key := v];
        return;
      }
      if boundFunc.Some? {
        context.log := context.log + [CalledBound(boundFunc.value, v)];
        return;
      }
      if cur.Arr? && cur.arr in context.arrays {
        context.arrays := context.arrays[cur.arr := ArraySet(context.arrays[cur.arr], i, v)];
      }
    }

    /** `_onChange()`. */
    method Changed()
      modifies context
      ensures context.State() == OnChange(old(context.State()), Bound(), hasOwnHandler, hasParentHandler)
    {
      SetContextValue(target, value, index);
      if hasOwnHandler {
        context.log := context.log + [OwnOnChange];
      }
      if hasParentHandler {
        context.log := context.log + [ParentOnChange];
      }
    }

    /** A click: a button only notifies; a toggle or boolean box flips its
        value first. */
    method Click()
      requires kind == ButtonKind || kind == ToggleKind || kind == BoolKind
      modifies this, context
      ensures value == if kind == ButtonKind then old(value) else Toggled(old(value))
      ensures unchanged(this`hasOwnHandler, this`hasParentHandler)
      ensures context.State() == OnChange(old(context.State()), Bound(), hasOwnHandler, hasParentHandler)
    {
      if kind != ButtonKind {
        value := Toggled(value);
      }
      Changed();
    }

    /** `update(delta, x, y)` of this control's widget. */
    method Update(delta: real, x: real, y: real, rect: Rect)
      modifies this
      ensures value == Updated(kind, old(value), delta, x, y, rect)
      ensures unchanged(this`hasOwnHandler, this`hasParentHandler)
    {
      match kind {
        case NumberKind =>
          value := Num(JsSub(ToNumber(value), Finite(delta / 100.0)));
        case SliderKind(vertical) =>
          var internal := if vertical then JsSub(Finite(1.0), Clamp01(AlongY(y, rect)))
                          else Clamp01(AlongX(x, rect));
          value := Num(Clamp01(internal));
        case DialKind =>
          value := Num(Clamp01(JsSub(ToNumber(value), Finite(delta / 1000.0))));
        case _ =>
      }
    }

    /** `mousemove` during a drag that started at (startX, startY):
        update, then `_onChange`. Dials, knobs and numbers drag
        vertically, sliders along their own direction. */
    method MouseMove(vertical: bool, startX: real, startY: real, x: real, y: real, shift: bool, rect: Rect)
      modifies this, context
      ensures value == Updated(kind, old(value), DragDelta(vertical, startX, startY, x, y, shift), x, y, rect)
      ensures unchanged(this`hasOwnHandler, this`hasParentHandler)
      ensures context.State() == OnChange(old(context.State()), Bound(), hasOwnHandler, hasParentHandler)
    {
      var delta := DragDelta(vertical, startX, startY, x, y, shift);
      Update(delta, x, y, rect);
      Changed();
    }
  }

  /** `new Control(context, target, index)`: None when `_parseTarget`
      throws. */
  method NewControl(context: Context, target: string, index: int, kind: Kind, hasParentHandler: bool) returns (r: Option<Control>)
    ensures r.None? <==> ParseTarget(context.State(), target, index).None?
    ensures r.Some? ==> fresh(r.value) && r.value.context == context && r.value.kind == kind
                        && r.value.hasParentHandler == hasParentHandler && !r.value.hasOwnHandler
                        && r.value.Bound() == ParseTarget(context.State(), target, index).value
  {
    var b := ParseTarget(context.State(), target, index);
    if b.None? {
      return None;
    }
    var c := new Control(context, b.value, kind, hasParentHandler);
    return Some(c);
  }

  /** The binding of the `Bool` for slot i of `target`. */
  function SlotBinding(st: ContextState, target: string, i: nat): Option<Binding>
  {
    ParseTarget(st, target + "." + NatToString(i), 0)
  }

  /** c is the `Bool` `boolArray` makes for slot i. */
  predicate IsSlotBox(c: Control, st: ContextState, context: Context, target: string, i: nat, panelHasHandler: bool)
    reads c
  {
    var b := SlotBinding(st, target, i);
    b.Some? && c.Bound() == b.value && c.context == context && c.kind == BoolKind && c.hasParentHandler == panelHasHandler
  }

  /** `CTRL.boolArray(context, target, length)`: one `Bool` per slot,
      bound to `target.i`, each with the panel as parent. None when one of
      them throws. */
  method BoolArray(context: Context, target: string, length: nat, panelHasHandler: bool) returns (r: Option<seq<Control>>)
    ensures r.None? ==> exists i :: 0 <= i < length && SlotBinding(context.State(), target, i).None?
    ensures r.Some? ==> |r.value| == length
    ensures r.Some? ==> forall i :: 0 <= i < length ==> fresh(r.value[i]) && IsSlotBox(r.value[i], context.State(), context, target, i, panelHasHandler)
  {
    var st := context.State();
    var controls: seq<Control> := [];
    for i := 0 to length
      invariant |controls| == i
      invariant forall k :: 0 <= k < i ==> fresh(controls[k]) && IsSlotBox(controls[k], st, context, target, k, panelHasHandler)
    {
      var b := SlotBinding(st, target, i);
      if b.None? {
        assert st == context.State();
        assert SlotBinding(context.State(), target, i).None?;
        return None;
      }
      var c := new Control(context, b.value, BoolKind, panelHasHandler);
      controls := controls + [c];
    }
    assert st == context.State();
    return Some(controls);
  }

  /** An `XYPad`: its own control drives the X key, `valueY` the Y key. */
  class XYPad {
    const control: Control
    const targetY: string
    var valueY: Value

    /** `this.valueY = this.context[targetY] ?? 0`. */
    constructor(control: Control, targetY: string)
      ensures this.control == control && this.targetY == targetY
      ensures var v := Get(control.context.State(), targetY);
              valueY == if v.Null? || v.Undefined? then Num(Finite(0.0)) else v
    {
      this.control := control;
      this.targetY := targetY;
      var v := if targetY in control.context.props then control.context.props[targetY] else Undefined;
      valueY := if v.Null? || v.Undefined? then Num(Finite(0.0)) else v;
    }

    /** `update(delta, x, y)`. */
    method Update(x: real, y: real, rect: Rect)
      modifies this, control
      ensures control.value == Num(PadValues(x, y, rect).0) && valueY == Num(PadValues(x, y, rect).1)
      ensures unchanged(control`hasOwnHandler, control`hasParentHandler)
    {
      control.value := Num(Clamp01(AlongX(x, rect)));
      valueY := Num(JsSub(Finite(1.0), Clamp01(AlongY(y, rect))));
    }

    /** `_onChange()`: the base one, then the Y write. */
    method Changed()
      modifies control.context
      ensures control.context.State()
              == PadOnChange(old(control.context.State()), control.Bound(), targetY, valueY, control.hasOwnHandler, control.hasParentHandler)
    {
      control.Changed();
      control.SetContextValue(targetY, valueY, 0);
    }
  }

  /** A `DrawBuffer` over a buffer: its control is bound to the key `''`. */
  class DrawBuffer {
    const control: Control
    const buffer: array<JsNumber>
    const unipolar: bool

    constructor(control: Control, buffer: array<JsNumber>, unipolar: bool)
      ensures this.control == control && this.buffer == buffer && this.unipolar == unipolar
    {
      this.control := control;
      this.buffer := buffer;
      this.unipolar := unipolar;
    }

    /** `_update(delta, x, y)`: the sample under the mouse takes the
        value for its height. */
    method Update(x: real, y: real, rect: Rect)
      modifies buffer
      ensures buffer[..] == BufferWrite(old(buffer[..]), MouseXToIndex(x, rect, buffer.Length), MouseYToValue(y, rect, unipolar))
    {
      var index := MouseXToIndex(x, rect, buffer.Length);
      var value := MouseYToValue(y, rect, unipolar);
      if IsSlot(index, buffer.Length) {
        buffer[index.r.Floor] := value;
      }
    }
  }

  // ---------------------------------------------------------------------------
  // Properties
  // ---------------------------------------------------------------------------

  /** Every widget that has an `update` leaves a number; sliders and dials
      leave one in [0, 1] unless it is NaN, and buttons, toggles and boxes
      keep their value until clicked. */
  lemma UpdateKeepsRange(kind: Kind, value: Value, delta: real, x: real, y: real, rect: Rect)
    ensures var v := Updated(kind, value, delta, x, y, rect);
            (kind.SliderKind? || kind.DialKind? || kind.NumberKind? ==> v.Num?)
            && (kind.SliderKind? || kind.DialKind? ==> v.n.NaN? || InRange(v.n, 0.0, 1.0))
            && (kind == ButtonKind || kind == ToggleKind || kind == BoolKind ==> v == value)
  {
    match kind
    case SliderKind(vertical) => SliderInUnit(x, y, rect, vertical);
    case DialKind => DialInUnit(value, delta);
    case _ =>
  }

}
