/** Values shared by the two keyboard-avoiding scroll containers: pixel
    values, the scroll command both of them issue, JavaScript prop values
    with their truthiness, and the measurements the host reports. */
module Common {

  /** A layout value in pixels. Only exact linear arithmetic is modelled;
      NaN and rounding are not. */
  type Px = real

  /** An optional value: what the widgets read from the host may be absent
      (no focused field, a prop left unset). */
  datatype Option<+T> = None | Some(value: T) {

    /** The value in Some, or `default` for None. */
    function GetOr(default: T): T {
      match this
      case Some(v) => v
      case None => default
    }
  }

  /** The imperative request `scrollTo({ x, y, animated })` on the native
      scroll view. */
  datatype ScrollTo = ScrollTo(x: Px, y: Px, animated: bool)

  /** A JavaScript value as far as the widgets inspect it: a prop may be
      missing (`Undefined`), `null`, a boolean, a number, a string, a
      function or some other object. */
  datatype JsValue =
    | Undefined
    | Null
    | Bool(b: bool)
    | Num(n: Px)
    | Str(s: string)
    | Func
    | Obj

  /** JavaScript truthiness. Without NaN, a number is truthy exactly when
      it is not zero. */
  predicate Truthy(v: JsValue) {
    match v
    case Undefined => false
    case Null => false
    case Bool(b) => b
    case Num(n) => n != 0.0
    case Str(s) => s != ""
    case Func => true
    case Obj => true
  }

  /** `typeof v === 'function'`. */
  predicate IsFunc(v: JsValue) {
    v.Func?
  }

  /** A native node handle as returned by the focus registry. Handles are
      positive; every falsy value the registry can return (`null`,
      `undefined`, the handle 0) is modelled as `None`. */
  type NodeHandle = h: nat | h > 0 witness 1

  /** The part of a `UIManager.measure` result the handlers read: the
      element's top edge on screen and its height. */
  datatype AbsoluteFrame = AbsoluteFrame(pageY: Px, height: Px) {

    /** The element's bottom edge in screen coordinates. */
    function Bottom(): Px {
      pageY + height
    }
  }

  /** The guard both keyboard-shown handlers start with: a field is focused
      and the keyboard event carries a truthy top coordinate (a missing one
      is modelled as 0). */
  predicate KeyboardUsable(focused: Option<NodeHandle>, keyboardScreenY: Px) {
    focused.Some? && keyboardScreenY != 0.0
  }
}
