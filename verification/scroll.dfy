/** The padding-based keyboard-avoiding container (`Scroll`). It wraps a
    native scroll view, reserves room under its content by a bottom padding
    equal to the keyboard's top coordinate while the keyboard is shown, and
    scrolls a covered input up without animation. */
module Scroll {
  import opened Common

  /** Default of the `offsetY` prop: extra clearance above the keyboard
      (room for an input method's suggestion bar). */
  const DefaultOffsetY: Px := 0.0

  /** The coverage test tolerates the input's last pixel row. */
  const CoverTolerance: Px := 1.0

  /** The style key the widget overrides in `contentContainerStyle`. */
  const PaddingBottomKey: string := "paddingBottom"

  const OnDrag: JsValue := Str("on-drag")
  const NoDismiss: JsValue := Str("none")

  /** The instance field `nowOffsetY` and the React state
      `scrollContentPaddingBottom`. */
  datatype State = State(nowOffsetY: Px, paddingBottom: Px)

  /** The state right after construction. */
  const Init: State := State(0.0, 0.0)

  /** The props the handlers read. `offsetY` is `None` when the prop is not
      given, so the default applies. */
  datatype Props = Props(offsetY: Option<Px>, onMomentumScrollEnd: JsValue)

  /** The events the widget reacts to. A keyboard-shown event carries the
      focused field as read when the keyboard event fires, and the focused
      input's frame on screen and whether the native scroll view ref is set
      as they are when the measurement resolves. */
  datatype Event =
    | KeyboardDidShow(keyboardScreenY: Px, focused: Option<NodeHandle>,
                      input: AbsoluteFrame, scrollViewMounted: bool)
    | KeyboardDidHide
    | MomentumScrollEnd(contentOffsetY: Px)
    | ScrollEndDrag(contentOffsetY: Px)
    | ScrollAnimationEnd(contentOffsetY: Px)

  /** What one event does: the next state, at most one scroll command, and
      whether the user's `onMomentumScrollEnd` callback is invoked. */
  datatype Output = Output(next: State, command: Option<ScrollTo>, callsMomentumEnd: bool)

  /** The `offsetY` prop after default props are applied. */
  function EffectiveOffsetY(props: Props): Px {
    props.offsetY.GetOr(DefaultOffsetY)
  }

  /** The input is covered when its bottom edge, less the tolerance, lies
      strictly below the keyboard's top edge. */
  predicate Covered(input: AbsoluteFrame, keyboardScreenY: Px) {
    input.Bottom() - CoverTolerance > keyboardScreenY
  }

  /** Keyboard shown: reserve padding, then scroll a covered input so that
      its bottom edge plus `offsetY` meets the keyboard's top edge. */
  function OnKeyboardShown(s: State, props: Props, keyboardScreenY: Px,
                           focused: Option<NodeHandle>, input: AbsoluteFrame,
                           scrollViewMounted: bool): (o: Output)
    // Without a focused field or a keyboard coordinate nothing happens.
    ensures !KeyboardUsable(focused, keyboardScreenY) ==> o == Output(s, None, false)
    // Otherwise the padding becomes the keyboard's top coordinate.
    ensures KeyboardUsable(focused, keyboardScreenY) ==> o.next.paddingBottom == keyboardScreenY
    // A scroll is issued exactly when the input is covered and the ref is set.
    ensures o.command.Some? <==>
              KeyboardUsable(focused, keyboardScreenY) && Covered(input, keyboardScreenY) && scrollViewMounted
    // Without a scroll the tracked offset is untouched.
    ensures o.command.None? ==> o.next.nowOffsetY == s.nowOffsetY
    // With one, the tracked offset follows the scroll, which is immediate and
    // moves the input so that its bottom edge plus offsetY is the keyboard's top.
    ensures o.command.Some? ==>
              && o.command.value.x == 0.0
              && !o.command.value.animated
              && o.next.nowOffsetY == o.command.value.y
              && input.Bottom() - (o.command.value.y - s.nowOffsetY) + EffectiveOffsetY(props) == keyboardScreenY
    ensures !o.callsMomentumEnd
  {
    if !KeyboardUsable(focused, keyboardScreenY) then
      Output(s, None, false)
    else
      var padded := s.(paddingBottom := keyboardScreenY);
      if Covered(input, keyboardScreenY) && scrollViewMounted then
        var scrollToY := s.nowOffsetY + input.height + EffectiveOffsetY(props)
                         + (input.pageY - keyboardScreenY);
        Output(padded.(nowOffsetY := scrollToY), Some(ScrollTo(0.0, scrollToY, false)), false)
      else
        Output(padded, None, false)
  }

  /** Keyboard hidden: the padding is cleared and nothing else changes. */
  function OnKeyboardHidden(s: State): (o: Output)
    ensures o.next.paddingBottom == 0.0
    ensures o.next.nowOffsetY == s.nowOffsetY
    ensures o.command.None? && !o.callsMomentumEnd
  {
    Output(s.(paddingBottom := 0.0), None, false)
  }

  /** Any of the three scroll-end callbacks: the tracked offset becomes the
      event's content offset, and the user's `onMomentumScrollEnd` (whichever
      of the three events it was) is called when it is a function. */
  function OnScrollEnd(s: State, props: Props, contentOffsetY: Px): (o: Output)
    ensures o.next.nowOffsetY == contentOffsetY
    ensures o.next.paddingBottom == s.paddingBottom
    ensures o.command.None?
    ensures o.callsMomentumEnd <==> IsFunc(props.onMomentumScrollEnd)
  {
    Output(s.(nowOffsetY := contentOffsetY), None, IsFunc(props.onMomentumScrollEnd))
  }

  /** One event. */
  function Step(s: State, props: Props, e: Event): (o: Output)
    // All three scroll-end events record their offset and forward to the
    // user's onMomentumScrollEnd, whether or not that prop is a function.
    ensures (e.MomentumScrollEnd? || e.ScrollEndDrag? || e.ScrollAnimationEnd?) ==>
              && o.next == s.(nowOffsetY := e.contentOffsetY)
              && o.command.None?
              && (o.callsMomentumEnd <==> IsFunc(props.onMomentumScrollEnd))
    // A hide changes only the padding.
    ensures e.KeyboardDidHide? ==> o.next == s.(paddingBottom := 0.0) && o.command.None?
    // Only keyboard-shown events scroll.
    ensures o.command.Some? ==> e.KeyboardDidShow?
  {
    match e
    case KeyboardDidShow(y, focused, input, mounted) => OnKeyboardShown(s, props, y, focused, input, mounted)
    case KeyboardDidHide => OnKeyboardHidden(s)
    case MomentumScrollEnd(y) => OnScrollEnd(s, props, y)
    case ScrollEndDrag(y) => OnScrollEnd(s, props, y)
    case ScrollAnimationEnd(y) => OnScrollEnd(s, props, y)
  }

  /** The state after a sequence of events, starting from `Init`. */
  function Run(props: Props, events: seq<Event>): State
    decreases |events|
  {
    if |events| == 0 then Init
    else Step(Run(props, events[..|events| - 1]), props, events[|events| - 1]).next
  }

  /** Reference definition of the padding: the top coordinate carried by the
      latest keyboard event that is a usable show, 0 when the latest relevant
      keyboard event is a hide or when there is none. */
  function ReservedPadding(events: seq<Event>): Px
    decreases |events|
  {
    if |events| == 0 then 0.0
    else
      var e := events[|events| - 1];
      if e.KeyboardDidHide? then 0.0
      else if e.KeyboardDidShow? && KeyboardUsable(e.focused, e.keyboardScreenY) then e.keyboardScreenY
      else ReservedPadding(events[..|events| - 1])
  }

  /** The padding after any sequence of events is the one the latest
      relevant keyboard event asks for: it starts at 0, is the keyboard's
      top coordinate while shown and is 0 again after a hide. */
  lemma {:induction false} RunPaddingIsReserved(props: Props, events: seq<Event>)
    ensures Run(props, events).paddingBottom == ReservedPadding(events)
    decreases |events|
  {
    if |events| > 0 {
      RunPaddingIsReserved(props, events[..|events| - 1]);
    }
  }

  /** The keyboard-shown events that scroll. */
  predicate Lifts(e: Event) {
    && e.KeyboardDidShow?
    && KeyboardUsable(e.focused, e.keyboardScreenY)
    && Covered(e.input, e.keyboardScreenY)
    && e.scrollViewMounted
  }

  /** How far a lifting event scrolls: how far the input's bottom edge
      reaches past the keyboard's top edge, plus the `offsetY` clearance. */
  function LiftDistance(props: Props, e: Event): Px
    requires e.KeyboardDidShow?
  {
    (e.input.Bottom() - e.keyboardScreenY) + EffectiveOffsetY(props)
  }

  /** Reference definition of the tracked offset: the content offset of the
      latest scroll-end event (0 before any), plus the distance of every
      lifting keyboard-shown event since then. */
  function TrackedOffset(props: Props, events: seq<Event>): Px
    decreases |events|
  {
    if |events| == 0 then 0.0
    else
      var e := events[|events| - 1];
      var before := TrackedOffset(props, events[..|events| - 1]);
      if e.MomentumScrollEnd? || e.ScrollEndDrag? || e.ScrollAnimationEnd? then e.contentOffsetY
      else if Lifts(e) then before + LiftDistance(props, e)
      else before
  }

  /** After any sequence of events the tracked offset is the latest
      scroll-end offset moved by every lift since: hides and keyboard-shown
      events that do not scroll leave it alone. */
  lemma {:induction false} RunOffsetIsTracked(props: Props, events: seq<Event>)
    ensures Run(props, events).nowOffsetY == TrackedOffset(props, events)
    decreases |events|
  {
    if |events| > 0 {
      RunOffsetIsTracked(props, events[..|events| - 1]);
    }
  }

  /** A hide clears the padding whatever came before it. */
  lemma HiddenClearsPadding(props: Props, events: seq<Event>)
    ensures Run(props, events + [KeyboardDidHide]).paddingBottom == 0.0
  {
    RunPaddingIsReserved(props, events + [KeyboardDidHide]);
  }

  /** A covered input always scrolls to an offset more than the tolerance
      plus `offsetY` past the current one. */
  lemma CoveredScrollPassesClearance(s: State, props: Props, keyboardScreenY: Px,
                               focused: Option<NodeHandle>, input: AbsoluteFrame)
    requires KeyboardUsable(focused, keyboardScreenY) && Covered(input, keyboardScreenY)
    ensures var o := OnKeyboardShown(s, props, keyboardScreenY, focused, input, true);
            o.command.Some? && o.command.value.y > s.nowOffsetY + CoverTolerance + EffectiveOffsetY(props)
  {
  }

  /** The `keyboardDismissMode` handed to the native view. A missing prop
      defaults to 'on-drag'; every truthy mode is replaced by 'none' on
      Android and 'on-drag' elsewhere; a falsy mode is passed on as it is. */
  function KeyboardDismissMode(prop: JsValue, os: string): (r: JsValue)
    ensures (prop == Undefined || Truthy(prop)) ==> r == (if os == "android" then NoDismiss else OnDrag)
    ensures (prop != Undefined && !Truthy(prop)) ==> r == prop
    ensures Truthy(r) ==> r == OnDrag || r == NoDismiss
  {
    var mode := if prop == Undefined then OnDrag else prop;
    if Truthy(mode) then (if os == "android" then NoDismiss else OnDrag) else mode
  }

  /** Feeding the chosen mode back in chooses it again. */
  lemma DismissModeIdempotent(prop: JsValue, os: string)
    ensures KeyboardDismissMode(KeyboardDismissMode(prop, os), os) == KeyboardDismissMode(prop, os)
  {
  }

  /** A style object: property name to value. */
  type Style = map<string, JsValue>

  /** What spreading the user's `contentContainerStyle` contributes: its
      keys when it is an object, nothing when it is missing. */
  function SpreadStyle(user: Option<Style>): Style {
    user.GetOr(map[])
  }

  /** The content container style rendered: the user's style with
      `paddingBottom` set to the state's padding. */
  function ContentContainerStyle(user: Option<Style>, paddingBottom: Px): (r: Style)
    ensures r.Keys == SpreadStyle(user).Keys + {PaddingBottomKey}
    ensures r[PaddingBottomKey] == Num(paddingBottom)
    ensures forall k :: k in SpreadStyle(user) && k != PaddingBottomKey ==> r[k] == SpreadStyle(user)[k]
  {
    SpreadStyle(user)[PaddingBottomKey := Num(paddingBottom)]
  }

  /** Re-rendering with an already merged style keeps only the newest
      padding: the override does not accumulate. */
  lemma ContentStyleOverrideLatest(user: Option<Style>, p1: Px, p2: Px)
    ensures ContentContainerStyle(Some(ContentContainerStyle(user, p1)), p2) == ContentContainerStyle(user, p2)
  {
    var a := ContentContainerStyle(Some(ContentContainerStyle(user, p1)), p2);
    var b := ContentContainerStyle(user, p2);
    assert a.Keys == b.Keys;
    forall k | k in a
      ensures a[k] == b[k]
    {
    }
  }
}
