# Keyboard-avoiding scroll containers, modelled in Dafny

The repository ships two React Native scroll containers that keep the
focused text input visible above the on-screen keyboard. This project
models the keyboard-avoidance logic of both as pure state machines and
proves what each handler does.

- `Scroll` (Scroll.js, module `Scroll`) wraps a native `ScrollView`. State
  is `nowOffsetY` (the tracked scroll offset) and the React state
  `scrollContentPaddingBottom`. On keyboard-shown it sets the bottom padding
  to the keyboard's top coordinate. If the focused input, less a one-pixel
  tolerance, reaches below the keyboard, it scrolls without animation so
  that the input's bottom edge plus the `offsetY` prop (default 0) sits at
  the keyboard's top edge. On keyboard-hidden it clears the padding. The
  three scroll-end callbacks record the content offset. The two pure render
  helpers are modelled too: the `keyboardDismissMode` mapping and the
  `contentContainerStyle` merge.
- `SScrollView` (KBScrollView.js, module `KBScrollView`) extends the native
  scroll view. State is `nowOffsetY` and `beforeKBShowOffsetY`. Every scroll
  event records the content offset. On a keyboard-shown that strictly covers
  the input, and once the input's position inside the scroll view is known,
  it remembers the current offset. It then scrolls, animated, so that the
  input's bottom edge plus a fixed 20-pixel margin meets the keyboard's top.
  On keyboard-hidden it scrolls back to the remembered offset, unless
  `keyboardShouldPersistTaps` is truthy.

Shared definitions live in module `Common`: pixels as `real`, `Option`, the
`ScrollTo` command, JavaScript values with their truthiness, and the
keyboard-shown guard.

Each handler is a function from a state and an event to an `Output`. The
output holds the next state and at most one `ScrollTo` command. `Run` folds
a sequence of events from the initial state. The host's answers are
fields of the keyboard-shown event: the focused field, as read when the
keyboard event fires, and the measurements and the scroll view ref as they
are when the lookups resolve. The measurements are the input's frame on
screen, the scroll view's top edge and the relative lookup (`Resolved(y)`
or `Rejected`). A
falsy keyboard coordinate is modelled as 0 and a falsy focused handle
(including the handle 0) as `None`; handles are positive.

Behaviours of the code worth stating plainly:
- A zero pre-keyboard offset still triggers the scroll back: the hide guard
  `x === 0 || x` holds for every number, so the hide handler always scrolls
  back unless taps persist (`KBScrollView.OnKeyboardHidden`).
- The snapshot is taken only after the relative lookup succeeds, and it
  reads `nowOffsetY` at that moment.
- The widget passes its own `onScrollEndDrag` and `onScrollAnimationEnd`
  to the native view, so the user's props of those names are never called.
  A drag end and an animation end call the user's `onMomentumScrollEnd`
  instead (`Scroll.Step`; `Output` has no flag for the other two callbacks).
- A missing `keyboardDismissMode` becomes `'on-drag'` first. That value is
  truthy, so on Android it then becomes `'none'`, like any other truthy
  mode.

## Model

| member | source | states |
|---|---|---|
| Scroll.OnKeyboardShown | Scroll.js:87-112 | no-op without a focused field or keyboard coordinate; otherwise padding becomes the keyboard top; scrolls iff covered (bottom − 1 > keyboard top) and the ref is set, non-animated at x = 0, and the new tracked offset is the scroll target; the scroll puts input bottom + offsetY exactly at the keyboard top; no scroll leaves the offset untouched |
| Scroll.OnKeyboardHidden | Scroll.js:114-116 | padding returns to 0, the tracked offset is unchanged, no scroll |
| Scroll.OnScrollEnd | Scroll.js:119-124 | the tracked offset becomes the event's content offset, padding is kept, no scroll, and onMomentumScrollEnd is called iff it is a function |
| Scroll.Step | Scroll.js:119-138 | all three scroll-end events record the offset and forward to onMomentumScrollEnd; a hide changes only the padding; only keyboard-shown events scroll |
| Scroll.RunPaddingIsReserved | Scroll.js:87-116 | after any event sequence from the initial state the padding is the top coordinate of the latest usable show, or 0 after a hide or with no keyboard event |
| Scroll.RunOffsetIsTracked | Scroll.js:96-137 | after any event sequence from the initial state the tracked offset is the latest scroll-end event's content offset (0 before any) plus, for every scrolling keyboard-shown since, how far the input reached past the keyboard plus offsetY; hides and non-scrolling shows never change it |
| Scroll.HiddenClearsPadding | Scroll.js:114-116 | whatever came before, a hide leaves the padding at exactly 0 |
| Scroll.CoveredScrollPassesClearance | Scroll.js:96-101 | a covered input always scrolls to an offset more than the tolerance plus offsetY past the current one (upwards only when offsetY is below −1) |
| Scroll.KeyboardDismissMode | Scroll.js:142-146 | a missing or truthy mode becomes 'none' on Android and 'on-drag' elsewhere; a falsy given mode passes through unchanged; the result, if truthy, is one of the two modes |
| Scroll.DismissModeIdempotent | Scroll.js:142-146 | feeding the chosen mode back in yields the same mode |
| Scroll.ContentContainerStyle | Scroll.js:154-157 | the rendered style has the user's keys plus paddingBottom, paddingBottom equals the state padding, every other key keeps the user's value |
| Scroll.ContentStyleOverrideLatest | Scroll.js:154-157 | merging twice keeps only the newest padding and the user's other keys |
| KBScrollView.OnScroll | KBScrollView.js:37-41 | the tracked offset becomes the content offset, the snapshot is kept, no scroll |
| KBScrollView.OnKeyboardShown | KBScrollView.js:44-65 | scrolls iff there is a focused field and keyboard coordinate, the input is strictly covered and the relative lookup resolved; then the snapshot is the current offset, the scroll is animated at x = 0 and puts input bottom + 20 exactly at the keyboard top; every other path, a rejected lookup included, leaves the state unchanged; the tracked offset is never written |
| KBScrollView.OnKeyboardHidden | KBScrollView.js:67-74 | the state never changes; no scroll when taps persist, otherwise a scroll back to the snapshot, also when the snapshot is 0 |
| KBScrollView.Step | KBScrollView.js:37-74 | a scroll other than the hide's happens exactly on lifting keyboard-shown events |
| KBScrollView.RunOffsetIsLatestScroll | KBScrollView.js:37-41 | after any event sequence from the initial state the tracked offset is the latest scroll event's offset, or 0 |
| KBScrollView.RunSnapshotIsRestorePoint | KBScrollView.js:53-56 | after any event sequence the snapshot is the tracked offset just before the latest lifting keyboard-shown, or 0 if none; hides never reset it |
| KBScrollView.RestorePointSurvives | KBScrollView.js:67-74 | events after a lift that do not lift again keep its restore point |
| KBScrollView.HideRestoresPreShowOffset | KBScrollView.js:54-72 | the hide after a lift, with any non-lifting events in between, scrolls back to the offset the view had just before that lift |
| KBScrollView.ShowThenHideKeepsSnapshot | KBScrollView.js:56-72 | a lift followed by a hide leaves both fields at the offset from before the lift |
| KBScrollView.WorkedExample | KBScrollView.js:53-58 | keyboard 500, input 550+40, view at 0, input 300 into the content gives target −140; an input ending at 480 gives no scroll |

## Left out

- Listener registration and removal in `componentWillMount` and `componentWillUnmount`, and the React lifecycle: framework wiring.
- `UIManager.measure`, `UIManager.measureLayout`, `findNodeHandle` and the promise sequencing: foreign asynchronous calls. Their results are event fields, taken at resolution time. Other events that arrive while a measurement is pending are not interleaved: each handler runs atomically.
- `TextInput.State.currentlyFocusedField()`: a process-wide registry, passed in as an `Option`. The cross-screen focus leak this causes is therefore not modelled.
- The effect of `scrollTo` on the native view: a `ScrollTo` is only emitted. The later scroll events it causes are ordinary events in a sequence.
- `super._handleScroll`, prop spreading onto the native view, `propTypes`, rendering beyond the two helpers, and `console.log` of a rejected lookup.
- Scroll.OnScrollEnd: the call to onMomentumScrollEnd is a flag. The event object passed to it is not modelled. The source calls the callback before it records `nowOffsetY`; a callback that throws leaves the offset unrecorded and propagates the exception, whereas the model always records it (callbacks cannot fail here).
- Scroll.Run: props are fixed for a whole event sequence; a re-render with a new `offsetY` or `onMomentumScrollEnd` between events is not modelled, so `Scroll.RunOffsetIsTracked` speaks only of runs with constant props (each single step reads the props it is given, as the handlers read `this.props` afresh).
- KBScrollView.Run: props are fixed for a whole event sequence; a re-render with a new `keyboardShouldPersistTaps` between events is not modelled (`KBScrollView.Step` reads the props it is given).
- Scroll.ContentContainerStyle: the user's style is given as the key/value map its spread produces. A missing style, `null` or a registered style number spreads to nothing and is `None`. An array spreads to its index keys, so `[a, b]` is passed as `Some(map["0" := a, "1" := b])`; the flattening the native view would apply to such an array is not modelled. Style values are `JsValue`s.
- Floating-point behaviour of layout values (NaN, rounding): pixels are exact reals. As a result, a number is falsy only when it is 0.
