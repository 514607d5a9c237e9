/** The scroll-restoring keyboard-avoiding container (`SScrollView`). It
    extends the native scroll view, remembers the scroll offset before it
    lifts a covered input above the keyboard (with a fixed 20-pixel margin,
    animated), and scrolls back to that offset when the keyboard hides. */
module KBScrollView {
  import opened Common

  /** The fixed margin kept between the input's bottom edge and the
      keyboard's top edge. */
  const KeyboardMargin: Px := 20.0

  /** The instance fields `nowOffsetY` and `beforeKBShowOffsetY`. */
  datatype State = State(nowOffsetY: Px, beforeKBShowOffsetY: Px)

  /** Both fields start at 0. */
  const Init: State := State(0.0, 0.0)

  /** The outcome of `measureLayout` for the input relative to the scroll
      view: its top edge in the scroll view's content, or a rejection (for
      one, when the input is not a descendant of this scroll view). */
  datatype RelativeLookup = Resolved(y: Px) | Rejected

  /** The props the handlers read. */
  datatype Props = Props(keyboardShouldPersistTaps: JsValue)

  /** The events the widget reacts to. A keyboard-shown event carries the
      focused field as read when the keyboard event fires, and the input's
      frame on screen, the scroll view's top edge on screen and the relative
      lookup as they are when the measurements resolve. */
  datatype Event =
    | HandleScroll(contentOffsetY: Px)
    | KeyboardDidShow(keyboardScreenY: Px, focused: Option<NodeHandle>, input: AbsoluteFrame,
                      scrollViewPageY: Px, relative: RelativeLookup)
    | KeyboardDidHide

  /** What one event does: the next state and at most one scroll command. */
  datatype Output = Output(next: State, command: Option<ScrollTo>)

  /** The input is covered when its bottom edge lies strictly below the
      keyboard's top edge; touching it is not covering. */
  predicate Covered(input: AbsoluteFrame, keyboardScreenY: Px) {
    input.Bottom() > keyboardScreenY
  }

  /** The keyboard-shown events that take a snapshot and scroll. */
  predicate Lifts(e: Event) {
    && e.KeyboardDidShow?
    && KeyboardUsable(e.focused, e.keyboardScreenY)
    && Covered(e.input, e.keyboardScreenY)
    && e.relative.Resolved?
  }

  /** Where the input's bottom edge is on screen once the view is scrolled
      to `offset`, given its top edge `inputY` in the content. */
  function BottomOnScreenAt(offset: Px, scrollViewPageY: Px, inputY: Px, inputHeight: Px): Px {
    scrollViewPageY + inputY - offset + inputHeight
  }

  /** A scroll event: the tracked offset follows the content offset. */
  function OnScroll(s: State, contentOffsetY: Px): (o: Output)
    ensures o.next.nowOffsetY == contentOffsetY
    ensures o.next.beforeKBShowOffsetY == s.beforeKBShowOffsetY
    ensures o.command.None?
  {
    Output(s.(nowOffsetY := contentOffsetY), None)
  }

  /** Keyboard shown: when the focused input is covered and its position in
      the content is known, remember the current offset and scroll so that
      the input's bottom edge plus the margin meets the keyboard's top edge.
      A rejected lookup only logs, so it changes nothing. */
  function OnKeyboardShown(s: State, keyboardScreenY: Px, focused: Option<NodeHandle>,
                           input: AbsoluteFrame, scrollViewPageY: Px,
                           relative: RelativeLookup): (o: Output)
    ensures o.command.Some? <==>
              KeyboardUsable(focused, keyboardScreenY) && Covered(input, keyboardScreenY) && relative.Resolved?
    // Every path that does not scroll leaves the state as it was.
    ensures o.command.None? ==> o.next == s
    // The handler never writes the tracked offset itself.
    ensures o.next.nowOffsetY == s.nowOffsetY
    ensures o.command.Some? ==>
              && o.next.beforeKBShowOffsetY == s.nowOffsetY
              && o.command.value.x == 0.0
              && o.command.value.animated
              && BottomOnScreenAt(o.command.value.y, scrollViewPageY, relative.y, input.height) + KeyboardMargin
                 == keyboardScreenY
  {
    if !KeyboardUsable(focused, keyboardScreenY) then Output(s, None)
    else if !Covered(input, keyboardScreenY) then Output(s, None)
    else
      match relative
      case Rejected => Output(s, None)
      case Resolved(inputY) =>
        var offsetY := (inputY + scrollViewPageY + input.height + KeyboardMargin) - keyboardScreenY;
        Output(s.(beforeKBShowOffsetY := s.nowOffsetY), Some(ScrollTo(0.0, offsetY, true)))
  }

  /** The guard `beforeKBShowOffsetY === 0 || beforeKBShowOffsetY`. */
  predicate HasRestorePoint(offset: Px) {
    offset == 0.0 || Truthy(Num(offset))
  }

  /** Keyboard hidden: unless taps persist, scroll back to the remembered
      offset. The state never changes, so the remembered offset stays. */
  function OnKeyboardHidden(s: State, props: Props): (o: Output)
    ensures o.next == s
    ensures Truthy(props.keyboardShouldPersistTaps) ==> o.command.None?
    ensures !Truthy(props.keyboardShouldPersistTaps) ==> o.command == Some(ScrollTo(0.0, s.beforeKBShowOffsetY, true))
  {
    if !Truthy(props.keyboardShouldPersistTaps) && HasRestorePoint(s.beforeKBShowOffsetY) then
      Output(s, Some(ScrollTo(0.0, s.beforeKBShowOffsetY, true)))
    else
      Output(s, None)
  }

  /** One event. */
  function Step(s: State, props: Props, e: Event): (o: Output)
    ensures o.command.Some? && !e.KeyboardDidHide? ==> Lifts(e)
    ensures Lifts(e) ==> o.command.Some?
  {
    match e
    case HandleScroll(y) => OnScroll(s, y)
    case KeyboardDidShow(y, focused, input, svY, relative) => OnKeyboardShown(s, y, focused, input, svY, relative)
    case KeyboardDidHide => OnKeyboardHidden(s, props)
  }

  /** The state after a sequence of events, starting from `Init`. */
  function Run(props: Props, events: seq<Event>): State
    decreases |events|
  {
    if |events| == 0 then Init
    else Step(Run(props, events[..|events| - 1]), props, events[|events| - 1]).next
  }

  /** Reference definition of the tracked offset: the content offset of the
      latest scroll event, 0 before any. */
  function LatestScrollOffset(events: seq<Event>): Px
    decreases |events|
  {
    if |events| == 0 then 0.0
    else if events[|events| - 1].HandleScroll? then events[|events| - 1].contentOffsetY
    else LatestScrollOffset(events[..|events| - 1])
  }

  /** Reference definition of the restore point: the tracked offset as it was
      just before the latest keyboard-shown event that lifted the input, 0
      when there was none. Hides do not reset it. */
  function RestorePoint(events: seq<Event>): Px
    decreases |events|
  {
    if |events| == 0 then 0.0
    else if Lifts(events[|events| - 1]) then LatestScrollOffset(events[..|events| - 1])
    else RestorePoint(events[..|events| - 1])
  }

  /** After any sequence of events the tracked offset is the latest scroll
      event's offset: keyboard events never write it. */
  lemma {:induction false} RunOffsetIsLatestScroll(props: Props, events: seq<Event>)
    ensures Run(props, events).nowOffsetY == LatestScrollOffset(events)
    decreases |events|
  {
    if |events| > 0 {
      RunOffsetIsLatestScroll(props, events[..|events| - 1]);
    }
  }

  /** After any sequence of events the remembered offset is the tracked
      offset as of the latest lifting keyboard-shown event, or 0. */
  lemma {:induction false} RunSnapshotIsRestorePoint(props: Props, events: seq<Event>)
    ensures Run(props, events).beforeKBShowOffsetY == RestorePoint(events)
    decreases |events|
  {
    if |events| > 0 {
      var prefix := events[..|events| - 1];
      RunSnapshotIsRestorePoint(props, prefix);
      RunOffsetIsLatestScroll(props, prefix);
    }
  }

  /** Events after a lift that do not lift again leave its restore point
      in place. */
  lemma {:induction false} RestorePointSurvives(before: seq<Event>, show: Event, later: seq<Event>)
    requires Lifts(show)
    requires forall i :: 0 <= i < |later| ==> !Lifts(later[i])
    ensures RestorePoint(before + [show] + later) == LatestScrollOffset(before)
    decreases |later|
  {
    var all := before + [show] + later;
    if |later| == 0 {
      assert all[..|all| - 1] == before;
    } else {
      var shorter := later[..|later| - 1];
      assert all[..|all| - 1] == before + [show] + shorter;
      assert all[|all| - 1] == later[|later| - 1];
      RestorePointSurvives(before, show, shorter);
    }
  }

  /** The hide that follows a lift, with any scrolls, hides or non-lifting
      shows in between, scrolls back to the offset the view had just before
      that lift (unless taps persist). */
  lemma HideRestoresPreShowOffset(props: Props, before: seq<Event>, show: Event, later: seq<Event>)
    requires Lifts(show)
    requires forall i :: 0 <= i < |later| ==> !Lifts(later[i])
    requires !Truthy(props.keyboardShouldPersistTaps)
    ensures var s := Run(props, before + [show] + later);
            Step(s, props, KeyboardDidHide).command == Some(ScrollTo(0.0, Run(props, before).nowOffsetY, true))
  {
    RunSnapshotIsRestorePoint(props, before + [show] + later);
    RestorePointSurvives(before, show, later);
    RunOffsetIsLatestScroll(props, before);
  }

  /** A lift followed by a hide, with no scroll event between them, leaves
      both fields at the offset from before the lift. */
  lemma ShowThenHideKeepsSnapshot(s: State, props: Props, show: Event)
    requires Lifts(show)
    ensures var shown := Step(s, props, show).next;
            Step(shown, props, KeyboardDidHide).next == State(s.nowOffsetY, s.nowOffsetY)
  {
  }

  /** A covered input: keyboard top 500, input at 550 with height 40,
      scroll view at 0, input 300 into the content; the target is -140
      (the host decides how to clamp it). An input whose bottom is at 480
      is not covered, so nothing happens. */
  lemma WorkedExample(s: State)
    ensures OnKeyboardShown(s, 500.0, Some(1), AbsoluteFrame(550.0, 40.0), 0.0, Resolved(300.0)).command
            == Some(ScrollTo(0.0, -140.0, true))
    ensures OnKeyboardShown(s, 500.0, Some(1), AbsoluteFrame(440.0, 40.0), 0.0, Resolved(300.0))
            == Output(s, None)
  {
  }
}
