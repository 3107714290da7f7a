/** `SnackBar`: the bar a host shows messages in, its click handlers, and the `Builder` that
    configures one message and shows it. The `SnackContainer` that queues and animates the
    messages is not part of this model; it appears only as an object whose calls are recorded. */
module SnackBars {
  import opened Wrappers
  import opened JavaInts
  import opened Android
  import opened ButtonParams
  import opened Snacks

  // Display durations in milliseconds; PERMANENT_SNACK keeps the message until it is dismissed.
  const LONG_SNACK: Short := 5000
  const MED_SNACK: Short := 3500
  const SHORT_SNACK: Short := 2000
  const PERMANENT_SNACK: Short := 0

  /** `SnackBar.Style`: the colour scheme of a button's text. */
  datatype Style = DEFAULT | ALERT | CONFIRM | INFO

  /** The colour resource `getActionTextColor` looks up for a style. */
  function ActionTextColorRes(style: Style): (id: Int32)
    ensures id == R_COLOR_SB_BUTTON_TEXT_COLOR_RED <==> style == ALERT
    ensures id == R_COLOR_SB_BUTTON_TEXT_COLOR_YELLOW <==> style == INFO
    ensures id == R_COLOR_SB_BUTTON_TEXT_COLOR_GREEN <==> style == CONFIRM
    ensures id == R_COLOR_SB_DEFAULT_BUTTON_TEXT_COLOR <==> style == DEFAULT
  {
    match style
    case ALERT => R_COLOR_SB_BUTTON_TEXT_COLOR_RED
    case INFO => R_COLOR_SB_BUTTON_TEXT_COLOR_YELLOW
    case CONFIRM => R_COLOR_SB_BUTTON_TEXT_COLOR_GREEN
    case DEFAULT => R_COLOR_SB_DEFAULT_BUTTON_TEXT_COLOR
  }

  /** `getActionTextColor(style)`: the colour state list of that resource. */
  function ActionTextColor(resources: Resources, style: Style): (c: ColorStateList)
    ensures style == ALERT ==> c == resources.getColorStateList(R_COLOR_SB_BUTTON_TEXT_COLOR_RED)
    ensures style == INFO ==> c == resources.getColorStateList(R_COLOR_SB_BUTTON_TEXT_COLOR_YELLOW)
    ensures style == CONFIRM ==> c == resources.getColorStateList(R_COLOR_SB_BUTTON_TEXT_COLOR_GREEN)
    ensures style == DEFAULT ==> c == resources.getColorStateList(R_COLOR_SB_DEFAULT_BUTTON_TEXT_COLOR)
  {
    resources.getColorStateList(ActionTextColorRes(style))
  }

  /** Two styles give the same button colour resource only if they are the same style. */
  lemma ActionTextColorResInjective(s: Style, t: Style)
    requires ActionTextColorRes(s) == ActionTextColorRes(t)
    ensures s == t
  {
  }

  // Listener objects of the host application, known to the model only by identity.
  datatype MessageClickListener = MessageClickListener(id: int)
  datatype CancelClickListener = CancelClickListener(id: int)
  datatype VisibilityChangeListener = VisibilityChangeListener(id: int)

  /** One call that leaves the library: into the host's listeners or into the container. */
  datatype Call =
    | MessageClicked(listener: MessageClickListener, token: Option<Token>)
    | CancelClicked(cancelListener: CancelClickListener)
    | ShowSnack(snack: Snack, visibilityListener: Option<VisibilityChangeListener>)
    | HideSnacks
    | ClearSnacks(animate: bool)
    | SaveState(saved: Bundle?)
    | RestoreState(state: Bundle?)

  /** The calls made so far, in order. Shared by a container and the bar that uses it, so that
      the order of listener calls and container calls can be stated. */
  class CallLog {
    var calls: seq<Call>

    constructor ()
      ensures calls == []
    {
      calls := [];
    }

    method Record(c: Call)
      modifies this
      ensures calls == old(calls) + [c]
    {
      calls := calls + [c];
    }
  }

  /** The container that queues, shows and hides the messages. Only what the bar asks of it is
      modelled: whether it is showing, its head message (`peek()`), and a record of each call.
      Its methods promise nothing about its own state afterwards. */
  class SnackContainer {
    var showing: bool
    var head: Snack?
    const log: CallLog

    constructor (log: CallLog)
      ensures this.log == log
    {
      this.log := log;
    }

    /** `isShowing()`. */
    function IsShowing(): (b: bool)
      reads this
      ensures b == showing
    {
      showing
    }

    /** `peek()`: the message at the head of the queue, or null. */
    function Peek(): (p: Snack?)
      reads this
      ensures p == head
    {
      head
    }

    /** `showSnack(snack, parentView, listener)`. */
    method ShowSnack(snack: Snack, listener: Option<VisibilityChangeListener>)
      modifies this, log
      ensures log.calls == old(log.calls) + [Call.ShowSnack(snack, listener)]
    {
      log.Record(Call.ShowSnack(snack, listener));
    }

    /** `hide()`. */
    method Hide()
      modifies this, log
      ensures log.calls == old(log.calls) + [HideSnacks]
    {
      log.Record(HideSnacks);
    }

    /** `clearSnacks(animate)`. */
    method ClearSnacks(animate: bool)
      modifies this, log
      ensures log.calls == old(log.calls) + [Call.ClearSnacks(animate)]
    {
      log.Record(Call.ClearSnacks(animate));
    }

    /** `saveState()`: the bundle it returns is the container's own business. */
    method SaveState() returns (state: Bundle?)
      modifies this, log
      ensures log.calls == old(log.calls) + [Call.SaveState(state)]
    {
      state := new Bundle();
      log.Record(Call.SaveState(state));
    }

    /** `restoreState(state, parentView)`. */
    method RestoreState(state: Bundle?)
      modifies this, log
      ensures log.calls == old(log.calls) + [Call.RestoreState(state)]
    {
      log.Record(Call.RestoreState(state));
    }
  }

  /** What a click handler did: it ran to the end, or it dereferenced a null head message
      (a container showing with an empty queue), which throws NullPointerException before the
      container is hidden. */
  datatype ClickOutcome = Handled | NullHead

  class SnackBar {
    const container: SnackContainer
    var clickListener: Option<MessageClickListener>
    var cancelClickListener: Option<CancelClickListener>
    var visibilityChangeListener: Option<VisibilityChangeListener>

    /** `SnackBar(activity)` and `SnackBar(context, view)` after `init`: the container found in
        the layout, or a new one; no listeners yet. */
    constructor (container: SnackContainer)
      ensures this.container == container
      ensures clickListener.None? && cancelClickListener.None? && visibilityChangeListener.None?
    {
      this.container := container;
      clickListener, cancelClickListener, visibilityChangeListener := None, None, None;
    }

    /** `mButtonListener.onClick`: tells the message listener the head message's token when a
        listener is set and the container is showing, then hides the container in any case. */
    method OnButtonClick() returns (outcome: ClickOutcome)
      modifies container, container.log
      ensures old(clickListener.Some? && container.showing && container.head == null) ==>
        outcome == NullHead && container.log.calls == old(container.log.calls)
      ensures old(clickListener.Some? && container.showing && container.head != null) ==>
        outcome == Handled &&
        container.log.calls == old(container.log.calls) + [MessageClicked(clickListener.value, old(container.head).token), HideSnacks]
      ensures old(clickListener.None? || !container.showing) ==>
        outcome == Handled && container.log.calls == old(container.log.calls) + [HideSnacks]
    {
      if clickListener.Some? && container.IsShowing() {
        var head := container.Peek();
        if head == null {
          return NullHead;
        }
        container.log.Record(MessageClicked(clickListener.value, head.token));
      }
      container.Hide();
      outcome := Handled;
    }

    /** `mCancelListener.onClick`: tells the cancel listener when one is set and the container is
        showing, then hides the container in any case. */
    method OnCancelClick()
      modifies container, container.log
      ensures old(cancelClickListener.Some? && container.showing) ==>
        container.log.calls == old(container.log.calls) + [CancelClicked(cancelClickListener.value), HideSnacks]
      ensures old(cancelClickListener.None? || !container.showing) ==>
        container.log.calls == old(container.log.calls) + [HideSnacks]
    {
      if cancelClickListener.Some? && container.IsShowing() {
        container.log.Record(CancelClicked(cancelClickListener.value));
      }
      container.Hide();
    }

    /** `setOnClickListener(listener)`. */
    method SetOnClickListener(listener: Option<MessageClickListener>) returns (sb: SnackBar)
      modifies this`clickListener
      ensures sb == this && clickListener == listener
    {
      clickListener := listener;
      sb := this;
    }

    /** `setOnCancelClickListener(listener)`. */
    method SetOnCancelClickListener(listener: Option<CancelClickListener>) returns (sb: SnackBar)
      modifies this`cancelClickListener
      ensures sb == this && cancelClickListener == listener
    {
      cancelClickListener := listener;
      sb := this;
    }

    /** `setOnVisibilityChangeListener(listener)`. */
    method SetOnVisibilityChangeListener(listener: Option<VisibilityChangeListener>) returns (sb: SnackBar)
      modifies this`visibilityChangeListener
      ensures sb == this && visibilityChangeListener == listener
    {
      visibilityChangeListener := listener;
      sb := this;
    }

    /** `showMessage(snack)`: hands the message and the visibility listener to the container. */
    method ShowMessage(snack: Snack)
      modifies container, container.log
      ensures container.log.calls == old(container.log.calls) + [Call.ShowSnack(snack, visibilityChangeListener)]
    {
      container.ShowSnack(snack, visibilityChangeListener);
    }

    /** `clear(animate)`: clears the container's queue. */
    method Clear(animate: bool)
      modifies container, container.log
      ensures container.log.calls == old(container.log.calls) + [ClearSnacks(animate)]
    {
      container.ClearSnacks(animate);
    }

    /** `clear()`, which is `clear(true)`. */
    method ClearAnimated()
      modifies container, container.log
      ensures container.log.calls == old(container.log.calls) + [ClearSnacks(true)]
    {
      Clear(true);
    }

    /** `hide()`: hides the container, then clears its queue with animation. */
    method Hide()
      modifies container, container.log
      ensures container.log.calls == old(container.log.calls) + [HideSnacks, ClearSnacks(true)]
    {
      container.Hide();
      ClearAnimated();
    }

    /** `onSaveInstanceState()`: the container's saved state. */
    method OnSaveInstanceState() returns (state: Bundle?)
      modifies container, container.log
      ensures container.log.calls == old(container.log.calls) + [SaveState(state)]
    {
      state := container.SaveState();
    }

    /** `onRestoreInstanceState(state)`: handed to the container unchanged. */
    method OnRestoreInstanceState(state: Bundle?)
      modifies container, container.log
      ensures container.log.calls == old(container.log.calls) + [RestoreState(state)]
    {
      container.RestoreState(state);
    }
  }

  /** What a builder has been told so far, its two params objects read as values. */
  datatype BuilderState = BuilderState(
    message: Option<string>,
    action: ParamsValue,
    cancel: ParamsValue,
    token: Option<Token>,
    duration: Short,
    background: Option<ColorStateList>,
    height: Int32)

  /** The field initialisers: no message, default buttons, no token, `MED_SNACK`, no background,
      height 0. */
  const INITIAL_STATE := BuilderState(None, DEFAULT_PARAMS, DEFAULT_PARAMS, None, MED_SNACK, None, 0)

  /** The background `show()` gives the snack: the builder's own, or `sb__snack_bkgnd`. */
  function ShownBackground(resources: Resources, background: Option<ColorStateList>): (c: ColorStateList) {
    if background.Some? then background.value else resources.getColorStateList(R_COLOR_SB_SNACK_BKGND)
  }

  /** The height `show()` gives the snack, `height != 0 ? height : 0`. */
  function ShownHeight(height: Int32): (h: Int32)
    ensures h == height
  {
    if height != 0 then height else 0
  }

  /** The contents of the snack `show()` builds from a builder in state `s`. */
  function ShownValue(resources: Resources, s: BuilderState): SnackValue {
    SnackValue(s.message, Some(s.action), Some(s.cancel), s.token, s.duration,
               Some(ShownBackground(resources, s.background)), ShownHeight(s.height))
  }

  /** A shown snack keeps what the builder was told, always has both buttons and a background,
      and the background is the builder's own exactly when one was set. */
  lemma ShownValueKeepsState(resources: Resources, s: BuilderState)
    ensures var v := ShownValue(resources, s);
      v.message == s.message && v.token == s.token && v.duration == s.duration && v.height == s.height &&
      v.action == Some(s.action) && v.cancel == Some(s.cancel) && v.background.Some?
    ensures s.background.Some? ==> ShownValue(resources, s).background == s.background
    ensures s.background.None? ==>
      ShownValue(resources, s).background == Some(resources.getColorStateList(R_COLOR_SB_SNACK_BKGND))
  {
  }

  /** Why a builder could not be made. */
  datatype BuilderError = MissingOverlayPermission

  class Builder {
    const resources: Resources
    const snackBar: SnackBar
    const actionParams: SnackBarButtonParams
    const cancelParams: SnackBarButtonParams
    var message: Option<string>
    var token: Option<Token>
    var duration: Short
    var backgroundColor: Option<ColorStateList>
    var height: Int32

    /** The two buttons have params objects of their own. */
    ghost predicate Valid() {
      actionParams != cancelParams
    }

    function State(): BuilderState
      reads this, actionParams, cancelParams
    {
      BuilderState(message, actionParams.Value(), cancelParams.Value(), token, duration, backgroundColor, height)
    }

    /** `Builder(activity)` with the activity's application context, and `Builder(context, view)`:
        a new bar over `container`, two new params objects, and the field initialisers. The
        colour computed for the params is dropped by their constructor. */
    constructor (context: Context, container: SnackContainer)
      ensures Valid() && State() == INITIAL_STATE
      ensures resources == context.resources
      ensures fresh(snackBar) && fresh(actionParams) && fresh(cancelParams)
      ensures snackBar.container == container
      ensures snackBar.clickListener.None? && snackBar.cancelClickListener.None? && snackBar.visibilityChangeListener.None?
    {
      resources := context.resources;
      snackBar := new SnackBar(container);
      actionParams := new SnackBarButtonParams(Some(ActionTextColor(context.resources, DEFAULT)));
      cancelParams := new SnackBarButtonParams(Some(ActionTextColor(context.resources, DEFAULT)));
      message, token, duration, backgroundColor, height := None, None, MED_SNACK, None, 0;
    }

    /** `withMessage(message)`. */
    method WithMessage(m: Option<string>) returns (b: Builder)
      requires Valid()
      modifies this`message
      ensures b == this && State() == old(State()).(message := m)
    {
      message := m;
      b := this;
    }

    /** `withMessageId(id)`: the string resource `id`. */
    method WithMessageId(id: Int32) returns (b: Builder)
      requires Valid()
      modifies this`message
      ensures b == this && State() == old(State()).(message := Some(resources.getString(id)))
    {
      message := Some(resources.getString(id));
      b := this;
    }

    /** `withActionMessage(title)`. */
    method WithActionMessage(title: Option<string>) returns (b: Builder)
      requires Valid()
      modifies actionParams`title
      ensures b == this && State() == old(State()).(action := old(State()).action.(title := title))
    {
      actionParams.title := title;
      b := this;
    }

    /** `withCancelMessage(title)`. */
    method WithCancelMessage(title: Option<string>) returns (b: Builder)
      requires Valid()
      modifies cancelParams`title
      ensures b == this && State() == old(State()).(cancel := old(State()).cancel.(title := title))
    {
      cancelParams.title := title;
      b := this;
    }

    /** `withActionMessageId(id)`: only a positive id sets the action title. */
    method WithActionMessageId(id: Int32) returns (b: Builder)
      requires Valid()
      modifies actionParams`title
      ensures b == this
      ensures id > 0 ==> State() == old(State()).(action := old(State()).action.(title := Some(resources.getString(id))))
      ensures id <= 0 ==> State() == old(State())
    {
      if id > 0 {
        actionParams.title := Some(resources.getString(id));
      }
      b := this;
    }

    /** `withCancelMessageId(id)`: only a positive id sets the cancel title. */
    method WithCancelMessageId(id: Int32) returns (b: Builder)
      requires Valid()
      modifies cancelParams`title
      ensures b == this
      ensures id > 0 ==> State() == old(State()).(cancel := old(State()).cancel.(title := Some(resources.getString(id))))
      ensures id <= 0 ==> State() == old(State())
    {
      if id > 0 {
        cancelParams.title := Some(resources.getString(id));
      }
      b := this;
    }

    /** `withActionIconId(id)`. */
    method WithActionIconId(id: Int32) returns (b: Builder)
      requires Valid()
      modifies actionParams`icon
      ensures b == this && State() == old(State()).(action := old(State()).action.(icon := id))
    {
      actionParams.icon := id;
      b := this;
    }

    /** `withCancelIconId(id)`. */
    method WithCancelIconId(id: Int32) returns (b: Builder)
      requires Valid()
      modifies cancelParams`icon
      ensures b == this && State() == old(State()).(cancel := old(State()).cancel.(icon := id))
    {
      cancelParams.icon := id;
      b := this;
    }

    /** `withActionButtonStyle(style)`: the action text colour of that style. */
    method WithActionButtonStyle(style: Style) returns (b: Builder)
      requires Valid()
      modifies actionParams`textColor
      ensures b == this
      ensures State() == old(State()).(action := old(State()).action.(textColor := Some(ActionTextColor(resources, style))))
    {
      actionParams.textColor := Some(ActionTextColor(resources, style));
      b := this;
    }

    /** `withCancelButtonStyle(style)`: the cancel text colour of that style. */
    method WithCancelButtonStyle(style: Style) returns (b: Builder)
      requires Valid()
      modifies cancelParams`textColor
      ensures b == this
      ensures State() == old(State()).(cancel := old(State()).cancel.(textColor := Some(ActionTextColor(resources, style))))
    {
      cancelParams.textColor := Some(ActionTextColor(resources, style));
      b := this;
    }

    /** `withToken(token)`. */
    method WithToken(t: Option<Token>) returns (b: Builder)
      requires Valid()
      modifies this`token
      ensures b == this && State() == old(State()).(token := t)
    {
      token := t;
      b := this;
    }

    /** `withDuration(duration)`. */
    method WithDuration(d: Short) returns (b: Builder)
      requires Valid()
      modifies this`duration
      ensures b == this && State() == old(State()).(duration := d)
    {
      duration := d;
      b := this;
    }

    /** `withTextColorId(colorId)`: the action text colour resource. */
    method WithTextColorId(colorId: Int32) returns (b: Builder)
      requires Valid()
      modifies actionParams`textColor
      ensures b == this
      ensures State() == old(State()).(action := old(State()).action.(textColor := Some(resources.getColorStateList(colorId))))
    {
      actionParams.textColor := Some(resources.getColorStateList(colorId));
      b := this;
    }

    /** `withCancelColorId(colorId)`: the cancel text colour resource. */
    method WithCancelColorId(colorId: Int32) returns (b: Builder)
      requires Valid()
      modifies cancelParams`textColor
      ensures b == this
      ensures State() == old(State()).(cancel := old(State()).cancel.(textColor := Some(resources.getColorStateList(colorId))))
    {
      cancelParams.textColor := Some(resources.getColorStateList(colorId));
      b := this;
    }

    /** `withBackgroundColorId(colorId)`. */
    method WithBackgroundColorId(colorId: Int32) returns (b: Builder)
      requires Valid()
      modifies this`backgroundColor
      ensures b == this && State() == old(State()).(background := Some(resources.getColorStateList(colorId)))
    {
      backgroundColor := Some(resources.getColorStateList(colorId));
      b := this;
    }

    /** `withSnackBarHeight(height)`. */
    method WithSnackBarHeight(h: Int32) returns (b: Builder)
      requires Valid()
      modifies this`height
      ensures b == this && State() == old(State()).(height := h)
    {
      height := h;
      b := this;
    }

    /** `withOnClickListener(listener)`: set on the bar, not on the builder. */
    method WithOnClickListener(listener: Option<MessageClickListener>) returns (b: Builder)
      modifies snackBar`clickListener
      ensures b == this && snackBar.clickListener == listener
    {
      var _ := snackBar.SetOnClickListener(listener);
      b := this;
    }

    /** `withOnCancelClickListener(listener)`: set on the bar. */
    method WithOnCancelClickListener(listener: Option<CancelClickListener>) returns (b: Builder)
      modifies snackBar`cancelClickListener
      ensures b == this && snackBar.cancelClickListener == listener
    {
      var _ := snackBar.SetOnCancelClickListener(listener);
      b := this;
    }

    /** `withVisibilityChangeListener(listener)`: set on the bar. */
    method WithVisibilityChangeListener(listener: Option<VisibilityChangeListener>) returns (b: Builder)
      modifies snackBar`visibilityChangeListener
      ensures b == this && snackBar.visibilityChangeListener == listener
    {
      var _ := snackBar.SetOnVisibilityChangeListener(listener);
      b := this;
    }

    /** `show()`: a fresh snack holding the builder's message, token, duration and height, its
        background or the default one, and the builder's own params objects by reference; the
        bar hands it to the container and is returned. */
    method Show() returns (sb: SnackBar, ghost snack: Snack)
      modifies snackBar.container, snackBar.container.log
      ensures sb == snackBar && fresh(snack)
      ensures snack.actionParams == actionParams && snack.cancelParams == cancelParams
      ensures snack.Value() == ShownValue(resources, State())
      ensures snackBar.container.log.calls ==
        old(snackBar.container.log.calls) + [Call.ShowSnack(snack, snackBar.visibilityChangeListener)]
    {
      var s := new Snack(message, actionParams, cancelParams, token, duration,
                         Some(ShownBackground(resources, backgroundColor)), ShownHeight(height));
      snackBar.ShowMessage(s);
      sb, snack := snackBar, s;
    }
  }

  /** `Builder(context)`, the floating bar: without the permission to draw overlay windows the
      constructor throws; otherwise it is the same as the other constructors. */
  method NewFloatingBuilder(context: Context, container: SnackContainer) returns (r: Result<Builder, BuilderError>)
    ensures !context.holdsSystemAlertWindow <==> r.Err?
    ensures r.Ok? ==> fresh(r.value) && r.value.Valid() && r.value.State() == INITIAL_STATE
    ensures r.Ok? ==> r.value.resources == context.resources && fresh(r.value.snackBar)
    ensures r.Ok? ==> fresh(r.value.actionParams) && fresh(r.value.cancelParams)
    ensures r.Ok? ==> r.value.snackBar.container == container
    ensures r.Ok? ==> r.value.snackBar.clickListener.None? && r.value.snackBar.cancelClickListener.None?
    ensures r.Ok? ==> r.value.snackBar.visibilityChangeListener.None?
  {
    if !context.holdsSystemAlertWindow {
      return Err(MissingOverlayPermission);
    }
    var b := new Builder(context, container);
    r := Ok(b);
  }
}
