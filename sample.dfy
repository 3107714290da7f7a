/** The sample activity: spinner positions chosen by the user turn into builder calls, several
    of them through `switch` statements that fall through on purpose. */
module Sample {
  import opened Wrappers
  import opened JavaInts
  import opened Android
  import opened ButtonParams
  import opened Snacks
  import opened Switches
  import SnackBars

  const SAVED_SNACKBAR := "SAVED_SNACKBAR"

  // Spinner positions, as the activity names them.
  const SHORT_MSG := 0
  const LONG_MSG := 1
  const SHORT_SNACK := 0
  const MED_SNACK := 1
  const LONG_SNACK := 2
  const DEFAULT := 0
  const ALERT := 1
  const CONFIRM := 2
  const INFO := 3
  const BTN_TEXT_AND_ICON := 0
  const BTN_ICON_ONLY := 1
  const BTN_TEXT_ONLY := 2
  const BTN_HIDE := 3
  const STRING_TYPE_STRING := 0
  const SHOW_ON_ACTIVITY := 0

  const SHORT_TEXT := "This is a one-line message."
  const LONG_TEXT := "This message is a lot longer, it should stretch at least two lines. "
  const ACTION_TITLE := "Action"
  const CANCEL_TITLE := "Cancel"

  /** The selected position of each spinner when the button is pressed. */
  datatype Selections = Selections(
    messageLength: int,
    stringType: int,
    duration: int,
    actionColor: int,
    background: int,
    actionButton: int,
    cancelButton: int,
    showOn: int)

  /** The builder calls the activity makes from inside its switches, and the ones it makes with
      the values its switches computed. */
  datatype BuilderCall =
    | WithMessage(text: string)
    | WithMessageId(messageId: Int32)
    | WithDuration(duration: Short)
    | WithActionButtonStyle(style: SnackBars.Style)
    | WithBackgroundColorId(colorId: Int32)
    | WithActionMessage(actionTitle: string)
    | WithActionIconId(actionIcon: Int32)
    | WithCancelMessage(cancelTitle: string)
    | WithCancelIconId(cancelIcon: Int32)

  /** What each call does to a builder's state, as the builder's setters state it. */
  function ApplyCall(resources: Resources, s: SnackBars.BuilderState, c: BuilderCall): SnackBars.BuilderState {
    match c
    case WithMessage(text) => s.(message := Some(text))
    case WithMessageId(id) => s.(message := Some(resources.getString(id)))
    case WithDuration(d) => s.(duration := d)
    case WithActionButtonStyle(style) => s.(action := s.action.(textColor := Some(SnackBars.ActionTextColor(resources, style))))
    case WithBackgroundColorId(id) => s.(background := Some(resources.getColorStateList(id)))
    case WithActionMessage(title) => s.(action := s.action.(title := Some(title)))
    case WithActionIconId(icon) => s.(action := s.action.(icon := icon))
    case WithCancelMessage(title) => s.(cancel := s.cancel.(title := Some(title)))
    case WithCancelIconId(icon) => s.(cancel := s.cancel.(icon := icon))
  }

  /** A sequence of calls, in order. */
  function ApplyCalls(resources: Resources, s: SnackBars.BuilderState, calls: seq<BuilderCall>): SnackBars.BuilderState
    decreases |calls|
  {
    if calls == [] then s else ApplyCalls(resources, ApplyCall(resources, s, calls[0]), calls[1..])
  }

  /** Running two sequences of calls one after the other is running their concatenation. */
  lemma {:induction false} ApplyCallsAppend(resources: Resources, s: SnackBars.BuilderState, a: seq<BuilderCall>, b: seq<BuilderCall>)
    ensures ApplyCalls(resources, s, a + b) == ApplyCalls(resources, ApplyCalls(resources, s, a), b)
    decreases |a|
  {
    if a != [] {
      assert (a + b)[0] == a[0];
      assert (a + b)[1..] == a[1..] + b;
      ApplyCallsAppend(resources, ApplyCall(resources, s, a[0]), a[1..], b);
    } else {
      assert a + b == b;
    }
  }

  // The switches of `setMessage` and `onCreateClicked`, group by group as written.

  /** `setMessage`'s switch: one call under `case SHORT_MSG` and one under `case LONG_MSG`,
      each ending with `break`, and no `default`. */
  function MessageCases(stringType: int): (groups: seq<CaseGroup<BuilderCall>>)
    ensures |groups| == 2 && groups[0].labels == [SHORT_MSG] && groups[1].labels == [LONG_MSG]
    ensures forall j :: 0 <= j < |groups| ==> groups[j].breaks && !groups[j].isDefault && |groups[j].body| == 1
  {
    [CaseGroup([SHORT_MSG], false,
               [if stringType == STRING_TYPE_STRING then WithMessage(SHORT_TEXT) else WithMessageId(R_STRING_SHORT_MESSAGE)],
               true),
     CaseGroup([LONG_MSG], false,
               [if stringType == STRING_TYPE_STRING then WithMessage(LONG_TEXT) else WithMessageId(R_STRING_LONG_MESSAGE)],
               true)]
  }

  /** The duration switch: three assigning cases, each ending with `break`, and no `default`. */
  function DurationCases(): (groups: seq<CaseGroup<Short>>)
    ensures |groups| == 3
    ensures groups[0].labels == [SHORT_SNACK] && groups[1].labels == [MED_SNACK] && groups[2].labels == [LONG_SNACK]
    ensures forall j :: 0 <= j < |groups| ==> groups[j].breaks && !groups[j].isDefault && |groups[j].body| == 1
  {
    [CaseGroup([SHORT_SNACK], false, [SnackBars.SHORT_SNACK], true),
     CaseGroup([MED_SNACK], false, [SnackBars.MED_SNACK], true),
     CaseGroup([LONG_SNACK], false, [SnackBars.LONG_SNACK], true)]
  }

  /** The action colour switch: `default:` shares the first group with `case DEFAULT:`, and every
      group assigns once and ends with `break`. */
  function StyleCases(): (groups: seq<CaseGroup<SnackBars.Style>>)
    ensures |groups| == 4 && groups[0].isDefault
    ensures groups[0].labels == [DEFAULT] && groups[1].labels == [ALERT] && groups[2].labels == [CONFIRM] && groups[3].labels == [INFO]
    ensures forall j :: 1 <= j < |groups| ==> !groups[j].isDefault
    ensures forall j :: 0 <= j < |groups| ==> groups[j].breaks && |groups[j].body| == 1
  {
    [CaseGroup([DEFAULT], true, [SnackBars.DEFAULT], true),
     CaseGroup([ALERT], false, [SnackBars.ALERT], true),
     CaseGroup([CONFIRM], false, [SnackBars.CONFIRM], true),
     CaseGroup([INFO], false, [SnackBars.INFO], true)]
  }

  /** The background switch: `default:` shares the first group with `case DEFAULT:`, and both
      groups assign once and end with `break`. */
  function BackgroundCases(): (groups: seq<CaseGroup<Int32>>)
    ensures |groups| == 2 && groups[0].isDefault && !groups[1].isDefault
    ensures groups[0].labels == [DEFAULT] && groups[1].labels == [ALERT]
    ensures forall j :: 0 <= j < |groups| ==> groups[j].breaks && |groups[j].body| == 1
  {
    [CaseGroup([DEFAULT], true, [R_COLOR_SB_SNACK_BKGND], true),
     CaseGroup([ALERT], false, [R_COLOR_SB_SNACK_ALERT_BKGND], true)]
  }

  /** The action button switch: `case BTN_TEXT_AND_ICON` and `case BTN_TEXT_ONLY` have no
      `break` and fall into the next group; `case BTN_HIDE` is empty; no `default`. */
  function ActionButtonCases(): (groups: seq<CaseGroup<BuilderCall>>)
    ensures |groups| == 4
    ensures groups[0].labels == [BTN_TEXT_AND_ICON] && groups[1].labels == [BTN_ICON_ONLY]
    ensures groups[2].labels == [BTN_TEXT_ONLY] && groups[3].labels == [BTN_HIDE]
    ensures !groups[0].breaks && groups[1].breaks && !groups[2].breaks && groups[3].breaks && groups[3].body == []
    ensures forall j :: 0 <= j < |groups| ==> !groups[j].isDefault
  {
    [CaseGroup([BTN_TEXT_AND_ICON], false, [WithActionMessage(ACTION_TITLE)], false),
     CaseGroup([BTN_ICON_ONLY], false, [WithActionIconId(R_DRAWABLE_IC_DONE_WHITE_24DP)], true),
     CaseGroup([BTN_TEXT_ONLY], false, [WithActionMessage(ACTION_TITLE)], false),
     CaseGroup([BTN_HIDE], false, [], true)]
  }

  /** The cancel button switch, the same shape with the cancel title and the close icon. */
  function CancelButtonCases(): (groups: seq<CaseGroup<BuilderCall>>)
    ensures |groups| == 4
    ensures groups[0].labels == [BTN_TEXT_AND_ICON] && groups[1].labels == [BTN_ICON_ONLY]
    ensures groups[2].labels == [BTN_TEXT_ONLY] && groups[3].labels == [BTN_HIDE]
    ensures !groups[0].breaks && groups[1].breaks && !groups[2].breaks && groups[3].breaks && groups[3].body == []
    ensures forall j :: 0 <= j < |groups| ==> !groups[j].isDefault
  {
    [CaseGroup([BTN_TEXT_AND_ICON], false, [WithCancelMessage(CANCEL_TITLE)], false),
     CaseGroup([BTN_ICON_ONLY], false, [WithCancelIconId(R_DRAWABLE_IC_CLOSE_WHITE_24DP)], true),
     CaseGroup([BTN_TEXT_ONLY], false, [WithCancelMessage(CANCEL_TITLE)], false),
     CaseGroup([BTN_HIDE], false, [], true)]
  }

  /** Every builder call `onCreateClicked` makes, in order, as its switches select them. */
  function SwitchCalls(sel: Selections): seq<BuilderCall> {
    Run(MessageCases(sel.stringType), sel.messageLength)
    + [WithDuration(LastOr(Run(DurationCases(), sel.duration), 0)),
       WithActionButtonStyle(LastOr(Run(StyleCases(), sel.actionColor), SnackBars.DEFAULT)),
       WithBackgroundColorId(LastOr(Run(BackgroundCases(), sel.background), 0))]
    + Run(ActionButtonCases(), sel.actionButton)
    + Run(CancelButtonCases(), sel.cancelButton)
  }

  // The decision tables the switches implement.

  /** The message `setMessage` sets: the literal text or the string resource of the selected
      length; None when the length is neither, and then no message is set. */
  function MessageFor(resources: Resources, messageLength: int, stringType: int): Option<string> {
    if messageLength == SHORT_MSG then
      Some(if stringType == STRING_TYPE_STRING then SHORT_TEXT else resources.getString(R_STRING_SHORT_MESSAGE))
    else if messageLength == LONG_MSG then
      Some(if stringType == STRING_TYPE_STRING then LONG_TEXT else resources.getString(R_STRING_LONG_MESSAGE))
    else None
  }

  /** The duration: short, medium or long by position, otherwise the local's initial 0, which
      is `PERMANENT_SNACK`. */
  function DurationFor(index: int): Short {
    if index == SHORT_SNACK then SnackBars.SHORT_SNACK
    else if index == MED_SNACK then SnackBars.MED_SNACK
    else if index == LONG_SNACK then SnackBars.LONG_SNACK
    else SnackBars.PERMANENT_SNACK
  }

  /** The action button style: ALERT, CONFIRM or INFO by position, otherwise DEFAULT. */
  function StyleFor(index: int): SnackBars.Style {
    if index == ALERT then SnackBars.ALERT
    else if index == CONFIRM then SnackBars.CONFIRM
    else if index == INFO then SnackBars.INFO
    else SnackBars.DEFAULT
  }

  /** The background colour resource: the alert background at ALERT, otherwise the default. */
  function BackgroundFor(index: int): Int32 {
    if index == ALERT then R_COLOR_SB_SNACK_ALERT_BKGND else R_COLOR_SB_SNACK_BKGND
  }

  /** Whether a button spinner position gives the button its title, and its icon. */
  predicate HasTitle(index: int) {
    index == BTN_TEXT_AND_ICON || index == BTN_TEXT_ONLY
  }

  predicate HasIcon(index: int) {
    index == BTN_TEXT_AND_ICON || index == BTN_ICON_ONLY
  }

  /** The builder's state once `onCreateClicked` has made all its calls on a new builder. */
  function ExpectedState(resources: Resources, sel: Selections): SnackBars.BuilderState {
    SnackBars.BuilderState(
      MessageFor(resources, sel.messageLength, sel.stringType),
      ParamsValue(if HasTitle(sel.actionButton) then Some(ACTION_TITLE) else None,
                  if HasIcon(sel.actionButton) then R_DRAWABLE_IC_DONE_WHITE_24DP else 0,
                  Some(SnackBars.ActionTextColor(resources, StyleFor(sel.actionColor)))),
      ParamsValue(if HasTitle(sel.cancelButton) then Some(CANCEL_TITLE) else None,
                  if HasIcon(sel.cancelButton) then R_DRAWABLE_IC_CLOSE_WHITE_24DP else 0,
                  None),
      None,
      DurationFor(sel.duration),
      Some(resources.getColorStateList(BackgroundFor(sel.background))),
      0)
  }

  // The switches, run as Java runs them, agree with the tables.

  /** `setMessage`'s switch: one call for a short or long message, chosen by the string type;
      no call for any other length. */
  lemma MessageSwitchCalls(messageLength: int, stringType: int)
    ensures Run(MessageCases(stringType), messageLength) ==
      (if messageLength == SHORT_MSG then
         [if stringType == STRING_TYPE_STRING then WithMessage(SHORT_TEXT) else WithMessageId(R_STRING_SHORT_MESSAGE)]
       else if messageLength == LONG_MSG then
         [if stringType == STRING_TYPE_STRING then WithMessage(LONG_TEXT) else WithMessageId(R_STRING_LONG_MESSAGE)]
       else [])
  {
    var groups := MessageCases(stringType);
    if messageLength == SHORT_MSG {
      RunFromLabel(groups, messageLength, 0);
    } else if messageLength == LONG_MSG {
      RunFromLabel(groups, messageLength, 1);
    } else {
      RunNothing(groups, messageLength);
    }
  }

  /** The duration switch assigns the table's duration; no case matches past LONG_SNACK, so the
      local keeps its initial 0. */
  lemma DurationSwitchValue(index: int)
    ensures LastOr(Run(DurationCases(), index), 0) == DurationFor(index)
  {
    if index == SHORT_SNACK {
      RunFromLabel(DurationCases(), index, 0);
    } else if index == MED_SNACK {
      RunFromLabel(DurationCases(), index, 1);
    } else if index == LONG_SNACK {
      RunFromLabel(DurationCases(), index, 2);
    } else {
      RunNothing(DurationCases(), index);
    }
  }

  /** The style switch, whose `default:` shares a group with `case DEFAULT:`, assigns exactly
      the table's style, so `style` is always assigned. */
  lemma StyleSwitchValue(index: int)
    ensures Run(StyleCases(), index) == [StyleFor(index)]
  {
    if index == DEFAULT {
      RunFromLabel(StyleCases(), index, 0);
    } else if index == ALERT {
      RunFromLabel(StyleCases(), index, 1);
    } else if index == CONFIRM {
      RunFromLabel(StyleCases(), index, 2);
    } else if index == INFO {
      RunFromLabel(StyleCases(), index, 3);
    } else {
      RunFromDefault(StyleCases(), index, 0);
    }
  }

  /** The background switch assigns exactly the table's colour resource. */
  lemma BackgroundSwitchValue(index: int)
    ensures Run(BackgroundCases(), index) == [BackgroundFor(index)]
  {
    if index == DEFAULT {
      RunFromLabel(BackgroundCases(), index, 0);
    } else if index == ALERT {
      RunFromLabel(BackgroundCases(), index, 1);
    } else {
      RunFromDefault(BackgroundCases(), index, 0);
    }
  }

  /** The action button switch: text and icon falls through into the icon case, text only
      falls through into the empty hide case, and any other position matches nothing. */
  lemma ActionButtonSwitchCalls(index: int)
    ensures Run(ActionButtonCases(), index) ==
      (if index == BTN_TEXT_AND_ICON then [WithActionMessage(ACTION_TITLE), WithActionIconId(R_DRAWABLE_IC_DONE_WHITE_24DP)]
       else if index == BTN_ICON_ONLY then [WithActionIconId(R_DRAWABLE_IC_DONE_WHITE_24DP)]
       else if index == BTN_TEXT_ONLY then [WithActionMessage(ACTION_TITLE)]
       else [])
  {
    if index == BTN_TEXT_AND_ICON {
      RunFromLabel(ActionButtonCases(), index, 0);
    } else if index == BTN_ICON_ONLY {
      RunFromLabel(ActionButtonCases(), index, 1);
    } else if index == BTN_TEXT_ONLY {
      RunFromLabel(ActionButtonCases(), index, 2);
    } else if index == BTN_HIDE {
      RunFromLabel(ActionButtonCases(), index, 3);
    } else {
      RunNothing(ActionButtonCases(), index);
    }
  }

  /** The cancel button switch, the same pattern with the cancel title and the close icon. */
  lemma CancelButtonSwitchCalls(index: int)
    ensures Run(CancelButtonCases(), index) ==
      (if index == BTN_TEXT_AND_ICON then [WithCancelMessage(CANCEL_TITLE), WithCancelIconId(R_DRAWABLE_IC_CLOSE_WHITE_24DP)]
       else if index == BTN_ICON_ONLY then [WithCancelIconId(R_DRAWABLE_IC_CLOSE_WHITE_24DP)]
       else if index == BTN_TEXT_ONLY then [WithCancelMessage(CANCEL_TITLE)]
       else [])
  {
    if index == BTN_TEXT_AND_ICON {
      RunFromLabel(CancelButtonCases(), index, 0);
    } else if index == BTN_ICON_ONLY {
      RunFromLabel(CancelButtonCases(), index, 1);
    } else if index == BTN_TEXT_ONLY {
      RunFromLabel(CancelButtonCases(), index, 2);
    } else if index == BTN_HIDE {
      RunFromLabel(CancelButtonCases(), index, 3);
    } else {
      RunNothing(CancelButtonCases(), index);
    }
  }

  /** A single call. */
  lemma ApplyOneCall(resources: Resources, s: SnackBars.BuilderState, c: BuilderCall)
    ensures ApplyCalls(resources, s, [c]) == ApplyCall(resources, s, c)
  {
    assert [c][1..] == [];
  }

  /** `setMessage`'s switch sets the message of the table, or nothing for other lengths. */
  lemma MessageSwitchEffect(resources: Resources, s: SnackBars.BuilderState, messageLength: int, stringType: int)
    ensures messageLength in {SHORT_MSG, LONG_MSG} ==>
      ApplyCalls(resources, s, Run(MessageCases(stringType), messageLength)) ==
      s.(message := MessageFor(resources, messageLength, stringType))
    ensures messageLength !in {SHORT_MSG, LONG_MSG} ==>
      ApplyCalls(resources, s, Run(MessageCases(stringType), messageLength)) == s
  {
    MessageSwitchCalls(messageLength, stringType);
    if messageLength in {SHORT_MSG, LONG_MSG} {
      ApplyOneCall(resources, s, Run(MessageCases(stringType), messageLength)[0]);
    }
  }

  /** The action button switch gives the button its title and its icon exactly at the
      positions that have them, and leaves the rest of the builder alone. */
  lemma ActionButtonSwitchEffect(resources: Resources, s: SnackBars.BuilderState, index: int)
    ensures ApplyCalls(resources, s, Run(ActionButtonCases(), index)) ==
      s.(action := s.action.(title := if HasTitle(index) then Some(ACTION_TITLE) else s.action.title,
                             icon := if HasIcon(index) then R_DRAWABLE_IC_DONE_WHITE_24DP else s.action.icon))
  {
    ActionButtonSwitchCalls(index);
    var title, icon := WithActionMessage(ACTION_TITLE), WithActionIconId(R_DRAWABLE_IC_DONE_WHITE_24DP);
    if index == BTN_TEXT_AND_ICON {
      assert [title, icon] == [title] + [icon];
      ApplyCallsAppend(resources, s, [title], [icon]);
      ApplyOneCall(resources, s, title);
      ApplyOneCall(resources, ApplyCall(resources, s, title), icon);
    } else if index == BTN_ICON_ONLY {
      ApplyOneCall(resources, s, icon);
    } else if index == BTN_TEXT_ONLY {
      ApplyOneCall(resources, s, title);
    }
  }

  /** The same for the cancel button. */
  lemma CancelButtonSwitchEffect(resources: Resources, s: SnackBars.BuilderState, index: int)
    ensures ApplyCalls(resources, s, Run(CancelButtonCases(), index)) ==
      s.(cancel := s.cancel.(title := if HasTitle(index) then Some(CANCEL_TITLE) else s.cancel.title,
                             icon := if HasIcon(index) then R_DRAWABLE_IC_CLOSE_WHITE_24DP else s.cancel.icon))
  {
    CancelButtonSwitchCalls(index);
    var title, icon := WithCancelMessage(CANCEL_TITLE), WithCancelIconId(R_DRAWABLE_IC_CLOSE_WHITE_24DP);
    if index == BTN_TEXT_AND_ICON {
      assert [title, icon] == [title] + [icon];
      ApplyCallsAppend(resources, s, [title], [icon]);
      ApplyOneCall(resources, s, title);
      ApplyOneCall(resources, ApplyCall(resources, s, title), icon);
    } else if index == BTN_ICON_ONLY {
      ApplyOneCall(resources, s, icon);
    } else if index == BTN_TEXT_ONLY {
      ApplyOneCall(resources, s, title);
    }
  }

  /** Three calls. */
  lemma ApplyThreeCalls(resources: Resources, s: SnackBars.BuilderState, x: BuilderCall, y: BuilderCall, z: BuilderCall)
    ensures ApplyCalls(resources, s, [x, y, z]) ==
      ApplyCall(resources, ApplyCall(resources, ApplyCall(resources, s, x), y), z)
  {
    assert [x, y, z][1..] == [y, z];
    assert [y, z][1..] == [z];
    ApplyOneCall(resources, ApplyCall(resources, ApplyCall(resources, s, x), y), z);
  }

  /** The calls the switches select, made on a new builder, leave it in the state the tables
      describe. */
  lemma SwitchCallsReachExpectedState(resources: Resources, sel: Selections)
    ensures ApplyCalls(resources, SnackBars.INITIAL_STATE, SwitchCalls(sel)) == ExpectedState(resources, sel)
  {
    DurationSwitchValue(sel.duration);
    StyleSwitchValue(sel.actionColor);
    BackgroundSwitchValue(sel.background);
    var s0 := SnackBars.INITIAL_STATE;
    var m := Run(MessageCases(sel.stringType), sel.messageLength);
    var d, st, bg := WithDuration(DurationFor(sel.duration)), WithActionButtonStyle(StyleFor(sel.actionColor)),
                     WithBackgroundColorId(BackgroundFor(sel.background));
    var mid := [d, st, bg];
    var a := Run(ActionButtonCases(), sel.actionButton);
    var c := Run(CancelButtonCases(), sel.cancelButton);
    assert SwitchCalls(sel) == m + mid + a + c;

    var s1 := ApplyCalls(resources, s0, m);
    MessageSwitchEffect(resources, s0, sel.messageLength, sel.stringType);
    assert s1 == s0.(message := MessageFor(resources, sel.messageLength, sel.stringType));

    var s2 := ApplyCalls(resources, s1, mid);
    ApplyCallsAppend(resources, s0, m, mid);
    ApplyThreeCalls(resources, s1, d, st, bg);
    var t1 := ApplyCall(resources, s1, d);
    assert t1 == s1.(duration := DurationFor(sel.duration));
    var t2 := ApplyCall(resources, t1, st);
    assert t2 == t1.(action := t1.action.(textColor := Some(SnackBars.ActionTextColor(resources, StyleFor(sel.actionColor)))));
    assert s2 == ApplyCall(resources, t2, bg);

    var s3 := ApplyCalls(resources, s2, a);
    ApplyCallsAppend(resources, s0, m + mid, a);
    ActionButtonSwitchEffect(resources, s2, sel.actionButton);

    var s4 := ApplyCalls(resources, s3, c);
    ApplyCallsAppend(resources, s0, m + mid + a, c);
    CancelButtonSwitchEffect(resources, s3, sel.cancelButton);

    assert ApplyCalls(resources, s0, SwitchCalls(sel)) == s4;
    assert s4 == ExpectedState(resources, sel);
  }

  /** The anonymous cancel listener `onCreateClicked` registers (it shows a Toast). */
  const CANCEL_TOAST_LISTENER := SnackBars.CancelClickListener(0)

  /** A bar as the builder constructors leave it: over `container`, with no listeners. */
  ghost predicate NewBar(bar: SnackBars.SnackBar, container: SnackBars.SnackContainer)
    reads bar
  {
    bar.container == container && bar.clickListener.None? && bar.cancelClickListener.None? &&
    bar.visibilityChangeListener.None?
  }

  class SnackBarActivity {
    const applicationContext: Context
    var snackBar: SnackBars.SnackBar?

    constructor (applicationContext: Context)
      ensures this.applicationContext == applicationContext && snackBar == null
    {
      this.applicationContext := applicationContext;
      snackBar := null;
    }

    /** `setMessage(builder)`: sets the message of the selected length and string type, or
        leaves the builder alone when the length is neither short nor long. */
    method SetMessage(builder: SnackBars.Builder, sel: Selections)
      requires builder.Valid()
      modifies builder`message
      ensures sel.messageLength in {SHORT_MSG, LONG_MSG} ==>
        builder.State() == old(builder.State()).(message := MessageFor(builder.resources, sel.messageLength, sel.stringType))
      ensures sel.messageLength !in {SHORT_MSG, LONG_MSG} ==> builder.State() == old(builder.State())
    {
      if sel.messageLength == SHORT_MSG {
        if sel.stringType == STRING_TYPE_STRING {
          var _ := builder.WithMessage(Some(SHORT_TEXT));
        } else {
          var _ := builder.WithMessageId(R_STRING_SHORT_MESSAGE);
        }
      } else if sel.messageLength == LONG_MSG {
        if sel.stringType == STRING_TYPE_STRING {
          var _ := builder.WithMessage(Some(LONG_TEXT));
        } else {
          var _ := builder.WithMessageId(R_STRING_LONG_MESSAGE);
        }
      }
    }

    /** `onCreateClicked(view)`: a builder on the activity or a floating one, the selected
        message, duration, style, background and buttons, the Toast cancel listener, and
        `show()`. The floating builder throws without the overlay permission, and then nothing
        has changed. */
    method OnCreateClicked(sel: Selections, container: SnackBars.SnackContainer)
      returns (r: Result<(), SnackBars.BuilderError>, ghost snack: Snack?)
      modifies this`snackBar, container, container.log
      ensures r.Err? <==> sel.showOn != SHOW_ON_ACTIVITY && !applicationContext.holdsSystemAlertWindow
      ensures r.Err? ==> snackBar == old(snackBar) && unchanged(container, container.log)
      ensures r.Ok? ==> snackBar != null && fresh(snackBar) && snackBar.container == container
      ensures r.Ok? ==> snackBar.clickListener.None? && snackBar.visibilityChangeListener.None?
      ensures r.Ok? ==> snackBar.cancelClickListener == Some(CANCEL_TOAST_LISTENER)
      ensures r.Ok? ==> snack != null && fresh(snack)
      ensures r.Ok? ==> snack.Value() == SnackBars.ShownValue(applicationContext.resources, ExpectedState(applicationContext.resources, sel))
      ensures r.Ok? ==> container.log.calls == old(container.log.calls) + [SnackBars.ShowSnack(snack, None)]
    {
      var builder: SnackBars.Builder;
      if sel.showOn == SHOW_ON_ACTIVITY {
        builder := new SnackBars.Builder(applicationContext, container);
      } else {
        var floating := SnackBars.NewFloatingBuilder(applicationContext, container);
        if floating.Err? {
          return Err(floating.error), null;
        }
        builder := floating.value;
      }
      var res := builder.resources;
      assert res == applicationContext.resources && builder.Valid();
      assert NewBar(builder.snackBar, container);

      SetMessage(builder, sel);
      ghost var configured := ExpectedState(res, sel);
      assert builder.State() == SnackBars.INITIAL_STATE.(message := configured.message);
      assert NewBar(builder.snackBar, container);

      Configure(builder, sel);
      assert builder.State() == configured && NewBar(builder.snackBar, container);

      var _ := builder.WithOnCancelClickListener(Some(CANCEL_TOAST_LISTENER));
      assert builder.State() == configured;

      var bar;
      bar, snack := builder.Show();
      snackBar := bar;
      assert snack.Value() == SnackBars.ShownValue(res, configured);
      r := Ok(());
    }

    /** The part of `onCreateClicked` between `setMessage` and the cancel listener: the
        duration, style and background switches and the two button switches, on a builder that
        only has its message set. */
    method Configure(builder: SnackBars.Builder, sel: Selections)
      requires builder.Valid()
      requires builder.State() == SnackBars.INITIAL_STATE.(message := builder.State().message)
      modifies builder`duration, builder`backgroundColor, builder.actionParams, builder.cancelParams
      ensures builder.State() == ExpectedState(builder.resources, sel).(message := old(builder.State()).message)
    {
      ghost var configured := builder.State();
      var duration := DurationSwitch(sel.duration);
      var _ := builder.WithDuration(duration);
      configured := configured.(duration := duration);
      assert builder.State() == configured;

      var style := StyleSwitch(sel.actionColor);
      var _ := builder.WithActionButtonStyle(style);
      configured := configured.(action := configured.action.(textColor := Some(SnackBars.ActionTextColor(builder.resources, style))));
      assert builder.State() == configured;

      var bgColor := BackgroundSwitch(sel.background);
      var _ := builder.WithBackgroundColorId(bgColor);
      configured := configured.(background := Some(builder.resources.getColorStateList(bgColor)));
      assert builder.State() == configured;

      ActionButtonSwitch(builder, sel.actionButton);
      configured := configured.(action := configured.action.(
        title := if HasTitle(sel.actionButton) then Some(ACTION_TITLE) else None,
        icon := if HasIcon(sel.actionButton) then R_DRAWABLE_IC_DONE_WHITE_24DP else 0));
      assert builder.State() == configured;

      CancelButtonSwitch(builder, sel.cancelButton);
      configured := configured.(cancel := configured.cancel.(
        title := if HasTitle(sel.cancelButton) then Some(CANCEL_TITLE) else None,
        icon := if HasIcon(sel.cancelButton) then R_DRAWABLE_IC_CLOSE_WHITE_24DP else 0));
      assert builder.State() == configured;
      assert configured == ExpectedState(builder.resources, sel).(message := old(builder.State()).message);
    }

    /** The duration `switch` of `onCreateClicked`: no case past LONG_SNACK, so any other
        position leaves the local at its initial 0. */
    method DurationSwitch(index: int) returns (duration: Short)
      ensures duration == LastOr(Run(DurationCases(), index), 0)
      ensures duration == DurationFor(index)
    {
      duration := 0;
      if index == SHORT_SNACK {
        duration := SnackBars.SHORT_SNACK;
      } else if index == MED_SNACK {
        duration := SnackBars.MED_SNACK;
      } else if index == LONG_SNACK {
        duration := SnackBars.LONG_SNACK;
      }
      DurationSwitchValue(index);
    }

    /** The action colour `switch`, whose `default:` shares the DEFAULT group. */
    method StyleSwitch(index: int) returns (style: SnackBars.Style)
      ensures Run(StyleCases(), index) == [style]
      ensures style == StyleFor(index)
    {
      if index == ALERT {
        style := SnackBars.ALERT;
      } else if index == CONFIRM {
        style := SnackBars.CONFIRM;
      } else if index == INFO {
        style := SnackBars.INFO;
      } else {
        style := SnackBars.DEFAULT;
      }
      StyleSwitchValue(index);
    }

    /** The background `switch`, whose `default:` shares the DEFAULT group. */
    method BackgroundSwitch(index: int) returns (bgColor: Int32)
      ensures Run(BackgroundCases(), index) == [bgColor]
      ensures bgColor == BackgroundFor(index)
    {
      if index == ALERT {
        bgColor := R_COLOR_SB_SNACK_ALERT_BKGND;
      } else {
        bgColor := R_COLOR_SB_SNACK_BKGND;
      }
      BackgroundSwitchValue(index);
    }

    /** The action button `switch` of `onCreateClicked`: `case BTN_TEXT_AND_ICON` falls through
        into `case BTN_ICON_ONLY`, and `case BTN_TEXT_ONLY` into the empty `case BTN_HIDE`. */
    method ActionButtonSwitch(builder: SnackBars.Builder, index: int)
      requires builder.Valid()
      modifies builder.actionParams
      ensures builder.State() == old(builder.State()).(action := old(builder.State()).action.(
        title := if HasTitle(index) then Some(ACTION_TITLE) else old(builder.actionParams.title),
        icon := if HasIcon(index) then R_DRAWABLE_IC_DONE_WHITE_24DP else old(builder.actionParams.icon)))
    {
      if index == BTN_TEXT_AND_ICON {
        var _ := builder.WithActionMessage(Some(ACTION_TITLE));
      }
      if index == BTN_TEXT_AND_ICON || index == BTN_ICON_ONLY {
        var _ := builder.WithActionIconId(R_DRAWABLE_IC_DONE_WHITE_24DP);
      } else if index == BTN_TEXT_ONLY {
        var _ := builder.WithActionMessage(Some(ACTION_TITLE));
      }
    }

    /** The cancel button `switch`, the same pattern with the cancel title and the close icon. */
    method CancelButtonSwitch(builder: SnackBars.Builder, index: int)
      requires builder.Valid()
      modifies builder.cancelParams
      ensures builder.State() == old(builder.State()).(cancel := old(builder.State()).cancel.(
        title := if HasTitle(index) then Some(CANCEL_TITLE) else old(builder.cancelParams.title),
        icon := if HasIcon(index) then R_DRAWABLE_IC_CLOSE_WHITE_24DP else old(builder.cancelParams.icon)))
    {
      if index == BTN_TEXT_AND_ICON {
        var _ := builder.WithCancelMessage(Some(CANCEL_TITLE));
      }
      if index == BTN_TEXT_AND_ICON || index == BTN_ICON_ONLY {
        var _ := builder.WithCancelIconId(R_DRAWABLE_IC_CLOSE_WHITE_24DP);
      } else if index == BTN_TEXT_ONLY {
        var _ := builder.WithCancelMessage(Some(CANCEL_TITLE));
      }
    }

    /** `onSaveInstanceState(saveState)`: stores the bar's saved state under SAVED_SNACKBAR,
        and only when there is a bar. */
    method OnSaveInstanceState(saveState: Bundle) returns (ghost saved: Bundle?)
      modifies saveState, if snackBar == null then {} else {snackBar.container, snackBar.container.log}
      ensures snackBar == old(snackBar)
      ensures snackBar == null ==> unchanged(saveState)
      ensures snackBar != null ==>
        saveState.entries == old(saveState.entries)[SAVED_SNACKBAR := saved] &&
        snackBar.container.log.calls == old(snackBar.container.log.calls) + [SnackBars.SaveState(saved)]
    {
      saved := null;
      if snackBar != null {
        var state := snackBar.OnSaveInstanceState();
        saveState.PutBundle(SAVED_SNACKBAR, state);
        saved := state;
      }
    }

    /** `onRestoreInstanceState(loadState)`: hands the bundle saved under SAVED_SNACKBAR to the
        bar, and only when there is a bar. */
    method OnRestoreInstanceState(loadState: Bundle)
      modifies if snackBar == null then {} else {snackBar.container, snackBar.container.log}
      ensures snackBar != null ==>
        snackBar.container.log.calls ==
          old(snackBar.container.log.calls) + [SnackBars.RestoreState(loadState.GetBundle(SAVED_SNACKBAR))]
    {
      if snackBar != null {
        snackBar.OnRestoreInstanceState(loadState.GetBundle(SAVED_SNACKBAR));
      }
    }
  }
}
