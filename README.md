# SnackBar, modelled in Dafny

A model of the core of the SnackBar Android library and of its sample activity:

- the `SnackBar.Builder` configuration state machine, its `show()` and the bar's click
  handlers, `clear` and `hide` (module `SnackBars`);
- the immutable `Snack` message and its parcel serialiser (module `Snacks`);
- the button parameters `SnackBarButtonParams` and their parcel serialiser (module
  `ButtonParams`);
- the sample activity's mapping from spinner positions to builder calls, including its
  `switch` statements that fall through on purpose (modules `Switches` and `Sample`).

Supporting modules:

- `Wrappers`: `Option` and `Result`.
- `JavaInts`: Java's `short` and `int`, with the `(int)` widening and the `(short)`
  narrowing written out modulo 2^16.
- `Android`: the host toolkit as opaque values.
  - `Resources` holds `getString` and `getColorStateList` as uninterpreted functions.
  - `Context` carries the resources and the overlay permission.
  - `Bundle` is a class around a map.
- `Parcels`: an Android `Parcel` as a sequence of typed entries.
  - Writing only appends.
  - Reading moves a cursor.
  - Every read has a pure specification function that returns an error on a malformed or
    short parcel.
  - `WrittenAt(data, pos, enc)` says that `enc` sits in `data` at `pos`, with anything
    before or after it.

The Java classes whose fields change are Dafny classes:

- The builder keeps its fields and its two params objects.
  - The params objects are passed into the `Snack` by reference.
  - `Builder.State()` reads the builder and both params objects as one value.
  - Each `with*` setter of a builder field or a button field states its new state as
    `old(State())` with exactly one field replaced.
    - `withActionMessageId` and `withCancelMessageId` replace nothing when the id is not
      positive.
    - The three listener setters change the bar and leave `State()` as it was.
- The container a bar delegates to is not part of this model. It is an object that records,
  in a shared `CallLog`, each call made to it. Listener invocations go into the same log, so
  a contract can state their order relative to `hide()`.

The Java `switch` statements of the sample are data (`Switches.CaseGroup`). They are run
with Java's rules:

- control enters at the first matching label, otherwise at `default`;
- execution then falls through to the next group until a `break`.

Lemmas prove that each switch literal, as written, selects the calls of a decision table.
The activity's methods are proved against the same tables.

## Model

| member | source | states |
|---|---|---|
| JavaInts.Widen | snackbar/src/main/java/com/github/mrengineer13/snackbar/Snack.java:51 | `(int) mDuration` keeps the value of every short |
| JavaInts.Narrow | snackbar/src/main/java/com/github/mrengineer13/snackbar/Snack.java:40 | `(short) readInt()` keeps the value modulo 2^16, exactly for values in short range |
| JavaInts.NarrowWiden | snackbar/src/main/java/com/github/mrengineer13/snackbar/Snack.java:40-51 | narrowing what was widened gives back the same short duration |
| JavaInts.NarrowOutsideShortRange | snackbar/src/main/java/com/github/mrengineer13/snackbar/Snack.java:40 | every int outside short range changes value when narrowed, landing on the congruent short |
| JavaInts.NarrowWrapsAround | snackbar/src/main/java/com/github/mrengineer13/snackbar/Snack.java:40 | an int outside short range written by another writer wraps around (32768 reads as -32768) |
| Android.Bundle.PutBundle | sample/src/main/java/com/mrengineer13/snackbar/sample/SnackBarActivity.java:227 | `putBundle` maps the key to the value and leaves every other key unchanged |
| Android.Bundle.GetBundle | sample/src/main/java/com/mrengineer13/snackbar/sample/SnackBarActivity.java:235 | `getBundle` gives the stored value, or null for an absent key |
| Parcels.StringRoundTrip | snackbar/src/main/java/com/github/mrengineer13/snackbar/Snack.java:36-47 | `readString` returns the (possibly null) string `writeString` wrote and advances by one entry |
| Parcels.IntRoundTrip | snackbar/src/main/java/com/github/mrengineer13/snackbar/Snack.java:42-53 | `readInt` returns the int `writeInt` wrote and advances by one entry |
| Parcels.CreatorRoundTrip | snackbar/src/main/java/com/github/mrengineer13/snackbar/Snack.java:37-48 | the class tag or null marker of `writeParcelable` reads back as written |
| Parcels.ColorParcelableRoundTrip | snackbar/src/main/java/com/github/mrengineer13/snackbar/Snack.java:41-52 | a (possibly null) background colour reads back as written, consuming exactly its own entries |
| Parcels.TokenParcelableRoundTrip | snackbar/src/main/java/com/github/mrengineer13/snackbar/Snack.java:39-50 | a (possibly null) caller token reads back as written, consuming exactly its own entries |
| Parcels.Parcel.WriteString | snackbar/src/main/java/com/github/mrengineer13/snackbar/Snack.java:47 | appends one string entry |
| Parcels.Parcel.WriteInt | snackbar/src/main/java/com/github/mrengineer13/snackbar/Snack.java:51-53 | appends one int entry |
| Parcels.Parcel.WriteCreator | snackbar/src/main/java/com/github/mrengineer13/snackbar/Snack.java:48 | appends the class tag or null marker |
| Parcels.Parcel.WriteColorParcelable | snackbar/src/main/java/com/github/mrengineer13/snackbar/Snack.java:52 | appends exactly the colour's parcelable encoding |
| Parcels.Parcel.WriteTokenParcelable | snackbar/src/main/java/com/github/mrengineer13/snackbar/Snack.java:50 | appends exactly the token's parcelable encoding |
| Parcels.Parcel.ReadString | snackbar/src/main/java/com/github/mrengineer13/snackbar/Snack.java:36 | returns what the read specification gives and advances the cursor by what it consumed; on an error the cursor stays |
| Parcels.Parcel.ReadInt | snackbar/src/main/java/com/github/mrengineer13/snackbar/Snack.java:40-42 | the same for an int |
| Parcels.Parcel.ReadCreator | snackbar/src/main/java/com/github/mrengineer13/snackbar/Snack.java:37-41 | the same for a class tag |
| Parcels.Parcel.ReadColorParcelable | snackbar/src/main/java/com/github/mrengineer13/snackbar/Snack.java:41 | on success the colour and the cursor the read specification gives; on an error the specification's error, with the cursor unspecified (it may stay after the class tag) |
| Parcels.Parcel.ReadTokenParcelable | snackbar/src/main/java/com/github/mrengineer13/snackbar/Snack.java:39 | the same as for a colour parcelable, for a caller token |
| ButtonParams.ParamsBodyRoundTrip | snackbar/src/main/java/com/github/mrengineer13/snackbar/SnackBarButtonParams.java:16-32 | title, icon and text colour read back in write order, nulls included, consuming exactly the entries written, so what follows is left intact |
| ButtonParams.ParamsParcelableRoundTrip | snackbar/src/main/java/com/github/mrengineer13/snackbar/SnackBarButtonParams.java:16-43 | a (possibly null) params object nested in another parcel reads back as written and stops where its encoding ends |
| ButtonParams.SnackBarButtonParams.constructor | snackbar/src/main/java/com/github/mrengineer13/snackbar/SnackBarButtonParams.java:8-14 | whatever colour is passed, a new object has a null title, icon 0 and a null text colour |
| ButtonParams.SnackBarButtonParams.DescribeContents | snackbar/src/main/java/com/github/mrengineer13/snackbar/SnackBarButtonParams.java:22-25 | 0 |
| ButtonParams.SnackBarButtonParams.WriteToParcel | snackbar/src/main/java/com/github/mrengineer13/snackbar/SnackBarButtonParams.java:27-32 | appends title, icon, text colour in that order and nothing else |
| ButtonParams.CreateFromParcel | snackbar/src/main/java/com/github/mrengineer13/snackbar/SnackBarButtonParams.java:16-20 | a fresh object with the fields read in write order, cursor advanced past them; an error on a malformed parcel |
| ButtonParams.WriteParcelable | snackbar/src/main/java/com/github/mrengineer13/snackbar/SnackBarButtonParams.java:27-37 | `writeParcelable(params, 0)`: the class tag then the body, or the null marker |
| ButtonParams.ReadParcelable | snackbar/src/main/java/com/github/mrengineer13/snackbar/SnackBarButtonParams.java:35-38 | `readParcelable`: null for the null marker, a fresh object through `CREATOR` otherwise |
| ButtonParams.NewArray | snackbar/src/main/java/com/github/mrengineer13/snackbar/SnackBarButtonParams.java:40-42 | a fresh all-null array of length n; no array for a negative n |
| Snacks.ReadSnackBodyFromFields | snackbar/src/main/java/com/github/mrengineer13/snackbar/Snack.java:35-43 | seven field reads in constructor order, chained, make the read of the whole snack |
| Snacks.SnackHeadRead | snackbar/src/main/java/com/github/mrengineer13/snackbar/Snack.java:36-38 | message, action params and cancel params read back as written, each starting where the previous ended |
| Snacks.SnackTailRead | snackbar/src/main/java/com/github/mrengineer13/snackbar/Snack.java:39-42 | token, the widened duration, background and height read back as written |
| Snacks.SnackBodyRoundTrip | snackbar/src/main/java/com/github/mrengineer13/snackbar/Snack.java:35-54 | reading what `writeToParcel` wrote gives equal fields, the nested params included, and stops exactly after the snack's entries, so data written after it is read back intact |
| Snacks.Snack.constructor | snackbar/src/main/java/com/github/mrengineer13/snackbar/Snack.java:23-33 | all seven arguments stored unchanged, the params objects by reference |
| Snacks.Snack.DescribeContents | snackbar/src/main/java/com/github/mrengineer13/snackbar/Snack.java:56-58 | 0 |
| Snacks.Snack.WriteToParcel | snackbar/src/main/java/com/github/mrengineer13/snackbar/Snack.java:46-54 | appends exactly message, action params, cancel params, token, duration as int, background, height |
| Snacks.SnackBodyAppended | snackbar/src/main/java/com/github/mrengineer13/snackbar/Snack.java:46-54 | the seven appends in order make the snack's encoding |
| Snacks.CreateFromParcel | snackbar/src/main/java/com/github/mrengineer13/snackbar/Snack.java:35-43 | `Snack(Parcel)` through `CREATOR`: a fresh snack with the fields the read specification gives, cursor advanced past them; an error and no snack on a malformed parcel |
| Snacks.NewArray | snackbar/src/main/java/com/github/mrengineer13/snackbar/Snack.java:66-68 | a fresh all-null array of length n; no array for a negative n |
| Snacks.WriteThenRead | snackbar/src/main/java/com/github/mrengineer13/snackbar/Snack.java:35-54 | writing a snack, rewinding and reading gives a new snack with equal contents and consumes the whole write |
| SnackBars.ActionTextColor | snackbar/src/main/java/com/github/mrengineer13/snackbar/SnackBar.java:417-430 | `getActionTextColor`: ALERT gives the red colour state list, INFO yellow, CONFIRM green, DEFAULT the default one |
| SnackBars.ActionTextColorRes | snackbar/src/main/java/com/github/mrengineer13/snackbar/SnackBar.java:417-430 | ALERT gives red, INFO yellow, CONFIRM green and DEFAULT the default colour, each if and only if |
| SnackBars.ActionTextColorResInjective | snackbar/src/main/java/com/github/mrengineer13/snackbar/SnackBar.java:417-430 | different styles give different colour resources |
| SnackBars.SnackContainer.IsShowing | snackbar/src/main/java/com/github/mrengineer13/snackbar/SnackBar.java:482 | `isShowing()`: the container's showing flag |
| SnackBars.SnackContainer.Peek | snackbar/src/main/java/com/github/mrengineer13/snackbar/SnackBar.java:483 | `peek()`: the container's head message, possibly null |
| SnackBars.SnackContainer.ShowSnack | snackbar/src/main/java/com/github/mrengineer13/snackbar/SnackBar.java:433-435 | records `showSnack(message, listener)` |
| SnackBars.SnackContainer.Hide | snackbar/src/main/java/com/github/mrengineer13/snackbar/SnackBar.java:525-528 | records `hide()` |
| SnackBars.SnackContainer.ClearSnacks | snackbar/src/main/java/com/github/mrengineer13/snackbar/SnackBar.java:509-511 | records `clearSnacks(animate)` |
| SnackBars.SnackContainer.SaveState | snackbar/src/main/java/com/github/mrengineer13/snackbar/SnackBar.java:538-540 | records `saveState()` together with the bundle it returns |
| SnackBars.SnackContainer.RestoreState | snackbar/src/main/java/com/github/mrengineer13/snackbar/SnackBar.java:534-536 | records `restoreState(state)` with the bundle given |
| SnackBars.SnackBar.constructor | snackbar/src/main/java/com/github/mrengineer13/snackbar/SnackBar.java:44-52 | a bar over the given container, with no listeners |
| SnackBars.SnackBar.OnButtonClick | snackbar/src/main/java/com/github/mrengineer13/snackbar/SnackBar.java:479-487 | with a listener and a showing container, the listener gets the head snack's token and then the container is hidden; otherwise the container is only hidden; a showing container with no head throws before hiding |
| SnackBars.SnackBar.OnCancelClick | snackbar/src/main/java/com/github/mrengineer13/snackbar/SnackBar.java:469-477 | with a cancel listener and a showing container, the listener is called and then the container is hidden; otherwise the container is only hidden |
| SnackBars.SnackBar.SetOnClickListener | snackbar/src/main/java/com/github/mrengineer13/snackbar/SnackBar.java:494-497 | sets the message listener, returns the bar |
| SnackBars.SnackBar.SetOnCancelClickListener | snackbar/src/main/java/com/github/mrengineer13/snackbar/SnackBar.java:489-492 | sets the cancel listener, returns the bar |
| SnackBars.SnackBar.SetOnVisibilityChangeListener | snackbar/src/main/java/com/github/mrengineer13/snackbar/SnackBar.java:499-502 | sets the visibility listener, returns the bar |
| SnackBars.SnackBar.ShowMessage | snackbar/src/main/java/com/github/mrengineer13/snackbar/SnackBar.java:433-435 | hands the snack and the current visibility listener to the container |
| SnackBars.SnackBar.Clear | snackbar/src/main/java/com/github/mrengineer13/snackbar/SnackBar.java:509-511 | `clear(animate)` is exactly the container's `clearSnacks(animate)` |
| SnackBars.SnackBar.ClearAnimated | snackbar/src/main/java/com/github/mrengineer13/snackbar/SnackBar.java:517-519 | `clear()` makes the same calls as `clear(true)` |
| SnackBars.SnackBar.Hide | snackbar/src/main/java/com/github/mrengineer13/snackbar/SnackBar.java:525-528 | `hide()` is the container's `hide()` followed by `clearSnacks(true)` |
| SnackBars.SnackBar.OnSaveInstanceState | snackbar/src/main/java/com/github/mrengineer13/snackbar/SnackBar.java:538-540 | returns the very bundle the container's `saveState()` returned: the recorded call carries the bar's result |
| SnackBars.SnackBar.OnRestoreInstanceState | snackbar/src/main/java/com/github/mrengineer13/snackbar/SnackBar.java:534-536 | hands the bundle to the container unchanged |
| SnackBars.ShownHeight | snackbar/src/main/java/com/github/mrengineer13/snackbar/SnackBar.java:410 | `mHeight != 0 ? mHeight : 0` is the height itself |
| SnackBars.ShownValueKeepsState | snackbar/src/main/java/com/github/mrengineer13/snackbar/SnackBar.java:403-415 | the shown snack has the builder's message, token, duration, height and both buttons; its background is the builder's exactly when one was set, and `sb__snack_bkgnd` otherwise |
| SnackBars.Builder.constructor | snackbar/src/main/java/com/github/mrengineer13/snackbar/SnackBar.java:110-130 | a new bar with no listeners and two distinct new params objects; no message, default buttons, no token, duration MED_SNACK (3500), no background, height 0 |
| SnackBars.Builder.WithMessage | snackbar/src/main/java/com/github/mrengineer13/snackbar/SnackBar.java:190-193 | changes only the message and returns the same builder |
| SnackBars.Builder.WithMessageId | snackbar/src/main/java/com/github/mrengineer13/snackbar/SnackBar.java:201-204 | changes only the message, to the resolved string, so it and `withMessage` overwrite each other |
| SnackBars.Builder.WithActionMessage | snackbar/src/main/java/com/github/mrengineer13/snackbar/SnackBar.java:212-215 | changes only the action title |
| SnackBars.Builder.WithCancelMessage | snackbar/src/main/java/com/github/mrengineer13/snackbar/SnackBar.java:223-226 | changes only the cancel title |
| SnackBars.Builder.WithActionMessageId | snackbar/src/main/java/com/github/mrengineer13/snackbar/SnackBar.java:234-240 | a positive id sets only the action title to the resolved string; any other id leaves the builder entirely unchanged |
| SnackBars.Builder.WithCancelMessageId | snackbar/src/main/java/com/github/mrengineer13/snackbar/SnackBar.java:248-253 | the same for the cancel title |
| SnackBars.Builder.WithActionIconId | snackbar/src/main/java/com/github/mrengineer13/snackbar/SnackBar.java:261-264 | changes only the action icon |
| SnackBars.Builder.WithCancelIconId | snackbar/src/main/java/com/github/mrengineer13/snackbar/SnackBar.java:272-275 | changes only the cancel icon |
| SnackBars.Builder.WithActionButtonStyle | snackbar/src/main/java/com/github/mrengineer13/snackbar/SnackBar.java:283-286 | changes only the action text colour, to the style's colour |
| SnackBars.Builder.WithCancelButtonStyle | snackbar/src/main/java/com/github/mrengineer13/snackbar/SnackBar.java:294-297 | changes only the cancel text colour, to the style's colour |
| SnackBars.Builder.WithToken | snackbar/src/main/java/com/github/mrengineer13/snackbar/SnackBar.java:305-308 | changes only the token |
| SnackBars.Builder.WithDuration | snackbar/src/main/java/com/github/mrengineer13/snackbar/SnackBar.java:316-319 | changes only the duration |
| SnackBars.Builder.WithTextColorId | snackbar/src/main/java/com/github/mrengineer13/snackbar/SnackBar.java:327-330 | changes only the action text colour, to the resource's colour |
| SnackBars.Builder.WithCancelColorId | snackbar/src/main/java/com/github/mrengineer13/snackbar/SnackBar.java:338-341 | changes only the cancel text colour, to the resource's colour |
| SnackBars.Builder.WithBackgroundColorId | snackbar/src/main/java/com/github/mrengineer13/snackbar/SnackBar.java:349-352 | changes only the background, to the resource's colour |
| SnackBars.Builder.WithSnackBarHeight | snackbar/src/main/java/com/github/mrengineer13/snackbar/SnackBar.java:360-363 | changes only the height |
| SnackBars.Builder.WithOnClickListener | snackbar/src/main/java/com/github/mrengineer13/snackbar/SnackBar.java:371-374 | sets the bar's message listener and nothing of the builder |
| SnackBars.Builder.WithOnCancelClickListener | snackbar/src/main/java/com/github/mrengineer13/snackbar/SnackBar.java:382-385 | sets the bar's cancel listener and nothing of the builder |
| SnackBars.Builder.WithVisibilityChangeListener | snackbar/src/main/java/com/github/mrengineer13/snackbar/SnackBar.java:393-396 | sets the bar's visibility listener and nothing of the builder |
| SnackBars.Builder.Show | snackbar/src/main/java/com/github/mrengineer13/snackbar/SnackBar.java:403-415 | a fresh snack holding the builder's own params objects and the shown contents, handed to the container with the bar's visibility listener; returns the builder's bar |
| SnackBars.NewFloatingBuilder | snackbar/src/main/java/com/github/mrengineer13/snackbar/SnackBar.java:157-169 | throws exactly when the overlay permission is missing; otherwise the same initial state as the other constructors |
| Switches.FindLabel | sample/src/main/java/com/mrengineer13/snackbar/sample/SnackBarActivity.java:139-149 | the first group whose labels hold the value, or none when no group does |
| Switches.FindDefault | sample/src/main/java/com/mrengineer13/snackbar/sample/SnackBarActivity.java:154-158 | the first group labelled `default`, or none |
| Switches.EntryGroup | sample/src/main/java/com/mrengineer13/snackbar/sample/SnackBarActivity.java:154-158 | control enters a group labelled with the value when one exists; otherwise it enters exactly when there is a `default` |
| Switches.FallThrough | sample/src/main/java/com/mrengineer13/snackbar/sample/SnackBarActivity.java:187-197 | the entered group's statements come first, and only they run when the group ends with `break` |
| Switches.RunFromLabel | sample/src/main/java/com/mrengineer13/snackbar/sample/SnackBarActivity.java:187-197 | a switch runs from the first group labelled with the value |
| Switches.RunFromDefault | sample/src/main/java/com/mrengineer13/snackbar/sample/SnackBarActivity.java:172-181 | with no matching label a switch runs from its `default` group |
| Switches.RunNothing | sample/src/main/java/com/mrengineer13/snackbar/sample/SnackBarActivity.java:139-149 | with no matching label and no `default` a switch runs nothing |
| Sample.MessageCases | sample/src/main/java/com/mrengineer13/snackbar/sample/SnackBarActivity.java:101-120 | `setMessage`'s switch as written: `case SHORT_MSG` and `case LONG_MSG`, one call each, both ending with `break`, no `default` |
| Sample.DurationCases | sample/src/main/java/com/mrengineer13/snackbar/sample/SnackBarActivity.java:139-149 | the duration switch as written: three cases assigning SHORT, MED and LONG, each ending with `break`, no `default` |
| Sample.StyleCases | sample/src/main/java/com/mrengineer13/snackbar/sample/SnackBarActivity.java:154-168 | the action colour switch as written: `default:` shares the first group with `case DEFAULT:`, and every group assigns once and ends with `break` |
| Sample.BackgroundCases | sample/src/main/java/com/mrengineer13/snackbar/sample/SnackBarActivity.java:173-181 | the background switch as written: `default:` shares the first group with `case DEFAULT:` and both groups end with `break` |
| Sample.ActionButtonCases | sample/src/main/java/com/mrengineer13/snackbar/sample/SnackBarActivity.java:187-197 | the action button switch as written: `case BTN_TEXT_AND_ICON` and `case BTN_TEXT_ONLY` have no `break`; `case BTN_HIDE` is empty; no `default` |
| Sample.CancelButtonCases | sample/src/main/java/com/mrengineer13/snackbar/sample/SnackBarActivity.java:200-210 | the cancel button switch, the same shape with "Cancel" and the close icon |
| Sample.SwitchCalls | sample/src/main/java/com/mrengineer13/snackbar/sample/SnackBarActivity.java:136-210 | the builder calls in source order: the message switch's, then `withDuration`, `withActionButtonStyle` and `withBackgroundColorId` with the values the three switches assign, then the two button switches' |
| Sample.ApplyCallsAppend | sample/src/main/java/com/mrengineer13/snackbar/sample/SnackBarActivity.java:136-210 | builder calls made in two runs have the effect of the concatenated run |
| Sample.MessageSwitchCalls | sample/src/main/java/com/mrengineer13/snackbar/sample/SnackBarActivity.java:101-120 | length 0 gives one call with the short text or the `short_message` id by string type, length 1 the same with the long text and `long_message`, any other length no call |
| Sample.DurationSwitchValue | sample/src/main/java/com/mrengineer13/snackbar/sample/SnackBarActivity.java:125-149 | positions 0, 1 and 2 give 2000, 3500 and 5000; any other position leaves the local's initial 0 (PERMANENT_SNACK) |
| Sample.StyleSwitchValue | sample/src/main/java/com/mrengineer13/snackbar/sample/SnackBarActivity.java:153-168 | exactly one assignment runs: ALERT, CONFIRM or INFO at 1, 2, 3, DEFAULT at every other position |
| Sample.BackgroundSwitchValue | sample/src/main/java/com/mrengineer13/snackbar/sample/SnackBarActivity.java:172-181 | exactly one assignment runs: the alert background at 1, the default background at every other position |
| Sample.ActionButtonSwitchCalls | sample/src/main/java/com/mrengineer13/snackbar/sample/SnackBarActivity.java:185-197 | position 0 falls through to title then icon, 1 gives the icon, 2 the title, 3 and any other nothing |
| Sample.CancelButtonSwitchCalls | sample/src/main/java/com/mrengineer13/snackbar/sample/SnackBarActivity.java:199-210 | the same pattern with "Cancel" and the close icon |
| Sample.MessageSwitchEffect | sample/src/main/java/com/mrengineer13/snackbar/sample/SnackBarActivity.java:94-121 | the message switch sets the table's message for lengths 0 and 1 and leaves the builder unchanged otherwise |
| Sample.ActionButtonSwitchEffect | sample/src/main/java/com/mrengineer13/snackbar/sample/SnackBarActivity.java:185-197 | the action switch sets the title and the icon exactly at the positions that have them and changes nothing else |
| Sample.CancelButtonSwitchEffect | sample/src/main/java/com/mrengineer13/snackbar/sample/SnackBarActivity.java:199-210 | the same for the cancel button |
| Sample.SwitchCallsReachExpectedState | sample/src/main/java/com/mrengineer13/snackbar/sample/SnackBarActivity.java:123-210 | every call the switches select, made in order on a new builder, gives the state the decision tables describe |
| Sample.SnackBarActivity.constructor | sample/src/main/java/com/mrengineer13/snackbar/sample/SnackBarActivity.java:32-53 | an activity with no bar yet |
| Sample.SnackBarActivity.SetMessage | sample/src/main/java/com/mrengineer13/snackbar/sample/SnackBarActivity.java:94-121 | sets the table's message for lengths 0 and 1, and leaves the builder unchanged for any other length |
| Sample.SnackBarActivity.OnCreateClicked | sample/src/main/java/com/mrengineer13/snackbar/sample/SnackBarActivity.java:123-221 | fails, changing nothing, exactly when the floating builder is chosen without the overlay permission; otherwise the new bar over the container holds the Toast cancel listener and no other listener, and the one snack handed to the container has the contents the decision tables give |
| Sample.SnackBarActivity.Configure | sample/src/main/java/com/mrengineer13/snackbar/sample/SnackBarActivity.java:138-210 | the duration, style, background and button switches bring a builder that has only its message set into the tables' state |
| Sample.SnackBarActivity.DurationSwitch | sample/src/main/java/com/mrengineer13/snackbar/sample/SnackBarActivity.java:125-149 | the duration the switch leaves in the local, both as the switch literal runs and as the table states |
| Sample.SnackBarActivity.StyleSwitch | sample/src/main/java/com/mrengineer13/snackbar/sample/SnackBarActivity.java:153-168 | the one style the switch assigns, as the literal runs and as the table states |
| Sample.SnackBarActivity.BackgroundSwitch | sample/src/main/java/com/mrengineer13/snackbar/sample/SnackBarActivity.java:172-181 | the one background resource the switch assigns, as the literal runs and as the table states |
| Sample.SnackBarActivity.ActionButtonSwitch | sample/src/main/java/com/mrengineer13/snackbar/sample/SnackBarActivity.java:185-197 | sets the action title and icon exactly at the positions that have them and changes nothing else of the builder |
| Sample.SnackBarActivity.CancelButtonSwitch | sample/src/main/java/com/mrengineer13/snackbar/sample/SnackBarActivity.java:199-210 | the same for the cancel button |
| Sample.SnackBarActivity.OnSaveInstanceState | sample/src/main/java/com/mrengineer13/snackbar/sample/SnackBarActivity.java:224-229 | without a bar the bundle is untouched; with one, the bundle the bar's `onSaveInstanceState()` returned (the one recorded in its `saveState()` call) is put under SAVED_SNACKBAR |
| Sample.SnackBarActivity.OnRestoreInstanceState | sample/src/main/java/com/mrengineer13/snackbar/sample/SnackBarActivity.java:232-237 | with a bar, the bundle stored under SAVED_SNACKBAR (null if absent) is handed to it; without one nothing happens |

## Left out

- `SnackContainer` is not part of this model: its queue, display order, timers, animations and saved-state format are unknown here.
  - Its methods only record that they were called.
  - `isShowing()` and `peek()` read two fields whose values after any container call are left unspecified.
- View inflation, listener wiring, the `WindowManager` overlay root view, `getHeight()` measurement and `getContainerView()` are host-toolkit calls with no logic of the library's own.
  - The two `SnackBar` constructors and `init` become one constructor that takes the container.
- SnackBars.NewFloatingBuilder: the `SYSTEM_ALERT_WINDOW` check through the package manager is the boolean `Context.holdsSystemAlertWindow`. The thrown `RuntimeException` is an `Err` result.
- `getString`, `getColorStateList`, `ColorStateList` and caller tokens are uninterpreted functions and opaque values.
- Snacks.SnackBodyRoundTrip assumes the caller's token round-trips through the parcel.
  - A token is written and read by the caller's own `writeToParcel` and `CREATOR`.
  - The model encodes every token as one opaque entry that reads back as itself.
  - So the proof assumes the caller's parcelable reads exactly what it wrote.
  - If it does not, the duration, background and height reads after it are misaligned, and the round trip is not promised.
  - Parcels.TokenParcelableRoundTrip and Snacks.WriteThenRead rest on the same assumption.
- Resource lookups are total.
- The `R.*` ids are distinct positive placeholders, because the real ones are generated at build time.
- The Parcel is modelled only as an ordered list of typed entries.
  - Byte layout, class loaders and type confusion are not modelled.
  - The nested reads (Snack.java:37-41, SnackBarButtonParams.java:19) pass `p.getClass().getClassLoader()`, the loader of the framework's `Parcel` class rather than the application's. After process death that loader may fail to find `SnackBarButtonParams` or the caller's token class. ButtonParams.ParamsParcelableRoundTrip, Snacks.SnackBodyRoundTrip and Snacks.WriteThenRead therefore hold for the list-of-entries model, where class lookup always succeeds, and say nothing about that lookup.
  - A read of the wrong entry type or past the end is an error result rather than an exception or a garbage value.
  - Writes always append at the end. Writing after moving the data position backwards is not modelled.
- SnackBars.Builder.WithDuration takes a value, not a boxed `Short`: passing `null` would throw `NullPointerException` in Java.
- SnackBars.ActionTextColorRes is total over the four styles. A `null` style throws in Java, and the `default:` branch is unreachable for an enum.
- `mCance` is not modelled: it is an unused duplicate of `mButtonListener`.
- What the host's listeners do is not modelled. Calling one is recorded as a call carrying its identity and arguments.
  - The Toast cancel listener `onCreateClicked` registers is an identity only.
  - The activity implements `OnMessageClickListener` but `onCreateClicked` never registers it, so the bar it builds has no message listener.
- The sample's `setMessage` and `onCreateClicked` read spinner positions. Here those arrive as one `Selections` value.
  - `onCreate`, the options menu, the About screen and the Toasts are UI only and are not modelled.
  - The `super.onSaveInstanceState` and `super.onRestoreInstanceState` calls belong to the Android framework and are not modelled.
- Sample.SnackBarActivity.OnSaveInstanceState: the contents of the bundle the container saves are unknown. The contract says only which object is stored.
- Sample.SnackBarActivity.OnCreateClicked: the duration, style, background and button switches are separate methods. They are called in source order.
  - `Sample.SnackBarActivity.Configure` groups the calls between `setMessage` and the cancel listener.
