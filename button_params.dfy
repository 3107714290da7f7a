/** `SnackBarButtonParams`: the mutable title, icon and text colour of one snack button, and its
    parcel format. */
module ButtonParams {
  import opened Wrappers
  import opened JavaInts
  import opened Android
  import opened Parcels

  /** The contents of a params object at one moment. */
  datatype ParamsValue = ParamsValue(title: Option<string>, icon: Int32, textColor: Option<ColorStateList>)

  /** The field initialisers: a null title, icon 0 and a null text colour. */
  const DEFAULT_PARAMS := ParamsValue(None, 0, None)

  /** What `writeToParcel` appends: title, icon, text colour, in this order. */
  function ParamsBody(v: ParamsValue): seq<Entry> {
    [StringEntry(v.title), IntEntry(v.icon)] + ColorParcelable(v.textColor)
  }

  /** What `writeParcelable(params, 0)` appends for a params reference that may be null. */
  function ParamsParcelable(p: Option<ParamsValue>): seq<Entry> {
    match p
    case None => [CreatorEntry(None)]
    case Some(v) => [CreatorEntry(Some(ButtonParamsCreator))] + ParamsBody(v)
  }

  /** What the parcel constructor reads: title, icon, text colour, in this order. */
  function ReadParamsBodyAt(data: seq<Entry>, pos: nat): Result<Read<ParamsValue>, ParcelError> {
    var title :- ReadStringAt(data, pos);
    var icon :- ReadIntAt(data, title.next);
    var color :- ReadColorParcelableAt(data, icon.next);
    Ok(Read(ParamsValue(title.value, icon.value, color.value), color.next))
  }

  /** What `readParcelable` returns where a params object is expected. */
  function ReadParamsParcelableAt(data: seq<Entry>, pos: nat): Result<Read<Option<ParamsValue>>, ParcelError> {
    var header :- ReadCreatorAt(data, pos);
    match header.value
    case None => Ok(Read(None, header.next))
    case Some(ButtonParamsCreator) =>
      var body :- ReadParamsBodyAt(data, header.next);
      Ok(Read(Some(body.value), body.next))
    case Some(_) => Err(WrongCreator(pos))
  }

  /** Reading what `writeToParcel` wrote gives back all three fields, null title and null colour
      included, and stops exactly after them. */
  lemma {:induction false} ParamsBodyRoundTrip(data: seq<Entry>, pos: nat, v: ParamsValue)
    requires WrittenAt(data, pos, ParamsBody(v))
    ensures ReadParamsBodyAt(data, pos) == Ok(Read(v, pos + |ParamsBody(v)|))
  {
    WrittenAtSplit(data, pos, [StringEntry(v.title), IntEntry(v.icon)], ColorParcelable(v.textColor));
    assert [StringEntry(v.title)] + [IntEntry(v.icon)] == [StringEntry(v.title), IntEntry(v.icon)];
    WrittenAtSplit(data, pos, [StringEntry(v.title)], [IntEntry(v.icon)]);
    StringRoundTrip(data, pos, v.title);
    IntRoundTrip(data, pos + 1, v.icon);
    ColorParcelableRoundTrip(data, pos + 2, v.textColor);
  }

  /** The same through `writeParcelable`/`readParcelable`, which is how a snack nests its
      buttons: the reference (null or not) and the contents come back, and the cursor stops at
      whatever was written next. */
  lemma {:induction false} ParamsParcelableRoundTrip(data: seq<Entry>, pos: nat, p: Option<ParamsValue>)
    requires WrittenAt(data, pos, ParamsParcelable(p))
    ensures ReadParamsParcelableAt(data, pos) == Ok(Read(p, pos + |ParamsParcelable(p)|))
  {
    match p
    case None =>
      CreatorRoundTrip(data, pos, None);
    case Some(v) =>
      WrittenAtSplit(data, pos, [CreatorEntry(Some(ButtonParamsCreator))], ParamsBody(v));
      CreatorRoundTrip(data, pos, Some(ButtonParamsCreator));
      ParamsBodyRoundTrip(data, pos + 1, v);
  }

  class SnackBarButtonParams {
    var title: Option<string>
    var icon: Int32
    var textColor: Option<ColorStateList>

    function Value(): ParamsValue
      reads this
    {
      ParamsValue(title, icon, textColor)
    }

    /** `SnackBarButtonParams(ColorStateList)`: the body is empty, so the argument is dropped
        and the object keeps the field defaults. */
    constructor (textColorArgument: Option<ColorStateList>)
      ensures Value() == DEFAULT_PARAMS
    {
      title, icon, textColor := None, 0, None;
    }

    /** `describeContents()`: no file descriptors among the contents. */
    function DescribeContents(): (flags: int)
      ensures flags == 0
    {
      0
    }

    /** `writeToParcel(out, flags)`: appends title, icon and text colour. */
    method WriteToParcel(out: Parcel, flags: Int32)
      modifies out`data
      ensures out.data == old(out.data) + ParamsBody(Value())
    {
      out.WriteString(title);
      out.WriteInt(icon);
      out.WriteColorParcelable(textColor);
    }
  }

  /** The parcel constructor `SnackBarButtonParams(Parcel)`, reached through
      `CREATOR.createFromParcel`: a fresh object holding what `ReadParamsBodyAt` reads, or the
      failure it reports. */
  method CreateFromParcel(p: Parcel) returns (r: Result<SnackBarButtonParams, ParcelError>)
    modifies p`pos
    ensures var spec := ReadParamsBodyAt(p.data, old(p.pos));
      spec.Ok? ==> r.Ok? && fresh(r.value) && r.value.Value() == spec.value.value && p.pos == spec.value.next
    ensures var spec := ReadParamsBodyAt(p.data, old(p.pos));
      spec.Err? ==> r == Err(spec.error)
  {
    var title := p.ReadString();
    if title.Err? {
      return Err(title.error);
    }
    var icon := p.ReadInt();
    if icon.Err? {
      return Err(icon.error);
    }
    var color := p.ReadColorParcelable();
    if color.Err? {
      return Err(color.error);
    }
    var params := new SnackBarButtonParams(None);
    params.title, params.icon, params.textColor := title.value, icon.value, color.value;
    r := Ok(params);
  }

  /** `out.writeParcelable(params, 0)`: a header naming the creator, then the object's own
      write; a null reference writes only the null header. */
  method WriteParcelable(out: Parcel, params: SnackBarButtonParams?)
    modifies out`data
    ensures out.data == old(out.data) + ParamsParcelable(if params == null then None else Some(params.Value()))
  {
    if params == null {
      out.WriteCreator(None);
    } else {
      out.WriteCreator(Some(ButtonParamsCreator));
      params.WriteToParcel(out, 0);
    }
  }

  /** `p.readParcelable(...)` where a params object is expected: null for the null header, a
      fresh object for the params header. */
  method ReadParcelable(p: Parcel) returns (r: Result<SnackBarButtonParams?, ParcelError>)
    modifies p`pos
    ensures var spec := ReadParamsParcelableAt(p.data, old(p.pos));
      spec.Ok? ==> (r.Ok? && p.pos == spec.value.next &&
                    (r.value == null <==> spec.value.value.None?) &&
                    (r.value != null ==> fresh(r.value) && r.value.Value() == spec.value.value.value))
    ensures var spec := ReadParamsParcelableAt(p.data, old(p.pos));
      spec.Err? ==> r == Err(spec.error)
  {
    var start := p.pos;
    var header := p.ReadCreator();
    if header.Err? {
      return Err(header.error);
    }
    match header.value
    case None =>
      r := Ok(null);
    case Some(ButtonParamsCreator) =>
      var params := CreateFromParcel(p);
      if params.Err? {
        return Err(params.error);
      }
      r := Ok(params.value);
    case Some(_) =>
      r := Err(WrongCreator(start));
  }

  /** `CREATOR.newArray(size)`: `size` null slots; a negative size throws
      NegativeArraySizeException (None). */
  method NewArray(size: Int32) returns (r: Option<array<SnackBarButtonParams?>>)
    ensures r.Some? <==> size >= 0
    ensures r.Some? ==> fresh(r.value) && r.value.Length == size as int
    ensures r.Some? ==> forall i :: 0 <= i < r.value.Length ==> r.value[i] == null
  {
    if size < 0 {
      return None;
    }
    var a := new SnackBarButtonParams?[size as int](_ => null);
    r := Some(a);
  }
}
