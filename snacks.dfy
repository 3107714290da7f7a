/** `Snack`: one immutable message record, and its parcel format. */
module Snacks {
  import opened Wrappers
  import opened JavaInts
  import opened Android
  import opened Parcels
  import opened ButtonParams

  /** The contents of a snack at one moment, with its two button params objects read as values
      (None for a null reference). */
  datatype SnackValue = SnackValue(
    message: Option<string>,
    action: Option<ParamsValue>,
    cancel: Option<ParamsValue>,
    token: Option<Token>,
    duration: Short,
    background: Option<ColorStateList>,
    height: Int32)

  /** What `writeToParcel` appends: message, action params, cancel params, token, duration
      widened to int, background, height, in this order. */
  function SnackBody(v: SnackValue): seq<Entry> {
    SnackHead(v) + SnackTail(v)
  }

  /** The first three writes: message, action params, cancel params. */
  function SnackHead(v: SnackValue): seq<Entry> {
    [StringEntry(v.message)] + ParamsParcelable(v.action) + ParamsParcelable(v.cancel)
  }

  /** The last four writes: token, duration widened to int, background, height. */
  function SnackTail(v: SnackValue): seq<Entry> {
    TokenParcelable(v.token) + [IntEntry(Widen(v.duration))] + ColorParcelable(v.background) + [IntEntry(v.height)]
  }

  /** What the parcel constructor reads, in the same order; the duration is narrowed back to a
      short. */
  function ReadSnackBodyAt(data: seq<Entry>, pos: nat): Result<Read<SnackValue>, ParcelError> {
    var message :- ReadStringAt(data, pos);
    var action :- ReadParamsParcelableAt(data, message.next);
    var cancel :- ReadParamsParcelableAt(data, action.next);
    var token :- ReadTokenParcelableAt(data, cancel.next);
    var duration :- ReadIntAt(data, token.next);
    var background :- ReadColorParcelableAt(data, duration.next);
    var height :- ReadIntAt(data, background.next);
    Ok(Read(SnackValue(message.value, action.value, cancel.value, token.value,
                       Narrow(duration.value), background.value, height.value),
            height.next))
  }

  /** The parcel constructor's seven reads, each succeeding where the previous one stopped,
      assemble the snack they read. */
  lemma ReadSnackBodyFromFields(data: seq<Entry>, pos: nat, v: SnackValue,
                                p1: nat, p2: nat, p3: nat, p4: nat, p5: nat, p6: nat, p7: nat)
    requires ReadStringAt(data, pos) == Ok(Read(v.message, p1))
    requires ReadParamsParcelableAt(data, p1) == Ok(Read(v.action, p2))
    requires ReadParamsParcelableAt(data, p2) == Ok(Read(v.cancel, p3))
    requires ReadTokenParcelableAt(data, p3) == Ok(Read(v.token, p4))
    requires ReadIntAt(data, p4) == Ok(Read(Widen(v.duration), p5))
    requires ReadColorParcelableAt(data, p5) == Ok(Read(v.background, p6))
    requires ReadIntAt(data, p6) == Ok(Read(v.height, p7))
    ensures ReadSnackBodyAt(data, pos) == Ok(Read(v, p7))
  {
    NarrowWiden(v.duration);
  }

  /** The first three writes read back one after the other. */
  lemma {:induction false} SnackHeadRead(data: seq<Entry>, pos: nat, v: SnackValue) returns (p1: nat, p2: nat, p3: nat)
    requires WrittenAt(data, pos, SnackHead(v))
    ensures ReadStringAt(data, pos) == Ok(Read(v.message, p1))
    ensures ReadParamsParcelableAt(data, p1) == Ok(Read(v.action, p2))
    ensures ReadParamsParcelableAt(data, p2) == Ok(Read(v.cancel, p3))
    ensures p3 == pos + |SnackHead(v)|
  {
    var m := [StringEntry(v.message)];
    var a := ParamsParcelable(v.action);
    var c := ParamsParcelable(v.cancel);
    WrittenAtSplit(data, pos, m + a, c);
    WrittenAtSplit(data, pos, m, a);
    StringRoundTrip(data, pos, v.message);
    ParamsParcelableRoundTrip(data, pos + 1, v.action);
    ParamsParcelableRoundTrip(data, pos + 1 + |a|, v.cancel);
    p1, p2, p3 := pos + 1, pos + 1 + |a|, pos + 1 + |a| + |c|;
  }

  /** The last four writes read back one after the other. */
  lemma {:induction false} SnackTailRead(data: seq<Entry>, pos: nat, v: SnackValue) returns (p4: nat, p5: nat, p6: nat, p7: nat)
    requires WrittenAt(data, pos, SnackTail(v))
    ensures ReadTokenParcelableAt(data, pos) == Ok(Read(v.token, p4))
    ensures ReadIntAt(data, p4) == Ok(Read(Widen(v.duration), p5))
    ensures ReadColorParcelableAt(data, p5) == Ok(Read(v.background, p6))
    ensures ReadIntAt(data, p6) == Ok(Read(v.height, p7))
    ensures p7 == pos + |SnackTail(v)|
  {
    var t := TokenParcelable(v.token);
    var d := [IntEntry(Widen(v.duration))];
    var b := ColorParcelable(v.background);
    var h := [IntEntry(v.height)];
    WrittenAtSplit(data, pos, t + d + b, h);
    WrittenAtSplit(data, pos, t + d, b);
    WrittenAtSplit(data, pos, t, d);
    TokenParcelableRoundTrip(data, pos, v.token);
    IntRoundTrip(data, pos + |t|, Widen(v.duration));
    ColorParcelableRoundTrip(data, pos + |t| + 1, v.background);
    IntRoundTrip(data, pos + |t| + 1 + |b|, v.height);
    p4, p5, p6, p7 := pos + |t|, pos + |t| + 1, pos + |t| + 1 + |b|, pos + |t| + 1 + |b| + 1;
  }

  /** Reading what `writeToParcel` wrote gives back every field, the nested button params and the
      duration after its short-to-int-to-short trip included, and stops exactly after the seven
      writes, whatever was written before or after them. */
  lemma {:induction false} SnackBodyRoundTrip(data: seq<Entry>, pos: nat, v: SnackValue)
    requires WrittenAt(data, pos, SnackBody(v))
    ensures ReadSnackBodyAt(data, pos) == Ok(Read(v, pos + |SnackBody(v)|))
  {
    WrittenAtSplit(data, pos, SnackHead(v), SnackTail(v));
    var p1, p2, p3 := SnackHeadRead(data, pos, v);
    var p4, p5, p6, p7 := SnackTailRead(data, p3, v);
    ReadSnackBodyFromFields(data, pos, v, p1, p2, p3, p4, p5, p6, p7);
  }

  /** The contents of a params reference that may be null. */
  function ValueOf(p: SnackBarButtonParams?): Option<ParamsValue>
    reads p
  {
    if p == null then None else Some(p.Value())
  }

  class Snack {
    const message: Option<string>
    const actionParams: SnackBarButtonParams?
    const cancelParams: SnackBarButtonParams?
    const token: Option<Token>
    const duration: Short
    const background: Option<ColorStateList>
    const height: Int32

    /** The seven-argument constructor stores its arguments unchanged. The params objects are
        shared, not copied: the snack sees later changes to them. */
    constructor (message: Option<string>, actionParams: SnackBarButtonParams?, cancelParams: SnackBarButtonParams?,
                 token: Option<Token>, duration: Short, background: Option<ColorStateList>, height: Int32)
      ensures this.message == message && this.actionParams == actionParams && this.cancelParams == cancelParams
      ensures this.token == token && this.duration == duration && this.background == background && this.height == height
    {
      this.message := message;
      this.actionParams := actionParams;
      this.cancelParams := cancelParams;
      this.token := token;
      this.duration := duration;
      this.background := background;
      this.height := height;
    }

    function Value(): SnackValue
      reads actionParams, cancelParams
    {
      SnackValue(message, ValueOf(actionParams), ValueOf(cancelParams), token, duration, background, height)
    }

    /** `describeContents()`: no file descriptors among the contents. */
    function DescribeContents(): (flags: int)
      ensures flags == 0
    {
      0
    }

    /** `writeToParcel(out, flags)`: the seven writes, in order. */
    method WriteToParcel(out: Parcel, flags: Int32)
      modifies out`data
      ensures out.data == old(out.data) + SnackBody(Value())
    {
      ghost var before := out.data;
      out.WriteString(message);
      WriteParcelable(out, actionParams);
      WriteParcelable(out, cancelParams);
      out.WriteTokenParcelable(token);
      out.WriteInt(Widen(duration));
      out.WriteColorParcelable(background);
      out.WriteInt(height);
      SnackBodyAppended(before, Value());
    }
  }

  /** The parcel constructor `Snack(Parcel)`, reached through `CREATOR.createFromParcel`: a fresh
      snack holding what `ReadSnackBodyAt` reads, with fresh, distinct params objects, or the
      failure it reports. */
  method CreateFromParcel(p: Parcel) returns (r: Result<Snack, ParcelError>)
    modifies p`pos
    ensures var spec := ReadSnackBodyAt(p.data, old(p.pos));
      spec.Ok? ==> (r.Ok? && fresh(r.value) && r.value.Value() == spec.value.value && p.pos == spec.value.next)
    ensures var spec := ReadSnackBodyAt(p.data, old(p.pos));
      spec.Ok? ==> (r.Ok? && (r.value.actionParams != null ==> fresh(r.value.actionParams)) &&
                    (r.value.cancelParams != null ==> fresh(r.value.cancelParams)) &&
                    (r.value.actionParams != null ==> r.value.actionParams != r.value.cancelParams))
    ensures var spec := ReadSnackBodyAt(p.data, old(p.pos));
      spec.Err? ==> r == Err(spec.error)
  {
    var message := p.ReadString();
    if message.Err? {
      return Err(message.error);
    }
    var action := ReadParcelable(p);
    if action.Err? {
      return Err(action.error);
    }
    var cancel := ReadParcelable(p);
    if cancel.Err? {
      return Err(cancel.error);
    }
    var token := p.ReadTokenParcelable();
    if token.Err? {
      return Err(token.error);
    }
    var duration := p.ReadInt();
    if duration.Err? {
      return Err(duration.error);
    }
    var background := p.ReadColorParcelable();
    if background.Err? {
      return Err(background.error);
    }
    var height := p.ReadInt();
    if height.Err? {
      return Err(height.error);
    }
    var snack := new Snack(message.value, action.value, cancel.value, token.value,
                           Narrow(duration.value), background.value, height.value);
    r := Ok(snack);
  }

  /** `CREATOR.newArray(size)`: `size` null slots; a negative size throws
      NegativeArraySizeException (None). */
  method NewArray(size: Int32) returns (r: Option<array<Snack?>>)
    ensures r.Some? <==> size >= 0
    ensures r.Some? ==> fresh(r.value) && r.value.Length == size as int
    ensures r.Some? ==> forall i :: 0 <= i < r.value.Length ==> r.value[i] == null
  {
    if size < 0 {
      return None;
    }
    var a := new Snack?[size as int](_ => null);
    r := Some(a);
  }

  /** A snack written to a parcel and read back from where its entries start comes back with
      equal contents, as fresh objects, and with the cursor just after it. */
  method WriteThenRead(s: Snack, out: Parcel) returns (r: Result<Snack, ParcelError>)
    modifies out
    ensures out.data == old(out.data) + SnackBody(s.Value())
    ensures r.Ok? && fresh(r.value) && r.value.Value() == s.Value() && out.pos == |out.data|
  {
    var start := out.DataSize();
    s.WriteToParcel(out, 0);
    WrittenAtTail(out.data, start, SnackBody(s.Value()));
    SnackBodyRoundTrip(out.data, start, s.Value());
    out.SetDataPosition(start);
    r := CreateFromParcel(out);
  }

  /** Appending the seven writes one after the other appends `SnackBody`. */
  lemma SnackBodyAppended(before: seq<Entry>, v: SnackValue)
    ensures before + [StringEntry(v.message)] + ParamsParcelable(v.action) + ParamsParcelable(v.cancel)
            + TokenParcelable(v.token) + [IntEntry(Widen(v.duration))] + ColorParcelable(v.background)
            + [IntEntry(v.height)] == before + SnackBody(v)
  {
    var m, a, c := [StringEntry(v.message)], ParamsParcelable(v.action), ParamsParcelable(v.cancel);
    var t, d, b, h := TokenParcelable(v.token), [IntEntry(Widen(v.duration))], ColorParcelable(v.background), [IntEntry(v.height)];
    assert SnackBody(v) == (m + a + c) + (t + d + b + h);
    assert before + m + a + c + t + d + b + h == before + ((m + a + c) + (t + d + b + h));
  }
}
