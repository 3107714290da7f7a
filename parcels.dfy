/** A `Parcel` as an ordered sequence of typed entries: writers append, readers advance a cursor. */
module Parcels {
  import opened Wrappers
  import opened JavaInts
  import opened Android

  /** The `CREATOR` a `writeParcelable` header names. */
  datatype Creator = ButtonParamsCreator | ColorStateListCreator | TokenCreator

  /** One entry of a parcel, tagged by the write that produced it. */
  datatype Entry =
    | StringEntry(s: Option<string>)        // writeString; None for a null string
    | IntEntry(i: Int32)                    // writeInt
    | CreatorEntry(creator: Option<Creator>) // the header of writeParcelable; None for a null object
    | ColorEntry(color: ColorStateList)     // the body of a ColorStateList, opaque here
    | TokenEntry(token: Token)              // the body of a caller token, opaque here

  /** Why a read fails. */
  datatype ParcelError =
    | EndOfData(at: nat)        // the cursor is past the last entry
    | UnexpectedEntry(at: nat)  // the entry at the cursor was written by another kind of write
    | WrongCreator(at: nat)     // a parcelable of another class (Java: ClassCastException)

  /** A value read from a parcel and the cursor position just after it. */
  datatype Read<+T> = Read(value: T, next: nat)

  /** `enc` occupies `data` from position `pos` on. */
  ghost predicate WrittenAt(data: seq<Entry>, pos: nat, enc: seq<Entry>)
    decreases |enc|
  {
    if enc == [] then pos <= |data|
    else pos < |data| && data[pos] == enc[0] && WrittenAt(data, pos + 1, enc[1..])
  }

  /** A concatenation written at `pos` is its first part at `pos` followed by its second part. */
  lemma {:induction false} WrittenAtSplit(data: seq<Entry>, pos: nat, a: seq<Entry>, b: seq<Entry>)
    requires WrittenAt(data, pos, a + b)
    ensures WrittenAt(data, pos, a) && WrittenAt(data, pos + |a|, b)
    decreases |a|
  {
    if a == [] {
      assert a + b == b;
      WrittenAtInRange(data, pos, b);
    } else {
      assert (a + b)[0] == a[0];
      assert (a + b)[1..] == a[1..] + b;
      WrittenAtSplit(data, pos + 1, a[1..], b);
    }
  }

  /** What is written at `pos` ends inside the parcel. */
  lemma {:induction false} WrittenAtInRange(data: seq<Entry>, pos: nat, enc: seq<Entry>)
    requires WrittenAt(data, pos, enc)
    ensures pos + |enc| <= |data|
    decreases |enc|
  {
    if enc != [] {
      WrittenAtInRange(data, pos + 1, enc[1..]);
    }
  }

  /** The entries appended last are written at the position where the appending began. */
  lemma {:induction false} WrittenAtTail(data: seq<Entry>, start: nat, enc: seq<Entry>)
    requires start <= |data| && data[start..] == enc
    ensures WrittenAt(data, start, enc)
    decreases |enc|
  {
    if enc != [] {
      assert data[start] == enc[0];
      assert data[start + 1..] == enc[1..];
      WrittenAtTail(data, start + 1, enc[1..]);
    }
  }

  /** The single entry written at `pos` is the one found there. */
  lemma WrittenAtEntry(data: seq<Entry>, pos: nat, e: Entry)
    requires WrittenAt(data, pos, [e])
    ensures pos < |data| && data[pos] == e
  {
  }

  // ---- what the writers append ----

  /** `writeParcelable(color, 0)` for a `ColorStateList` that may be null. */
  function ColorParcelable(c: Option<ColorStateList>): seq<Entry> {
    match c
    case None => [CreatorEntry(None)]
    case Some(color) => [CreatorEntry(Some(ColorStateListCreator)), ColorEntry(color)]
  }

  /** `writeParcelable(token, 0)` for a caller token that may be null. */
  function TokenParcelable(t: Option<Token>): seq<Entry> {
    match t
    case None => [CreatorEntry(None)]
    case Some(token) => [CreatorEntry(Some(TokenCreator)), TokenEntry(token)]
  }

  // ---- what the readers return ----

  function ReadStringAt(data: seq<Entry>, pos: nat): Result<Read<Option<string>>, ParcelError> {
    if pos >= |data| then Err(EndOfData(pos))
    else if data[pos].StringEntry? then Ok(Read(data[pos].s, pos + 1))
    else Err(UnexpectedEntry(pos))
  }

  function ReadIntAt(data: seq<Entry>, pos: nat): Result<Read<Int32>, ParcelError> {
    if pos >= |data| then Err(EndOfData(pos))
    else if data[pos].IntEntry? then Ok(Read(data[pos].i, pos + 1))
    else Err(UnexpectedEntry(pos))
  }

  function ReadCreatorAt(data: seq<Entry>, pos: nat): Result<Read<Option<Creator>>, ParcelError> {
    if pos >= |data| then Err(EndOfData(pos))
    else if data[pos].CreatorEntry? then Ok(Read(data[pos].creator, pos + 1))
    else Err(UnexpectedEntry(pos))
  }

  /** `readParcelable` where a `ColorStateList` is expected. */
  function ReadColorParcelableAt(data: seq<Entry>, pos: nat): Result<Read<Option<ColorStateList>>, ParcelError> {
    var header :- ReadCreatorAt(data, pos);
    match header.value
    case None => Ok(Read(None, header.next))
    case Some(ColorStateListCreator) =>
      if header.next >= |data| then Err(EndOfData(header.next))
      else if data[header.next].ColorEntry? then Ok(Read(Some(data[header.next].color), header.next + 1))
      else Err(UnexpectedEntry(header.next))
    case Some(_) => Err(WrongCreator(pos))
  }

  /** `readParcelable` where a caller token is expected. */
  function ReadTokenParcelableAt(data: seq<Entry>, pos: nat): Result<Read<Option<Token>>, ParcelError> {
    var header :- ReadCreatorAt(data, pos);
    match header.value
    case None => Ok(Read(None, header.next))
    case Some(TokenCreator) =>
      if header.next >= |data| then Err(EndOfData(header.next))
      else if data[header.next].TokenEntry? then Ok(Read(Some(data[header.next].token), header.next + 1))
      else Err(UnexpectedEntry(header.next))
    case Some(_) => Err(WrongCreator(pos))
  }

  // ---- round trips of the primitive writes ----

  lemma StringRoundTrip(data: seq<Entry>, pos: nat, s: Option<string>)
    requires WrittenAt(data, pos, [StringEntry(s)])
    ensures ReadStringAt(data, pos) == Ok(Read(s, pos + 1))
  {
    WrittenAtEntry(data, pos, StringEntry(s));
  }

  lemma IntRoundTrip(data: seq<Entry>, pos: nat, i: Int32)
    requires WrittenAt(data, pos, [IntEntry(i)])
    ensures ReadIntAt(data, pos) == Ok(Read(i, pos + 1))
  {
    WrittenAtEntry(data, pos, IntEntry(i));
  }

  lemma CreatorRoundTrip(data: seq<Entry>, pos: nat, c: Option<Creator>)
    requires WrittenAt(data, pos, [CreatorEntry(c)])
    ensures ReadCreatorAt(data, pos) == Ok(Read(c, pos + 1))
  {
    WrittenAtEntry(data, pos, CreatorEntry(c));
  }

  /** A colour written with `writeParcelable` reads back with `readParcelable`, null included,
      and the cursor ends just after it. */
  lemma ColorParcelableRoundTrip(data: seq<Entry>, pos: nat, c: Option<ColorStateList>)
    requires WrittenAt(data, pos, ColorParcelable(c))
    ensures ReadColorParcelableAt(data, pos) == Ok(Read(c, pos + |ColorParcelable(c)|))
  {
    match c
    case None =>
      WrittenAtEntry(data, pos, CreatorEntry(None));
    case Some(color) =>
      WrittenAtSplit(data, pos, [CreatorEntry(Some(ColorStateListCreator))], [ColorEntry(color)]);
      WrittenAtEntry(data, pos, CreatorEntry(Some(ColorStateListCreator)));
      WrittenAtEntry(data, pos + 1, ColorEntry(color));
  }

  /** A token written with `writeParcelable` reads back with `readParcelable`, null included. */
  lemma TokenParcelableRoundTrip(data: seq<Entry>, pos: nat, t: Option<Token>)
    requires WrittenAt(data, pos, TokenParcelable(t))
    ensures ReadTokenParcelableAt(data, pos) == Ok(Read(t, pos + |TokenParcelable(t)|))
  {
    match t
    case None =>
      WrittenAtEntry(data, pos, CreatorEntry(None));
    case Some(token) =>
      WrittenAtSplit(data, pos, [CreatorEntry(Some(TokenCreator))], [TokenEntry(token)]);
      WrittenAtEntry(data, pos, CreatorEntry(Some(TokenCreator)));
      WrittenAtEntry(data, pos + 1, TokenEntry(token));
  }

  /** `r` and the new cursor `after` are what the read function `spec` promises; a failed read
      leaves the cursor where it was. */
  ghost predicate Consumed<T>(spec: Result<Read<T>, ParcelError>, r: Result<T, ParcelError>, before: nat, after: nat) {
    match spec
    case Ok(rd) => r == Ok(rd.value) && after == rd.next
    case Err(e) => r == Err(e) && after == before
  }

  /** A parcel: the entries written so far and the read cursor (`dataPosition`). Writes append
      at the end; reads start at the cursor and advance it. */
  class Parcel {
    var data: seq<Entry>
    var pos: nat

    /** `Parcel.obtain()`: an empty parcel. */
    constructor Obtain()
      ensures data == [] && pos == 0
    {
      data, pos := [], 0;
    }

    /** `dataSize()`. */
    function DataSize(): (n: nat)
      reads this
      ensures n == |data|
    {
      |data|
    }

    /** `setDataPosition(p)`: move the read cursor. */
    method SetDataPosition(p: nat)
      modifies this`pos
      ensures pos == p
    {
      pos := p;
    }

    method WriteString(s: Option<string>)
      modifies this`data
      ensures data == old(data) + [StringEntry(s)]
    {
      data := data + [StringEntry(s)];
    }

    method WriteInt(i: Int32)
      modifies this`data
      ensures data == old(data) + [IntEntry(i)]
    {
      data := data + [IntEntry(i)];
    }

    /** The header `writeParcelable` writes before it lets the object write itself. */
    method WriteCreator(c: Option<Creator>)
      modifies this`data
      ensures data == old(data) + [CreatorEntry(c)]
    {
      data := data + [CreatorEntry(c)];
    }

    /** `writeParcelable(color, 0)`. */
    method WriteColorParcelable(c: Option<ColorStateList>)
      modifies this`data
      ensures data == old(data) + ColorParcelable(c)
    {
      match c
      case None =>
        WriteCreator(None);
      case Some(color) =>
        WriteCreator(Some(ColorStateListCreator));
        data := data + [ColorEntry(color)];
    }

    /** `writeParcelable(token, 0)`. */
    method WriteTokenParcelable(t: Option<Token>)
      modifies this`data
      ensures data == old(data) + TokenParcelable(t)
    {
      match t
      case None =>
        WriteCreator(None);
      case Some(token) =>
        WriteCreator(Some(TokenCreator));
        data := data + [TokenEntry(token)];
    }

    method ReadString() returns (r: Result<Option<string>, ParcelError>)
      modifies this`pos
      ensures Consumed(ReadStringAt(data, old(pos)), r, old(pos), pos)
    {
      if pos >= |data| {
        r := Err(EndOfData(pos));
      } else if data[pos].StringEntry? {
        r := Ok(data[pos].s);
        pos := pos + 1;
      } else {
        r := Err(UnexpectedEntry(pos));
      }
    }

    method ReadInt() returns (r: Result<Int32, ParcelError>)
      modifies this`pos
      ensures Consumed(ReadIntAt(data, old(pos)), r, old(pos), pos)
    {
      if pos >= |data| {
        r := Err(EndOfData(pos));
      } else if data[pos].IntEntry? {
        r := Ok(data[pos].i);
        pos := pos + 1;
      } else {
        r := Err(UnexpectedEntry(pos));
      }
    }

    /** The header `readParcelable` reads to find the `CREATOR`. */
    method ReadCreator() returns (r: Result<Option<Creator>, ParcelError>)
      modifies this`pos
      ensures Consumed(ReadCreatorAt(data, old(pos)), r, old(pos), pos)
    {
      if pos >= |data| {
        r := Err(EndOfData(pos));
      } else if data[pos].CreatorEntry? {
        r := Ok(data[pos].creator);
        pos := pos + 1;
      } else {
        r := Err(UnexpectedEntry(pos));
      }
    }

    /** `readParcelable` for a `ColorStateList`. A failure may leave the cursor after the header. */
    method ReadColorParcelable() returns (r: Result<Option<ColorStateList>, ParcelError>)
      modifies this`pos
      ensures var spec := ReadColorParcelableAt(data, old(pos));
        spec.Ok? ==> r == Ok(spec.value.value) && pos == spec.value.next
      ensures var spec := ReadColorParcelableAt(data, old(pos));
        spec.Err? ==> r == Err(spec.error)
    {
      var start := pos;
      var header := ReadCreator();
      if header.Err? {
        return Err(header.error);
      }
      match header.value
      case None =>
        r := Ok(None);
      case Some(ColorStateListCreator) =>
        if pos >= |data| {
          r := Err(EndOfData(pos));
        } else if data[pos].ColorEntry? {
          r := Ok(Some(data[pos].color));
          pos := pos + 1;
        } else {
          r := Err(UnexpectedEntry(pos));
        }
      case Some(_) =>
        r := Err(WrongCreator(start));
    }

    /** `readParcelable` for a caller token. A failure may leave the cursor after the header. */
    method ReadTokenParcelable() returns (r: Result<Option<Token>, ParcelError>)
      modifies this`pos
      ensures var spec := ReadTokenParcelableAt(data, old(pos));
        spec.Ok? ==> r == Ok(spec.value.value) && pos == spec.value.next
      ensures var spec := ReadTokenParcelableAt(data, old(pos));
        spec.Err? ==> r == Err(spec.error)
    {
      var start := pos;
      var header := ReadCreator();
      if header.Err? {
        return Err(header.error);
      }
      match header.value
      case None =>
        r := Ok(None);
      case Some(TokenCreator) =>
        if pos >= |data| {
          r := Err(EndOfData(pos));
        } else if data[pos].TokenEntry? {
          r := Ok(Some(data[pos].token));
          pos := pos + 1;
        } else {
          r := Err(UnexpectedEntry(pos));
        }
      case Some(_) =>
        r := Err(WrongCreator(start));
    }
  }
}
