/** The host platform as the model sees it: opaque values, resource lookups and bundles. */
module Android {
  import opened JavaInts

  /** A resolved `ColorStateList`. The model never looks inside one; the handle only tells
      two of them apart. */
  datatype ColorStateList = ColorStateList(handle: int)

  /** A caller-supplied `Parcelable` token, opaque to the library. */
  datatype Token = Token(handle: int)

  /** Resource lookups of a `Context`: `getString` and `getResources().getColorStateList`.
      They are parameters of the model; nothing is assumed about them. */
  datatype Resources = Resources(getString: Int32 -> string, getColorStateList: Int32 -> ColorStateList)

  /** A `Context`: its resources, and whether the package holds the permission to draw
      system overlay windows (`SYSTEM_ALERT_WINDOW`). */
  datatype Context = Context(resources: Resources, holdsSystemAlertWindow: bool)

  /** A `Bundle`, restricted to the nested bundles the model stores in it. */
  class Bundle {
    var entries: map<string, Bundle?>

    constructor ()
      ensures entries == map[]
    {
      entries := map[];
    }

    /** `putBundle(key, value)`. */
    method PutBundle(key: string, value: Bundle?)
      modifies this
      ensures entries == old(entries)[key := value]
      ensures GetBundle(key) == value
      ensures forall k :: k != key ==> GetBundle(k) == old(GetBundle(k))
    {
      entries := entries[key := value];
    }

    /** `getBundle(key)`: null when there is no such entry. */
    function GetBundle(key: string): (b: Bundle?)
      reads this
      ensures key in entries ==> b == entries[key]
      ensures key !in entries ==> b == null
    {
      if key in entries then entries[key] else null
    }
  }

  // Resource ids. The build tool generates the real values; the model only needs them to be
  // positive and pairwise distinct, so these stand in for them.
  const R_COLOR_SB_SNACK_BKGND: Int32 := 0x7f05_0001
  const R_COLOR_SB_SNACK_ALERT_BKGND: Int32 := 0x7f05_0002
  const R_COLOR_SB_BUTTON_TEXT_COLOR_RED: Int32 := 0x7f05_0003
  const R_COLOR_SB_BUTTON_TEXT_COLOR_YELLOW: Int32 := 0x7f05_0004
  const R_COLOR_SB_BUTTON_TEXT_COLOR_GREEN: Int32 := 0x7f05_0005
  const R_COLOR_SB_DEFAULT_BUTTON_TEXT_COLOR: Int32 := 0x7f05_0006
  const R_STRING_SHORT_MESSAGE: Int32 := 0x7f0a_0001
  const R_STRING_LONG_MESSAGE: Int32 := 0x7f0a_0002
  const R_DRAWABLE_IC_DONE_WHITE_24DP: Int32 := 0x7f02_0001
  const R_DRAWABLE_IC_CLOSE_WHITE_24DP: Int32 := 0x7f02_0002
}
