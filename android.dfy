/**
 * The slice of the Android platform the Calligraphy core touches, as values and
 * abstract lookups. Nothing here is Calligraphy's own logic: resource, theme and
 * asset queries are function-valued fields whose answers the model does not fix.
 */
module Android {
  import opened JavaLib

  /** `View.NO_ID`. */
  const NO_ID: int := -1

  /** `Typeface.BOLD` and `Typeface.ITALIC` style bits. */
  const BOLD: bv32 := 1
  const ITALIC: bv32 := 2

  /** `Paint.ANTI_ALIAS_FLAG` and `Paint.SUBPIXEL_TEXT_FLAG`. */
  const ANTI_ALIAS_FLAG: bv32 := 0x01
  const SUBPIXEL_TEXT_FLAG: bv32 := 0x80

  /** `Spanned.SPAN_EXCLUSIVE_EXCLUSIVE`. */
  const SPAN_EXCLUSIVE_EXCLUSIVE: int := 0x21

  /** Public attribute ids of the platform (`android.R.attr`). */
  const ATTR_TEXT_APPEARANCE: int := 0x01010034
  const ATTR_TEXT_VIEW_STYLE: int := 0x01010084
  const ATTR_BUTTON_STYLE: int := 0x01010048
  const ATTR_BUTTON_STYLE_TOGGLE: int := 0x0101004b
  const ATTR_EDIT_TEXT_STYLE: int := 0x0101006e
  const ATTR_AUTO_COMPLETE_TEXT_VIEW_STYLE: int := 0x0101006b
  const ATTR_CHECKBOX_STYLE: int := 0x0101006c
  const ATTR_RADIO_BUTTON_STYLE: int := 0x0101007e
  const ATTR_ACTION_BAR_STYLE: int := 0x010102ce
  const ATTR_TITLE_TEXT_STYLE: int := 0x010102f8
  const ATTR_SUBTITLE_TEXT_STYLE: int := 0x010102f9

  /** A loaded font: an opaque handle and its style bits (`Typeface.getStyle()`). */
  datatype Typeface = Typeface(handle: nat, style: bv32) {
    predicate IsBold() { style & BOLD != 0 }
    predicate IsItalic() { style & ITALIC != 0 }
  }

  /** Where a span sits in a text and with which `Spanned` flags. */
  datatype SpanRange = SpanRange(start: int, end: int, flags: int)

  /**
   * A `CharSequence`: its characters and the spans set on it, keyed by the
   * span object (an opaque handle). Setting a span that is already there moves it.
   */
  datatype Text = Text(chars: string, spans: map<nat, SpanRange>)

  /** The outcome of reading index 0 of a `TypedArray`: no array, an exception, or a value. */
  datatype Styled<T> = NoArray | Raises | Got(value: T)

  /** An `AttributeSet`: the raw XML attributes of one view. */
  datatype AttributeSet = AttributeSet(
    /** `getAttributeResourceValue(null, name, -1)` */
    resourceValue: string -> int,
    /** `getAttributeValue(null, name)` */
    attributeValue: string -> JString)

  /** A `Context` with its resources, theme and assets, as lookups. */
  datatype Context = Context(
    /** `getResources().getResourceEntryName(id)`; `None` when it throws `NotFoundException` */
    entryNameOf: int -> Option<string>,
    /** `getString(resId)` */
    stringResource: int -> JString,
    /** `obtainStyledAttributes(attrs, {attr}).getString(0)` */
    styledString: (AttributeSet, int) -> Styled<JString>,
    /** `obtainStyledAttributes(attrs, {attr}).getResourceId(0, -1)` */
    styledResourceId: (AttributeSet, int) -> Styled<int>,
    /** `obtainStyledAttributes(resId, {attr}).getString(0)` */
    resourceStyledString: (int, int) -> Styled<JString>,
    /** `getTheme().resolveAttribute(attr, value, true)` followed by `value.resourceId` */
    themeResolve: int -> int,
    /** `getTheme().obtainStyledAttributes(resId, {attr}).getString(0)`; `None` when it throws */
    themeString: (int, int) -> Option<JString>,
    /** `getTheme().obtainStyledAttributes(resId, {attr}).getResourceId(0, -1)`; `None` when it throws */
    themeResourceId: (int, int) -> Option<int>,
    /** `Typeface.createFromAsset(getAssets(), path)`; `None` when it throws */
    assets: JString -> Option<Typeface>)

  /** What a text-bearing view shows: its typeface, paint flags and text. */
  datatype TextState = TextState(typeface: Option<Typeface>, paintFlags: bv32, text: Text)

  /** Every mutable field of a `View`, with the text-bearing ones grouped as `shown`. */
  datatype ViewState = ViewState(
    parent: View?,
    tagged: bool,
    shown: TextState,
    title: JString,
    subtitle: JString,
    children: seq<View>,
    layoutListeners: seq<object>)

  /**
   * A view as the core sees it. The constants are its identity and its type
   * (`instanceof TextView`, `Toolbar`, `HasTypeface`); the variables are the
   * fields the core reads or changes. Title, subtitle, children and layout
   * listeners are only meaningful on a toolbar.
   */
  class View {
    const id: int
    /** `getResources().getResourceEntryName(getId())` */
    const entryName: string
    /** `getClass()`, as a fully qualified class name */
    const className: string
    const isTextView: bool
    const isToolbar: bool
    const hasTypeface: bool

    var parent: View?
    /** `getTag(R.id.calligraphy_tag_id) == Boolean.TRUE` */
    var tagged: bool
    var typeface: Option<Typeface>
    var paintFlags: bv32
    var text: Text
    var title: JString
    var subtitle: JString
    var children: seq<View>
    /** the toolbar's `ViewTreeObserver` global layout listeners, in order */
    var layoutListeners: seq<object>

    constructor (id: int, entryName: string, className: string,
                 isTextView: bool, isToolbar: bool, hasTypeface: bool)
      ensures this.id == id && this.entryName == entryName && this.className == className
      ensures this.isTextView == isTextView && this.isToolbar == isToolbar
      ensures this.hasTypeface == hasTypeface
      ensures parent == null && !tagged && typeface == None && text == Text("", map[])
      ensures children == [] && layoutListeners == []
    {
      this.id := id;
      this.entryName := entryName;
      this.className := className;
      this.isTextView := isTextView;
      this.isToolbar := isToolbar;
      this.hasTypeface := hasTypeface;
      parent := null;
      tagged := false;
      typeface := None;
      paintFlags := 0;
      text := Text("", map[]);
      title := None;
      subtitle := None;
      children := [];
      layoutListeners := [];
    }

    /** The text-bearing part of the view's state. */
    function TextView(): TextState
      reads this
    {
      TextState(typeface, paintFlags, text)
    }

    /** The whole mutable state of the view. */
    function State(): ViewState
      reads this
    {
      ViewState(parent, tagged, TextView(), title, subtitle, children, layoutListeners)
    }
  }
}
