/**
 * `CalligraphyConfig`: the immutable configuration, its chained `Builder` and
 * the lazily created process-wide default.
 */
module CalligraphyConfig {
  import opened JavaLib
  import opened Android

  /** `Build.VERSION_CODES.HONEYCOMB`. */
  const HONEYCOMB: int := 11

  /** `Builder.INVALID_ATTR_ID`. */
  const INVALID_ATTR_ID: int := -1

  /** The class-to-style lookup every configuration starts from (`DEFAULT_STYLES`). */
  const DEFAULT_STYLES: map<string, int> := map[
    "android.widget.TextView" := ATTR_TEXT_VIEW_STYLE,
    "android.widget.Button" := ATTR_BUTTON_STYLE,
    "android.widget.EditText" := ATTR_EDIT_TEXT_STYLE,
    "android.widget.AutoCompleteTextView" := ATTR_AUTO_COMPLETE_TEXT_VIEW_STYLE,
    "android.widget.MultiAutoCompleteTextView" := ATTR_AUTO_COMPLETE_TEXT_VIEW_STYLE,
    "android.widget.CheckBox" := ATTR_CHECKBOX_STYLE,
    "android.widget.RadioButton" := ATTR_RADIO_BUTTON_STYLE,
    "android.widget.ToggleButton" := ATTR_BUTTON_STYLE_TOGGLE
  ]

  /**
   * The library's own attribute ids (`R.attr.fontPath` and friends). The
   * resource compiler assigns them when the application is built.
   */
  datatype LibraryAttrs = LibraryAttrs(fontPath: int, boldFontPath: int, italicFontPath: int, boldItalicFontPath: int)

  /** The font variants an inherent path is expanded to (`CalligraphyUtils.FONT_*`). */
  datatype FontStyle = Regular | Bold | Italic | BoldItalic

  /** Every field of a `Builder`. */
  datatype BuilderState = BuilderState(
    reflection: bool,
    customViewCreation: bool,
    attrId: int,
    boldAttrId: int,
    italicAttrId: int,
    boldItalicAttrId: int,
    isFontSet: bool,
    fontAssetPath: JString,
    boldFontAssetPath: JString,
    italicFontAssetPath: JString,
    boldItalicFontAssetPath: JString,
    styleClassMap: map<string, int>)

  /** The field initialisers of `Builder`. */
  function InitialBuilder(r: LibraryAttrs, sdkInt: int): BuilderState {
    BuilderState(sdkInt >= HONEYCOMB, true,
                 r.fontPath, r.boldFontPath, r.italicFontPath, r.boldItalicFontPath,
                 false, None, None, None, None, map[])
  }

  /** A configuration. All fields are final; the class-style map is read-only. */
  datatype Config = Config(
    isFontSet: bool,
    fontPath: JString,
    boldFontPath: JString,
    italicFontPath: JString,
    boldItalicFontPath: JString,
    attrId: int,
    boldAttrId: int,
    italicAttrId: int,
    boldItalicAttrId: int,
    reflection: bool,
    customViewCreation: bool,
    classStyles: map<string, int>)

  /** A copy of `DEFAULT_STYLES` with the custom entries put over it. */
  function MergeClassStyles(custom: map<string, int>): (r: map<string, int>)
    ensures r.Keys == DEFAULT_STYLES.Keys + custom.Keys
    ensures forall k :: k in custom ==> r[k] == custom[k]
    ensures forall k :: k in DEFAULT_STYLES && k !in custom ==> r[k] == DEFAULT_STYLES[k]
  {
    DEFAULT_STYLES + custom
  }

  /** The protected constructor `CalligraphyConfig(Builder)`: copies every field and merges the styles. */
  function ConfigFrom(b: BuilderState): Config {
    Config(b.isFontSet, b.fontAssetPath, b.boldFontAssetPath, b.italicFontAssetPath,
           b.boldItalicFontAssetPath, b.attrId, b.boldAttrId, b.italicAttrId, b.boldItalicAttrId,
           b.reflection, b.customViewCreation, MergeClassStyles(b.styleClassMap))
  }

  /** The builder state after `setDefaultFontPath(p)`. */
  function WithDefaultFontPath(s: BuilderState, p: JString): BuilderState {
    s.(isFontSet := !IsEmpty(p), fontAssetPath := p)
  }

  /** `Typeface.createFromAsset` succeeds on `p` (a null context fails with an exception). */
  predicate Opens(context: Option<Context>, p: JString) {
    context.Some? && context.value.assets(p).Some?
  }

  /**
   * The builder state after `loadDefaultFontPath` of each of `paths` in turn:
   * each path that the asset loader can open goes through `setDefaultFontPath`.
   */
  function AfterVariantLoads(s: BuilderState, paths: seq<JString>, context: Option<Context>): BuilderState
    decreases |paths|
  {
    if paths == [] then s
    else AfterVariantLoads(if Opens(context, paths[0]) then WithDefaultFontPath(s, paths[0]) else s, paths[1..], context)
  }

  /** The last of `paths` that loads, if any. */
  function LastLoadable(paths: seq<JString>, context: Option<Context>): (r: Option<JString>)
    ensures r.Some? ==> r.value in paths && Opens(context, r.value)
    ensures r.None? <==> forall i :: 0 <= i < |paths| ==> !Opens(context, paths[i])
    ensures r.Some? ==>
              exists i :: 0 <= i < |paths| && paths[i] == r.value && Opens(context, paths[i])
                          && forall j :: i < j < |paths| ==> !Opens(context, paths[j])
    decreases |paths|
  {
    if paths == [] then None
    else if Opens(context, paths[|paths| - 1]) then Some(paths[|paths| - 1])
    else
      var init := paths[..|paths| - 1];
      assert forall j :: 0 <= j < |init| ==> init[j] == paths[j];
      LastLoadable(init, context)
  }

  /**
   * Loading the variants changes only the default font path and `isFontSet`:
   * the path ends up as the last variant that loads, and stays put when none does.
   */
  lemma {:induction false} VariantLoadsSetOnlyDefaultPath(s: BuilderState, paths: seq<JString>, context: Option<Context>)
    ensures var l := LastLoadable(paths, context);
            AfterVariantLoads(s, paths, context) == (if l.Some? then WithDefaultFontPath(s, l.value) else s)
    decreases |paths|
  {
    if paths != [] {
      var n := |paths|;
      var head := if Opens(context, paths[0]) then WithDefaultFontPath(s, paths[0]) else s;
      VariantLoadsSetOnlyDefaultPath(head, paths[1..], context);
      var tail := LastLoadable(paths[1..], context);
      if n == 1 {
        assert paths[1..] == [];
      } else {
        assert paths[1..][n - 2] == paths[n - 1];
        if !Opens(context, paths[n - 1]) {
          assert paths[1..][..n - 2] == paths[..n - 1][1..];
          LastLoadableOfTail(paths[..n - 1], context);
        }
      }
    }
  }

  /** Dropping the head of a list leaves its last loadable element unless that was the head. */
  lemma {:induction false} LastLoadableOfTail(paths: seq<JString>, context: Option<Context>)
    requires paths != []
    ensures var t := LastLoadable(paths[1..], context);
            LastLoadable(paths, context) == (if t.Some? then t else if Opens(context, paths[0]) then Some(paths[0]) else None)
    decreases |paths|
  {
    var n := |paths|;
    if n > 1 && !Opens(context, paths[n - 1]) {
      assert paths[1..][..n - 2] == paths[..n - 1][1..];
      LastLoadableOfTail(paths[..n - 1], context);
    }
  }

  /** `CalligraphyConfig.Builder`. Every setter returns the builder itself. */
  class Builder {
    var reflection: bool
    var customViewCreation: bool
    var attrId: int
    var boldAttrId: int
    var italicAttrId: int
    var boldItalicAttrId: int
    var isFontSet: bool
    var fontAssetPath: JString
    var boldFontAssetPath: JString
    var italicFontAssetPath: JString
    var boldItalicFontAssetPath: JString
    var styleClassMap: map<string, int>

    function State(): BuilderState
      reads this
    {
      BuilderState(reflection, customViewCreation, attrId, boldAttrId, italicAttrId, boldItalicAttrId,
                   isFontSet, fontAssetPath, boldFontAssetPath, italicFontAssetPath,
                   boldItalicFontAssetPath, styleClassMap)
    }

    constructor (r: LibraryAttrs, sdkInt: int)
      ensures State() == InitialBuilder(r, sdkInt)
    {
      reflection := sdkInt >= HONEYCOMB;
      customViewCreation := true;
      attrId := r.fontPath;
      boldAttrId := r.boldFontPath;
      italicAttrId := r.italicFontPath;
      boldItalicAttrId := r.boldItalicFontPath;
      isFontSet := false;
      fontAssetPath := None;
      boldFontAssetPath := None;
      italicFontAssetPath := None;
      boldItalicFontAssetPath := None;
      styleClassMap := map[];
    }

    method SetFontAttrId(fontAssetAttrId: int) returns (b: Builder)
      modifies this
      ensures b == this && State() == old(State()).(attrId := fontAssetAttrId)
    {
      attrId := fontAssetAttrId;
      b := this;
    }

    method SetBoldFontAttrId(fontAssetAttrId: int) returns (b: Builder)
      modifies this
      ensures b == this && State() == old(State()).(boldAttrId := fontAssetAttrId)
    {
      boldAttrId := fontAssetAttrId;
      b := this;
    }

    method SetItalicFontAttrId(fontAssetAttrId: int) returns (b: Builder)
      modifies this
      ensures b == this && State() == old(State()).(italicAttrId := fontAssetAttrId)
    {
      italicAttrId := fontAssetAttrId;
      b := this;
    }

    method SetBoldItalicFontAttrId(fontAssetAttrId: int) returns (b: Builder)
      modifies this
      ensures b == this && State() == old(State()).(boldItalicAttrId := fontAssetAttrId)
    {
      boldItalicAttrId := fontAssetAttrId;
      b := this;
    }

    /**
     * `setInherentDefaultFontPaths(context, path)`: a path that is not a
     * format pattern throws `IllegalStateException` (`threw`) and changes nothing;
     * otherwise the four variants are loaded in the order regular, bold, italic,
     * bold-italic. `isInherent` and `variantPath` are the helpers
     * `CalligraphyUtils.isInherentFontPath` and `pullFontPathFromInherentFontPath`,
     * which are not part of this model; a null context makes every load fail.
     */
    method SetInherentDefaultFontPaths(context: Option<Context>, defaultFontAssetPath: JString,
                                       isInherent: JString -> bool,
                                       variantPath: (JString, FontStyle) -> JString)
      returns (b: Builder, threw: bool)
      modifies this
      ensures b == this
      ensures threw <==> !isInherent(defaultFontAssetPath)
      ensures threw ==> State() == old(State())
      ensures !threw ==>
                State() == AfterVariantLoads(old(State()),
                                             [variantPath(defaultFontAssetPath, Regular),
                                              variantPath(defaultFontAssetPath, Bold),
                                              variantPath(defaultFontAssetPath, Italic),
                                              variantPath(defaultFontAssetPath, BoldItalic)],
                                             context)
    {
      b := this;
      if !isInherent(defaultFontAssetPath) {
        return this, true;
      }
      ghost var s0 := State();
      ghost var ps := [variantPath(defaultFontAssetPath, Regular), variantPath(defaultFontAssetPath, Bold),
                       variantPath(defaultFontAssetPath, Italic), variantPath(defaultFontAssetPath, BoldItalic)];
      LoadDefaultFontPath(context, defaultFontAssetPath, Regular, variantPath);
      assert AfterVariantLoads(s0, ps, context) == AfterVariantLoads(State(), ps[1..], context);
      ghost var s1 := State();
      LoadDefaultFontPath(context, defaultFontAssetPath, Bold, variantPath);
      assert AfterVariantLoads(s1, ps[1..], context) == AfterVariantLoads(State(), ps[2..], context);
      ghost var s2 := State();
      LoadDefaultFontPath(context, defaultFontAssetPath, Italic, variantPath);
      assert AfterVariantLoads(s2, ps[2..], context) == AfterVariantLoads(State(), ps[3..], context);
      ghost var s3 := State();
      LoadDefaultFontPath(context, defaultFontAssetPath, BoldItalic, variantPath);
      assert AfterVariantLoads(s3, ps[3..], context) == AfterVariantLoads(State(), ps[4..], context);
      threw := false;
    }

    /** `loadDefaultFontPath`: when the variant opens, it becomes the default font path; errors are logged and dropped. */
    method LoadDefaultFontPath(context: Option<Context>, defaultFontAssetPath: JString, fontStyle: FontStyle,
                               variantPath: (JString, FontStyle) -> JString)
      modifies this
      ensures var p := variantPath(defaultFontAssetPath, fontStyle);
              State() == if Opens(context, p) then WithDefaultFontPath(old(State()), p)
                         else old(State())
    {
      var p := variantPath(defaultFontAssetPath, fontStyle);
      if context.Some? && context.value.assets(p).Some? {
        var _ := SetDefaultFontPath(p);
      }
    }

    method SetDefaultFontPath(defaultFontAssetPath: JString) returns (b: Builder)
      modifies this
      ensures b == this
      ensures State() == old(State()).(isFontSet := !IsEmpty(defaultFontAssetPath), fontAssetPath := defaultFontAssetPath)
    {
      isFontSet := !IsEmpty(defaultFontAssetPath);
      fontAssetPath := defaultFontAssetPath;
      b := this;
    }

    method SetDefaultBoldFontPath(defaultFontAssetPath: JString) returns (b: Builder)
      modifies this
      ensures b == this
      ensures State() == old(State()).(isFontSet := !IsEmpty(defaultFontAssetPath), boldFontAssetPath := defaultFontAssetPath)
    {
      isFontSet := !IsEmpty(defaultFontAssetPath);
      boldFontAssetPath := defaultFontAssetPath;
      b := this;
    }

    method SetDefaultItalicFontPath(defaultFontAssetPath: JString) returns (b: Builder)
      modifies this
      ensures b == this
      ensures State() == old(State()).(isFontSet := !IsEmpty(defaultFontAssetPath), italicFontAssetPath := defaultFontAssetPath)
    {
      isFontSet := !IsEmpty(defaultFontAssetPath);
      italicFontAssetPath := defaultFontAssetPath;
      b := this;
    }

    method SetDefaultBoldItalicFontPath(defaultFontAssetPath: JString) returns (b: Builder)
      modifies this
      ensures b == this
      ensures State() == old(State()).(isFontSet := !IsEmpty(defaultFontAssetPath), boldItalicFontAssetPath := defaultFontAssetPath)
    {
      isFontSet := !IsEmpty(defaultFontAssetPath);
      boldItalicFontAssetPath := defaultFontAssetPath;
      b := this;
    }

    method DisablePrivateFactoryInjection() returns (b: Builder)
      modifies this
      ensures b == this && State() == old(State()).(reflection := false)
    {
      reflection := false;
      b := this;
    }

    method DisableCustomViewInflation() returns (b: Builder)
      modifies this
      ensures b == this && State() == old(State()).(customViewCreation := false)
    {
      customViewCreation := false;
      b := this;
    }

    /** `addCustomStyle(styleClass, attr)`: a null class or an attribute of 0 is ignored. */
    method AddCustomStyle(styleClass: Option<string>, styleResourceAttribute: int) returns (b: Builder)
      modifies this
      ensures b == this
      ensures styleClass.None? || styleResourceAttribute == 0 ==> State() == old(State())
      ensures styleClass.Some? && styleResourceAttribute != 0 ==>
                State() == old(State()).(styleClassMap := old(styleClassMap)[styleClass.value := styleResourceAttribute])
    {
      if styleClass.None? || styleResourceAttribute == 0 {
        return this;
      }
      styleClassMap := styleClassMap[styleClass.value := styleResourceAttribute];
      b := this;
    }

    /**
     * `build()`: recomputes `isFontSet` from the regular default path alone,
     * then copies the builder into a configuration.
     */
    method Build() returns (c: Config)
      modifies this
      ensures State() == old(State()).(isFontSet := !IsEmpty(old(fontAssetPath)))
      ensures c == ConfigFrom(State())
      ensures c.isFontSet <==> !IsEmpty(old(fontAssetPath))
      ensures c.classStyles == MergeClassStyles(old(styleClassMap))
    {
      isFontSet := !IsEmpty(fontAssetPath);
      c := ConfigFrom(State());
    }
  }

  /** The configuration `get()` creates when none was set: `new CalligraphyConfig(new Builder())`. */
  function DefaultConfig(r: LibraryAttrs, sdkInt: int): Config {
    ConfigFrom(InitialBuilder(r, sdkInt))
  }

  /** The configuration `get()` answers when the default instance is `instance`. */
  function CurrentConfig(instance: Option<Config>, r: LibraryAttrs, sdkInt: int): Config {
    if instance.Some? then instance.value else DefaultConfig(r, sdkInt)
  }

  /**
   * The default made by `get()` has no font set, no font paths, custom view
   * creation on, the library's attribute ids and exactly the default class styles.
   */
  lemma DefaultConfigIsBlank(r: LibraryAttrs, sdkInt: int)
    ensures var c := DefaultConfig(r, sdkInt);
            && !c.isFontSet && c.fontPath.None? && c.boldFontPath.None?
            && c.italicFontPath.None? && c.boldItalicFontPath.None?
            && c.customViewCreation && c.reflection == (sdkInt >= HONEYCOMB)
            && c.attrId == r.fontPath && c.classStyles == DEFAULT_STYLES
  {
    assert MergeClassStyles(map[]) == DEFAULT_STYLES;
  }

  /**
   * The holder of the static `sInstance`. The library attribute ids and the
   * SDK level are what a default `Builder` needs.
   */
  class ConfigHolder {
    var instance: Option<Config>
    const attrs: LibraryAttrs
    const sdkInt: int

    constructor (attrs: LibraryAttrs, sdkInt: int)
      ensures instance == None && this.attrs == attrs && this.sdkInt == sdkInt
    {
      instance := None;
      this.attrs := attrs;
      this.sdkInt := sdkInt;
    }

    function Current(): Config
      reads this
    {
      CurrentConfig(instance, attrs, sdkInt)
    }

    /** `initDefault(config)`. */
    method InitDefault(calligraphyConfig: Option<Config>)
      modifies this
      ensures instance == calligraphyConfig
    {
      instance := calligraphyConfig;
    }

    /** `get()`: the instance set by `initDefault`, else a default made once and kept. */
    method Get() returns (c: Config)
      modifies this
      ensures c == old(Current())
      ensures old(instance).Some? ==> c == old(instance).value && instance == old(instance)
      ensures old(instance).None? ==> c == DefaultConfig(attrs, sdkInt)
      ensures instance == Some(c)
    {
      if instance.None? {
        var b := new Builder(attrs, sdkInt);
        instance := Some(ConfigFrom(b.State()));
      }
      c := instance.value;
    }
  }

  /**
   * `after` is what `get()` may have left of `before`: the same instance, or the
   * default newly made. Either way `get()` answers the same.
   */
  predicate Settles(before: Option<Config>, after: Option<Config>, r: LibraryAttrs, sdkInt: int) {
    after == before || (before.None? && after == Some(DefaultConfig(r, sdkInt)))
  }

  /** Once `get()` has answered, it keeps answering the same configuration. */
  lemma SettledAnswersSame(before: Option<Config>, after: Option<Config>, r: LibraryAttrs, sdkInt: int)
    requires Settles(before, after, r, sdkInt)
    ensures CurrentConfig(after, r, sdkInt) == CurrentConfig(before, r, sdkInt)
  {
  }
}
