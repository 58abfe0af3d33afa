/**
 * `CalligraphyUtils`: applying a typeface to a text view (directly, from an
 * asset path, or with the configured default as fallback), the guarded lookups
 * of a font path in a view's attributes, style, text appearance and theme, and
 * the memoised probe for the appcompat-v7 `Toolbar`.
 */
module CalligraphyUtils {
  import opened JavaLib
  import opened Android
  import opened TypefaceUtils
  import opened CalligraphyConfig

  // ---------------------------------------------------------------------------
  // Spans and typefaces on a text view
  // ---------------------------------------------------------------------------

  /**
   * `applyTypefaceSpan(s, typeface)`: a null or empty text comes back as it is;
   * otherwise span `span` (the one `TypefaceUtils.getSpan(typeface)` answers)
   * covers the whole text, exclusive at both ends. Other spans stay as they were.
   */
  function ApplyTypefaceSpan(s: Option<Text>, span: nat): (r: Option<Text>)
    ensures s.None? || s.value.chars == "" ==> r == s
    ensures s.Some? && s.value.chars != "" ==>
              && r.Some? && r.value.chars == s.value.chars
              && span in r.value.spans
              && r.value.spans[span] == SpanRange(0, |s.value.chars|, SPAN_EXCLUSIVE_EXCLUSIVE)
              && (forall k :: k in s.value.spans && k != span ==> k in r.value.spans && r.value.spans[k] == s.value.spans[k])
              && r.value.spans.Keys == s.value.spans.Keys + {span}
  {
    if s.Some? && |s.value.chars| > 0 then
      Some(s.value.(spans := s.value.spans[span := SpanRange(0, |s.value.chars|, SPAN_EXCLUSIVE_EXCLUSIVE)]))
    else s
  }

  /** Spanning a text a second time with the same span changes nothing more. */
  lemma ApplyTypefaceSpanIdempotent(s: Option<Text>, span: nat)
    ensures ApplyTypefaceSpan(ApplyTypefaceSpan(s, span), span) == ApplyTypefaceSpan(s, span)
  {
    if s.Some? && s.value.chars != "" {
      var once := ApplyTypefaceSpan(s, span).value;
      assert once.spans[span := once.spans[span]] == once.spans;
    }
  }

  /** The paint flags after applying a font: the old ones with sub-pixel and anti-alias added, and no others. */
  function WithFontFlags(flags: bv32): (r: bv32)
    ensures r & !flags & !SUBPIXEL_TEXT_FLAG & !ANTI_ALIAS_FLAG == 0
    ensures r & SUBPIXEL_TEXT_FLAG == SUBPIXEL_TEXT_FLAG && r & ANTI_ALIAS_FLAG == ANTI_ALIAS_FLAG
    ensures r & flags == flags
  {
    flags | SUBPIXEL_TEXT_FLAG | ANTI_ALIAS_FLAG
  }

  /**
   * What a text view shows after `applyFontToTextView(view, t, deferred)`
   * succeeded; `spanOf` is `TypefaceUtils.getSpan`. Only a deferred application
   * touches the text.
   */
  function WithTypeface(ts: TextState, t: Typeface, deferred: bool, spanOf: Typeface -> nat): TextState {
    TextState(Some(t), WithFontFlags(ts.paintFlags),
              if deferred then ApplyTypefaceSpan(Some(ts.text), spanOf(t)).value else ts.text)
  }

  /** What a text view shows after offering it the typeface `t`, which may be null. */
  function Applied(ts: TextState, t: Option<Typeface>, deferred: bool, spanOf: Typeface -> nat): TextState {
    if t.Some? then WithTypeface(ts, t.value, deferred, spanOf) else ts
  }

  /**
   * Applying the same typeface twice shows what applying it once shows:
   * the flags are already set and the span is already in place.
   */
  lemma WithTypefaceIdempotent(ts: TextState, t: Typeface, deferred: bool, spanOf: Typeface -> nat)
    ensures WithTypeface(WithTypeface(ts, t, deferred, spanOf), t, deferred, spanOf) == WithTypeface(ts, t, deferred, spanOf)
  {
    var f := ts.paintFlags;
    assert WithFontFlags(WithFontFlags(f)) == WithFontFlags(f);
  }

  /**
   * `applyFontToTextView(textView, typeface, deferred)` and its two-argument
   * form (`deferred == false`): a null view or typeface gives false and no change.
   * The `TextWatcher` a deferred application adds is not part of this model.
   */
  method ApplyTypeface(textView: View?, typeface: Option<Typeface>, deferred: bool, spanOf: Typeface -> nat)
    returns (applied: bool)
    modifies textView
    ensures applied <==> textView != null && typeface.Some?
    ensures textView != null ==>
              textView.State() == old(textView.State()).(shown := Applied(old(textView.TextView()), typeface, deferred, spanOf))
  {
    if textView == null || typeface.None? {
      return false;
    }
    textView.paintFlags := textView.paintFlags | SUBPIXEL_TEXT_FLAG | ANTI_ALIAS_FLAG;
    textView.typeface := typeface;
    if deferred {
      textView.text := ApplyTypefaceSpan(Some(textView.text), spanOf(typeface.value)).value;
    }
    applied := true;
  }

  /**
   * `applyFontToTextView(context, textView, filePath, deferred)` and its
   * three-argument form: loads `filePath` through the font cache and applies it.
   * A null context or view gives false and loads nothing.
   */
  method ApplyFontPath(context: Option<Context>, textView: View?, filePath: JString, deferred: bool,
                       fonts: TypefaceCache, spanOf: Typeface -> nat)
    returns (applied: bool)
    modifies textView, fonts
    ensures context.None? || textView == null ==> !applied && fonts.cachedFonts == old(fonts.cachedFonts)
    ensures context.None? && textView != null ==> textView.State() == old(textView.State())
    ensures context.Some? && textView != null ==>
              var t := Lookup(old(fonts.cachedFonts), context.value.assets, filePath);
              && (applied <==> t.Some?)
              && fonts.cachedFonts == Remember(old(fonts.cachedFonts), context.value.assets, filePath)
              && textView.State() == old(textView.State()).(shown := Applied(old(textView.TextView()), t, deferred, spanOf))
  {
    if textView == null || context.None? {
      return false;
    }
    var typeface := fonts.Load(context.value.assets, filePath);
    applied := ApplyTypeface(textView, typeface, deferred, spanOf);
  }

  /** The configured default font path, when the configuration says a font is set. */
  function ConfigFont(config: Config): Option<JString> {
    if config.isFontSet then Some(config.fontPath) else None
  }

  /**
   * `applyFontToTextView(context, textView, config, deferred)` and its
   * three-argument form: applies the configured default, and does nothing when
   * any argument is null or the configuration has no font set.
   */
  method ApplyDefaultFont(context: Option<Context>, textView: View?, config: Option<Config>, deferred: bool,
                          fonts: TypefaceCache, spanOf: Typeface -> nat)
    modifies textView, fonts
    ensures context.None? || textView == null || config.None? || !config.value.isFontSet ==>
              fonts.cachedFonts == old(fonts.cachedFonts) && (textView != null ==> textView.State() == old(textView.State()))
    ensures context.Some? && textView != null && config.Some? && config.value.isFontSet ==>
              var t := Lookup(old(fonts.cachedFonts), context.value.assets, config.value.fontPath);
              && fonts.cachedFonts == Remember(old(fonts.cachedFonts), context.value.assets, config.value.fontPath)
              && textView.State() == old(textView.State()).(shown := Applied(old(textView.TextView()), t, deferred, spanOf))
  {
    if context.None? || textView == null || config.None? {
      return;
    }
    if !config.value.isFontSet {
      return;
    }
    var _ := ApplyFontPath(context, textView, config.value.fontPath, deferred, fonts, spanOf);
  }

  /**
   * The typeface `applyFontToTextView(context, view, config, font, deferred)`
   * ends up applying: the explicit font when it is non-empty and loads, else the
   * configured default when one is set, else none.
   */
  function FontOrDefault(cache: FontCache, assets: JString -> Option<Typeface>, config: Config, font: JString): (r: Option<Typeface>)
    ensures !IsEmpty(font) && Lookup(cache, assets, font).Some? ==> r == Lookup(cache, assets, font)
    ensures (IsEmpty(font) || Lookup(cache, assets, font).None?) ==>
              r == (if config.isFontSet then Lookup(cache, assets, config.fontPath) else None)
    ensures r.None? <==> (IsEmpty(font) || Lookup(cache, assets, font).None?)
                         && (!config.isFontSet || Lookup(cache, assets, config.fontPath).None?)
  {
    var explicit := if IsEmpty(font) then None else Lookup(cache, assets, font);
    if explicit.Some? then explicit
    else if ConfigFont(config).Some? then Lookup(cache, assets, config.fontPath)
    else None
  }

  /** Growing the cache with the same loader does not change which typeface `FontOrDefault` settles on. */
  lemma FontOrDefaultTransparent(before: FontCache, after: FontCache, assets: JString -> Option<Typeface>,
                                 config: Config, font: JString)
    requires Extends(before, after, assets)
    ensures FontOrDefault(after, assets, config, font) == FontOrDefault(before, assets, config, font)
  {
    CacheIsTransparent(before, after, assets, font);
    CacheIsTransparent(before, after, assets, config.fontPath);
  }

  /**
   * `applyFontToTextView(context, textView, config, textViewFont, deferred)` and
   * its four-argument form: the explicit font is tried first and the configured
   * default only when the explicit one is empty or fails to load. Any null
   * argument makes it do nothing.
   */
  method ApplyFontOrDefault(context: Option<Context>, textView: View?, config: Option<Config>, textViewFont: JString,
                            deferred: bool, fonts: TypefaceCache, spanOf: Typeface -> nat)
    modifies textView, fonts
    ensures context.None? || textView == null || config.None? ==>
              fonts.cachedFonts == old(fonts.cachedFonts) && (textView != null ==> textView.State() == old(textView.State()))
    ensures context.Some? && textView != null && config.Some? ==>
              var t := FontOrDefault(old(fonts.cachedFonts), context.value.assets, config.value, textViewFont);
              && textView.State() == old(textView.State()).(shown := Applied(old(textView.TextView()), t, deferred, spanOf))
              && Extends(old(fonts.cachedFonts), fonts.cachedFonts, context.value.assets)
              && (!IsEmpty(textViewFont) ==> textViewFont in fonts.cachedFonts)
  {
    if context.None? || textView == null || config.None? {
      return;
    }
    if !IsEmpty(textViewFont) {
      var applied := ApplyFontPath(context, textView, textViewFont, deferred, fonts, spanOf);
      if applied {
        return;
      }
    }
    ghost var mid := fonts.cachedFonts;
    ApplyDefaultFont(context, textView, config, deferred, fonts, spanOf);
    CacheIsTransparent(old(fonts.cachedFonts), mid, context.value.assets, config.value.fontPath);
  }

  // ---------------------------------------------------------------------------
  // Font-path lookups
  // ---------------------------------------------------------------------------

  /**
   * `pullFontPathFromView`: the attribute named after `attributeId`, read from
   * the view's XML. A value that references a string resource (id > 0) is
   * resolved through it; otherwise the raw attribute value is answered.
   */
  function PullFontPathFromView(context: Context, attrs: Option<AttributeSet>, attributeId: int): (r: JString)
    ensures attributeId == -1 || attrs.None? ==> r.None?
    ensures context.entryNameOf(attributeId).None? ==> r.None?
    ensures attributeId != -1 && attrs.Some? && context.entryNameOf(attributeId).Some? ==>
              var name := context.entryNameOf(attributeId).value;
              var resId := attrs.value.resourceValue(name);
              r == if resId > 0 then context.stringResource(resId) else attrs.value.attributeValue(name)
  {
    if attributeId == -1 || attrs.None? then None
    else match context.entryNameOf(attributeId)
      case None => None
      case Some(attributeName) =>
        var stringResourceId := attrs.value.resourceValue(attributeName);
        if stringResourceId > 0 then context.stringResource(stringResourceId)
        else attrs.value.attributeValue(attributeName)
  }

  /**
   * `pullFontPathFromStyle`: the attribute as the view's style resolves it.
   * An empty value, a missing array or a failing read all give null, so the
   * answer is never the empty string.
   */
  function PullFontPathFromStyle(context: Context, attrs: Option<AttributeSet>, attributeId: int): (r: JString)
    ensures attributeId == -1 || attrs.None? ==> r.None?
    ensures r != Some("")
    ensures r.Some? ==> attrs.Some? && context.styledString(attrs.value, attributeId) == Got(r)
    ensures attributeId != -1 && attrs.Some? ==>
              var read := context.styledString(attrs.value, attributeId);
              r == if read.Got? && !IsEmpty(read.value) then read.value else None
  {
    if attributeId == -1 || attrs.None? then None
    else match context.styledString(attrs.value, attributeId)
      case Got(fontFromAttribute) => if !IsEmpty(fontFromAttribute) then fontFromAttribute else None
      case _ => None
  }

  /**
   * `pullFontPathFromTextAppearance`: the attribute as set by the view's
   * `textAppearance`. A failing read of the appearance id gives null; a missing
   * array leaves the id at -1, which is still looked up.
   */
  function PullFontPathFromTextAppearance(context: Context, attrs: Option<AttributeSet>, attributeId: int): (r: JString)
    ensures attributeId == -1 || attrs.None? ==> r.None?
    ensures attrs.Some? && context.styledResourceId(attrs.value, ATTR_TEXT_APPEARANCE).Raises? ==> r.None?
    ensures r.Some? ==> exists appearance :: context.resourceStyledString(appearance, attributeId) == Got(r)
    ensures attributeId != -1 && attrs.Some? && context.styledResourceId(attrs.value, ATTR_TEXT_APPEARANCE).NoArray? ==>
              var read := context.resourceStyledString(-1, attributeId);
              r == if read.Got? then read.value else None
    ensures attributeId != -1 && attrs.Some? && context.styledResourceId(attrs.value, ATTR_TEXT_APPEARANCE).Got? ==>
              var id := context.styledResourceId(attrs.value, ATTR_TEXT_APPEARANCE).value;
              var read := context.resourceStyledString(id, attributeId);
              r == if read.Got? then read.value else None
  {
    if attributeId == -1 || attrs.None? then None
    else
      var textAppearanceId: Option<int> :=
        match context.styledResourceId(attrs.value, ATTR_TEXT_APPEARANCE)
        case NoArray => Some(-1)
        case Raises => None
        case Got(id) => Some(id);
      if textAppearanceId.None? then None
      else match context.resourceStyledString(textAppearanceId.value, attributeId)
        case Got(s) => s
        case _ => None
  }

  /**
   * `pullFontPathFromTheme(context, styleAttrId, attributeId)`: resolves the
   * theme attribute `styleAttrId` to a style and reads the attribute from it.
   */
  function PullFontPathFromTheme(context: Context, styleAttrId: int, attributeId: int): (r: JString)
    ensures styleAttrId == -1 || attributeId == -1 ==> r.None?
    ensures styleAttrId != -1 && attributeId != -1 ==>
              var read := context.themeString(context.themeResolve(styleAttrId), attributeId);
              r == if read.Some? then read.value else None
  {
    if styleAttrId == -1 || attributeId == -1 then None
    else match context.themeString(context.themeResolve(styleAttrId), attributeId)
      case None => None
      case Some(font) => font
  }

  /**
   * `pullFontPathFromTheme(context, styleAttrId, subStyleAttrId, attributeId)`:
   * as the three-argument form, but through the sub-style `subStyleAttrId` of the
   * resolved style; a sub-style id of -1 gives null.
   */
  function PullFontPathFromSubTheme(context: Context, styleAttrId: int, subStyleAttrId: int, attributeId: int): (r: JString)
    ensures styleAttrId == -1 || attributeId == -1 ==> r.None?
    ensures styleAttrId != -1 && context.themeResourceId(context.themeResolve(styleAttrId), subStyleAttrId) == Some(-1) ==> r.None?
    ensures context.themeResourceId(context.themeResolve(styleAttrId), subStyleAttrId).None? ==> r.None?
    ensures r.Some? ==>
              var sub := context.themeResourceId(context.themeResolve(styleAttrId), subStyleAttrId);
              sub.Some? && sub.value != -1 && context.resourceStyledString(sub.value, attributeId) == Got(r)
    ensures styleAttrId != -1 && attributeId != -1 ==>
              var sub := context.themeResourceId(context.themeResolve(styleAttrId), subStyleAttrId);
              sub.Some? && sub.value != -1 ==>
                var read := context.resourceStyledString(sub.value, attributeId);
                r == if read.Got? then read.value else None
  {
    if styleAttrId == -1 || attributeId == -1 then None
    else
      var resourceId := context.themeResolve(styleAttrId);
      match context.themeResourceId(resourceId, subStyleAttrId)
      case None => None
      case Some(subStyleResId) =>
        if subStyleResId == -1 then None
        else match context.resourceStyledString(subStyleResId, attributeId)
          case Got(s) => s
          case _ => None
  }

  // ---------------------------------------------------------------------------
  // The appcompat-v7 probe
  // ---------------------------------------------------------------------------

  /** What `canCheckForV7Toolbar` answers when the memo holds `cached` and the class probe would say `classPresent`. */
  function V7Answer(cached: Option<bool>, classPresent: bool): bool {
    if cached.Some? then cached.value else classPresent
  }

  /** `after` is what a probe may have left of the memo `before`: the same value, or the probe's answer newly stored. */
  predicate V7Settles(before: Option<bool>, after: Option<bool>, classPresent: bool) {
    after == before || (before.None? && after == Some(classPresent))
  }

  /** Settling the memo never changes the probe's answer. */
  lemma V7SettledAnswersSame(before: Option<bool>, after: Option<bool>, classPresent: bool)
    requires V7Settles(before, after, classPresent)
    ensures V7Answer(after, classPresent) == V7Answer(before, classPresent)
  {
  }

  /** The static `sToolbarCheck` memo. */
  class ToolbarCheck {
    var toolbarCheck: Option<bool>

    constructor ()
      ensures toolbarCheck == None
    {
      toolbarCheck := None;
    }

    /**
     * `canCheckForV7Toolbar()`: probes for `android.support.v7.widget.Toolbar`
     * on the first call only; `classPresent` is what `Class.forName` finds.
     */
    method CanCheckForV7Toolbar(classPresent: bool) returns (r: bool)
      modifies this
      ensures r == V7Answer(old(toolbarCheck), classPresent)
      ensures toolbarCheck == Some(r)
      ensures V7Settles(old(toolbarCheck), toolbarCheck, classPresent)
    {
      if toolbarCheck.None? {
        toolbarCheck := Some(classPresent);
      }
      r := toolbarCheck.value;
    }
  }
}
