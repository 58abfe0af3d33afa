/**
 * `CalligraphyFactory`: the post-processor every inflated view goes through.
 * It finds a font path for a text view (XML attribute, style, text appearance,
 * theme), rewrites it for the view's current style when the plain file is
 * missing, applies it, hooks the children of an appcompat `Toolbar`, and hands a
 * typeface to custom views that accept one. A view is processed only once.
 */
module CalligraphyFactory {
  import opened JavaLib
  import opened Android
  import opened TypefaceUtils
  import opened CalligraphyConfig
  import opened CalligraphyUtils

  const ACTION_BAR_TITLE: string := "action_bar_title"
  const ACTION_BAR_SUBTITLE: string := "action_bar_subtitle"

  /** `ToolbarLayoutListener.BLANK`, the subtitle a toolbar shows while its children are processed. */
  const BLANK: string := " "

  /**
   * Helpers the core calls whose code is not part of this model, as the
   * values they answer.
   */
  datatype Helpers = Helpers(
    /** `TypefaceUtils.isLoaded(typeface)` */
    isLoaded: Option<Typeface> -> bool,
    /** `TypefaceUtils.checkFontExists(context, path)` */
    checkFontExists: (Context, string) -> bool,
    /** the identity of the span `TypefaceUtils.getSpan(typeface)` answers */
    spanOf: Typeface -> nat,
    /** `config.isCustomViewTypefaceSupport()` */
    customViewTypefaceSupport: Config -> bool,
    /** `config.isCustomViewHasTypeface(view)`, by the view's class name */
    customViewHasTypeface: (Config, string) -> bool,
    /** `ReflectionUtils.getMethod(viewClass, "setTypeface") != null` */
    hasSetTypeface: string -> bool)

  /**
   * The process-wide state the factory works against: the font cache, the
   * default-configuration holder, the v7 probe memo, the helpers, and whether
   * the v7 `Toolbar` class is on the class path.
   */
  datatype Runtime = Runtime(
    fonts: TypefaceCache,
    configs: ConfigHolder,
    toolbarCheck: ToolbarCheck,
    helpers: Helpers,
    v7OnClasspath: bool)

  // ---------------------------------------------------------------------------
  // Recognising action-bar titles
  // ---------------------------------------------------------------------------

  /** `matchesResourceIdName`: a view without an id matches nothing; names compare ignoring case. */
  function MatchesResourceIdName(view: View, matches: string): (r: bool)
    ensures r <==> view.id != NO_ID && Folded(view.entryName) == Folded(matches)
  {
    if view.id == NO_ID then false
    else
      EqualsIgnoreCaseIsFoldedEquality(view.entryName, matches);
      EqualsIgnoreCase(view.entryName, matches)
  }

  /** `parentIsToolbarV7`, given what the v7 probe answers. */
  predicate ParentIsToolbarV7(view: View, v7: bool)
    reads view
  {
    v7 && view.parent != null && view.parent.isToolbar
  }

  /** `isActionBarTitle`: the id is named `action_bar_title`, or the view shows its toolbar parent's title. */
  predicate IsActionBarTitle(view: View, v7: bool)
    reads view, view.parent
  {
    MatchesResourceIdName(view, ACTION_BAR_TITLE)
    || (ParentIsToolbarV7(view, v7) && view.parent.title == Some(view.text.chars))
  }

  /** `isActionBarSubTitle`: as `IsActionBarTitle`, for the subtitle. */
  predicate IsActionBarSubTitle(view: View, v7: bool)
    reads view, view.parent
  {
    MatchesResourceIdName(view, ACTION_BAR_SUBTITLE)
    || (ParentIsToolbarV7(view, v7) && view.parent.subtitle == Some(view.text.chars))
  }

  /** Whether the font is applied deferred: only to the native action bar's title and subtitle. */
  predicate Deferred(view: View) {
    MatchesResourceIdName(view, ACTION_BAR_TITLE) || MatchesResourceIdName(view, ACTION_BAR_SUBTITLE)
  }

  /**
   * `getStyleForTextView`: the theme style (and sub-style) to look the font up
   * in. Title wins over subtitle; any other view has no sub-style and takes the
   * style registered for its exact class, else `textAppearance`.
   */
  function GetStyleForTextView(view: View, v7: bool, classStyles: map<string, int>): (r: seq<int>)
    reads view, view.parent
    ensures |r| == 2
    ensures IsActionBarTitle(view, v7) ==> r == [ATTR_ACTION_BAR_STYLE, ATTR_TITLE_TEXT_STYLE]
    ensures !IsActionBarTitle(view, v7) && IsActionBarSubTitle(view, v7) ==>
              r == [ATTR_ACTION_BAR_STYLE, ATTR_SUBTITLE_TEXT_STYLE]
    ensures !IsActionBarTitle(view, v7) && !IsActionBarSubTitle(view, v7) ==>
              r[1] == -1 && r[0] == (if view.className in classStyles then classStyles[view.className] else ATTR_TEXT_APPEARANCE)
  {
    var styleIds :=
      if IsActionBarTitle(view, v7) then [ATTR_ACTION_BAR_STYLE, ATTR_TITLE_TEXT_STYLE]
      else if IsActionBarSubTitle(view, v7) then [ATTR_ACTION_BAR_STYLE, ATTR_SUBTITLE_TEXT_STYLE]
      else [-1, -1];
    if styleIds[0] == -1 then
      styleIds[0 := if view.className in classStyles then classStyles[view.className] else ATTR_TEXT_APPEARANCE]
    else styleIds
  }

  /** A sub-style is chosen exactly for action-bar titles and subtitles. */
  lemma SubStyleOnlyForActionBar(view: View, v7: bool, classStyles: map<string, int>)
    ensures GetStyleForTextView(view, v7, classStyles)[1] != -1
            <==> IsActionBarTitle(view, v7) || IsActionBarSubTitle(view, v7)
  {
  }

  // ---------------------------------------------------------------------------
  // The font-path fallback chain
  // ---------------------------------------------------------------------------

  /**
   * An ordered fallback: the first non-empty entry, or the last entry when all
   * are empty (which is then null or the empty string).
   */
  function Fallback(chain: seq<JString>): (r: JString)
    requires |chain| > 0
    ensures IsEmpty(r) <==> forall i :: 0 <= i < |chain| ==> IsEmpty(chain[i])
    ensures (forall i :: 0 <= i < |chain| ==> IsEmpty(chain[i])) ==> r == chain[|chain| - 1]
    ensures forall i :: 0 <= i < |chain| && !IsEmpty(chain[i]) && (forall j :: 0 <= j < i ==> IsEmpty(chain[j])) ==> r == chain[i]
    decreases |chain|
  {
    if |chain| == 1 || !IsEmpty(chain[0]) then chain[0]
    else
      var r := Fallback(chain[1..]);
      assert forall i :: 1 <= i < |chain| ==> chain[i] == chain[1..][i - 1];
      r
  }

  /** `resolveFontPath`: the XML attribute, else the style, else the text appearance. */
  function ResolveFontPath(context: Context, attrs: Option<AttributeSet>, attributeId: int): (r: JString)
    ensures r == Fallback([PullFontPathFromView(context, attrs, attributeId),
                           PullFontPathFromStyle(context, attrs, attributeId),
                           PullFontPathFromTextAppearance(context, attrs, attributeId)])
  {
    var textViewFont := PullFontPathFromView(context, attrs, attributeId);
    var textViewFont := if IsEmpty(textViewFont) then PullFontPathFromStyle(context, attrs, attributeId) else textViewFont;
    if IsEmpty(textViewFont) then PullFontPathFromTextAppearance(context, attrs, attributeId) else textViewFont
  }

  /** Without attributes there is nothing to resolve. */
  lemma ResolveWithoutAttrs(context: Context, attributeId: int)
    ensures ResolveFontPath(context, None, attributeId) == None
  {
  }

  /** The theme lookup for the styles `getStyleForTextView` chose. */
  function ThemeFontPath(context: Context, styleForTextView: seq<int>, attributeId: int): JString
    requires |styleForTextView| == 2
  {
    if styleForTextView[1] != -1 then
      PullFontPathFromSubTheme(context, styleForTextView[0], styleForTextView[1], attributeId)
    else PullFontPathFromTheme(context, styleForTextView[0], attributeId)
  }

  /** The font path of a text view before any rewrite: resolved from the view, else from the theme. */
  function TextViewFontPath(context: Context, attrs: Option<AttributeSet>, attributeId: int,
                            view: View, v7: bool, classStyles: map<string, int>): JString
    reads view, view.parent
  {
    var textViewFont := ResolveFontPath(context, attrs, attributeId);
    if IsEmpty(textViewFont) then ThemeFontPath(context, GetStyleForTextView(view, v7, classStyles), attributeId)
    else textViewFont
  }

  /**
   * The theme comes last: a text view's font path is the four-step fallback
   * XML attribute, style, text appearance, theme.
   */
  lemma {:induction false} TextViewFontPathIsFallback(context: Context, attrs: Option<AttributeSet>, attributeId: int,
                                                      view: View, v7: bool, classStyles: map<string, int>)
    ensures TextViewFontPath(context, attrs, attributeId, view, v7, classStyles)
            == Fallback([PullFontPathFromView(context, attrs, attributeId),
                         PullFontPathFromStyle(context, attrs, attributeId),
                         PullFontPathFromTextAppearance(context, attrs, attributeId),
                         ThemeFontPath(context, GetStyleForTextView(view, v7, classStyles), attributeId)])
  {
    var a := PullFontPathFromView(context, attrs, attributeId);
    var b := PullFontPathFromStyle(context, attrs, attributeId);
    var c := PullFontPathFromTextAppearance(context, attrs, attributeId);
    var d := ThemeFontPath(context, GetStyleForTextView(view, v7, classStyles), attributeId);
    var four := [a, b, c, d];
    assert four[1..] == [b, c, d];
    assert four[1..][1..] == [c, d];
    assert four[1..][1..][1..] == [d];
    var three := [a, b, c];
    assert three[1..] == [b, c];
    assert three[1..][1..] == [c];
    if !IsEmpty(a) {
      assert Fallback(four) == a == Fallback(three);
    } else if !IsEmpty(b) {
      assert Fallback(four) == Fallback([b, c, d]) == b;
      assert Fallback(three) == Fallback([b, c]) == b;
    } else if !IsEmpty(c) {
      assert Fallback(four) == Fallback([b, c, d]) == Fallback([c, d]) == c;
      assert Fallback(three) == Fallback([b, c]) == Fallback([c]) == c;
    } else {
      assert Fallback(four) == Fallback([b, c, d]) == Fallback([c, d]) == Fallback([d]) == d;
      assert IsEmpty(Fallback(three));
    }
  }

  // ---------------------------------------------------------------------------
  // Rewriting a missing font file for the current style
  // ---------------------------------------------------------------------------

  /** The file-name postfix for the style the view's current typeface has. */
  function FontPostfix(typeface: Typeface): (r: string)
    ensures r in {"Regular", "Bold", "RegularItalic", "BoldItalic"}
    ensures typeface.IsBold() <==> r == "Bold" || r == "BoldItalic"
    ensures typeface.IsItalic() <==> r == "RegularItalic" || r == "BoldItalic"
  {
    var fontPostFix := if typeface.IsBold() then "Bold" else "Regular";
    assert "Regular" + "Italic" == "RegularItalic" && "Bold" + "Italic" == "BoldItalic";
    if typeface.IsItalic() then fontPostFix + "Italic" else fontPostFix
  }

  /** `path` with `"-" + postfix` inserted just before its last `.`. */
  function InsertPostfix(path: string, postfix: string): (r: string)
    requires '.' in path
    ensures |r| == |path| + 1 + |postfix|
  {
    var ix := LastIndexOf(path, '.');
    path[..ix] + "-" + postfix + path[ix..]
  }

  /**
   * The insertion keeps everything before the last `.`, puts `-postfix` after
   * it, and keeps the extension: the last `.` of the result starts the same
   * extension as before.
   */
  lemma {:induction false} InsertPostfixKeepsExtension(path: string, postfix: string)
    requires '.' in path && '.' !in postfix
    ensures var r := InsertPostfix(path, postfix);
            var ix := LastIndexOf(path, '.');
            && r[..ix] == path[..ix]
            && r[ix..ix + 1 + |postfix|] == "-" + postfix
            && LastIndexOf(r, '.') == ix + 1 + |postfix|
            && r[LastIndexOf(r, '.')..] == path[ix..]
  {
    var ix := LastIndexOf(path, '.');
    var a := path[..ix] + "-" + postfix;
    var b := path[ix..];
    assert InsertPostfix(path, postfix) == a + b;
    assert '.' !in a[ix..] by {
      assert a[ix..] == "-" + postfix;
    }
    assert b[0] == '.';
    LastIndexOfAppend(a, b, '.');
    assert LastIndexOf(b, '.') == 0;
  }

  /** Cutting the inserted `-postfix` out again gives the original path back. */
  lemma InsertPostfixRemovable(path: string, postfix: string)
    requires '.' in path
    ensures var r := InsertPostfix(path, postfix);
            var ix := LastIndexOf(path, '.');
            r[..ix] + r[ix + 1 + |postfix|..] == path
  {
    var ix := LastIndexOf(path, '.');
    var a := path[..ix] + "-" + postfix;
    var r := InsertPostfix(path, postfix);
    assert r == a + path[ix..];
    assert |a| == ix + 1 + |postfix|;
    assert r[|a|..] == path[ix..];
    assert r[..ix] == a[..ix] == path[..ix];
    assert path == path[..ix] + path[ix..];
  }

  /** The outcome of the rewrite: the path to use, or the `StringIndexOutOfBoundsException` of a path without `.`. */
  datatype Rewrite = Rewritten(path: JString) | IndexOutOfBounds

  /** The condition under which the path is rewritten. */
  predicate WantsRewrite(font: JString, fontExists: bool, typeface: Option<Typeface>) {
    font.Some? && !Blank(font.value) && !fontExists && typeface.Some?
  }

  /**
   * The rewrite in `onViewCreatedInternal`: a non-blank path whose file does
   * not exist gets the postfix of the view's current style, when the view has a
   * typeface; any other path is left as it is.
   */
  function RewriteFontPath(font: JString, fontExists: bool, typeface: Option<Typeface>): (r: Rewrite)
    ensures r.IndexOutOfBounds? <==> WantsRewrite(font, fontExists, typeface) && '.' !in font.value
    ensures WantsRewrite(font, fontExists, typeface) && '.' in font.value ==>
              r == Rewritten(Some(InsertPostfix(font.value, FontPostfix(typeface.value))))
    ensures !WantsRewrite(font, fontExists, typeface) ==> r == Rewritten(font)
  {
    if font.Some? && Trim(font.value) != "" && !fontExists && typeface.Some? then
      var ix := LastIndexOf(font.value, '.');
      if ix < 0 then IndexOutOfBounds
      else Rewritten(Some(InsertPostfix(font.value, FontPostfix(typeface.value))))
    else Rewritten(font)
  }

  /** A rewritten path keeps the original's extension and has the style postfix just before it. */
  lemma RewriteKeepsExtension(font: JString, fontExists: bool, typeface: Option<Typeface>)
    requires WantsRewrite(font, fontExists, typeface) && '.' in font.value
    ensures var r := RewriteFontPath(font, fontExists, typeface);
            var ix := LastIndexOf(font.value, '.');
            var postfix := FontPostfix(typeface.value);
            && r.Rewritten? && r.path.Some?
            && r.path.value[..ix] == font.value[..ix]
            && r.path.value[ix..ix + 1 + |postfix|] == "-" + postfix
            && r.path.value[LastIndexOf(r.path.value, '.')..] == font.value[ix..]
  {
    var postfix := FontPostfix(typeface.value);
    assert '.' !in postfix;
    InsertPostfixKeepsExtension(font.value, postfix);
  }

  // ---------------------------------------------------------------------------
  // Typefaces for custom views
  // ---------------------------------------------------------------------------

  /**
   * `getDefaultTypeface(context, fontPath)`: the path, else the configured
   * default path, loaded through the cache; null when both are empty.
   */
  function DefaultTypefaceFor(cache: FontCache, assets: JString -> Option<Typeface>, configFontPath: JString, fontPath: JString)
    : (r: Option<Typeface>)
    ensures !IsEmpty(fontPath) ==> r == Lookup(cache, assets, fontPath)
    ensures IsEmpty(fontPath) && !IsEmpty(configFontPath) ==> r == Lookup(cache, assets, configFontPath)
    ensures IsEmpty(fontPath) && IsEmpty(configFontPath) ==> r.None?
  {
    var path := if IsEmpty(fontPath) then configFontPath else fontPath;
    if !IsEmpty(path) then Lookup(cache, assets, path) else None
  }

  /** Growing the cache with the same loader does not change what `getDefaultTypeface` answers. */
  lemma DefaultTypefaceTransparent(before: FontCache, after: FontCache, assets: JString -> Option<Typeface>,
                                   configFontPath: JString, fontPath: JString)
    requires Extends(before, after, assets)
    ensures DefaultTypefaceFor(after, assets, configFontPath, fontPath) == DefaultTypefaceFor(before, assets, configFontPath, fontPath)
  {
    CacheIsTransparent(before, after, assets, if IsEmpty(fontPath) then configFontPath else fontPath);
  }

  /**
   * The typeface handed to a custom view's `setTypeface`: for a `HasTypeface`
   * view, the default typeface of its resolved path; otherwise the same through
   * reflection, when custom-view support is on, the class is registered and has
   * a `setTypeface` method. `None` when nothing is handed over.
   */
  function CustomTypeface(attributeId: int, view: View, context: Context, attrs: Option<AttributeSet>,
                          cache: FontCache, config: Config, h: Helpers): Option<Typeface>
  {
    var typeface := DefaultTypefaceFor(cache, context.assets, config.fontPath, ResolveFontPath(context, attrs, attributeId));
    if view.hasTypeface then typeface
    else if h.customViewTypefaceSupport(config) && h.customViewHasTypeface(config, view.className)
            && h.hasSetTypeface(view.className) then typeface
    else None
  }

  // ---------------------------------------------------------------------------
  // The whole post-processing of one view
  // ---------------------------------------------------------------------------

  /** How the text-view step ends: the early return for a loaded typeface, the rewrite's exception, or what the view shows. */
  datatype TextOutcome = Loaded | Threw | Shown(state: TextState)

  /** The text-view step of `onViewCreatedInternal`, on the state before it. */
  function TextStep(attributeId: int, view: View, context: Context, attrs: Option<AttributeSet>,
                    cache: FontCache, config: Config, v7: bool, h: Helpers): (r: TextOutcome)
    reads view, view.parent
    ensures r.Loaded? <==> h.isLoaded(view.typeface)
  {
    if h.isLoaded(view.typeface) then Loaded
    else RewriteStep(view, context, TextViewFontPath(context, attrs, attributeId, view, v7, config.classStyles), cache, config, h)
  }

  /** The rest of the text-view step once the font path is known: rewrite it, then apply it with the default as fallback. */
  function RewriteStep(view: View, context: Context, font: JString, cache: FontCache, config: Config, h: Helpers): TextOutcome
    reads view
  {
    match RewriteFontPath(font, font.Some? && h.checkFontExists(context, font.value), view.typeface)
    case IndexOutOfBounds => Threw
    case Rewritten(path) =>
      Shown(Applied(view.TextView(), FontOrDefault(cache, context.assets, config, path), Deferred(view), h.spanOf))
  }

  /** How `onViewCreatedInternal` ends for a view. */
  datatype Outcome = Untouched | Failed | Processed(shown: TextState)

  /**
   * `onViewCreatedInternal`, on the state before it: a text view that already
   * has a loaded typeface is left alone, the rewrite may throw, and otherwise
   * the view shows the text step's result with the custom-view typeface on top.
   */
  function Processing(attributeId: int, view: View, context: Context, attrs: Option<AttributeSet>,
                      cache: FontCache, config: Config, v7: bool, h: Helpers): Outcome
    reads view, view.parent
  {
    var text := if view.isTextView then TextStep(attributeId, view, context, attrs, cache, config, v7, h)
                else Shown(view.TextView());
    match text
    case Loaded => Untouched
    case Threw => Failed
    case Shown(ts) =>
      var custom := CustomTypeface(attributeId, view, context, attrs, cache, config, h);
      Processed(if custom.Some? then ts.(typeface := custom) else ts)
  }

  /**
   * How `onViewCreated` leaves a view that was in state `before`, when
   * processing on that state comes out as `o`; `hooked` says the view is a
   * toolbar and appcompat-v7 is there. A tagged view is left as it was; a
   * failure leaves it as it was and throws; otherwise it shows the outcome,
   * a hooked toolbar gains one layout listener and a blank subtitle, and the
   * view is tagged.
   */
  predicate EndedAs(before: ViewState, o: Outcome, hooked: bool, after: ViewState, threw: bool) {
    if before.tagged then !threw && after == before
    else
      && (threw <==> o.Failed?)
      && (o.Failed? ==> after == before)
      && (o.Untouched? ==> after == before.(tagged := true))
      && (o.Processed? ==>
            && after.shown == o.shown && after.tagged
            && after.parent == before.parent && after.title == before.title && after.children == before.children
            && if hooked then
                 && after.subtitle == Some(BLANK)
                 && |after.layoutListeners| == |before.layoutListeners| + 1
                 && after.layoutListeners[..|before.layoutListeners|] == before.layoutListeners
               else after.subtitle == before.subtitle && after.layoutListeners == before.layoutListeners)
  }

  /**
   * How a run of `children` through `onViewCreated`, in order, leaves them,
   * `outcomes` being their `Processing` outcomes on the state before and `v7`
   * the v7 answer then: without an exception every child ends as its outcome
   * says and is tagged; with one, the children before the failing one ended so,
   * the failing one is as it was, and the later ones were not touched.
   */
  twostate predicate ChildrenEnded(children: seq<View>, outcomes: seq<Outcome>, v7: bool, threw: bool)
    reads set c | c in children
  {
    && |outcomes| == |children|
    && if threw then
         exists i :: 0 <= i < |children|
           && (forall j :: 0 <= j < i ==>
                 EndedAs(old(children[j].State()), outcomes[j], children[j].isToolbar && v7, children[j].State(), false))
           && EndedAs(old(children[i].State()), outcomes[i], children[i].isToolbar && v7, children[i].State(), true)
           && (forall j :: i < j < |children| ==> children[j].State() == old(children[j].State()))
       else
         && (forall j :: 0 <= j < |children| ==>
               EndedAs(old(children[j].State()), outcomes[j], children[j].isToolbar && v7, children[j].State(), false))
         && (forall j :: 0 <= j < |children| ==> children[j].tagged)
  }

  /**
   * A run that stopped at index `stop` (the first child that threw, or the end)
   * and left the children before it, the one at it and the ones after it as
   * the loop does is one `ChildrenEnded` describes.
   */
  twostate lemma ChildrenEndedAtStop(children: seq<View>, new outcomes: seq<Outcome>, new v7: bool, new threw: bool,
                                     new stop: nat)
    requires |outcomes| == |children|
    requires stop <= |children| && (threw <==> stop < |children|)
    requires forall j :: 0 <= j < stop ==>
               EndedAs(old(children[j].State()), outcomes[j], children[j].isToolbar && v7, children[j].State(), false)
    requires threw ==>
               EndedAs(old(children[stop].State()), outcomes[stop], children[stop].isToolbar && v7, children[stop].State(), true)
    requires forall j :: stop < j < |children| ==> unchanged(children[j])
    ensures ChildrenEnded(children, outcomes, v7, threw)
  {
    if !threw {
      forall j | 0 <= j < |children|
        ensures children[j].tagged
      {
        assert EndedAs(old(children[j].State()), outcomes[j], children[j].isToolbar && v7, children[j].State(), false);
      }
    }
  }

  /** A text view whose typeface is already loaded is not touched. */
  lemma LoadedTextViewUntouched(attributeId: int, view: View, context: Context, attrs: Option<AttributeSet>,
                                cache: FontCache, config: Config, v7: bool, h: Helpers)
    requires view.isTextView && h.isLoaded(view.typeface)
    ensures Processing(attributeId, view, context, attrs, cache, config, v7, h) == Untouched
  {
  }

  /**
   * Processing a view that is neither a text view nor a custom view changes
   * nothing it shows.
   */
  lemma PlainViewShowsTheSame(attributeId: int, view: View, context: Context, attrs: Option<AttributeSet>,
                              cache: FontCache, config: Config, v7: bool, h: Helpers)
    requires !view.isTextView && !view.hasTypeface && !h.customViewTypefaceSupport(config)
    ensures Processing(attributeId, view, context, attrs, cache, config, v7, h) == Processed(view.TextView())
  {
  }

  /**
   * Only the deferred path touches a text view's text; otherwise processing
   * changes at most its typeface and paint flags.
   */
  lemma TextOnlySpannedWhenDeferred(attributeId: int, view: View, context: Context, attrs: Option<AttributeSet>,
                                    cache: FontCache, config: Config, v7: bool, h: Helpers)
    requires !Deferred(view)
    ensures var o := Processing(attributeId, view, context, attrs, cache, config, v7, h);
            o.Processed? ==> o.shown.text == view.text
  {
  }

  /** Growing the font cache with the same loader does not change the text-view step. */
  lemma TextStepTransparent(attributeId: int, view: View, context: Context, attrs: Option<AttributeSet>,
                            before: FontCache, after: FontCache, config: Config, v7: bool, h: Helpers)
    requires Extends(before, after, context.assets)
    ensures TextStep(attributeId, view, context, attrs, after, config, v7, h)
         == TextStep(attributeId, view, context, attrs, before, config, v7, h)
  {
    if !h.isLoaded(view.typeface) {
      var font := TextViewFontPath(context, attrs, attributeId, view, v7, config.classStyles);
      var rewrite := RewriteFontPath(font, font.Some? && h.checkFontExists(context, font.value), view.typeface);
      if rewrite.Rewritten? {
        FontOrDefaultTransparent(before, after, context.assets, config, rewrite.path);
      }
    }
  }

  /**
   * Growing the font cache with the same loader does not change how a view is
   * processed, so a view processed after others sees what it would have seen first.
   */
  lemma ProcessingTransparent(attributeId: int, view: View, context: Context, attrs: Option<AttributeSet>,
                              before: FontCache, after: FontCache, config: Config, v7: bool, h: Helpers)
    requires Extends(before, after, context.assets)
    ensures Processing(attributeId, view, context, attrs, after, config, v7, h)
         == Processing(attributeId, view, context, attrs, before, config, v7, h)
  {
    DefaultTypefaceTransparent(before, after, context.assets, config.fontPath, ResolveFontPath(context, attrs, attributeId));
    assert CustomTypeface(attributeId, view, context, attrs, after, config, h)
        == CustomTypeface(attributeId, view, context, attrs, before, config, h);
    if view.isTextView {
      TextStepTransparent(attributeId, view, context, attrs, before, after, config, v7, h);
    }
  }

  /** The `Processing` outcome of each of `views`, all on the same state. */
  ghost function ChildOutcomes(attributeId: int, views: seq<View>, context: Context, attrs: Option<AttributeSet>,
                               cache: FontCache, config: Config, v7: bool, h: Helpers): (r: seq<Outcome>)
    reads views, set v | v in views :: v.parent
    ensures |r| == |views|
    ensures forall j :: 0 <= j < |views| ==> r[j] == Processing(attributeId, views[j], context, attrs, cache, config, v7, h)
  {
    if views == [] then []
    else
      [Processing(attributeId, views[0], context, attrs, cache, config, v7, h)]
        + ChildOutcomes(attributeId, views[1..], context, attrs, cache, config, v7, h)
  }

  /** The v7 probe answer the factory sees on `rt`. */
  function V7(rt: Runtime): bool
    reads rt.toolbarCheck
  {
    V7Answer(rt.toolbarCheck.toolbarCheck, rt.v7OnClasspath)
  }

  /** The configuration `CalligraphyConfig.get()` answers on `rt`. */
  function CurrentOf(rt: Runtime): Config
    reads rt.configs
  {
    rt.configs.Current()
  }

  class CalligraphyFactory {
    /** The font-path attribute id (the single element of `mAttributeId`). */
    const attributeId: int

    constructor (attributeId: int)
      ensures this.attributeId == attributeId
    {
      this.attributeId := attributeId;
    }

    /**
     * What `onViewCreated(view, context, attrs)` leaves of `view`, from the state
     * before to now, `threw` telling whether it ended in an exception: a null
     * view does not throw; any other view ends as `EndedAs` says of its state
     * and its `Processing` outcome before.
     */
    twostate predicate ViewEnded(view: View?, context: Context, attrs: Option<AttributeSet>, rt: Runtime, threw: bool)
      reads view
    {
      if view == null then !threw
      else EndedAs(old(view.State()),
                   old(Processing(attributeId, view, context, attrs, rt.fonts.cachedFonts, CurrentOf(rt), V7(rt), rt.helpers)),
                   view.isToolbar && old(V7(rt)), view.State(), threw)
    }

    /**
     * The whole effect of `onViewCreated(view, context, attrs)`: the view ends as
     * `ViewEnded` says; when nothing is processed the memos are untouched, and
     * otherwise the font cache, the configuration holder and the v7 probe only
     * fill in answers they would have given anyway.
     */
    twostate predicate PostProcessed(view: View?, context: Context, attrs: Option<AttributeSet>, rt: Runtime, threw: bool)
      reads view, rt.fonts, rt.configs, rt.toolbarCheck
    {
      && ViewEnded(view, context, attrs, rt, threw)
      && (view != null && !threw ==> view.tagged)
      && (view == null || old(view.tagged) ==>
            && rt.fonts.cachedFonts == old(rt.fonts.cachedFonts)
            && rt.configs.instance == old(rt.configs.instance)
            && rt.toolbarCheck.toolbarCheck == old(rt.toolbarCheck.toolbarCheck))
      && Extends(old(rt.fonts.cachedFonts), rt.fonts.cachedFonts, context.assets)
      && Settles(old(rt.configs.instance), rt.configs.instance, rt.configs.attrs, rt.configs.sdkInt)
      && V7Settles(old(rt.toolbarCheck.toolbarCheck), rt.toolbarCheck.toolbarCheck, rt.v7OnClasspath)
    }

    /**
     * `onViewCreated(view, context, attrs)`: a null view, or one already tagged,
     * is returned untouched; any other view is processed and then tagged, so a
     * second call does nothing. An exception from processing leaves it untagged.
     */
    method OnViewCreated(view: View?, context: Context, attrs: Option<AttributeSet>, rt: Runtime)
      returns (r: View?, threw: bool)
      modifies view, rt.fonts, rt.configs, rt.toolbarCheck
      ensures r == view
      ensures PostProcessed(view, context, attrs, rt, threw)
    {
      r := view;
      threw := false;
      if view != null && !view.tagged {
        var listener;
        threw, listener := OnViewCreatedInternal(view, context, attrs, rt);
        if threw {
          return;
        }
        view.tagged := true;
      }
    }

    /**
     * `onViewCreatedInternal`: the text-view step, then the toolbar hook (with
     * the new `ToolbarLayoutListener` as `listener`), then the custom-view step.
     */
    method OnViewCreatedInternal(view: View, context: Context, attrs: Option<AttributeSet>, rt: Runtime)
      returns (threw: bool, listener: ToolbarLayoutListener?)
      modifies view, rt.fonts, rt.configs, rt.toolbarCheck
      ensures var o := old(Processing(attributeId, view, context, attrs, rt.fonts.cachedFonts, CurrentOf(rt), V7(rt), rt.helpers));
              && (threw <==> o.Failed?)
              && (!o.Processed? ==> view.State() == old(view.State()) && listener == null)
              && (o.Processed? && view.isToolbar && old(V7(rt)) ==>
                    && listener != null && fresh(listener)
                    && listener.factory == this && listener.context == Some(context) && listener.toolbar == view
                    && listener.originalSubTitle == old(view.subtitle)
                    && view.State() == old(view.State()).(shown := o.shown, subtitle := Some(BLANK),
                                                         layoutListeners := old(view.layoutListeners) + [listener]))
              && (o.Processed? && !(view.isToolbar && old(V7(rt))) ==>
                    listener == null && view.State() == old(view.State()).(shown := o.shown))
      ensures Extends(old(rt.fonts.cachedFonts), rt.fonts.cachedFonts, context.assets)
      ensures Settles(old(rt.configs.instance), rt.configs.instance, rt.configs.attrs, rt.configs.sdkInt)
      ensures V7Settles(old(rt.toolbarCheck.toolbarCheck), rt.toolbarCheck.toolbarCheck, rt.v7OnClasspath)
    {
      listener := null;
      threw := false;
      ghost var cache0 := rt.fonts.cachedFonts;
      ghost var config0 := CurrentOf(rt);
      ghost var v70 := V7(rt);
      ghost var custom := CustomTypeface(attributeId, view, context, attrs, cache0, config0, rt.helpers);
      if view.isTextView {
        var text := ApplyTextStep(view, context, attrs, rt);
        if !text.Shown? {
          threw := text.Threw?;
          return;
        }
      }
      SettledAnswersSame(old(rt.configs.instance), rt.configs.instance, rt.configs.attrs, rt.configs.sdkInt);
      V7SettledAnswersSame(old(rt.toolbarCheck.toolbarCheck), rt.toolbarCheck.toolbarCheck, rt.v7OnClasspath);
      DefaultTypefaceTransparent(cache0, rt.fonts.cachedFonts, context.assets, config0.fontPath,
                                 ResolveFontPath(context, attrs, attributeId));
      assert CustomTypeface(attributeId, view, context, attrs, rt.fonts.cachedFonts, CurrentOf(rt), rt.helpers) == custom;
      assert old(Processing(attributeId, view, context, attrs, rt.fonts.cachedFonts, CurrentOf(rt), V7(rt), rt.helpers))
          == Processed(if custom.Some? then view.TextView().(typeface := custom) else view.TextView());
      ghost var cacheMid := rt.fonts.cachedFonts;
      listener := ApplyLaterSteps(view, context, attrs, rt);
      ExtendsTransitive(cache0, cacheMid, rt.fonts.cachedFonts, context.assets);
    }

    /**
     * What follows the text step in `onViewCreatedInternal`: the toolbar hook,
     * then the custom-view step, whose typeface (when there is one) goes over
     * what the view showed.
     */
    method ApplyLaterSteps(view: View, context: Context, attrs: Option<AttributeSet>, rt: Runtime)
      returns (listener: ToolbarLayoutListener?)
      modifies view, rt.fonts, rt.configs, rt.toolbarCheck
      ensures var custom := old(CustomTypeface(attributeId, view, context, attrs, rt.fonts.cachedFonts, CurrentOf(rt), rt.helpers));
              var shown := if custom.Some? then old(view.TextView()).(typeface := custom) else old(view.TextView());
              && (view.isToolbar && old(V7(rt)) ==>
                    && listener != null && fresh(listener)
                    && listener.factory == this && listener.context == Some(context) && listener.toolbar == view
                    && listener.originalSubTitle == old(view.subtitle)
                    && view.State() == old(view.State()).(shown := shown, subtitle := Some(BLANK),
                                                         layoutListeners := old(view.layoutListeners) + [listener]))
              && (!(view.isToolbar && old(V7(rt))) ==> listener == null && view.State() == old(view.State()).(shown := shown))
      ensures Extends(old(rt.fonts.cachedFonts), rt.fonts.cachedFonts, context.assets)
      ensures Settles(old(rt.configs.instance), rt.configs.instance, rt.configs.attrs, rt.configs.sdkInt)
      ensures V7Settles(old(rt.toolbarCheck.toolbarCheck), rt.toolbarCheck.toolbarCheck, rt.v7OnClasspath)
    {
      listener := HookToolbar(view, context, rt);
      ApplyCustomStep(view, context, attrs, rt);
    }

    /**
     * The toolbar part of `onViewCreatedInternal`: when v7 is present and the
     * view is a v7 `Toolbar`, a new `ToolbarLayoutListener` blanks its subtitle
     * and is added to its global layout listeners.
     */
    method HookToolbar(view: View, context: Context, rt: Runtime) returns (listener: ToolbarLayoutListener?)
      modifies view, rt.toolbarCheck
      ensures V7Settles(old(rt.toolbarCheck.toolbarCheck), rt.toolbarCheck.toolbarCheck, rt.v7OnClasspath)
      ensures view.isToolbar && old(V7(rt)) ==>
                && listener != null && fresh(listener)
                && listener.factory == this && listener.context == Some(context) && listener.toolbar == view
                && listener.originalSubTitle == old(view.subtitle)
                && view.State() == old(view.State()).(subtitle := Some(BLANK), layoutListeners := old(view.layoutListeners) + [listener])
      ensures !(view.isToolbar && old(V7(rt))) ==> listener == null && view.State() == old(view.State())
    {
      listener := null;
      var v7 := rt.toolbarCheck.CanCheckForV7Toolbar(rt.v7OnClasspath);
      if v7 && view.isToolbar {
        listener := new ToolbarLayoutListener(this, context, view);
        view.layoutListeners := view.layoutListeners + [listener];
      }
    }

    /**
     * The text-view part of `onViewCreatedInternal`: resolve the path, ask the
     * theme when it is empty, rewrite it for the current style when the file is
     * missing, and apply it with the configured default as fallback.
     */
    method ApplyTextStep(view: View, context: Context, attrs: Option<AttributeSet>, rt: Runtime)
      returns (outcome: TextOutcome)
      requires view.isTextView
      modifies view, rt.fonts, rt.configs, rt.toolbarCheck
      ensures outcome == old(TextStep(attributeId, view, context, attrs, rt.fonts.cachedFonts, CurrentOf(rt), V7(rt), rt.helpers))
      ensures outcome.Shown? ==> view.State() == old(view.State()).(shown := outcome.state)
      ensures !outcome.Shown? ==> view.State() == old(view.State())
      ensures Extends(old(rt.fonts.cachedFonts), rt.fonts.cachedFonts, context.assets)
      ensures Settles(old(rt.configs.instance), rt.configs.instance, rt.configs.attrs, rt.configs.sdkInt)
      ensures V7Settles(old(rt.toolbarCheck.toolbarCheck), rt.toolbarCheck.toolbarCheck, rt.v7OnClasspath)
    {
      if rt.helpers.isLoaded(view.typeface) {
        return Loaded;
      }
      var textViewFont := FontPathForTextView(view, context, attrs, rt);
      SettledAnswersSame(old(rt.configs.instance), rt.configs.instance, rt.configs.attrs, rt.configs.sdkInt);
      outcome := ApplyRewriteStep(view, context, textViewFont, rt);
    }

    /**
     * The text-view part of `onViewCreatedInternal` after the font path is
     * known: the rewrite may throw, and otherwise the view shows the path's
     * typeface, or the configured default's.
     */
    method ApplyRewriteStep(view: View, context: Context, textViewFont: JString, rt: Runtime) returns (outcome: TextOutcome)
      modifies view, rt.fonts, rt.configs
      ensures outcome == old(RewriteStep(view, context, textViewFont, rt.fonts.cachedFonts, CurrentOf(rt), rt.helpers))
      ensures outcome.Shown? ==> view.State() == old(view.State()).(shown := outcome.state)
      ensures !outcome.Shown? ==> view.State() == old(view.State())
      ensures Extends(old(rt.fonts.cachedFonts), rt.fonts.cachedFonts, context.assets)
      ensures Settles(old(rt.configs.instance), rt.configs.instance, rt.configs.attrs, rt.configs.sdkInt)
    {
      var deferred := MatchesResourceIdName(view, ACTION_BAR_TITLE) || MatchesResourceIdName(view, ACTION_BAR_SUBTITLE);
      var fontExists := textViewFont.Some? && rt.helpers.checkFontExists(context, textViewFont.value);
      var rewrite := RewriteFontPath(textViewFont, fontExists, view.typeface);
      if rewrite.IndexOutOfBounds? {
        return Threw;
      }
      var config := rt.configs.Get();
      ApplyFontOrDefault(Some(context), view, Some(config), rewrite.path, deferred, rt.fonts, rt.helpers.spanOf);
      outcome := Shown(view.TextView());
    }

    /** The font path of a text view: `resolveFontPath`, then the theme when that is empty. */
    method FontPathForTextView(view: View, context: Context, attrs: Option<AttributeSet>, rt: Runtime)
      returns (textViewFont: JString)
      modifies rt.configs, rt.toolbarCheck
      ensures textViewFont == old(TextViewFontPath(context, attrs, attributeId, view, V7(rt), CurrentOf(rt).classStyles))
      ensures Settles(old(rt.configs.instance), rt.configs.instance, rt.configs.attrs, rt.configs.sdkInt)
      ensures V7Settles(old(rt.toolbarCheck.toolbarCheck), rt.toolbarCheck.toolbarCheck, rt.v7OnClasspath)
    {
      textViewFont := ResolveFontPath(context, attrs, attributeId);
      if IsEmpty(textViewFont) {
        var styleForTextView := StyleForTextView(view, rt);
        if styleForTextView[1] != -1 {
          textViewFont := PullFontPathFromSubTheme(context, styleForTextView[0], styleForTextView[1], attributeId);
        } else {
          textViewFont := PullFontPathFromTheme(context, styleForTextView[0], attributeId);
        }
      }
    }

    /** `getStyleForTextView`, with the v7 probe and `CalligraphyConfig.get()` as the source calls them. */
    method StyleForTextView(view: View, rt: Runtime) returns (styleIds: seq<int>)
      modifies rt.configs, rt.toolbarCheck
      ensures styleIds == old(GetStyleForTextView(view, V7(rt), CurrentOf(rt).classStyles))
      ensures Settles(old(rt.configs.instance), rt.configs.instance, rt.configs.attrs, rt.configs.sdkInt)
      ensures V7Settles(old(rt.toolbarCheck.toolbarCheck), rt.toolbarCheck.toolbarCheck, rt.v7OnClasspath)
    {
      styleIds := [-1, -1];
      var title := CheckActionBarTitle(view, rt);
      if title {
        styleIds := [ATTR_ACTION_BAR_STYLE, ATTR_TITLE_TEXT_STYLE];
      } else {
        var subTitle := CheckActionBarSubTitle(view, rt);
        V7SettledAnswersSame(old(rt.toolbarCheck.toolbarCheck), rt.toolbarCheck.toolbarCheck, rt.v7OnClasspath);
        if subTitle {
          styleIds := [ATTR_ACTION_BAR_STYLE, ATTR_SUBTITLE_TEXT_STYLE];
        }
      }
      if styleIds[0] == -1 {
        var config := rt.configs.Get();
        if view.className in config.classStyles {
          var again := rt.configs.Get();
          styleIds := styleIds[0 := again.classStyles[view.className]];
        } else {
          styleIds := styleIds[0 := ATTR_TEXT_APPEARANCE];
        }
      }
    }

    /** `isActionBarTitle`, probing for v7 only when the id name does not match. */
    method CheckActionBarTitle(view: View, rt: Runtime) returns (b: bool)
      modifies rt.toolbarCheck
      ensures b == old(IsActionBarTitle(view, V7(rt)))
      ensures V7Settles(old(rt.toolbarCheck.toolbarCheck), rt.toolbarCheck.toolbarCheck, rt.v7OnClasspath)
    {
      if MatchesResourceIdName(view, ACTION_BAR_TITLE) {
        return true;
      }
      var parentIsToolbar := CheckParentIsToolbarV7(view, rt);
      b := parentIsToolbar && view.parent.title == Some(view.text.chars);
    }

    /** `isActionBarSubTitle`, probing for v7 only when the id name does not match. */
    method CheckActionBarSubTitle(view: View, rt: Runtime) returns (b: bool)
      modifies rt.toolbarCheck
      ensures b == old(IsActionBarSubTitle(view, V7(rt)))
      ensures V7Settles(old(rt.toolbarCheck.toolbarCheck), rt.toolbarCheck.toolbarCheck, rt.v7OnClasspath)
    {
      if MatchesResourceIdName(view, ACTION_BAR_SUBTITLE) {
        return true;
      }
      var parentIsToolbar := CheckParentIsToolbarV7(view, rt);
      b := parentIsToolbar && view.parent.subtitle == Some(view.text.chars);
    }

    /** `parentIsToolbarV7`: the probe runs first, then the parent is looked at. */
    method CheckParentIsToolbarV7(view: View, rt: Runtime) returns (b: bool)
      modifies rt.toolbarCheck
      ensures b == old(ParentIsToolbarV7(view, V7(rt)))
      ensures V7Settles(old(rt.toolbarCheck.toolbarCheck), rt.toolbarCheck.toolbarCheck, rt.v7OnClasspath)
    {
      var v7 := rt.toolbarCheck.CanCheckForV7Toolbar(rt.v7OnClasspath);
      b := v7 && view.parent != null && view.parent.isToolbar;
    }

    /** `getDefaultTypeface`: asks the configuration only when the given path is empty. */
    method GetDefaultTypeface(context: Context, fontPath: JString, rt: Runtime) returns (t: Option<Typeface>)
      modifies rt.fonts, rt.configs
      ensures t == old(DefaultTypefaceFor(rt.fonts.cachedFonts, context.assets, CurrentOf(rt).fontPath, fontPath))
      ensures Extends(old(rt.fonts.cachedFonts), rt.fonts.cachedFonts, context.assets)
      ensures Settles(old(rt.configs.instance), rt.configs.instance, rt.configs.attrs, rt.configs.sdkInt)
    {
      var path := fontPath;
      if IsEmpty(path) {
        var config := rt.configs.Get();
        path := config.fontPath;
      }
      if !IsEmpty(path) {
        t := rt.fonts.Load(context.assets, path);
      } else {
        t := None;
      }
    }

    /** The custom-view part of `onViewCreatedInternal`: `HasTypeface` first, else reflection. */
    method ApplyCustomStep(view: View, context: Context, attrs: Option<AttributeSet>, rt: Runtime)
      modifies view, rt.fonts, rt.configs
      ensures var t := old(CustomTypeface(attributeId, view, context, attrs, rt.fonts.cachedFonts, CurrentOf(rt), rt.helpers));
              view.State() == if t.Some? then old(view.State()).(shown := old(view.TextView()).(typeface := t))
                              else old(view.State())
      ensures Extends(old(rt.fonts.cachedFonts), rt.fonts.cachedFonts, context.assets)
      ensures Settles(old(rt.configs.instance), rt.configs.instance, rt.configs.attrs, rt.configs.sdkInt)
    {
      if view.hasTypeface {
        var typeface := GetDefaultTypeface(context, ResolveFontPath(context, attrs, attributeId), rt);
        if typeface.Some? {
          view.typeface := typeface;
        }
      } else {
        var config := rt.configs.Get();
        if rt.helpers.customViewTypefaceSupport(config) {
          var again := rt.configs.Get();
          if rt.helpers.customViewHasTypeface(again, view.className) {
            var setTypeface := rt.helpers.hasSetTypeface(view.className);
            var fontPath := ResolveFontPath(context, attrs, attributeId);
            SettledAnswersSame(old(rt.configs.instance), rt.configs.instance, rt.configs.attrs, rt.configs.sdkInt);
            var typeface := GetDefaultTypeface(context, fontPath, rt);
            if setTypeface && typeface.Some? {
              view.typeface := typeface;
            }
          }
        }
      }
    }
  }

  /**
   * `CalligraphyFactory.ToolbarLayoutListener`: blanks the toolbar's subtitle
   * until the next layout, when it processes the toolbar's children, removes
   * itself and puts the subtitle back. The weak references are fields that may
   * become null.
   */
  class ToolbarLayoutListener {
    var factory: CalligraphyFactory?
    var context: Option<Context>
    var toolbar: View?
    const originalSubTitle: JString

    constructor (calligraphyFactory: CalligraphyFactory, context: Context, toolbar: View)
      modifies toolbar
      ensures this.factory == calligraphyFactory && this.context == Some(context) && this.toolbar == toolbar
      ensures originalSubTitle == old(toolbar.subtitle)
      ensures toolbar.State() == old(toolbar.State()).(subtitle := Some(BLANK))
    {
      factory := calligraphyFactory;
      this.context := Some(context);
      this.toolbar := toolbar;
      originalSubTitle := toolbar.subtitle;
      new;
      toolbar.subtitle := Some(BLANK);
    }

    /** The toolbar's children, when the toolbar is still there. */
    function Children(): set<View>
      reads this, toolbar
    {
      if toolbar == null then {} else set c | c in toolbar.children
    }

    /**
     * `onGlobalLayout()`: with the toolbar gone it does nothing; with the factory
     * or context gone it only removes itself; otherwise it runs every child
     * through `onViewCreated` with null attributes, in order, removes itself and
     * restores the subtitle. Each child ends as its own `onViewCreated` would
     * have left it on the state before the layout. An exception from a child
     * leaves the toolbar and the remaining children as they were; the children
     * before it stay processed.
     *
     * The toolbar's children are what a view tree makes them: distinct views,
     * each with the toolbar as its parent, and not the toolbar itself.
     */
    method OnGlobalLayout(rt: Runtime) returns (threw: bool)
      requires toolbar != null ==> toolbar !in toolbar.children
      requires toolbar != null ==> forall j :: 0 <= j < |toolbar.children| ==> toolbar.children[j].parent == toolbar
      requires toolbar != null ==>
                 forall j, k :: 0 <= j < k < |toolbar.children| ==> toolbar.children[j] != toolbar.children[k]
      modifies toolbar, Children(), rt.fonts, rt.configs, rt.toolbarCheck
      ensures toolbar == null ==> !threw && unchanged(rt.fonts, rt.configs, rt.toolbarCheck)
      ensures toolbar != null && (factory == null || context.None?) ==>
                && !threw
                && toolbar.State() == old(toolbar.State()).(layoutListeners := RemoveFirst(old(toolbar.layoutListeners), this))
                && unchanged(rt.fonts, rt.configs, rt.toolbarCheck)
                && forall c :: c in old(toolbar.children) ==> unchanged(c)
      ensures toolbar != null && factory != null && context.Some? ==>
                && toolbar.children == old(toolbar.children)
                && Extends(old(rt.fonts.cachedFonts), rt.fonts.cachedFonts, context.value.assets)
                && Settles(old(rt.configs.instance), rt.configs.instance, rt.configs.attrs, rt.configs.sdkInt)
                && V7Settles(old(rt.toolbarCheck.toolbarCheck), rt.toolbarCheck.toolbarCheck, rt.v7OnClasspath)
                && ChildrenEnded(toolbar.children,
                                 old(ChildOutcomes(factory.attributeId, toolbar.children, context.value, None,
                                                   rt.fonts.cachedFonts, CurrentOf(rt), V7(rt), rt.helpers)),
                                 old(V7(rt)), threw)
                && (threw ==> toolbar.State() == old(toolbar.State()))
                && (!threw ==>
                      toolbar.State() == old(toolbar.State()).(subtitle := originalSubTitle,
                                                             layoutListeners := RemoveFirst(old(toolbar.layoutListeners), this)))
    {
      var tb := toolbar;
      var ctx := context;
      var calligraphyFactory := factory;
      threw := false;
      if tb == null {
        return;
      }
      if calligraphyFactory == null || ctx.None? {
        tb.layoutListeners := RemoveFirst(tb.layoutListeners, this);
        return;
      }
      var children := tb.children;
      threw := ProcessChildren(calligraphyFactory, tb, children, ctx.value, rt,
                                       ChildOutcomes(calligraphyFactory.attributeId, children, ctx.value, None,
                                                     rt.fonts.cachedFonts, CurrentOf(rt), V7(rt), rt.helpers),
                                       V7(rt));
      if threw {
        return;
      }
      RemoveSelf(tb);
      tb.subtitle := originalSubTitle;
    }

    /**
     * The loop of `onGlobalLayout`: runs `children`, the children of `tb`, through
     * `onViewCreated` in order, stopping at the first exception. `outcomes`
     * and `v7` are the children's `Processing` outcomes
     * and the v7 answer on the state before.
     */
    method ProcessChildren(calligraphyFactory: CalligraphyFactory, tb: View, children: seq<View>, context: Context,
                           rt: Runtime, ghost outcomes: seq<Outcome>, ghost v7: bool)
      returns (threw: bool)
      requires tb !in children
      requires forall j :: 0 <= j < |children| ==> children[j].parent == tb
      requires forall j, k :: 0 <= j < k < |children| ==> children[j] != children[k]
      requires |outcomes| == |children|
      requires forall j {:trigger Processing(calligraphyFactory.attributeId, children[j], context, None, rt.fonts.cachedFonts,
                                             CurrentOf(rt), V7(rt), rt.helpers)} :: 0 <= j < |children| ==>
                 outcomes[j] == Processing(calligraphyFactory.attributeId, children[j], context, None, rt.fonts.cachedFonts,
                                           CurrentOf(rt), V7(rt), rt.helpers)
      requires v7 == V7(rt)
      modifies (set c | c in children), rt.fonts, rt.configs, rt.toolbarCheck
      ensures Extends(old(rt.fonts.cachedFonts), rt.fonts.cachedFonts, context.assets)
      ensures Settles(old(rt.configs.instance), rt.configs.instance, rt.configs.attrs, rt.configs.sdkInt)
      ensures V7Settles(old(rt.toolbarCheck.toolbarCheck), rt.toolbarCheck.toolbarCheck, rt.v7OnClasspath)
      ensures ChildrenEnded(children, outcomes, v7, threw)
    {
      ghost var cache0, instance0, probe0 := rt.fonts.cachedFonts, rt.configs.instance, rt.toolbarCheck.toolbarCheck;
      assert CurrentOf(rt) == CurrentConfig(instance0, rt.configs.attrs, rt.configs.sdkInt);
      assert V7(rt) == V7Answer(probe0, rt.v7OnClasspath);
      threw := false;
      var i := 0;
      while i < |children|
        invariant 0 <= i <= |children|
        invariant unchanged(tb)
        invariant forall j :: i <= j < |children| ==> unchanged(children[j])
        invariant forall j :: 0 <= j < i ==>
                    EndedAs(old(children[j].State()), outcomes[j], children[j].isToolbar && v7, children[j].State(), false)
        invariant Extends(cache0, rt.fonts.cachedFonts, context.assets)
        invariant Settles(instance0, rt.configs.instance, rt.configs.attrs, rt.configs.sdkInt)
        invariant V7Settles(probe0, rt.toolbarCheck.toolbarCheck, rt.v7OnClasspath)
        invariant forall j {:trigger Processing(calligraphyFactory.attributeId, children[j], context, None, cache0,
                                                CurrentConfig(instance0, rt.configs.attrs, rt.configs.sdkInt),
                                                V7Answer(probe0, rt.v7OnClasspath), rt.helpers)} :: i <= j < |children| ==>
                    outcomes[j] == Processing(calligraphyFactory.attributeId, children[j], context, None, cache0,
                                              CurrentConfig(instance0, rt.configs.attrs, rt.configs.sdkInt),
                                              V7Answer(probe0, rt.v7OnClasspath), rt.helpers)
      {
        threw := ProcessChild(calligraphyFactory, tb, children, i, context, rt, cache0, instance0, probe0, outcomes);
        if threw {
          break;
        }
        i := i + 1;
      }
      ChildrenEndedAtStop(children, outcomes, v7, threw, i);
    }

    /**
     * One child's `onViewCreated` during the layout: the memos have only
     * settled since they were `cache0`, `instance0` and `probe0`, and
     * `outcomes` are the outcomes on those of the child at `i` and the ones
     * after it. The child ends as its outcome says, and the later children's
     * outcomes stay what they were.
     */
    method ProcessChild(calligraphyFactory: CalligraphyFactory, tb: View, children: seq<View>, i: nat, context: Context,
                        rt: Runtime, ghost cache0: FontCache, ghost instance0: Option<Config>, ghost probe0: Option<bool>,
                        ghost outcomes: seq<Outcome>)
      returns (threw: bool)
      requires i < |children| && |outcomes| == |children| && tb !in children
      requires forall j :: 0 <= j < |children| ==> children[j].parent == tb
      requires forall j :: i < j < |children| ==> children[j] != children[i]
      requires Extends(cache0, rt.fonts.cachedFonts, context.assets)
      requires Settles(instance0, rt.configs.instance, rt.configs.attrs, rt.configs.sdkInt)
      requires V7Settles(probe0, rt.toolbarCheck.toolbarCheck, rt.v7OnClasspath)
      requires forall j {:trigger Processing(calligraphyFactory.attributeId, children[j], context, None, cache0,
                                             CurrentConfig(instance0, rt.configs.attrs, rt.configs.sdkInt),
                                             V7Answer(probe0, rt.v7OnClasspath), rt.helpers)} :: i <= j < |children| ==>
                 outcomes[j] == Processing(calligraphyFactory.attributeId, children[j], context, None, cache0,
                                           CurrentConfig(instance0, rt.configs.attrs, rt.configs.sdkInt),
                                           V7Answer(probe0, rt.v7OnClasspath), rt.helpers)
      modifies children[i], rt.fonts, rt.configs, rt.toolbarCheck
      ensures EndedAs(old(children[i].State()), outcomes[i], children[i].isToolbar && V7Answer(probe0, rt.v7OnClasspath),
                      children[i].State(), threw)
      ensures Extends(cache0, rt.fonts.cachedFonts, context.assets)
      ensures Settles(instance0, rt.configs.instance, rt.configs.attrs, rt.configs.sdkInt)
      ensures V7Settles(probe0, rt.toolbarCheck.toolbarCheck, rt.v7OnClasspath)
      ensures forall j {:trigger Processing(calligraphyFactory.attributeId, children[j], context, None, cache0,
                                            CurrentConfig(instance0, rt.configs.attrs, rt.configs.sdkInt),
                                            V7Answer(probe0, rt.v7OnClasspath), rt.helpers)} :: i < j < |children| ==>
                outcomes[j] == Processing(calligraphyFactory.attributeId, children[j], context, None, cache0,
                                          CurrentConfig(instance0, rt.configs.attrs, rt.configs.sdkInt),
                                          V7Answer(probe0, rt.v7OnClasspath), rt.helpers)
    {
      ghost var before := rt.fonts.cachedFonts;
      ProcessingTransparent(calligraphyFactory.attributeId, children[i], context, None, cache0, before,
                            CurrentConfig(instance0, rt.configs.attrs, rt.configs.sdkInt),
                            V7Answer(probe0, rt.v7OnClasspath), rt.helpers);
      SettledAnswersSame(instance0, rt.configs.instance, rt.configs.attrs, rt.configs.sdkInt);
      V7SettledAnswersSame(probe0, rt.toolbarCheck.toolbarCheck, rt.v7OnClasspath);
      var _, childThrew := calligraphyFactory.OnViewCreated(children[i], context, None, rt);
      ExtendsTransitive(cache0, before, rt.fonts.cachedFonts, context.assets);
      threw := childThrew;
    }

    /** `removeSelf(toolbar)`: takes this listener off the toolbar's layout listeners. */
    method RemoveSelf(toolbar: View)
      modifies toolbar
      ensures toolbar.State() == old(toolbar.State()).(layoutListeners := RemoveFirst(old(toolbar.layoutListeners), this))
    {
      toolbar.layoutListeners := RemoveFirst(toolbar.layoutListeners, this);
    }
  }
}
