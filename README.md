# Calligraphy, modelled in Dafny

Calligraphy is an Android library that injects custom fonts into views while a
layout is inflated. A `CalligraphyLayoutInflater` wraps every
`LayoutInflater.Factory`/`Factory2` installed on it, exactly once. Each view those
factories create, and each view the inflater creates itself, goes through the
`CalligraphyFactory` post-processor. For a `TextView` the post-processor:

- finds a font path through a fixed fallback chain: XML attribute, view style, text appearance, theme;
- rewrites the path with a style postfix when the file is missing;
- loads the typeface through the `TypefaceUtils` cache;
- applies it with `CalligraphyUtils`, either by setting the typeface or, for the
  action-bar title and subtitle, by wrapping the text in a `CalligraphyTypefaceSpan`.

A v7 `Toolbar` gets a one-shot layout listener. It blanks the subtitle, processes
the toolbar's children and then restores the subtitle. `CalligraphyConfig` holds
the global configuration, which a chained-setter `Builder` produces. `ViewFactory`
is a separate listener registry that is notified of each created view.

The project has one module per source file, plus `JavaLib` and `Android`:

| file | module |
|---|---|
| `java_lib.dfy` | `JavaLib`: nullable values, `TextUtils.isEmpty`, `trim`, `equalsIgnoreCase`, `lastIndexOf`, `List.remove` |
| `android.dfy` | `Android`: framework constants, `Typeface`, text with spans, attribute and theme lookups, the `View` class |
| `typeface_utils.dfy` | `TypefaceUtils`: the font cache |
| `typeface_span.dfy` | `CalligraphyTypefaceSpan` |
| `calligraphy_config.dfy` | `CalligraphyConfig`: builder, configuration, singleton |
| `calligraphy_utils.dfy` | `CalligraphyUtils`: applying fonts, font-path lookups, the v7 probe |
| `calligraphy_factory.dfy` | `CalligraphyFactory`: the post-processor and `ToolbarLayoutListener` |
| `calligraphy_layout_inflater.dfy` | `CalligraphyLayoutInflater` and its wrapper factories |
| `view_factory.dfy` | `ViewFactory` |

## Conventions

- **Nullable values.** A Java reference that can be null is an `Option` (`JString`
  is a nullable string). Objects the library updates in place are classes:
  `View`, `Paint`, `Builder`, the inflater, the caches and the registry. Each class
  has a `State()` snapshot, and methods state their new state against it.
- **Platform lookups are inputs.** Resources, typed arrays, the theme,
  `createFromAsset`, `createView` and reflective construction are function-typed
  fields of `Context`/`AttributeSet` or method parameters. The same goes for the
  helpers the library calls but whose code is not part of this model:
  - `TypefaceUtils.isLoaded`, `TypefaceUtils.checkFontExists` and `TypefaceUtils.getSpan`;
  - `CalligraphyConfig.isCustomViewTypefaceSupport` and `isCustomViewHasTypeface`;
  - `CalligraphyUtils.isInherentFontPath` and the inherent variant-path builder;
  - whether the v7 `Toolbar` class is on the classpath.

  They are the `Helpers` datatype and parameters. Each helper is a total function
  of its arguments alone: `isLoaded` sees only the typeface, not the font cache,
  and `getSpan` answers the same span for the same typeface every time (which is
  what lets a second application of a typeface leave the text unchanged). Nothing
  else is assumed about them.
- **Exceptions.** An exception the library throws or lets through is an outcome:
  `threw`, `IllegalArgument`, `IndexOutOfBounds`, or a `None` from a lookup that
  raises.
- **Memos.** The font cache, the configuration singleton and the v7-toolbar probe
  are memos. Each method states how its memo may grow (`Extends`, `Settles`,
  `V7Settles`), and a lemma shows that growth never changes an answer. Because of
  this, contracts are stated against the state before the call.

Where the code and its documentation differ, the model follows the code:

- **`onActivityCreateView`.** The inflater calls
  `CalligraphyFactory.onActivityCreateView`, but
  calligraphy/src/main/java/uk/co/chrisjenx/calligraphy/CalligraphyFactory.java has no such method, only `onViewCreated`. That
  post-processor is modelled as `OnViewCreated` and used at those call sites.
  The missing three-argument call `onActivityCreateView(view, name, attrs)` has
  no context, so the model supplies the context the caller has at hand:
  - the inflater's own `onCreateView` overloads and its activity hook pass the
    inflater's context (`CalligraphyLayoutInflater.CalligraphyLayoutInflater.context`);
  - the wrapper factories pass the context their `onCreateView` received.
- **`mAttributeId`.** It is declared `int[]` in CalligraphyFactory.java and used as
  an `int`, so the model keeps a single `int`.
- **The postfix rewrite.** It calls `lastIndexOf(".")` and `substring(0, ix)`
  without checking for a dot. A non-blank, missing font path without a `.` on a
  view with a typeface makes `substring(0, -1)` throw. The model returns that
  outcome (`IndexOutOfBounds`, and `threw` from `OnViewCreated`) rather than
  requiring a dot.
- **`setInherentDefaultFontPaths`.** Its Javadoc (CalligraphyConfig.java:310-313)
  says the regular, bold and italic files are all applied. The code (321-335)
  passes each variant that loads to `setDefaultFontPath`, one after the other.
  With every file present, the default path ends as the Bold-Italic one
  (`VariantLoadsSetOnlyDefaultPath`).

## Model

| member | source | states |
|---|---|---|
| JavaLib.TrimStart | calligraphy/src/main/java/uk/co/chrisjenx/calligraphy/CalligraphyFactory.java:147 | the result is a suffix of the input; empty iff the input is blank (every character at most a space), else it starts with a non-blank character |
| JavaLib.TrimEnd | calligraphy/src/main/java/uk/co/chrisjenx/calligraphy/CalligraphyFactory.java:147 | the result is a prefix of the input; empty iff the input is blank |
| JavaLib.Trim | calligraphy/src/main/java/uk/co/chrisjenx/calligraphy/CalligraphyFactory.java:147 | `trim()` is empty iff the input is blank |
| JavaLib.Folded | calligraphy/src/main/java/uk/co/chrisjenx/calligraphy/CalligraphyFactory.java:94 | the same length, each character folded to lower case |
| JavaLib.EqualsIgnoreCaseIsFoldedEquality | calligraphy/src/main/java/uk/co/chrisjenx/calligraphy/CalligraphyFactory.java:94 | two strings are equal ignoring case iff their folded forms are equal |
| JavaLib.LastIndexOf | calligraphy/src/main/java/uk/co/chrisjenx/calligraphy/CalligraphyFactory.java:159 | -1 iff the character is absent; otherwise an index holding it with none after it |
| JavaLib.LastIndexOfAppend | calligraphy/src/main/java/uk/co/chrisjenx/calligraphy/CalligraphyFactory.java:159 | when the suffix holds the character, the last occurrence in the whole string is the suffix's, shifted by the prefix length |
| JavaLib.IndexOf | calligraphy/src/main/java/uk/co/chrisjenx/calligraphy/ViewFactory.java:24 | an index holding the element, with no occurrence before it |
| JavaLib.RemoveFirst | calligraphy/src/main/java/uk/co/chrisjenx/calligraphy/ViewFactory.java:24 | `List.remove(Object)`: a missing element leaves the list as it is, otherwise exactly the first occurrence is dropped and the rest keep their order |
| JavaLib.RemoveFirstMultiset | calligraphy/src/main/java/uk/co/chrisjenx/calligraphy/ViewFactory.java:24 | removing a present element shortens the list by one and takes away exactly one copy of it |
| TypefaceUtils.TypefaceCache.constructor | calligraphy/src/main/java/uk/co/chrisjenx/calligraphy/TypefaceUtils.java:20 | the font cache starts empty |
| TypefaceUtils.TypefaceCache.Load | calligraphy/src/main/java/uk/co/chrisjenx/calligraphy/TypefaceUtils.java:29-44 | the typeface of a cached path is the cached entry, even a null one; otherwise the loader's answer is stored under the path, null on failure, and returned; the path is then a key whose entry equals the result; no entry is removed or changed |
| TypefaceUtils.SecondLoadIsCached | calligraphy/src/main/java/uk/co/chrisjenx/calligraphy/TypefaceUtils.java:32-42 | a second load of a path answers what the first did and leaves the cache as the first left it, whatever the loader would now say |
| TypefaceUtils.FailureIsRemembered | calligraphy/src/main/java/uk/co/chrisjenx/calligraphy/TypefaceUtils.java:37-40 | a failed load stores null, and later loads of that path answer null without retrying |
| TypefaceUtils.LoadTouchesOnlyItsKey | calligraphy/src/main/java/uk/co/chrisjenx/calligraphy/TypefaceUtils.java:29-44 | loading one path neither adds, removes nor changes the entry of any other path |
| TypefaceUtils.CacheIsTransparent | calligraphy/src/main/java/uk/co/chrisjenx/calligraphy/TypefaceUtils.java:32-42 | once the cache has only grown by loader answers, every load answers what it would have answered before |
| TypefaceUtils.ExtendsTransitive | calligraphy/src/main/java/uk/co/chrisjenx/calligraphy/TypefaceUtils.java:20 | the cache only grows: a cache grown twice has grown from the first |
| CalligraphyTypefaceSpan.NewTypefaceSpan | calligraphy/src/main/java/uk/co/chrisjenx/calligraphy/CalligraphyTypefaceSpan.java:11-17 | a null typeface is refused with IllegalArgumentException; otherwise the span holds exactly the given typeface |
| CalligraphyTypefaceSpan.OldStyle | calligraphy/src/main/java/uk/co/chrisjenx/calligraphy/CalligraphyTypefaceSpan.java:31 | a paint without a typeface has old style 0, otherwise the typeface's style |
| CalligraphyTypefaceSpan.FakeStyle | calligraphy/src/main/java/uk/co/chrisjenx/calligraphy/CalligraphyTypefaceSpan.java:32 | the fake style has BOLD (ITALIC) exactly when the old style has it and the span's style does not |
| CalligraphyTypefaceSpan.Apply | calligraphy/src/main/java/uk/co/chrisjenx/calligraphy/CalligraphyTypefaceSpan.java:29-43 | the paint ends in the span's typeface, with fake bold and skew switched on only for the missing styles and never off |
| CalligraphyTypefaceSpan.UpdateDrawState | calligraphy/src/main/java/uk/co/chrisjenx/calligraphy/CalligraphyTypefaceSpan.java:19-22 | drawing state gets exactly the effect of apply |
| CalligraphyTypefaceSpan.UpdateMeasureState | calligraphy/src/main/java/uk/co/chrisjenx/calligraphy/CalligraphyTypefaceSpan.java:24-27 | measuring state gets exactly the same effect |
| CalligraphyTypefaceSpan.AppliedTypeface | calligraphy/src/main/java/uk/co/chrisjenx/calligraphy/CalligraphyTypefaceSpan.java:42 | after apply the paint's typeface is the span's |
| CalligraphyTypefaceSpan.AppliedFakeBold | calligraphy/src/main/java/uk/co/chrisjenx/calligraphy/CalligraphyTypefaceSpan.java:32-36 | fake bold is on afterwards iff it was on or the old style was bold and the span's is not |
| CalligraphyTypefaceSpan.AppliedSkew | calligraphy/src/main/java/uk/co/chrisjenx/calligraphy/CalligraphyTypefaceSpan.java:38-40 | skew is on afterwards iff it was on or the old style was italic and the span's is not |
| CalligraphyTypefaceSpan.NoFakesFromNullTypeface | calligraphy/src/main/java/uk/co/chrisjenx/calligraphy/CalligraphyTypefaceSpan.java:31 | a paint with no typeface gets no fake bold and no skew |
| CalligraphyTypefaceSpan.ApplyIdempotent | calligraphy/src/main/java/uk/co/chrisjenx/calligraphy/CalligraphyTypefaceSpan.java:29-43 | applying a span twice leaves the paint as applying it once |
| CalligraphyConfig.MergeClassStyles | calligraphy/src/main/java/uk/co/chrisjenx/calligraphy/CalligraphyConfig.java:129-131 | the class-style map has the default and custom keys, custom entries win and the other defaults remain |
| CalligraphyConfig.LastLoadable | calligraphy/src/main/java/uk/co/chrisjenx/calligraphy/CalligraphyConfig.java:316-326 | the last variant path the asset loader opens: present iff some variant opens, and then one that opens with none after it opening |
| CalligraphyConfig.VariantLoadsSetOnlyDefaultPath | calligraphy/src/main/java/uk/co/chrisjenx/calligraphy/CalligraphyConfig.java:316-335 | loading the four variants changes the builder only as setDefaultFontPath of the last one that opens, or not at all |
| CalligraphyConfig.LastLoadableOfTail | calligraphy/src/main/java/uk/co/chrisjenx/calligraphy/CalligraphyConfig.java:328-335 | a later loadable variant overrides an earlier one |
| CalligraphyConfig.Builder.constructor | calligraphy/src/main/java/uk/co/chrisjenx/calligraphy/CalligraphyConfig.java:217-261 | a fresh builder has null font paths, isFontSet false, customViewCreation true, reflection iff Honeycomb or later, the library's attribute ids and no custom styles |
| CalligraphyConfig.Builder.SetFontAttrId | calligraphy/src/main/java/uk/co/chrisjenx/calligraphy/CalligraphyConfig.java:269-272 | changes only the regular attribute id and returns the same builder |
| CalligraphyConfig.Builder.SetBoldFontAttrId | calligraphy/src/main/java/uk/co/chrisjenx/calligraphy/CalligraphyConfig.java:280-283 | changes only the bold attribute id |
| CalligraphyConfig.Builder.SetItalicFontAttrId | calligraphy/src/main/java/uk/co/chrisjenx/calligraphy/CalligraphyConfig.java:291-294 | changes only the italic attribute id |
| CalligraphyConfig.Builder.SetBoldItalicFontAttrId | calligraphy/src/main/java/uk/co/chrisjenx/calligraphy/CalligraphyConfig.java:302-305 | changes only the bold-italic attribute id |
| CalligraphyConfig.Builder.SetInherentDefaultFontPaths | calligraphy/src/main/java/uk/co/chrisjenx/calligraphy/CalligraphyConfig.java:316-326 | throws IllegalStateException, changing nothing, iff the path is not inherent; otherwise loads the regular, bold, italic and bold-italic variants in that order |
| CalligraphyConfig.Builder.LoadDefaultFontPath | calligraphy/src/main/java/uk/co/chrisjenx/calligraphy/CalligraphyConfig.java:328-335 | a variant the asset loader opens becomes the default font path through setDefaultFontPath; a failure changes nothing |
| CalligraphyConfig.Builder.SetDefaultFontPath | calligraphy/src/main/java/uk/co/chrisjenx/calligraphy/CalligraphyConfig.java:344-348 | sets only the regular path, and isFontSet to whether it is non-empty |
| CalligraphyConfig.Builder.SetDefaultBoldFontPath | calligraphy/src/main/java/uk/co/chrisjenx/calligraphy/CalligraphyConfig.java:357-361 | sets only the bold path, and isFontSet to whether it is non-empty |
| CalligraphyConfig.Builder.SetDefaultItalicFontPath | calligraphy/src/main/java/uk/co/chrisjenx/calligraphy/CalligraphyConfig.java:370-374 | sets only the italic path, and isFontSet to whether it is non-empty |
| CalligraphyConfig.Builder.SetDefaultBoldItalicFontPath | calligraphy/src/main/java/uk/co/chrisjenx/calligraphy/CalligraphyConfig.java:383-387 | sets only the bold-italic path, and isFontSet to whether it is non-empty |
| CalligraphyConfig.Builder.DisablePrivateFactoryInjection | calligraphy/src/main/java/uk/co/chrisjenx/calligraphy/CalligraphyConfig.java:406-409 | sets reflection false and nothing else, so a second call changes nothing |
| CalligraphyConfig.Builder.DisableCustomViewInflation | calligraphy/src/main/java/uk/co/chrisjenx/calligraphy/CalligraphyConfig.java:434-437 | sets customViewCreation false and nothing else |
| CalligraphyConfig.Builder.AddCustomStyle | calligraphy/src/main/java/uk/co/chrisjenx/calligraphy/CalligraphyConfig.java:455-459 | a null class or attribute 0 leaves the builder unchanged; otherwise only that class's custom entry is put |
| CalligraphyConfig.Builder.Build | calligraphy/src/main/java/uk/co/chrisjenx/calligraphy/CalligraphyConfig.java:461-464 | isFontSet becomes whether the regular path is non-empty, overriding the variant setters; the configuration copies the builder and merges the class styles |
| CalligraphyConfig.DefaultConfigIsBlank | calligraphy/src/main/java/uk/co/chrisjenx/calligraphy/CalligraphyConfig.java:62-66 | the configuration get() creates has no font set, null paths, custom view creation on and exactly the default class styles |
| CalligraphyConfig.ConfigHolder.constructor | calligraphy/src/main/java/uk/co/chrisjenx/calligraphy/CalligraphyConfig.java:46 | there is no default configuration at first |
| CalligraphyConfig.ConfigHolder.InitDefault | calligraphy/src/main/java/uk/co/chrisjenx/calligraphy/CalligraphyConfig.java:54-56 | the instance becomes exactly the given configuration |
| CalligraphyConfig.ConfigHolder.Get | calligraphy/src/main/java/uk/co/chrisjenx/calligraphy/CalligraphyConfig.java:62-66 | answers the instance set by initDefault; without one it creates the default configuration and keeps it |
| CalligraphyConfig.SettledAnswersSame | calligraphy/src/main/java/uk/co/chrisjenx/calligraphy/CalligraphyConfig.java:62-66 | once get() has answered, it keeps answering the same configuration |
| CalligraphyUtils.ApplyTypefaceSpan | calligraphy/src/main/java/uk/co/chrisjenx/calligraphy/CalligraphyUtils.java:32-40 | null or empty text is returned unchanged; otherwise the same characters with the span over [0, length) and every other span kept |
| CalligraphyUtils.ApplyTypefaceSpanIdempotent | calligraphy/src/main/java/uk/co/chrisjenx/calligraphy/CalligraphyUtils.java:32-40 | spanning text twice with the same span is spanning it once |
| CalligraphyUtils.WithFontFlags | calligraphy/src/main/java/uk/co/chrisjenx/calligraphy/CalligraphyUtils.java:74 | the new paint flags keep every old flag, add subpixel and anti-alias, and set no other bit |
| CalligraphyUtils.WithTypefaceIdempotent | calligraphy/src/main/java/uk/co/chrisjenx/calligraphy/CalligraphyUtils.java:72-94 | applying the same typeface twice shows what applying it once shows |
| CalligraphyUtils.ApplyTypeface | calligraphy/src/main/java/uk/co/chrisjenx/calligraphy/CalligraphyUtils.java:53-94 | both overloads (the two-argument one is not deferred): true iff view and typeface are non-null; then the typeface is set, the flags are ORed in and, when deferred, the text is spanned; otherwise the view is unchanged |
| CalligraphyUtils.ApplyFontPath | calligraphy/src/main/java/uk/co/chrisjenx/calligraphy/CalligraphyUtils.java:105-114 | false and nothing changed for a null context or view; otherwise the font is loaded through the cache and the result is true iff the typeface is non-null |
| CalligraphyUtils.ApplyDefaultFont | calligraphy/src/main/java/uk/co/chrisjenx/calligraphy/CalligraphyUtils.java:116-124 | does nothing for a null argument or when no font is set; otherwise applies the configured path |
| CalligraphyUtils.FontOrDefault | calligraphy/src/main/java/uk/co/chrisjenx/calligraphy/CalligraphyUtils.java:139-145 | the explicit font wins when non-empty and loadable; the configured default is tried only when it is empty or failed, and only when a font is set |
| CalligraphyUtils.ApplyFontOrDefault | calligraphy/src/main/java/uk/co/chrisjenx/calligraphy/CalligraphyUtils.java:135-145 | the view shows the typeface FontOrDefault picks; the cache only grows, and a non-empty explicit path is cached |
| CalligraphyUtils.PullFontPathFromView | calligraphy/src/main/java/uk/co/chrisjenx/calligraphy/CalligraphyUtils.java:155-171 | null for attribute id -1, null attrs or an unknown entry name; otherwise the string resource when the resource id is positive, else the raw attribute value |
| CalligraphyUtils.PullFontPathFromStyle | calligraphy/src/main/java/uk/co/chrisjenx/calligraphy/CalligraphyUtils.java:182-200 | null for attribute id -1 or null attrs; never the empty string; otherwise exactly the styled attribute read when it succeeds with a non-empty value, and null when it fails, has no array or is empty |
| CalligraphyUtils.PullFontPathFromTextAppearance | calligraphy/src/main/java/uk/co/chrisjenx/calligraphy/CalligraphyUtils.java:210-240 | null for attribute id -1 or null attrs, or when the appearance lookup raises; with no typed array the attribute is read from resource -1, otherwise from the appearance id that was read; a successful read is answered as it is, a failing one gives null |
| CalligraphyUtils.PullFontPathFromTheme | calligraphy/src/main/java/uk/co/chrisjenx/calligraphy/CalligraphyUtils.java:250-268 | null for style or attribute id -1; otherwise what the theme holds for the resolved style |
| CalligraphyUtils.PullFontPathFromSubTheme | calligraphy/src/main/java/uk/co/chrisjenx/calligraphy/CalligraphyUtils.java:279-311 | null for style or attribute id -1 and when the sub-style id is -1 or missing; otherwise exactly what the read from the sub-style gives, null when it fails |
| CalligraphyUtils.V7SettledAnswersSame | calligraphy/src/main/java/uk/co/chrisjenx/calligraphy/CalligraphyUtils.java:320-330 | storing the probe's answer never changes what the probe answers |
| CalligraphyUtils.ToolbarCheck.constructor | calligraphy/src/main/java/uk/co/chrisjenx/calligraphy/CalligraphyUtils.java:313 | the v7 probe starts unanswered |
| CalligraphyUtils.ToolbarCheck.CanCheckForV7Toolbar | calligraphy/src/main/java/uk/co/chrisjenx/calligraphy/CalligraphyUtils.java:320-330 | the first call stores whether the class is present, and every call answers the stored value |
| CalligraphyFactory.MatchesResourceIdName | calligraphy/src/main/java/uk/co/chrisjenx/calligraphy/CalligraphyFactory.java:91-95 | false for NO_ID; otherwise whether the entry name equals the given name ignoring case |
| CalligraphyFactory.GetStyleForTextView | calligraphy/src/main/java/uk/co/chrisjenx/calligraphy/CalligraphyFactory.java:29-46 | two elements; title before subtitle uses the action-bar style with the title or subtitle text style; any other view has sub-style -1 and its class style, else textAppearance |
| CalligraphyFactory.SubStyleOnlyForActionBar | calligraphy/src/main/java/uk/co/chrisjenx/calligraphy/CalligraphyFactory.java:29-46 | the sub-style is not -1 iff the view is an action-bar title or subtitle |
| CalligraphyFactory.Fallback | calligraphy/src/main/java/uk/co/chrisjenx/calligraphy/CalligraphyFactory.java:204-219 | the first non-empty entry of the chain, a later one consulted only when all earlier are empty; empty iff all are, then the last |
| CalligraphyFactory.ResolveFontPath | calligraphy/src/main/java/uk/co/chrisjenx/calligraphy/CalligraphyFactory.java:204-219 | the fallback over the view attribute, style and text-appearance lookups |
| CalligraphyFactory.ResolveWithoutAttrs | calligraphy/src/main/java/uk/co/chrisjenx/calligraphy/CalligraphyFactory.java:204-219 | with null attrs nothing is found |
| CalligraphyFactory.TextViewFontPathIsFallback | calligraphy/src/main/java/uk/co/chrisjenx/calligraphy/CalligraphyFactory.java:132-141 | the path of a text view is the fallback of the three lookups and then the theme, with the sub-style lookup iff the sub-style is not -1 |
| CalligraphyFactory.FontPostfix | calligraphy/src/main/java/uk/co/chrisjenx/calligraphy/CalligraphyFactory.java:149-158 | one of Regular, Bold, RegularItalic, BoldItalic; Bold in it iff the typeface is bold, Italic iff italic |
| CalligraphyFactory.InsertPostfix | calligraphy/src/main/java/uk/co/chrisjenx/calligraphy/CalligraphyFactory.java:159-160 | the rewritten path is the old one with a dash and the postfix inserted |
| CalligraphyFactory.InsertPostfixKeepsExtension | calligraphy/src/main/java/uk/co/chrisjenx/calligraphy/CalligraphyFactory.java:159-160 | the prefix up to the last dot is kept, then "-" and the postfix, then the old extension, which is still the last dot-suffix |
| CalligraphyFactory.InsertPostfixRemovable | calligraphy/src/main/java/uk/co/chrisjenx/calligraphy/CalligraphyFactory.java:159-160 | cutting the inserted postfix out gives the old path back |
| CalligraphyFactory.RewriteFontPath | calligraphy/src/main/java/uk/co/chrisjenx/calligraphy/CalligraphyFactory.java:146-162 | rewritten only when non-blank, missing and the view has a typeface; then the postfix goes before the last dot, or StringIndexOutOfBounds without a dot; otherwise unchanged |
| CalligraphyFactory.RewriteKeepsExtension | calligraphy/src/main/java/uk/co/chrisjenx/calligraphy/CalligraphyFactory.java:146-162 | a rewrite keeps the stem and the extension and inserts exactly "-" and the postfix |
| CalligraphyFactory.DefaultTypefaceFor | calligraphy/src/main/java/uk/co/chrisjenx/calligraphy/CalligraphyFactory.java:191-199 | a non-empty path is loaded; an empty one falls back to the configured path; null when both are empty |
| CalligraphyFactory.DefaultTypefaceTransparent | calligraphy/src/main/java/uk/co/chrisjenx/calligraphy/CalligraphyFactory.java:191-199 | the default typeface does not depend on what the cache learnt meanwhile |
| CalligraphyFactory.TextStep | calligraphy/src/main/java/uk/co/chrisjenx/calligraphy/CalligraphyFactory.java:121-165 | a text view is left alone iff its typeface is already Calligraphy-loaded |
| CalligraphyFactory.LoadedTextViewUntouched | calligraphy/src/main/java/uk/co/chrisjenx/calligraphy/CalligraphyFactory.java:125-127 | post-processing a text view whose typeface is loaded shows nothing new |
| CalligraphyFactory.PlainViewShowsTheSame | calligraphy/src/main/java/uk/co/chrisjenx/calligraphy/CalligraphyFactory.java:120-189 | a view that is neither text view, HasTypeface nor custom-supported shows what it showed before |
| CalligraphyFactory.TextOnlySpannedWhenDeferred | calligraphy/src/main/java/uk/co/chrisjenx/calligraphy/CalligraphyFactory.java:144 | the text is replaced by a spanned copy only for deferred, action-bar views |
| CalligraphyFactory.CalligraphyFactory.constructor | calligraphy/src/main/java/uk/co/chrisjenx/calligraphy/CalligraphyFactory.java:99-101 | the factory keeps the attribute id |
| CalligraphyFactory.CalligraphyFactory.OnViewCreated | calligraphy/src/main/java/uk/co/chrisjenx/calligraphy/CalligraphyFactory.java:112-118 | returns the view and ensures `PostProcessed`: null or already tagged views change nothing; otherwise it throws iff processing fails, and the view shows the processing outcome and is tagged, so a second call is a no-op; memos only settle |
| CalligraphyFactory.CalligraphyFactory.OnViewCreatedInternal | calligraphy/src/main/java/uk/co/chrisjenx/calligraphy/CalligraphyFactory.java:120-189 | the text step, then for a v7 toolbar a new layout listener with the subtitle blanked, then the custom-view step; fails only on the rewrite's exception |
| CalligraphyFactory.CalligraphyFactory.HookToolbar | calligraphy/src/main/java/uk/co/chrisjenx/calligraphy/CalligraphyFactory.java:169-172 | only a v7 toolbar gets a fresh listener, appended after the others, remembering the old subtitle, which is now blank |
| CalligraphyFactory.CalligraphyFactory.ApplyTextStep | calligraphy/src/main/java/uk/co/chrisjenx/calligraphy/CalligraphyFactory.java:121-165 | the outcome and new view state are those of the text-step specification |
| CalligraphyFactory.CalligraphyFactory.ApplyRewriteStep | calligraphy/src/main/java/uk/co/chrisjenx/calligraphy/CalligraphyFactory.java:144-164 | the outcome and new view state are those of the rewrite-and-apply part of the text step: the rewrite's exception changes nothing, otherwise the view shows the typeface FontOrDefault picks |
| CalligraphyFactory.CalligraphyFactory.FontPathForTextView | calligraphy/src/main/java/uk/co/chrisjenx/calligraphy/CalligraphyFactory.java:132-141 | the path is the text-view fallback chain over the current configuration |
| CalligraphyFactory.CalligraphyFactory.StyleForTextView | calligraphy/src/main/java/uk/co/chrisjenx/calligraphy/CalligraphyFactory.java:29-46 | answers GetStyleForTextView under the current configuration and v7 probe |
| CalligraphyFactory.CalligraphyFactory.CheckActionBarTitle | calligraphy/src/main/java/uk/co/chrisjenx/calligraphy/CalligraphyFactory.java:55-62 | true iff the id name is action_bar_title or the parent is a v7 toolbar whose title equals the text |
| CalligraphyFactory.CalligraphyFactory.CheckActionBarSubTitle | calligraphy/src/main/java/uk/co/chrisjenx/calligraphy/CalligraphyFactory.java:71-78 | likewise for action_bar_subtitle and the subtitle |
| CalligraphyFactory.CalligraphyFactory.CheckParentIsToolbarV7 | calligraphy/src/main/java/uk/co/chrisjenx/calligraphy/CalligraphyFactory.java:80-82 | true iff the v7 class is present and the parent is a non-null v7 toolbar |
| CalligraphyFactory.CalligraphyFactory.GetDefaultTypeface | calligraphy/src/main/java/uk/co/chrisjenx/calligraphy/CalligraphyFactory.java:191-199 | answers DefaultTypefaceFor over the cache before the call |
| CalligraphyFactory.CalligraphyFactory.ApplyLaterSteps | calligraphy/src/main/java/uk/co/chrisjenx/calligraphy/CalligraphyFactory.java:167-187 | a v7 toolbar gets a fresh listener and a blank subtitle, any other view no listener; the custom-view typeface, when there is one, replaces what the view showed |
| CalligraphyFactory.CalligraphyFactory.ApplyCustomStep | calligraphy/src/main/java/uk/co/chrisjenx/calligraphy/CalligraphyFactory.java:175-187 | a HasTypeface view, or a supported custom view, gets the default typeface when there is one; any other view is unchanged |
| CalligraphyFactory.ToolbarLayoutListener.constructor | calligraphy/src/main/java/uk/co/chrisjenx/calligraphy/CalligraphyFactory.java:230-237 | remembers the factory, context, toolbar and its subtitle, and sets the subtitle to a blank |
| CalligraphyFactory.ToolbarLayoutListener.OnGlobalLayout | calligraphy/src/main/java/uk/co/chrisjenx/calligraphy/CalligraphyFactory.java:240-259 | nothing without a toolbar; only removes itself without factory or context, with the memos and the children unchanged in both cases; otherwise the memos only settle, and each child, in order, ends as its `Processing` outcome on the state before says (`ChildrenEnded`): on an exception the children before the failing one are processed, it and the later ones are unchanged and so is the toolbar; without one every child is processed and tagged, then the listener is removed and the subtitle restored |
| CalligraphyFactory.ToolbarLayoutListener.ProcessChildren | calligraphy/src/main/java/uk/co/chrisjenx/calligraphy/CalligraphyFactory.java:250-256 | the children are run through onViewCreated in order until one throws, and end as `ChildrenEnded` says for their outcomes on the state before; the memos only settle |
| CalligraphyFactory.ToolbarLayoutListener.ProcessChild | calligraphy/src/main/java/uk/co/chrisjenx/calligraphy/CalligraphyFactory.java:254 | one child ends as its outcome on the state before says, and the outcomes of the later children stay what they were |
| CalligraphyFactory.ChildOutcomes | calligraphy/src/main/java/uk/co/chrisjenx/calligraphy/CalligraphyFactory.java:253-255 | one outcome per child, each the `Processing` outcome of that child on the same state |
| CalligraphyFactory.ChildrenEndedAtStop | calligraphy/src/main/java/uk/co/chrisjenx/calligraphy/CalligraphyFactory.java:253-255 | a loop that stopped at the first exception, or at the end, with the children before it processed and the later ones untouched, is one `ChildrenEnded` describes |
| CalligraphyFactory.ProcessingTransparent | calligraphy/src/main/java/uk/co/chrisjenx/calligraphy/CalligraphyFactory.java:120-189 | growing the font cache by loader answers does not change how a view is processed, so a child processed after others sees what it would have seen first |
| CalligraphyFactory.TextStepTransparent | calligraphy/src/main/java/uk/co/chrisjenx/calligraphy/CalligraphyFactory.java:121-165 | the same for the text-view step |
| CalligraphyUtils.FontOrDefaultTransparent | calligraphy/src/main/java/uk/co/chrisjenx/calligraphy/CalligraphyUtils.java:139-145 | the same for the typeface FontOrDefault settles on |
| CalligraphyFactory.ToolbarLayoutListener.RemoveSelf | calligraphy/src/main/java/uk/co/chrisjenx/calligraphy/CalligraphyFactory.java:261-268 | removes this listener, and only it, from the toolbar |
| CalligraphyLayoutInflater.Wrap | calligraphy/src/main/java/uk/co/chrisjenx/calligraphy/CalligraphyLayoutInflater.java:70-77 | the installed factory is a wrapper around the same application factory; a wrapper is installed as it is, anything else is wrapped with this inflater's post-processor |
| CalligraphyLayoutInflater.Wrap2 | calligraphy/src/main/java/uk/co/chrisjenx/calligraphy/CalligraphyLayoutInflater.java:81-88 | the same for Factory2 |
| CalligraphyLayoutInflater.WrapIdempotent | calligraphy/src/main/java/uk/co/chrisjenx/calligraphy/CalligraphyLayoutInflater.java:70-77 | setting an installed wrapper again installs it unchanged: never wrapped twice |
| CalligraphyLayoutInflater.Wrap2Idempotent | calligraphy/src/main/java/uk/co/chrisjenx/calligraphy/CalligraphyLayoutInflater.java:81-88 | the same for Factory2 |
| CalligraphyLayoutInflater.SetUpFactory | calligraphy/src/main/java/uk/co/chrisjenx/calligraphy/CalligraphyLayoutInflater.java:64-66 | a null factory stays null; a set one ends wrapped around the same factory; a wrapper is kept |
| CalligraphyLayoutInflater.SetUpFactory2 | calligraphy/src/main/java/uk/co/chrisjenx/calligraphy/CalligraphyLayoutInflater.java:56-63 | before Honeycomb, or with no Factory2, the slot is untouched; otherwise it ends wrapped; a wrapper is kept |
| CalligraphyLayoutInflater.SetUpIdempotent | calligraphy/src/main/java/uk/co/chrisjenx/calligraphy/CalligraphyLayoutInflater.java:56-67 | setting up twice is setting up once |
| CalligraphyLayoutInflater.LastCreated | calligraphy/src/main/java/uk/co/chrisjenx/calligraphy/CalligraphyLayoutInflater.java:100-106 | null iff every prefix fails; otherwise the view of a prefix after which every prefix failed |
| CalligraphyLayoutInflater.WebkitWinsOverWidget | calligraphy/src/main/java/uk/co/chrisjenx/calligraphy/CalligraphyLayoutInflater.java:21-24 | when the second prefix succeeds its view is kept |
| CalligraphyLayoutInflater.ViewContextFor | calligraphy/src/main/java/uk/co/chrisjenx/calligraphy/CalligraphyLayoutInflater.java:138-143 | the context is themed iff the theme id is non-zero, and then by that id |
| CalligraphyLayoutInflater.ActivityCreated | calligraphy/src/main/java/uk/co/chrisjenx/calligraphy/CalligraphyLayoutInflater.java:134-156 | a given view is passed through; only with no view and a dotted name is one constructed, null on failure; otherwise null |
| CalligraphyLayoutInflater.FactoryOnCreateView | calligraphy/src/main/java/uk/co/chrisjenx/calligraphy/CalligraphyLayoutInflater.java:177-182 | an application factory's view is handed back with nothing changed; a wrapper of null throws NullPointerException and changes nothing; any other wrapper ends in `PostProcessed` of the view its application factory creates, throwing iff processing fails and handing that view back otherwise |
| CalligraphyLayoutInflater.Factory2OnCreateView | calligraphy/src/main/java/uk/co/chrisjenx/calligraphy/CalligraphyLayoutInflater.java:198-210 | the same for both Factory2 hooks, with and without parent, on the view the application factory creates with that parent |
| CalligraphyLayoutInflater.CalligraphyLayoutInflater.constructor | calligraphy/src/main/java/uk/co/chrisjenx/calligraphy/CalligraphyLayoutInflater.java:29-34 | a new inflater has its context, attribute id, a fresh factory and no factories to wrap |
| CalligraphyLayoutInflater.CalligraphyLayoutInflater.CloneOf | calligraphy/src/main/java/uk/co/chrisjenx/calligraphy/CalligraphyLayoutInflater.java:36-41 | the original's factories are copied and set up |
| CalligraphyLayoutInflater.CalligraphyLayoutInflater.CloneInContext | calligraphy/src/main/java/uk/co/chrisjenx/calligraphy/CalligraphyLayoutInflater.java:44-46 | a fresh inflater in the new context with the same attribute id and set-up factories |
| CalligraphyLayoutInflater.CalligraphyLayoutInflater.SetUpLayoutFactories | calligraphy/src/main/java/uk/co/chrisjenx/calligraphy/CalligraphyLayoutInflater.java:56-67 | each slot ends as its set-up specification says |
| CalligraphyLayoutInflater.CalligraphyLayoutInflater.SetFactory | calligraphy/src/main/java/uk/co/chrisjenx/calligraphy/CalligraphyLayoutInflater.java:70-77 | installs Wrap of the factory and leaves the Factory2 slot alone |
| CalligraphyLayoutInflater.CalligraphyLayoutInflater.SetFactory2 | calligraphy/src/main/java/uk/co/chrisjenx/calligraphy/CalligraphyLayoutInflater.java:81-88 | installs Wrap2 of the factory and leaves the Factory slot alone |
| CalligraphyLayoutInflater.CalligraphyLayoutInflater.OnCreateView | calligraphy/src/main/java/uk/co/chrisjenx/calligraphy/CalligraphyLayoutInflater.java:99-112 | the view of the last prefix that succeeded, else the base class's, ending in `PostProcessed` of that view: processed and tagged, or unchanged if null or already tagged, throwing iff processing fails |
| CalligraphyLayoutInflater.CalligraphyLayoutInflater.OnCreateViewWithParent | calligraphy/src/main/java/uk/co/chrisjenx/calligraphy/CalligraphyLayoutInflater.java:119-123 | the base class's view, ending in `PostProcessed` of that view |
| CalligraphyLayoutInflater.CalligraphyLayoutInflater.OnActivityCreateView | calligraphy/src/main/java/uk/co/chrisjenx/calligraphy/CalligraphyLayoutInflater.java:134-158 | the ActivityCreated view, ending in `PostProcessed` of that view |
| ViewFactory.PrefixFor | calligraphy/src/main/java/uk/co/chrisjenx/calligraphy/ViewFactory.java:47-51 | android.widget. for a name without a dot, no prefix for a dotted one |
| ViewFactory.Created | calligraphy/src/main/java/uk/co/chrisjenx/calligraphy/ViewFactory.java:45-52 | a given view is returned as it is and nothing is created; otherwise the created view or null |
| ViewFactory.Notified | calligraphy/src/main/java/uk/co/chrisjenx/calligraphy/ViewFactory.java:54-58 | one notification per listener, in registration order |
| ViewFactory.RegisterThenUnregister | calligraphy/src/main/java/uk/co/chrisjenx/calligraphy/ViewFactory.java:19-25 | registering a new listener and unregistering it restores the registry |
| ViewFactory.DuplicateSurvivesUnregister | calligraphy/src/main/java/uk/co/chrisjenx/calligraphy/ViewFactory.java:19-25 | duplicates are allowed, and unregister removes only one copy |
| ViewFactory.ViewFactory.constructor | calligraphy/src/main/java/uk/co/chrisjenx/calligraphy/ViewFactory.java:13 | the registry starts empty |
| ViewFactory.ViewFactory.Register | calligraphy/src/main/java/uk/co/chrisjenx/calligraphy/ViewFactory.java:19-21 | appends the listener at the end |
| ViewFactory.ViewFactory.Unregister | calligraphy/src/main/java/uk/co/chrisjenx/calligraphy/ViewFactory.java:23-25 | removes the first equal listener, keeping the others in order |
| ViewFactory.ViewFactory.OnCreateView | calligraphy/src/main/java/uk/co/chrisjenx/calligraphy/ViewFactory.java:45-61 | answers Created; a non-null result is announced to every listener in order, a null one to none |
| ViewFactory.ViewFactory.OnCreateViewWithParent | calligraphy/src/main/java/uk/co/chrisjenx/calligraphy/ViewFactory.java:41-43 | the same, with the parent ignored |
| ViewFactory.OnActivityCreated | calligraphy/src/main/java/uk/co/chrisjenx/calligraphy/ViewFactory.java:31-39 | installs the activity as factory only when none is set, and shows the layout only when it is not 0 |
| ViewFactory.OnActivityCreatedWithoutLayout | calligraphy/src/main/java/uk/co/chrisjenx/calligraphy/ViewFactory.java:27-29 | installs the factory and shows nothing |

## Left out

- I/O, logging and the platform itself: attribute sets, typed arrays, themes, resources, asset loading, `createView` and reflection are inputs rather than code.
- `synchronized` in `TypefaceUtils.load`: the cache is modelled sequentially.
- The `-0.25f` skew is a boolean "skew applied"; floating point is not modelled.
- The `TextWatcher` installed in deferred mode is not modelled. The span is applied once, when the font is applied.
- `WeakReference` fields of `ToolbarLayoutListener` are nullable fields. Garbage collection is not modelled.
- `removeSelf` below Jelly Bean uses the deprecated removal call, which has the same effect. Only one is modelled.
- Text and spans are values: a `Spannable` shared with other holders is not modelled.
- A `setTypeface` call on a `HasTypeface` view, or through reflection on a custom view, is modelled as setting the view's typeface.
- Class styles are keyed by class name, and a view matches only an entry for its exact class, as `HashMap.get` on a `Class` does.
- `equalsIgnoreCase` folds ASCII letters only.
- `getResourceEntryName` is total. Its `NotFoundException` is not modelled.
- `Theme.obtainStyledAttributes` and the theme lookups never answer null.
- `ClassCastException` from `asSubclass` and other unchecked exceptions in `onActivityCreateView` are not separate outcomes. The construction function answers null for every failure.
- The platform's one-shot rule for `setFactory` is not modelled. Installing a `Factory2` also fills the `Factory` slot on the platform; the two slots are independent here.
- The exceptions of the base class's `onCreateView` are not modelled.
- A wrapper factory wraps an application factory or null, which is the only way the inflater builds one. An application factory that itself delegates to a Calligraphy wrapper is not modelled.
- Application factories and the view creation callbacks are functions: they change no state of their own.
- `CalligraphyFactory.CalligraphyFactory.OnViewCreated`: states that the font cache only grows, not which entries were added.
- `CalligraphyFactory.ToolbarLayoutListener.OnGlobalLayout`: requires that the toolbar is not its own child, that its children have it as their parent and that no child is listed twice, as a real view tree guarantees.
- `CalligraphyFactory.ToolbarLayoutListener.OnGlobalLayout`: when a child's processing throws, the exception leaves the listener. Children processed before that stay processed.
- `ViewFactory.OnActivityCreated`: the activity's inflater is modelled by its factory slot only. Wrapping by a Calligraphy inflater is not connected here.
- Not part of this model, because they hold no library logic or call helpers this version of the library does not define:
  - `WidgetHelper`, `CalligraphyContextWrapper`, `Calligraphy` and `ReflectionUtils`;
  - the interfaces `HasTypeface`, `CalligraphyFactoryPlugin`, `CalligraphyViewCreated`, `ActivityFactory2`, `CalligraphyActivityFactory`, `StyleProvider`;
  - the sample application.
