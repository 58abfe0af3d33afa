/**
 * `CalligraphyTypefaceSpan`: a text span that draws and measures its text in
 * one typeface and fakes the bold and italic the text had but the typeface lacks.
 */
module CalligraphyTypefaceSpan {
  import opened JavaLib
  import opened Android

  /** The span; its one field is never null once constructed. */
  datatype TypefaceSpan = TypefaceSpan(typeface: Typeface)

  /** The constructor's outcome: a span, or the `IllegalArgumentException` it throws. */
  datatype Construction = Constructed(span: TypefaceSpan) | IllegalArgument

  /** `new CalligraphyTypefaceSpan(typeface)`: refuses a null typeface. */
  function NewTypefaceSpan(typeface: Option<Typeface>): (r: Construction)
    ensures r.IllegalArgument? <==> typeface.None?
    ensures r.Constructed? ==> Some(r.span.typeface) == typeface
  {
    if typeface.None? then IllegalArgument else Constructed(TypefaceSpan(typeface.value))
  }

  /**
   * A `Paint`/`TextPaint`, as far as the span changes it. `skewed` stands for
   * "`setTextSkewX(-0.25f)` has been applied".
   */
  class Paint {
    var typeface: Option<Typeface>
    var fakeBoldText: bool
    var skewed: bool

    constructor (typeface: Option<Typeface>)
      ensures State() == PaintState(typeface, false, false)
    {
      this.typeface := typeface;
      fakeBoldText := false;
      skewed := false;
    }

    function State(): PaintState
      reads this
    {
      PaintState(typeface, fakeBoldText, skewed)
    }
  }

  datatype PaintState = PaintState(typeface: Option<Typeface>, fakeBoldText: bool, skewed: bool)

  /** The style a paint currently draws with; a paint without a typeface has style 0. */
  function OldStyle(typeface: Option<Typeface>): (r: bv32)
    ensures typeface.None? ==> r == 0
    ensures typeface.Some? ==> r == typeface.value.style
  {
    if typeface.Some? then typeface.value.style else 0
  }

  /** The styles the paint had that the span's typeface does not provide. */
  function FakeStyle(oldStyle: bv32, spanStyle: bv32): (r: bv32)
    ensures (r & BOLD != 0) <==> (oldStyle & BOLD != 0 && spanStyle & BOLD == 0)
    ensures (r & ITALIC != 0) <==> (oldStyle & ITALIC != 0 && spanStyle & ITALIC == 0)
  {
    oldStyle & !spanStyle
  }

  /** The paint after `apply`: fakes are only ever switched on, and the typeface is the span's. */
  function Applied(p: PaintState, span: TypefaceSpan): PaintState {
    var fake := FakeStyle(OldStyle(p.typeface), span.typeface.style);
    PaintState(Some(span.typeface),
               p.fakeBoldText || fake & BOLD != 0,
               p.skewed || fake & ITALIC != 0)
  }

  /** `apply(paint)`. */
  method Apply(span: TypefaceSpan, paint: Paint)
    modifies paint
    ensures paint.State() == Applied(old(paint.State()), span)
  {
    var oldTypeface := paint.typeface;
    var oldStyle := if oldTypeface.Some? then oldTypeface.value.style else 0;
    var fakeStyle := oldStyle & !span.typeface.style;
    if fakeStyle & BOLD != 0 {
      paint.fakeBoldText := true;
    }
    if fakeStyle & ITALIC != 0 {
      paint.skewed := true;
    }
    paint.typeface := Some(span.typeface);
  }

  /** `updateDrawState(drawState)`: applies the span to the paint used for drawing. */
  method UpdateDrawState(span: TypefaceSpan, drawState: Paint)
    modifies drawState
    ensures drawState.State() == Applied(old(drawState.State()), span)
  {
    Apply(span, drawState);
  }

  /** `updateMeasureState(paint)`: applies the span to the paint used for measuring. */
  method UpdateMeasureState(span: TypefaceSpan, paint: Paint)
    modifies paint
    ensures paint.State() == Applied(old(paint.State()), span)
  {
    Apply(span, paint);
  }

  /** After `apply` the paint draws in the span's typeface. */
  lemma AppliedTypeface(p: PaintState, span: TypefaceSpan)
    ensures Applied(p, span).typeface == Some(span.typeface)
  {
  }

  /** Fake bold is on afterwards exactly when it was on, or the old style was bold and the span's is not. */
  lemma AppliedFakeBold(p: PaintState, span: TypefaceSpan)
    ensures Applied(p, span).fakeBoldText
            <==> p.fakeBoldText || (OldStyle(p.typeface) & BOLD != 0 && span.typeface.style & BOLD == 0)
  {
  }

  /** Skew is on afterwards exactly when it was on, or the old style was italic and the span's is not. */
  lemma AppliedSkew(p: PaintState, span: TypefaceSpan)
    ensures Applied(p, span).skewed
            <==> p.skewed || (OldStyle(p.typeface) & ITALIC != 0 && span.typeface.style & ITALIC == 0)
  {
  }

  /** A paint without a typeface gets no fake styling. */
  lemma NoFakesFromNullTypeface(p: PaintState, span: TypefaceSpan)
    requires p.typeface.None?
    ensures Applied(p, span).fakeBoldText == p.fakeBoldText
    ensures Applied(p, span).skewed == p.skewed
  {
  }

  /** Applying twice is applying once: the second time the old style is the span's own. */
  lemma ApplyIdempotent(p: PaintState, span: TypefaceSpan)
    ensures Applied(Applied(p, span), span) == Applied(p, span)
  {
    var s := span.typeface.style;
    assert FakeStyle(s, s) & BOLD == 0;
    assert FakeStyle(s, s) & ITALIC == 0;
  }
}
