/**
 * `CalligraphyLayoutInflater`: a `LayoutInflater` that wraps whatever
 * `Factory`/`Factory2` is installed on it, exactly once, so every
 * view those factories create goes through the `CalligraphyFactory`
 * post-processor; it also post-processes the views it creates itself.
 */
module CalligraphyLayoutInflater {
  import opened JavaLib
  import opened Android
  import opened CalligraphyConfig
  import opened CalligraphyFactory

  /** `sClassPrefixList`, in the order the prefixes are tried. */
  const CLASS_PREFIX_LIST: seq<string> := ["android.widget.", "android.webkit."]

  /**
   * A `LayoutInflater.Factory`: one the application supplied, or the wrapper
   * around one. A wrapper is only ever built by `setFactory` around a factory
   * that is not a wrapper itself, so what it wraps is an application factory
   * (by id) or null.
   */
  datatype Factory = UserFactory(id: nat) | WrapperFactory(factory: Option<nat>, calligraphyFactory: CalligraphyFactory)

  /** A `LayoutInflater.Factory2`, likewise. */
  datatype Factory2 = UserFactory2(id: nat) | WrapperFactory2(factory2: Option<nat>, calligraphyFactory: CalligraphyFactory)

  /** The application factory a slot's factory comes down to; `None` when it is null or wraps null. */
  function Innermost(f: Option<Factory>): Option<nat> {
    if f.None? then None
    else match f.value
      case UserFactory(id) => Some(id)
      case WrapperFactory(inner, _) => inner
  }

  function Innermost2(f: Option<Factory2>): Option<nat> {
    if f.None? then None
    else match f.value
      case UserFactory2(id) => Some(id)
      case WrapperFactory2(inner, _) => inner
  }

  /**
   * What `setFactory(factory)` installs: a wrapper is kept as it is, anything
   * else is wrapped with the given post-processor. The result is always a
   * wrapper, around the same application factory.
   */
  function Wrap(factory: Option<Factory>, calligraphyFactory: CalligraphyFactory): (r: Factory)
    ensures r.WrapperFactory?
    ensures Innermost(Some(r)) == Innermost(factory)
    ensures factory.Some? && factory.value.WrapperFactory? ==> r == factory.value
    ensures !(factory.Some? && factory.value.WrapperFactory?) ==> r.calligraphyFactory == calligraphyFactory
  {
    if factory.Some? && factory.value.WrapperFactory? then factory.value
    else WrapperFactory(if factory.Some? then Some(factory.value.id) else None, calligraphyFactory)
  }

  /** What `setFactory2(factory2)` installs. */
  function Wrap2(factory2: Option<Factory2>, calligraphyFactory: CalligraphyFactory): (r: Factory2)
    ensures r.WrapperFactory2?
    ensures Innermost2(Some(r)) == Innermost2(factory2)
    ensures factory2.Some? && factory2.value.WrapperFactory2? ==> r == factory2.value
    ensures !(factory2.Some? && factory2.value.WrapperFactory2?) ==> r.calligraphyFactory == calligraphyFactory
  {
    if factory2.Some? && factory2.value.WrapperFactory2? then factory2.value
    else WrapperFactory2(if factory2.Some? then Some(factory2.value.id) else None, calligraphyFactory)
  }

  /** Installing what is already installed changes nothing: a factory is never wrapped twice. */
  lemma WrapIdempotent(factory: Option<Factory>, cf: CalligraphyFactory, other: CalligraphyFactory)
    ensures Wrap(Some(Wrap(factory, cf)), other) == Wrap(factory, cf)
  {
  }

  lemma Wrap2Idempotent(factory2: Option<Factory2>, cf: CalligraphyFactory, other: CalligraphyFactory)
    ensures Wrap2(Some(Wrap2(factory2, cf)), other) == Wrap2(factory2, cf)
  {
  }

  /** What `setUpLayoutFactories` leaves in the `Factory` slot: only a set, unwrapped factory is re-set. */
  function SetUpFactory(factory: Option<Factory>, cf: CalligraphyFactory): (r: Option<Factory>)
    ensures factory.None? ==> r.None?
    ensures factory.Some? ==> r.Some? && r.value.WrapperFactory? && Innermost(r) == Innermost(factory)
    ensures factory.Some? && factory.value.WrapperFactory? ==> r == factory
  {
    if factory.Some? && !factory.value.WrapperFactory? then Some(Wrap(factory, cf)) else factory
  }

  /** What `setUpLayoutFactories` leaves in the `Factory2` slot; before Honeycomb it is not touched. */
  function SetUpFactory2(factory2: Option<Factory2>, cf: CalligraphyFactory, sdkInt: int): (r: Option<Factory2>)
    ensures sdkInt < HONEYCOMB || factory2.None? ==> r == factory2
    ensures sdkInt >= HONEYCOMB && factory2.Some? ==> r.Some? && r.value.WrapperFactory2? && Innermost2(r) == Innermost2(factory2)
    ensures factory2.Some? && factory2.value.WrapperFactory2? ==> r == factory2
  {
    if sdkInt >= HONEYCOMB && factory2.Some? && !factory2.value.WrapperFactory2? then Some(Wrap2(factory2, cf))
    else factory2
  }

  /** Setting up twice is setting up once. */
  lemma SetUpIdempotent(factory: Option<Factory>, factory2: Option<Factory2>, cf: CalligraphyFactory,
                        other: CalligraphyFactory, sdkInt: int)
    ensures SetUpFactory(SetUpFactory(factory, cf), other) == SetUpFactory(factory, cf)
    ensures SetUpFactory2(SetUpFactory2(factory2, cf, sdkInt), other, sdkInt) == SetUpFactory2(factory2, cf, sdkInt)
  {
  }

  /**
   * The view kept by the prefix loop of `onCreateView(name, attrs)`: the one
   * made with the last prefix that succeeded, null when none did.
   * `createView(name, prefix)` is `None` when it throws `ClassNotFoundException`.
   */
  function LastCreated(name: string, prefixes: seq<string>, createView: (string, string) -> Option<View>): (r: View?)
    ensures r == null <==> forall i :: 0 <= i < |prefixes| ==> createView(name, prefixes[i]).None?
    ensures r != null ==> exists i :: 0 <= i < |prefixes| && createView(name, prefixes[i]) == Some(r)
                                     && forall j :: i < j < |prefixes| ==> createView(name, prefixes[j]).None?
    decreases |prefixes|
  {
    if prefixes == [] then null
    else
      var last := createView(name, prefixes[|prefixes| - 1]);
      if last.Some? then last.value
      else
        var r := LastCreated(name, prefixes[..|prefixes| - 1], createView);
        assert forall i :: 0 <= i < |prefixes| - 1 ==> prefixes[..|prefixes| - 1][i] == prefixes[i];
        r
  }

  /** With both prefixes succeeding, the `android.webkit.` view wins. */
  lemma WebkitWinsOverWidget(name: string, createView: (string, string) -> Option<View>)
    requires createView(name, "android.webkit.").Some?
    ensures LastCreated(name, CLASS_PREFIX_LIST, createView) == createView(name, "android.webkit.").value
  {
  }

  /** The view `onCreateView(name, attrs)` hands on: a prefixed one, else the base class's. */
  function CreatedView(name: string, createView: (string, string) -> Option<View>, baseCreate: string -> View?): View? {
    var view := LastCreated(name, CLASS_PREFIX_LIST, createView);
    if view == null then baseCreate(name) else view
  }

  /** The view the base class's `onCreateView(parent, name, attrs)` makes. */
  function BaseCreated(parent: View?, name: string, baseCreate: (View?, string) -> View?): View? {
    baseCreate(parent, name)
  }

  /** The context a class-named view is constructed with: the inflater's own, or one themed by the `theme` attribute. */
  datatype ViewContext = InflaterContext | Themed(themeResId: int)

  function ViewContextFor(themeResId: int): (r: ViewContext)
    ensures r.Themed? <==> themeResId != 0
    ensures r.Themed? ==> r.themeResId == themeResId
  {
    if themeResId != 0 then Themed(themeResId) else InflaterContext
  }

  /**
   * The view `onActivityCreateView` hands on: a given view as it is; otherwise,
   * for a class name with a `.`, the one the reflective constructor makes
   * (`construct` answers null on any of the caught exceptions); otherwise null.
   */
  function ActivityCreated(view: View?, name: string, themeResId: int, attrs: Option<AttributeSet>,
                           construct: (string, ViewContext, Option<AttributeSet>) -> View?): (r: View?)
    ensures view != null ==> r == view
    ensures view == null && '.' !in name ==> r == null
    ensures view == null && '.' in name ==> r == construct(name, ViewContextFor(themeResId), attrs)
  {
    if view == null && '.' in name then construct(name, ViewContextFor(themeResId), attrs) else view
  }

  /** The callbacks of the application's own factories, by factory id. */
  datatype UserFactories = UserFactories(
    /** `Factory.onCreateView(name, context, attrs)` */
    create: (nat, string) -> View?,
    /** `Factory2.onCreateView(parent, name, context, attrs)` */
    createWithParent: (nat, View?, string) -> View?)

  /** The view the application factory behind `f` creates; null when `f` wraps null. */
  function CreatedBy(f: Factory, name: string, user: UserFactories): View? {
    var id := Innermost(Some(f));
    if id.Some? then user.create(id.value, name) else null
  }

  function CreatedBy2(f: Factory2, parent: Option<View?>, name: string, user: UserFactories): View? {
    var id := Innermost2(Some(f));
    if id.None? then null
    else if parent.Some? then user.createWithParent(id.value, parent.value, name)
    else user.create(id.value, name)
  }

  /**
   * `Factory.onCreateView(name, context, attrs)`: an application factory
   * creates the view, changing nothing else; a wrapper around null throws
   * `NullPointerException`; any other wrapper has the application factory
   * create the view and post-processes it. An exception from post-processing
   * propagates, so no view is handed back.
   */
  method FactoryOnCreateView(f: Factory, name: string, context: Context, attrs: Option<AttributeSet>,
                             user: UserFactories, rt: Runtime)
    returns (v: View?, threw: bool)
    modifies CreatedBy(f, name, user), rt.fonts, rt.configs, rt.toolbarCheck
    ensures f.UserFactory? ==> !threw && v == user.create(f.id, name)
    ensures f.WrapperFactory? && f.factory.None? ==> threw && v == null
    ensures f.UserFactory? || f.factory.None? ==>
              && unchanged(rt.fonts, rt.configs, rt.toolbarCheck)
              && (v != null ==> unchanged(v))
    ensures f.WrapperFactory? && f.factory.Some? ==>
              var created := user.create(f.factory.value, name);
              && f.calligraphyFactory.PostProcessed(created, context, attrs, rt, threw)
              && v == if threw then null else created
  {
    match f
    case UserFactory(id) =>
      v, threw := user.create(id, name), false;
    case WrapperFactory(inner, calligraphyFactory) =>
      if inner.None? {
        return null, true;
      }
      v, threw := calligraphyFactory.OnViewCreated(user.create(inner.value, name), context, attrs, rt);
      if threw {
        v := null;
      }
  }

  /**
   * `Factory2.onCreateView`, with (`parent.Some?`) or without the parent
   * argument; as `FactoryOnCreateView`.
   */
  method Factory2OnCreateView(f: Factory2, parent: Option<View?>, name: string, context: Context,
                              attrs: Option<AttributeSet>, user: UserFactories, rt: Runtime)
    returns (v: View?, threw: bool)
    modifies CreatedBy2(f, parent, name, user), rt.fonts, rt.configs, rt.toolbarCheck
    ensures f.UserFactory2? ==> !threw && v == CreatedBy2(f, parent, name, user)
    ensures f.WrapperFactory2? && f.factory2.None? ==> threw && v == null
    ensures f.UserFactory2? || f.factory2.None? ==>
              && unchanged(rt.fonts, rt.configs, rt.toolbarCheck)
              && (v != null ==> unchanged(v))
    ensures f.WrapperFactory2? && f.factory2.Some? ==>
              var created := CreatedBy2(f, parent, name, user);
              && f.calligraphyFactory.PostProcessed(created, context, attrs, rt, threw)
              && v == if threw then null else created
  {
    match f
    case UserFactory2(id) =>
      v := if parent.Some? then user.createWithParent(id, parent.value, name) else user.create(id, name);
      threw := false;
    case WrapperFactory2(inner, calligraphyFactory) =>
      if inner.None? {
        return null, true;
      }
      var created := if parent.Some? then user.createWithParent(inner.value, parent.value, name)
                     else user.create(inner.value, name);
      v, threw := calligraphyFactory.OnViewCreated(created, context, attrs, rt);
      if threw {
        v := null;
      }
  }

  class CalligraphyLayoutInflater {
    const context: Context
    const attributeId: int
    const calligraphyFactory: CalligraphyFactory
    /** `Build.VERSION.SDK_INT` */
    const sdkInt: int
    /** The platform's `Factory` slot. */
    var factory: Option<Factory>
    /** The platform's `Factory2` slot. */
    var factory2: Option<Factory2>

    /** `CalligraphyLayoutInflater(context, attributeId)`: a new inflater has no factories to wrap. */
    constructor (context: Context, attributeId: int, sdkInt: int)
      ensures this.context == context && this.attributeId == attributeId && this.sdkInt == sdkInt
      ensures fresh(calligraphyFactory) && calligraphyFactory.attributeId == attributeId
      ensures factory == None && factory2 == None
    {
      this.context := context;
      this.attributeId := attributeId;
      this.sdkInt := sdkInt;
      calligraphyFactory := new CalligraphyFactory(attributeId);
      factory := None;
      factory2 := None;
      new;
      SetUpLayoutFactories();
    }

    /**
     * `CalligraphyLayoutInflater(original, newContext, attributeId)`: the
     * platform copies the original's factories, which are then set up.
     */
    constructor CloneOf(original: CalligraphyLayoutInflater, newContext: Context, attributeId: int)
      ensures context == newContext && this.attributeId == attributeId && sdkInt == original.sdkInt
      ensures fresh(calligraphyFactory) && calligraphyFactory.attributeId == attributeId
      ensures factory == SetUpFactory(original.factory, calligraphyFactory)
      ensures factory2 == SetUpFactory2(original.factory2, calligraphyFactory, original.sdkInt)
    {
      context := newContext;
      this.attributeId := attributeId;
      sdkInt := original.sdkInt;
      calligraphyFactory := new CalligraphyFactory(attributeId);
      factory := original.factory;
      factory2 := original.factory2;
      new;
      SetUpLayoutFactories();
    }

    /** `cloneInContext(newContext)`: a new inflater with this one's attribute id and factories. */
    method CloneInContext(newContext: Context) returns (r: CalligraphyLayoutInflater)
      ensures fresh(r) && r.context == newContext && r.attributeId == attributeId && r.sdkInt == sdkInt
      ensures r.factory == SetUpFactory(factory, r.calligraphyFactory)
      ensures r.factory2 == SetUpFactory2(factory2, r.calligraphyFactory, sdkInt)
    {
      r := new CalligraphyLayoutInflater.CloneOf(this, newContext, attributeId);
    }

    /** `setUpLayoutFactories()`: re-sets each installed factory that is not a wrapper yet. */
    method SetUpLayoutFactories()
      modifies this
      ensures factory == SetUpFactory(old(factory), calligraphyFactory)
      ensures factory2 == SetUpFactory2(old(factory2), calligraphyFactory, sdkInt)
    {
      if sdkInt >= HONEYCOMB {
        if factory2.Some? && !factory2.value.WrapperFactory2? {
          SetFactory2(factory2);
        }
      }
      if factory.Some? && !factory.value.WrapperFactory? {
        SetFactory(factory);
      }
    }

    /** `setFactory(factory)`: installs the factory, wrapped unless it is a wrapper already. */
    method SetFactory(f: Option<Factory>)
      modifies this
      ensures factory == Some(Wrap(f, calligraphyFactory)) && factory2 == old(factory2)
    {
      if !(f.Some? && f.value.WrapperFactory?) {
        factory := Some(WrapperFactory(if f.Some? then Some(f.value.id) else None, calligraphyFactory));
      } else {
        factory := f;
      }
    }

    /** `setFactory2(factory2)`: likewise for the `Factory2` slot. */
    method SetFactory2(f: Option<Factory2>)
      modifies this
      ensures factory2 == Some(Wrap2(f, calligraphyFactory)) && factory == old(factory)
    {
      if !(f.Some? && f.value.WrapperFactory2?) {
        factory2 := Some(WrapperFactory2(if f.Some? then Some(f.value.id) else None, calligraphyFactory));
      } else {
        factory2 := f;
      }
    }

    /**
     * `onCreateView(name, attrs)`: tries each class prefix in order, keeping the
     * last view made, falls back to the base class, and post-processes the result.
     */
    method OnCreateView(name: string, attrs: Option<AttributeSet>, createView: (string, string) -> Option<View>,
                        baseCreate: string -> View?, rt: Runtime)
      returns (v: View?, threw: bool)
      modifies CreatedView(name, createView, baseCreate), rt.fonts, rt.configs, rt.toolbarCheck
      ensures v == CreatedView(name, createView, baseCreate)
      ensures calligraphyFactory.PostProcessed(v, context, attrs, rt, threw)
    {
      var view: View? := null;
      for k := 0 to |CLASS_PREFIX_LIST|
        invariant view == LastCreated(name, CLASS_PREFIX_LIST[..k], createView)
      {
        var attempt := createView(name, CLASS_PREFIX_LIST[k]);
        assert CLASS_PREFIX_LIST[..k + 1][..k] == CLASS_PREFIX_LIST[..k];
        if attempt.Some? {
          view := attempt.value;
        }
      }
      assert CLASS_PREFIX_LIST[..|CLASS_PREFIX_LIST|] == CLASS_PREFIX_LIST;
      if view == null {
        view := baseCreate(name);
      }
      v, threw := calligraphyFactory.OnViewCreated(view, context, attrs, rt);
    }

    /** `onCreateView(parent, name, attrs)`: the base class's view, post-processed. */
    method OnCreateViewWithParent(parent: View?, name: string, attrs: Option<AttributeSet>,
                                  baseCreate: (View?, string) -> View?, rt: Runtime)
      returns (v: View?, threw: bool)
      modifies BaseCreated(parent, name, baseCreate), rt.fonts, rt.configs, rt.toolbarCheck
      ensures v == BaseCreated(parent, name, baseCreate)
      ensures calligraphyFactory.PostProcessed(v, context, attrs, rt, threw)
    {
      v, threw := calligraphyFactory.OnViewCreated(BaseCreated(parent, name, baseCreate), context, attrs, rt);
    }

    /**
     * `onActivityCreateView(view, name, attrs)`: constructs a view only when
     * none is given and the name is a full class name, in a context themed by
     * the `theme` attribute when that is non-zero; then post-processes.
     * `themeResId` is what the attribute read answers.
     */
    method OnActivityCreateView(view: View?, name: string, attrs: Option<AttributeSet>, themeResId: int,
                                construct: (string, ViewContext, Option<AttributeSet>) -> View?, rt: Runtime)
      returns (v: View?, threw: bool)
      modifies ActivityCreated(view, name, themeResId, attrs, construct), rt.fonts, rt.configs, rt.toolbarCheck
      ensures v == ActivityCreated(view, name, themeResId, attrs, construct)
      ensures calligraphyFactory.PostProcessed(v, context, attrs, rt, threw)
    {
      var created := view;
      if view == null && '.' in name {
        var viewContext := InflaterContext;
        if themeResId != 0 {
          viewContext := Themed(themeResId);
        }
        created := construct(name, viewContext, attrs);
      }
      v, threw := calligraphyFactory.OnViewCreated(created, context, attrs, rt);
    }
  }
}
