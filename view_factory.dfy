/**
 * `ViewFactory`: a registry of `OnViewCreatedListener`s that are told, in
 * registration order, about every view its `onCreateView` hands back, and
 * the activity hook that installs the activity as its inflater's factory.
 */
module ViewFactory {
  import opened JavaLib
  import opened Android

  /** An `OnViewCreatedListener`; two listeners are the same when `equals` says so. */
  datatype Listener = Listener(id: nat)

  /** One `listener.onViewCreated(view, tag, context, attrs)` call. */
  datatype Notification = Notification(listener: Listener, view: View, tag: string)

  /** The package prefix a bare class name is created with: `android.widget.` without a `.`, none with one. */
  function PrefixFor(name: string): (r: JString)
    ensures r.None? <==> '.' in name
    ensures r.Some? ==> r.value == "android.widget."
  {
    if '.' !in name then Some("android.widget.") else None
  }

  /**
   * The view `onCreateView` hands back: the given one, else what the
   * inflater creates (`create` answers null for any exception, as
   * `createViewOrFailQuietly` does).
   */
  function Created(view: View?, name: string, create: (string, JString) -> View?): (r: View?)
    ensures view != null ==> r == view
    ensures view == null ==> r == create(name, PrefixFor(name))
  {
    if view != null then view else create(name, PrefixFor(name))
  }

  /** The notifications for `view`: one per listener, in the listeners' order. */
  function Notified(listeners: seq<Listener>, view: View, tag: string): (r: seq<Notification>)
    ensures |r| == |listeners|
    ensures forall i :: 0 <= i < |listeners| ==> r[i] == Notification(listeners[i], view, tag)
  {
    if listeners == [] then []
    else Notified(listeners[..|listeners| - 1], view, tag) + [Notification(listeners[|listeners| - 1], view, tag)]
  }

  /** A listener registered and unregistered again, without another copy of it around, leaves the registry as it was. */
  lemma {:induction false} RegisterThenUnregister(listeners: seq<Listener>, listener: Listener)
    requires listener !in listeners
    ensures RemoveFirst(listeners + [listener], listener) == listeners
  {
    var s := listeners + [listener];
    assert listener in s && s[|listeners|] == listener;
    var i := IndexOf(s, listener);
    assert i == |listeners|;
    assert s[..i] == listeners;
  }

  /** A listener registered twice stays registered after one unregister. */
  lemma DuplicateSurvivesUnregister(listeners: seq<Listener>, listener: Listener)
    ensures listener in RemoveFirst(listeners + [listener, listener], listener)
  {
    var s := listeners + [listener, listener];
    assert listener in s;
    var i := IndexOf(s, listener);
    assert s[|listeners|] == listener;
    assert i <= |listeners|;
    var r := RemoveFirst(s, listener);
    assert r == s[..i] + s[i + 1..];
    assert s[i + 1..][|s| - i - 2] == listener;
  }

  /** The static listener collection, and the calls made on the listeners so far. */
  class ViewFactory {
    var listeners: seq<Listener>
    var notifications: seq<Notification>

    constructor ()
      ensures listeners == [] && notifications == []
    {
      listeners := [];
      notifications := [];
    }

    /** `registerOnViewCreatedListener`: appends, duplicates allowed. */
    method Register(listener: Listener)
      modifies this
      ensures listeners == old(listeners) + [listener]
      ensures notifications == old(notifications)
    {
      listeners := listeners + [listener];
    }

    /** `unregisterOnViewCreatedListener`: drops the first equal listener, keeping the others in order. */
    method Unregister(listener: Listener)
      modifies this
      ensures listeners == RemoveFirst(old(listeners), listener)
      ensures listener in old(listeners) ==> multiset(listeners) == multiset(old(listeners)) - multiset{listener}
      ensures notifications == old(notifications)
    {
      if listener in listeners {
        RemoveFirstMultiset(listeners, listener);
      }
      listeners := RemoveFirst(listeners, listener);
    }

    /**
     * `onCreateView(view, name, context, attrs)`: creates a view only when none
     * is given, then tells every listener about a non-null result, in order.
     */
    method OnCreateView(view: View?, name: string, create: (string, JString) -> View?) returns (r: View?)
      modifies this
      ensures r == Created(view, name, create)
      ensures listeners == old(listeners)
      ensures r == null ==> notifications == old(notifications)
      ensures r != null ==> notifications == old(notifications) + Notified(listeners, r, name)
    {
      r := view;
      if r == null {
        var prefix: JString := None;
        if '.' !in name {
          prefix := Some("android.widget.");
        }
        r := create(name, prefix);
      }
      if r != null {
        for k := 0 to |listeners|
          invariant listeners == old(listeners)
          invariant notifications == old(notifications) + Notified(listeners[..k], r, name)
        {
          assert listeners[..k + 1][..k] == listeners[..k];
          notifications := notifications + [Notification(listeners[k], r, name)];
        }
        assert listeners[..|listeners|] == listeners;
      }
    }

    /** `onCreateView(view, parent, name, context, attrs)`: the parent plays no part. */
    method OnCreateViewWithParent(view: View?, parent: View?, name: string, create: (string, JString) -> View?)
      returns (r: View?)
      modifies this
      ensures r == Created(view, name, create)
      ensures listeners == old(listeners)
      ensures r == null ==> notifications == old(notifications)
      ensures r != null ==> notifications == old(notifications) + Notified(listeners, r, name)
    {
      r := OnCreateView(view, name, create);
    }
  }

  /** An activity, as far as `onActivityCreated` touches it. */
  class Activity {
    /** The factory installed on the activity's layout inflater, if any. */
    var inflaterFactory: Option<object>
    /** The layouts passed to `setContentView`, in order. */
    var contentViews: seq<int>

    constructor (inflaterFactory: Option<object>)
      ensures this.inflaterFactory == inflaterFactory && contentViews == []
    {
      this.inflaterFactory := inflaterFactory;
      contentViews := [];
    }
  }

  /**
   * `onActivityCreated(activity, layout)`: installs the activity as its
   * inflater's factory when none is set, and shows `layout` unless it is 0.
   */
  method OnActivityCreated(activity: Activity, layout: int)
    modifies activity
    ensures activity.inflaterFactory == if old(activity.inflaterFactory).None? then Some(activity as object)
                                        else old(activity.inflaterFactory)
    ensures activity.contentViews == old(activity.contentViews) + (if layout != 0 then [layout] else [])
  {
    if activity.inflaterFactory.None? {
      activity.inflaterFactory := Some(activity);
    }
    if layout != 0 {
      activity.contentViews := activity.contentViews + [layout];
    }
  }

  /** `onActivityCreated(activity)`: the same with no layout. */
  method OnActivityCreatedWithoutLayout(activity: Activity)
    modifies activity
    ensures activity.inflaterFactory == if old(activity.inflaterFactory).None? then Some(activity as object)
                                        else old(activity.inflaterFactory)
    ensures activity.contentViews == old(activity.contentViews)
  {
    OnActivityCreated(activity, 0);
  }
}
