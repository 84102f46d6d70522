/** The state of one dock node of the ReactiveUI model: its three child
    lists, the current / default / focused dockable, the active and
    collapsable flags, its proportion, its floating windows and its factory.

    Dockables and windows are objects: the model keeps their identity and
    nothing else. A C# `null` list is `None`; a `double.NaN` proportion
    ("unconstrained") is `None`. */
module DockCore {
  import opened Options

  /** The names a dock raises property-change notifications for. */
  datatype Property =
    | Visible | Hidden | Pinned
    | CurrentDockable | DefaultDockable | FocusedDockable
    | Proportion | IsActive | IsCollapsable
    | CanGoBack | CanGoForward
    | Windows | Factory

  /** One raised notification: the property's name, and the dockable that
      was current when it was raised (which shows where in a setter it was
      raised, relative to the store of `CurrentDockable`). */
  datatype Notice = Notice(property: Property, current: object?)

  /** The notification a property setter raises: one entry when the value
      changed, none when the new value equals the old one. */
  function Raised(changed: bool, p: Property, current: object?): seq<Notice> {
    if changed then [Notice(p, current)] else []
  }

  /** A call a dock forwards to its navigate adapter. */
  datatype AdapterCall =
    | GoBack
    | GoForward
    | Navigate(root: object?, trackHistory: bool)
    | ShowWindows
    | ExitWindows
    | Close

  /** The per-dock navigate adapter. Its history and window handling are not
      part of this model: it only records the calls it receives, and its
      answers to `CanGoBack` / `CanGoForward` are whatever its fields hold. */
  class NavigateAdapter {
    const host: object
    var canGoBack: bool
    var canGoForward: bool
    ghost var calls: seq<AdapterCall>

    constructor (host: object)
      ensures this.host == host && calls == []
    {
      this.host := host;
      canGoBack, canGoForward := false, false;
      calls := [];
    }

    method Receive(call: AdapterCall)
      modifies this
      ensures calls == old(calls) + [call]
    {
      calls := calls + [call];
    }
  }

  /** What the factory was asked, and what the asking dock held at that
      moment. */
  datatype FocusRequest = FocusRequest(
    dock: DockBase, dockable: object?,
    currentAtCall: object?, notifiedAtCall: seq<Notice>)

  /** The factory a dock is attached to. Its own `SetFocusedDockable` is not
      part of this model: it only records each request it receives. */
  class Factory {
    ghost var focusRequests: seq<FocusRequest>

    constructor ()
      ensures focusRequests == []
    {
      focusRequests := [];
    }

    method SetFocusedDockable(dock: DockBase, dockable: object?)
      modifies this
      ensures focusRequests == old(focusRequests) +
        [FocusRequest(dock, dockable, dock.currentDockable, dock.notifications)]
    {
      focusRequests := focusRequests +
        [FocusRequest(dock, dockable, dock.currentDockable, dock.notifications)];
    }
  }

  /** Every field of a dock at one moment. */
  datatype DockState = DockState(
    adapter: NavigateAdapter?,
    visible: Option<seq<object>>, hidden: Option<seq<object>>, pinned: Option<seq<object>>,
    currentDockable: object?, defaultDockable: object?, focusedDockable: object?,
    proportion: Option<real>, isCollapsable: bool, isActive: bool,
    windows: Option<seq<object>>, factory: Factory?)

  class DockBase {
    var adapter: NavigateAdapter?
    var visible: Option<seq<object>>
    var hidden: Option<seq<object>>
    var pinned: Option<seq<object>>
    var currentDockable: object?
    var defaultDockable: object?
    var focusedDockable: object?
    var proportion: Option<real>
    var isCollapsable: bool
    var isActive: bool
    var windows: Option<seq<object>>
    var factory: Factory?
    /** Property-change notifications raised so far, oldest first. */
    ghost var notifications: seq<Notice>

    ghost function State(): DockState
      reads this
    {
      DockState(adapter, visible, hidden, pinned, currentDockable, defaultDockable,
                focusedDockable, proportion, isCollapsable, isActive, windows, factory)
    }

    /** A new dock: no lists, no dockables, no windows and no factory;
        collapsable, inactive, proportion unconstrained, and a fresh navigate
        adapter bound to this dock. */
    constructor ()
      ensures fresh(adapter) && adapter.host == this && adapter.calls == []
      ensures isCollapsable && !isActive && proportion == None
      ensures visible == None && hidden == None && pinned == None && windows == None
      ensures currentDockable == null && defaultDockable == null && focusedDockable == null
      ensures factory == null && notifications == []
    {
      visible, hidden, pinned, windows := None, None, None, None;
      currentDockable, defaultDockable, focusedDockable := null, null, null;
      proportion := None;
      isCollapsable := true;
      isActive := false;
      factory := null;
      notifications := [];
      new;
      adapter := new NavigateAdapter(this);
    }

    method SetVisible(value: Option<seq<object>>)
      modifies this
      ensures State() == old(State()).(visible := value)
      ensures notifications == old(notifications) + Raised(old(visible) != value, Property.Visible, currentDockable)
    {
      if visible != value {
        visible := value;
        notifications := notifications + [Notice(Property.Visible, currentDockable)];
      }
    }

    method SetHidden(value: Option<seq<object>>)
      modifies this
      ensures State() == old(State()).(hidden := value)
      ensures notifications == old(notifications) + Raised(old(hidden) != value, Property.Hidden, currentDockable)
    {
      if hidden != value {
        hidden := value;
        notifications := notifications + [Notice(Property.Hidden, currentDockable)];
      }
    }

    method SetPinned(value: Option<seq<object>>)
      modifies this
      ensures State() == old(State()).(pinned := value)
      ensures notifications == old(notifications) + Raised(old(pinned) != value, Property.Pinned, currentDockable)
    {
      if pinned != value {
        pinned := value;
        notifications := notifications + [Notice(Property.Pinned, currentDockable)];
      }
    }

    /** Stores the new current dockable, then always announces that
        `CanGoBack` and `CanGoForward` may have changed, and then asks the
        attached factory, if any, to focus `value` in this dock. Every
        notification is raised after the store (each carries `value` as the
        current dockable), and the factory sees the dock with the store and
        all of them done. Membership of `value` in `visible` is not checked. */
    method SetCurrentDockable(value: object?)
      modifies this, factory
      ensures State() == old(State()).(currentDockable := value)
      ensures notifications == old(notifications)
        + Raised(old(currentDockable) != value, Property.CurrentDockable, value)
        + [Notice(Property.CanGoBack, value), Notice(Property.CanGoForward, value)]
      ensures factory != null ==>
                factory.focusRequests == old(factory.focusRequests) + [FocusRequest(this, value, value, notifications)]
    {
      if currentDockable != value {
        currentDockable := value;
        notifications := notifications + [Notice(Property.CurrentDockable, currentDockable)];
      }
      notifications := notifications + [Notice(Property.CanGoBack, currentDockable), Notice(Property.CanGoForward, currentDockable)];
      if factory != null {
        factory.SetFocusedDockable(this, value);
      }
    }

    method SetDefaultDockable(value: object?)
      modifies this
      ensures State() == old(State()).(defaultDockable := value)
      ensures notifications == old(notifications) + Raised(old(defaultDockable) != value, Property.DefaultDockable, currentDockable)
    {
      if defaultDockable != value {
        defaultDockable := value;
        notifications := notifications + [Notice(Property.DefaultDockable, currentDockable)];
      }
    }

    method SetFocusedDockable(value: object?)
      modifies this
      ensures State() == old(State()).(focusedDockable := value)
      ensures notifications == old(notifications) + Raised(old(focusedDockable) != value, Property.FocusedDockable, currentDockable)
    {
      if focusedDockable != value {
        focusedDockable := value;
        notifications := notifications + [Notice(Property.FocusedDockable, currentDockable)];
      }
    }

    method SetProportion(value: Option<real>)
      modifies this
      ensures State() == old(State()).(proportion := value)
      ensures notifications == old(notifications) + Raised(old(proportion) != value, Property.Proportion, currentDockable)
    {
      if proportion != value {
        proportion := value;
        notifications := notifications + [Notice(Property.Proportion, currentDockable)];
      }
    }

    method SetIsActive(value: bool)
      modifies this
      ensures State() == old(State()).(isActive := value)
      ensures notifications == old(notifications) + Raised(old(isActive) != value, Property.IsActive, currentDockable)
    {
      if isActive != value {
        isActive := value;
        notifications := notifications + [Notice(Property.IsActive, currentDockable)];
      }
    }

    method SetIsCollapsable(value: bool)
      modifies this
      ensures State() == old(State()).(isCollapsable := value)
      ensures notifications == old(notifications) + Raised(old(isCollapsable) != value, Property.IsCollapsable, currentDockable)
    {
      if isCollapsable != value {
        isCollapsable := value;
        notifications := notifications + [Notice(Property.IsCollapsable, currentDockable)];
      }
    }

    method SetWindows(value: Option<seq<object>>)
      modifies this
      ensures State() == old(State()).(windows := value)
      ensures notifications == old(notifications) + Raised(old(windows) != value, Property.Windows, currentDockable)
    {
      if windows != value {
        windows := value;
        notifications := notifications + [Notice(Property.Windows, currentDockable)];
      }
    }

    method SetFactory(value: Factory?)
      modifies this
      ensures State() == old(State()).(factory := value)
      ensures notifications == old(notifications) + Raised(old(factory) != value, Property.Factory, currentDockable)
    {
      if factory != value {
        factory := value;
        notifications := notifications + [Notice(Property.Factory, currentDockable)];
      }
    }

    /** True only when there is an adapter and it answers true. */
    function CanGoBack(): (r: bool)
      reads this, adapter
      ensures r ==> adapter != null
      ensures adapter != null ==> (r <==> adapter.canGoBack)
    {
      adapter != null && adapter.canGoBack
    }

    /** True only when there is an adapter and it answers true. */
    function CanGoForward(): (r: bool)
      reads this, adapter
      ensures r ==> adapter != null
      ensures adapter != null ==> (r <==> adapter.canGoForward)
    {
      adapter != null && adapter.canGoForward
    }

    /** Hands `call` to the adapter, if there is one; the dock itself is left
        as it was. */
    method Delegate(call: AdapterCall)
      modifies adapter
      ensures unchanged(this)
      ensures adapter != null ==> adapter.calls == old(adapter.calls) + [call]
    {
      if adapter != null {
        adapter.Receive(call);
      }
    }

    method GoBack()
      modifies adapter
      ensures unchanged(this)
      ensures adapter != null ==> adapter.calls == old(adapter.calls) + [AdapterCall.GoBack]
    {
      Delegate(AdapterCall.GoBack);
    }

    method GoForward()
      modifies adapter
      ensures unchanged(this)
      ensures adapter != null ==> adapter.calls == old(adapter.calls) + [AdapterCall.GoForward]
    {
      Delegate(AdapterCall.GoForward);
    }

    /** Navigation from the dock always asks the adapter to track history. */
    method Navigate(root: object?)
      modifies adapter
      ensures unchanged(this)
      ensures adapter != null ==> adapter.calls == old(adapter.calls) + [AdapterCall.Navigate(root, true)]
    {
      Delegate(AdapterCall.Navigate(root, true));
    }

    method ShowWindows()
      modifies adapter
      ensures unchanged(this)
      ensures adapter != null ==> adapter.calls == old(adapter.calls) + [AdapterCall.ShowWindows]
    {
      Delegate(AdapterCall.ShowWindows);
    }

    method ExitWindows()
      modifies adapter
      ensures unchanged(this)
      ensures adapter != null ==> adapter.calls == old(adapter.calls) + [AdapterCall.ExitWindows]
    {
      Delegate(AdapterCall.ExitWindows);
    }

    method Close()
      modifies adapter
      ensures unchanged(this)
      ensures adapter != null ==> adapter.calls == old(adapter.calls) + [AdapterCall.Close]
    {
      Delegate(AdapterCall.Close);
    }
  }

  /** Setting a plain property (here `Proportion`) twice to the same value is
      the same as setting it once: same state, same notifications. */
  method SetProportionTwice(d: DockBase, value: Option<real>)
    modifies d
    ensures d.State() == old(d.State()).(proportion := value)
    ensures d.notifications == old(d.notifications) + Raised(old(d.proportion) != value, Property.Proportion, d.currentDockable)
  {
    d.SetProportion(value);
    d.SetProportion(value);
  }

  /** Setting the current dockable twice to the same value is not the same as
      setting it once: the `CanGoBack` / `CanGoForward` notifications and the
      factory request are repeated, and the second request sees the second
      pair of notifications. */
  method SetCurrentDockableTwice(d: DockBase, value: object?)
    modifies d, d.factory
    ensures d.State() == old(d.State()).(currentDockable := value)
    ensures var once := old(d.notifications)
              + Raised(old(d.currentDockable) != value, Property.CurrentDockable, value)
              + [Notice(Property.CanGoBack, value), Notice(Property.CanGoForward, value)];
      && d.notifications == once + [Notice(Property.CanGoBack, value), Notice(Property.CanGoForward, value)]
      && (d.factory != null ==>
            d.factory.focusRequests == old(d.factory.focusRequests)
              + [FocusRequest(d, value, value, once), FocusRequest(d, value, value, d.notifications)])
  {
    d.SetCurrentDockable(value);
    d.SetCurrentDockable(value);
  }
}
