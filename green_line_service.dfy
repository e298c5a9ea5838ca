/**
  The overlay service: it reads a start request, replaces the single overlay
  it keeps registered with the window manager, and removes it on destroy.
 */
module Service {
  import opened LinePlan
  import opened Overlay

  datatype Option<+T> = None | Some(value: T)

  /** The extras a start request may carry; None is an extra that is absent. */
  datatype Intent = Intent(
    colors: Option<seq<string>>,
    lineCount: Option<int>,
    orientation: Option<string>,
    randomize: Option<bool>)

  const DEFAULT_LINE_COUNT: int := 10
  const DEFAULT_ORIENTATION: string := "vertical"
  const DEFAULT_RANDOMIZE: bool := false

  /** The restart mode the service reports: do not recreate after being killed. */
  const START_NOT_STICKY: int := 2

  function OrDefault<T>(o: Option<T>, default: T): T {
    match o
    case Some(v) => v
    case None => default
  }

  /**
    The configuration a start request asks for, or None when it names no
    colours (no request, no colour list, or an empty one). Absent extras take
    their defaults: 10 lines, "vertical", not randomised.
   */
  function RequestedConfig(intent: Option<Intent>): (c: Option<Config>)
    ensures c.Some? <==> intent.Some? && intent.value.colors.Some? && |intent.value.colors.value| > 0
    ensures c.Some? ==> ValidConfig(c.value) && c.value.colors == intent.value.colors.value
    ensures c.Some? ==> c.value.lineCount == OrDefault(intent.value.lineCount, DEFAULT_LINE_COUNT)
    ensures c.Some? ==> c.value.orientation == OrDefault(intent.value.orientation, DEFAULT_ORIENTATION)
    ensures c.Some? ==> c.value.randomize == OrDefault(intent.value.randomize, DEFAULT_RANDOMIZE)
  {
    match intent
    case None => None
    case Some(extras) =>
      match extras.colors
      case None => None
      case Some(colors) =>
        if |colors| == 0 then None
        else Some(Config(colors,
                         OrDefault(extras.lineCount, DEFAULT_LINE_COUNT),
                         OrDefault(extras.orientation, DEFAULT_ORIENTATION),
                         OrDefault(extras.randomize, DEFAULT_RANDOMIZE)))
  }

  /** The window compositor, seen only as the set of views added to it. */
  class WindowManager {
    var views: set<OverlayView>

    constructor ()
      ensures views == {}
    {
      views := {};
    }

    /** Adding a view that is already added is refused by the platform. */
    method AddView(v: OverlayView)
      requires v !in views
      modifies this
      ensures views == old(views) + {v}
    {
      views := views + {v};
    }

    /** Removing a view that is not added is refused by the platform. */
    method RemoveView(v: OverlayView)
      requires v in views
      modifies this
      ensures views == old(views) - {v}
    {
      views := views - {v};
    }
  }

  class GreenLineService {
    var windowManager: WindowManager
    var overlayView: OverlayView?

    /** The handle and the window manager agree: exactly the handled view is added. */
    ghost predicate Valid()
      reads this, windowManager
    {
      && (overlayView == null ==> windowManager.views == {})
      && (overlayView != null ==> windowManager.views == {overlayView})
    }

    /** Service creation: obtains the window manager; no overlay yet. */
    constructor ()
      ensures Valid() && overlayView == null && windowManager.views == {}
      ensures fresh(windowManager)
    {
      windowManager := new WindowManager();
      overlayView := null;
    }

    /**
      Handles a start request: any old overlay is removed first, and a new,
      not yet laid out overlay is added only when the request names colours.
     */
    method OnStartCommand(intent: Option<Intent>) returns (mode: int)
      requires Valid()
      modifies this, windowManager
      ensures Valid() && windowManager == old(windowManager)
      ensures mode == START_NOT_STICKY
      ensures |windowManager.views| <= 1
      ensures RequestedConfig(intent).None? ==> overlayView == null && windowManager.views == {}
      ensures RequestedConfig(intent).Some? ==>
                && overlayView != null && fresh(overlayView)
                && windowManager.views == {overlayView}
                && overlayView.Valid() && !overlayView.isInitialized
                && overlayView.Settings() == RequestedConfig(intent).value
    {
      if overlayView != null {
        windowManager.RemoveView(overlayView);
        overlayView := null;
      }
      var request := RequestedConfig(intent);
      if request.Some? {
        var c := request.value;
        var view := new OverlayView(c.colors, c.lineCount, c.orientation, c.randomize);
        overlayView := view;
        windowManager.AddView(view);
      }
      mode := START_NOT_STICKY;
    }

    /** Removes the overlay if there is one; with none it changes nothing. */
    method OnDestroy()
      requires Valid()
      modifies this, windowManager
      ensures Valid() && windowManager == old(windowManager)
      ensures overlayView == null && windowManager.views == {}
      ensures windowManager.views == old(windowManager.views) - (if old(overlayView) == null then {} else {old(overlayView)})
    {
      if overlayView != null {
        windowManager.RemoveView(overlayView);
      }
      overlayView := null;
    }
  }

  /** Two start requests in a row leave exactly the second request's overlay registered, if it names colours. */
  method StartTwice(service: GreenLineService, first: Option<Intent>, second: Option<Intent>)
    requires service.Valid()
    modifies service, service.windowManager
    ensures service.Valid()
    ensures |service.windowManager.views| == (if RequestedConfig(second).Some? then 1 else 0)
  {
    var _ := service.OnStartCommand(first);
    var _ := service.OnStartCommand(second);
  }

  /** A service created, started with a request and destroyed holds no overlay and no added view at the end. */
  method StartThenDestroy(request: Option<Intent>) returns (service: GreenLineService)
    ensures service.Valid()
    ensures service.overlayView == null && service.windowManager.views == {}
  {
    service := new GreenLineService();
    var _ := service.OnStartCommand(request);
    assert |service.windowManager.views| == (if RequestedConfig(request).Some? then 1 else 0);
    service.OnDestroy();
  }
}
