// The application's bookkeeping between frames: whether it is running, its
// window, whether the window is minimized, the window and viewport resizes
// waiting for the next frame, and how an event reaches the app components.
// Windows, callbacks, rendering stages and app components are opaque handles;
// what the graphics engine and the callbacks are asked to do is recorded as a
// list of calls.
module Application {
  import opened Wrappers
  import Device

  /** A resize waiting for the next frame: the window it came from, whether
      one is waiting, and the new size as uint32_t. */
  datatype ResizeInfo = ResizeInfo(context: Option<nat>, resized: bool, width: nat, height: nat)

  const NoResize := ResizeInfo(None, false, 0, 0)

  /** An event as the application dispatches it. */
  datatype Event = WindowClose(window: nat) | OtherEvent(kind: nat)

  /** A call the application makes on the engine or on a callback. */
  datatype Call =
    | WindowResized(window: nat, width: nat, height: nat)
    | ViewportResized(width: nat, height: nat)
    | ResizeCallback(callback: nat, width: nat, height: nat)

  /** A message the application reports. */
  datatype Diagnostic = AlreadyCreated

  /** How many components an event reaches when handled[i] says whether the
      i-th marks it handled: every component up to and including the first
      that handles it, or every component. */
  function Reached(handled: seq<bool>): (r: nat)
    ensures r <= |handled|
    ensures forall j :: 0 <= j < r - 1 ==> !handled[j]
    ensures r < |handled| ==> 0 < r && handled[r - 1]
    ensures (forall j :: 0 <= j < |handled| ==> !handled[j]) ==> r == |handled|
    decreases |handled|
  {
    if |handled| == 0 then 0
    else if handled[0] then 1
    else 1 + Reached(handled[1..])
  }

  /** The calls a viewport resize makes: the engine first, then every
      callback in the order added. */
  function ViewportCalls(callbacks: seq<nat>, width: nat, height: nat): (r: seq<Call>)
    ensures |r| == 1 + |callbacks| && r[0] == ViewportResized(width, height)
    ensures forall i :: 0 <= i < |callbacks| ==> r[i + 1] == ResizeCallback(callbacks[i], width, height)
  {
    [ViewportResized(width, height)] +
      seq(|callbacks|, i requires 0 <= i < |callbacks| => ResizeCallback(callbacks[i], width, height))
  }

  class Application {
    var name: string
    var running: bool
    var minimized: bool
    /** The application's window, while it is open. */
    var window: Option<nat>
    var windowResize: ResizeInfo
    var viewportResize: ResizeInfo
    var viewportResizeCallbacks: seq<nat>
    /** The additional updates of each rendering stage, in the order added. */
    var renderingStagesUpdate: map<nat, seq<nat>>
    /** The app components, in the order added. */
    var appComponents: seq<nat>
    /** Every component an event was handed to, in order. */
    var delivered: seq<nat>
    var calls: seq<Call>
    /** The frames rendered so far. */
    var frameCount: nat
    var log: seq<Diagnostic>

    /** A pending window resize knows its window. */
    ghost predicate Valid()
      reads this
    {
      windowResize.resized ==> windowResize.context.Some?
    }

    /** An application of this name with the given window, running and not
        minimized. Creating a second application is reported. */
    constructor (name: string, window: nat, components: seq<nat>, instanceExists: bool)
      ensures Valid()
      ensures this.name == name && running && !minimized && this.window == Some(window)
      ensures windowResize == NoResize && viewportResize == NoResize
      ensures appComponents == components && delivered == [] && calls == [] && frameCount == 0
      ensures log == if instanceExists then [AlreadyCreated] else []
    {
      this.name := name;
      running := true;
      minimized := false;
      this.window := Some(window);
      windowResize := NoResize;
      viewportResize := NoResize;
      viewportResizeCallbacks := [];
      renderingStagesUpdate := map[];
      appComponents := components;
      delivered := [];
      calls := [];
      frameCount := 0;
      log := if instanceExists then [AlreadyCreated] else [];
    }

    /** Stops the application. */
    method Close()
      modifies this`running
      ensures !running
    {
      running := false;
    }

    /** Forgets the window when it is the application's window. */
    method CloseWindow(w: nat)
      modifies this`window
      ensures window == if old(window) == Some(w) then None else old(window)
    {
      if window == Some(w) {
        window := None;
      }
    }

    /** Dispatches an event. Closing a window forgets it when it is the
        application's window and stops the application once it has no
        window; every event, a window close included, is then handed to the
        components in order until one marks it handled. */
    method OnEvent(e: Event, handled: seq<bool>)
      requires |handled| == |appComponents|
      modifies this`window, this`running, this`delivered
      ensures window == if e.WindowClose? && old(window) == Some(e.window) then None else old(window)
      ensures running == if e.WindowClose? && window.None? then false else old(running)
      ensures delivered == old(delivered) + appComponents[..Reached(handled)]
    {
      if e.WindowClose? {
        CloseWindow(e.window);
        if window.None? {
          Close();
        }
      }
      var n := Reached(handled);
      var i := 0;
      while i < |appComponents|
        invariant i <= n
        invariant forall j :: 0 <= j < i ==> !handled[j]
        invariant delivered == old(delivered) + appComponents[..i]
        invariant window == if e.WindowClose? && old(window) == Some(e.window) then None else old(window)
        invariant running == if e.WindowClose? && window.None? then false else old(running)
      {
        delivered := delivered + [appComponents[i]];
        assert appComponents[..i + 1] == appComponents[..i] + [appComponents[i]];
        if handled[i] {
          ReachedFirstHandled(handled, i);
          return;
        }
        ReachedPastUnhandled(handled, i);
        i := i + 1;
      }
    }

    /** A window resize: a zero width or height minimizes the application
        and leaves any waiting resize as it was; any other size un-minimizes
        it and makes a resize of that size, cast to uint32_t, wait for the
        next frame. */
    method OnWindowResize(w: nat, width: int, height: int)
      requires Valid()
      modifies this`minimized, this`windowResize
      ensures Valid()
      ensures width == 0 || height == 0 ==> minimized && windowResize == old(windowResize)
      ensures width != 0 && height != 0 ==>
        !minimized && windowResize == ResizeInfo(Some(w), true, width % Device.U32, height % Device.U32)
    {
      if width == 0 || height == 0 {
        minimized := true;
        return;
      }
      minimized := false;
      windowResize := ResizeInfo(Some(w), true, width % Device.U32, height % Device.U32);
    }

    /** A viewport resize waits for the next frame. */
    method OnViewportResize(width: nat, height: nat)
      requires Valid()
      modifies this`viewportResize
      ensures Valid()
      ensures viewportResize == old(viewportResize).(resized := true, width := width, height := height)
    {
      viewportResize := viewportResize.(resized := true, width := width, height := height);
    }

    /** Adds a callback run on every viewport resize. */
    method AddViewportResizeCallback(callback: nat)
      modifies this`viewportResizeCallbacks
      ensures viewportResizeCallbacks == old(viewportResizeCallbacks) + [callback]
    {
      viewportResizeCallbacks := viewportResizeCallbacks + [callback];
    }

    /** Adds an update run when the rendering stage is rendered. */
    method AddAdditionalRenderStageUpdate(stage: nat, update: nat)
      modifies this`renderingStagesUpdate
      ensures renderingStagesUpdate == old(renderingStagesUpdate)[stage :=
        (if stage in old(renderingStagesUpdate) then old(renderingStagesUpdate)[stage] else []) + [update]]
    {
      var updates := if stage in renderingStagesUpdate then renderingStagesUpdate[stage] else [];
      renderingStagesUpdate := renderingStagesUpdate[stage := updates + [update]];
    }

    /** Hands the waiting window resize to the engine; it no longer waits. */
    method WindowResize()
      requires windowResize.context.Some?
      modifies this`windowResize, this`calls
      ensures Valid()
      ensures windowResize == old(windowResize).(resized := false)
      ensures calls == old(calls) + [WindowResized(windowResize.context.value, windowResize.width, windowResize.height)]
    {
      windowResize := windowResize.(resized := false);
      calls := calls + [WindowResized(windowResize.context.value, windowResize.width, windowResize.height)];
    }

    /** Hands the waiting viewport resize to the engine and then to every
        callback; it no longer waits. */
    method ViewportResize()
      modifies this`viewportResize, this`calls
      ensures viewportResize == old(viewportResize).(resized := false)
      ensures calls == old(calls) + ViewportCalls(viewportResizeCallbacks, viewportResize.width, viewportResize.height)
    {
      viewportResize := viewportResize.(resized := false);
      var made := [ViewportResized(viewportResize.width, viewportResize.height)];
      for i := 0 to |viewportResizeCallbacks|
        invariant made == ViewportCalls(viewportResizeCallbacks[..i], viewportResize.width, viewportResize.height)
      {
        made := made + [ResizeCallback(viewportResizeCallbacks[i], viewportResize.width, viewportResize.height)];
      }
      assert viewportResizeCallbacks[..|viewportResizeCallbacks|] == viewportResizeCallbacks;
      calls := calls + made;
    }

    /** What a running application does in a frame once the window's events
        are handled: the waiting resizes are handed on, and a frame is
        rendered unless the application is minimized. Afterwards no resize
        waits. */
    method Frame()
      requires Valid()
      modifies this`windowResize, this`viewportResize, this`calls, this`frameCount
      ensures Valid() && !windowResize.resized && !viewportResize.resized
      ensures frameCount == old(frameCount) + (if minimized then 0 else 1)
      ensures calls == old(calls) +
        (if old(windowResize).resized
         then [WindowResized(old(windowResize).context.value, old(windowResize).width, old(windowResize).height)]
         else []) +
        (if old(viewportResize).resized
         then ViewportCalls(viewportResizeCallbacks, viewportResize.width, viewportResize.height)
         else [])
    {
      if windowResize.resized {
        WindowResize();
      }
      if viewportResize.resized {
        ViewportResize();
      }
      if !minimized {
        frameCount := frameCount + 1;
      }
    }
  }

  /** A component that marks the event handled is the last it reaches. */
  lemma {:induction false} ReachedFirstHandled(handled: seq<bool>, i: nat)
    requires i < |handled| && handled[i]
    requires forall j :: 0 <= j < i ==> !handled[j]
    ensures Reached(handled) == i + 1
    decreases i
  {
    if i > 0 {
      ReachedFirstHandled(handled[1..], i - 1);
    }
  }

  /** A component that does not mark the event handled is followed by the next. */
  lemma {:induction false} ReachedPastUnhandled(handled: seq<bool>, i: nat)
    requires i < |handled| && !handled[i]
    requires forall j :: 0 <= j <= i ==> !handled[j]
    ensures i + 1 <= Reached(handled)
    decreases i
  {
    if i > 0 {
      ReachedPastUnhandled(handled[1..], i - 1);
    }
  }
}
