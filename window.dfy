/** `VulkanEngine::Window` (src/Window.hpp, src/Window.cpp): a GLFW window wrapper holding the
    window size, its title and the "framebuffer was resized" flag. GLFW's answers (whether
    glfwInit succeeds, the size glfwGetFramebufferSize reports) are parameters. */
module VulkanEngine {
  import opened Wrappers
  import opened Vulkan

  /** The fields a Window's operations read and write. */
  datatype WindowState = WindowState(width: int32, height: int32, windowName: string, frameBufferResized: bool)

  /** The GLFW window `initWindow` creates: the arguments it passes to glfwCreateWindow, whether
      the GLFW_CLIENT_API hint asked for no client API, the user pointer it stores on the window,
      and whether the framebuffer-size callback is set. */
  datatype NativeWindow = NativeWindow(width: int32, height: int32, title: string, noClientApi: bool,
                                       userPointer: Window?, resizeCallbackSet: bool)

  /** Everything that can happen to a Window after construction: GLFW invoking the private
      resize callback, or a call of one of the public operations. */
  datatype WindowEvent =
    | FrameBufferResize(reportedWidth: int32, reportedHeight: int32)
    | WasWindowResized
    | ResetWindowResizedFlag
    | FetchFrameBufferSize(framebufferWidth: int32, framebufferHeight: int32)
    | GetExtent
  {
    /** The callback is private and static; everything else is public API. */
    predicate IsPublic()
    {
      !FrameBufferResize?
    }
  }

  /** The effect of one event on the state. */
  function Apply(s: WindowState, e: WindowEvent): (next: WindowState)
  {
    match e
    case FrameBufferResize(_, _) => s.(frameBufferResized := true)
    case ResetWindowResizedFlag => s.(frameBufferResized := false)
    case FetchFrameBufferSize(w, h) => s.(width := w, height := h)
    case WasWindowResized => s
    case GetExtent => s
  }

  /** The state after a sequence of events, applied oldest first. */
  function Replay(s: WindowState, events: seq<WindowEvent>): (final: WindowState)
  {
    if events == [] then s else Apply(Replay(s, events[..|events| - 1]), events[|events| - 1])
  }

  /** No ResetWindowResizedFlag among the events after position `from`. */
  ghost predicate NoResetAfter(events: seq<WindowEvent>, from: int)
  {
    forall j :: 0 <= j < |events| && from < j ==> !events[j].ResetWindowResizedFlag?
  }

  /** No FetchFrameBufferSize among the events after position `from`. */
  ghost predicate NoFetchAfter(events: seq<WindowEvent>, from: int)
  {
    forall j :: 0 <= j < |events| && from < j ==> !events[j].FetchFrameBufferSize?
  }

  /** What `wasWindowResized` reports: the callback has fired since the last reset (or the flag
      was already set and no reset has happened). */
  lemma {:induction false} ResizedFlagMeansCallbackSinceReset(s: WindowState, events: seq<WindowEvent>)
    ensures Replay(s, events).frameBufferResized <==>
            (s.frameBufferResized && NoResetAfter(events, -1)) ||
            (exists i :: 0 <= i < |events| && events[i].FrameBufferResize? && NoResetAfter(events, i))
  {
    if events != [] {
      var n := |events| - 1;
      var prefix := events[..n];
      ResizedFlagMeansCallbackSinceReset(s, prefix);
      assert forall j :: 0 <= j < n ==> prefix[j] == events[j];
      if events[n].FrameBufferResize? {
        assert NoResetAfter(events, n);
      } else if events[n].ResetWindowResizedFlag? {
        assert !NoResetAfter(events, -1);
        assert forall i :: 0 <= i < n ==> !NoResetAfter(events, i);
      } else {
        if exists i :: 0 <= i < |events| && events[i].FrameBufferResize? && NoResetAfter(events, i) {
          var i :| 0 <= i < |events| && events[i].FrameBufferResize? && NoResetAfter(events, i);
          assert i < n && NoResetAfter(prefix, i);
        }
        if exists i :: 0 <= i < n && prefix[i].FrameBufferResize? && NoResetAfter(prefix, i) {
          var i :| 0 <= i < n && prefix[i].FrameBufferResize? && NoResetAfter(prefix, i);
          assert NoResetAfter(events, i);
        }
      }
    }
  }

  /** The public operations can only clear the flag or leave it: only the callback sets it. */
  lemma {:induction false} PublicOperationsNeverSetFlag(s: WindowState, events: seq<WindowEvent>)
    requires forall i :: 0 <= i < |events| ==> events[i].IsPublic()
    ensures Replay(s, events).frameBufferResized ==> s.frameBufferResized
  {
    if events != [] {
      var prefix := events[..|events| - 1];
      assert forall i :: 0 <= i < |prefix| ==> prefix[i] == events[i];
      PublicOperationsNeverSetFlag(s, prefix);
    }
  }

  /** After construction only `fetchFrameBufferSize` writes the size: it is the last fetched
      size, or the constructed one when nothing was fetched; the name never changes. */
  lemma {:induction false} SizeIsLastFetched(s: WindowState, events: seq<WindowEvent>)
    ensures Replay(s, events).windowName == s.windowName
    ensures NoFetchAfter(events, -1) ==>
              Replay(s, events).width == s.width && Replay(s, events).height == s.height
    ensures forall i :: 0 <= i < |events| && events[i].FetchFrameBufferSize? && NoFetchAfter(events, i) ==>
              Replay(s, events).width == events[i].framebufferWidth &&
              Replay(s, events).height == events[i].framebufferHeight
  {
    if events != [] {
      var n := |events| - 1;
      var prefix := events[..n];
      SizeIsLastFetched(s, prefix);
      assert forall j :: 0 <= j < n ==> prefix[j] == events[j];
      forall i | 0 <= i < |events| && events[i].FetchFrameBufferSize? && NoFetchAfter(events, i)
        ensures Replay(s, events).width == events[i].framebufferWidth
        ensures Replay(s, events).height == events[i].framebufferHeight
      {
        if i < n {
          assert NoFetchAfter(prefix, i);
        }
      }
    }
  }

  class Window {
    var width: int32
    var height: int32
    var windowName: string
    var frameBufferResized: bool
    /** The window `initWindow` created; None when glfwInit failed and `initWindow` returned early. */
    var nativeWindow: Option<NativeWindow>
    /** glfwSetErrorCallback has been called. */
    var errorCallbackSet: bool
    /** The state right after construction, and every event since, oldest first. */
    ghost var initial: WindowState
    ghost var events: seq<WindowEvent>

    function State(): WindowState
      reads this
    {
      WindowState(width, height, windowName, frameBufferResized)
    }

    /** The fields are what the recorded events made of the constructed state. */
    ghost predicate Valid()
      reads this
    {
      State() == Replay(initial, events)
    }

    /** `Window(width, height, WindowName)`: store the arguments, then `initWindow`, which
        creates the GLFW window from the stored values. */
    constructor (width: int32, height: int32, windowName: string, glfwInitSucceeds: bool)
      ensures State() == WindowState(width, height, windowName, false)
      ensures Valid() && initial == State() && events == []
      ensures nativeWindow == if glfwInitSucceeds then Some(NativeWindow(width, height, windowName, true, this, true)) else None
      ensures errorCallbackSet
    {
      this.width := width;
      this.height := height;
      this.windowName := windowName;
      frameBufferResized := false;
      initial := WindowState(width, height, windowName, false);
      events := [];
      new;
      InitWindow(glfwInitSucceeds);
    }

    /** The same constructor with its third argument left to the default that Window.cpp's
        definition gives it. */
    constructor WithDefaultName(width: int32, height: int32, glfwInitSucceeds: bool)
      ensures State() == WindowState(width, height, "Vulkan", false)
      ensures Valid() && initial == State() && events == []
      ensures nativeWindow == if glfwInitSucceeds then Some(NativeWindow(width, height, "Vulkan", true, this, true)) else None
      ensures errorCallbackSet
    {
      this.width := width;
      this.height := height;
      windowName := "Vulkan";
      frameBufferResized := false;
      initial := WindowState(width, height, "Vulkan", false);
      events := [];
      new;
      InitWindow(glfwInitSucceeds);
    }

    /** `Window()`: the member defaults, 800 x 600, an empty name, the flag clear. */
    constructor Default(glfwInitSucceeds: bool)
      ensures State() == WindowState(800, 600, "", false)
      ensures Valid() && initial == State() && events == []
      ensures nativeWindow == if glfwInitSucceeds then Some(NativeWindow(800, 600, "", true, this, true)) else None
      ensures errorCallbackSet
    {
      width, height := 800, 600;
      windowName := "";
      frameBufferResized := false;
      initial := WindowState(800, 600, "", false);
      events := [];
      new;
      InitWindow(glfwInitSucceeds);
    }

    /** `initWindow`: set the error callback; when glfwInit succeeds, create a window of the
        stored size and name, store this object as its user pointer and set the resize callback
        on it. It writes no other field. */
    method InitWindow(glfwInitSucceeds: bool)
      modifies this`nativeWindow, this`errorCallbackSet
      ensures errorCallbackSet
      ensures nativeWindow == if glfwInitSucceeds then Some(NativeWindow(width, height, windowName, true, this, true)) else None
    {
      errorCallbackSet := true;
      if !glfwInitSucceeds {
        nativeWindow := None;
        return;
      }
      var created := NativeWindow(width, height, windowName, true, null, false);
      created := created.(userPointer := this);
      created := created.(resizeCallbackSet := true);
      nativeWindow := Some(created);
    }

    /** `frameBufferResizeCallback`: GLFW reports a new framebuffer size, and the callback reaches
        this object through the window's user pointer; the flag is set whatever the size, and the
        size itself is left alone. */
    method FrameBufferResizeCallback(reportedWidth: int32, reportedHeight: int32)
      requires Valid()
      modifies this`frameBufferResized, this`events
      ensures frameBufferResized
      ensures State() == Apply(old(State()), FrameBufferResize(reportedWidth, reportedHeight))
      ensures events == old(events) + [FrameBufferResize(reportedWidth, reportedHeight)] && Valid()
    {
      frameBufferResized := true;
      events := events + [FrameBufferResize(reportedWidth, reportedHeight)];
    }

    /** `wasWindowResized`: the flag, read without changing anything. It reports whether the
        resize callback has fired since the last reset, or, with no reset yet, whether the flag
        was set at construction. */
    function WasWindowResized(): (resized: bool)
      requires Valid()
      reads this
      ensures resized <==> State().frameBufferResized
      ensures resized <==>
                (initial.frameBufferResized && NoResetAfter(events, -1)) ||
                (exists i :: 0 <= i < |events| && events[i].FrameBufferResize? && NoResetAfter(events, i))
      ensures Apply(State(), WindowEvent.WasWindowResized) == State()
    {
      ResizedFlagMeansCallbackSinceReset(initial, events);
      frameBufferResized
    }

    /** `resetWindowResizedFlag`: clear the flag and nothing else. */
    method ResetWindowResizedFlag()
      requires Valid()
      modifies this`frameBufferResized, this`events
      ensures !frameBufferResized
      ensures State() == Apply(old(State()), WindowEvent.ResetWindowResizedFlag)
      ensures events == old(events) + [WindowEvent.ResetWindowResizedFlag] && Valid()
    {
      frameBufferResized := false;
      events := events + [WindowEvent.ResetWindowResizedFlag];
    }

    /** `fetchFrameBufferSize`: overwrite the size with what glfwGetFramebufferSize reports. */
    method FetchFrameBufferSize(framebufferWidth: int32, framebufferHeight: int32)
      requires Valid()
      modifies this`width, this`height, this`events
      ensures width == framebufferWidth && height == framebufferHeight
      ensures State() == Apply(old(State()), WindowEvent.FetchFrameBufferSize(framebufferWidth, framebufferHeight))
      ensures events == old(events) + [WindowEvent.FetchFrameBufferSize(framebufferWidth, framebufferHeight)] && Valid()
    {
      width, height := framebufferWidth, framebufferHeight;
      events := events + [WindowEvent.FetchFrameBufferSize(framebufferWidth, framebufferHeight)];
    }

    /** `getExtent`: the size as `uint32_t`s; a negative `int` wraps modulo 2^32, and the
        conversion loses nothing. */
    function GetExtent(): (extent: Extent2D)
      reads this
      ensures width >= 0 ==> extent.width as int == width as int
      ensures width < 0 ==> extent.width as int == width as int + UINT32_MODULUS
      ensures height >= 0 ==> extent.height as int == height as int
      ensures height < 0 ==> extent.height as int == height as int + UINT32_MODULUS
      ensures ToInt32(extent.width) == width && ToInt32(extent.height) == height
    {
      Extent2D(ToUint32(width), ToUint32(height))
    }
  }
}
