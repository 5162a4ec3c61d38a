/** The window's resize-notification state: the framebuffer size last
    reported by the window system and a flag saying a resize happened that
    the renderer has not consumed yet. The window-system callback is an
    ordinary method, called on the same thread as everything else. */
module Windows {
  import opened VulkanTypes

  /** getExtent for a stored width and height: both cast to `uint32_t`. */
  function ExtentOf(width: int32, height: int32): (e: Extent)
    ensures 0 <= width ==> e.width as int == width as int
    ensures 0 <= height ==> e.height as int == height as int
    ensures (e.width == 0) == (width == 0) && (e.height == 0) == (height == 0)
  {
    Extent(ToUint32(width), ToUint32(height))
  }

  class Window {
    var width: int32
    var height: int32
    var frameBufferResize: bool
    const name: string

    constructor (w: int32, h: int32, name: string)
      ensures width == w && height == h && this.name == name
      ensures !frameBufferResize
      ensures GetExtent() == ExtentOf(w, h)
    {
      width, height, frameBufferResize := w, h, false;
      this.name := name;
    }

    /** getExtent: the stored size; negative sizes wrap as the cast does. */
    function GetExtent(): (e: Extent)
      reads this
      ensures 0 <= width ==> e.width as int == width as int
      ensures 0 <= height ==> e.height as int == height as int
      ensures width < 0 ==> e.width as int == width as int + 0x1_0000_0000
      ensures height < 0 ==> e.height as int == height as int + 0x1_0000_0000
    {
      ExtentOf(width, height)
    }

    /** wasWindowResized: the pending-resize flag. */
    function WasWindowResized(): (resized: bool)
      reads this
      ensures resized <==> frameBufferResize
    {
      frameBufferResize
    }

    /** resetWindowResizeFlag: clears the flag and keeps the size. */
    method ResetWindowResizeFlag()
      modifies this`frameBufferResize
      ensures !WasWindowResized()
      ensures GetExtent() == old(GetExtent())
    {
      frameBufferResize := false;
    }

    /** frameBufferResizeCallback: records the reported size and raises the flag. */
    method FrameBufferResizeCallback(w: int32, h: int32)
      modifies this`width, this`height, this`frameBufferResize
      ensures width == w && height == h
      ensures WasWindowResized()
      ensures GetExtent() == ExtentOf(w, h)
    {
      frameBufferResize := true;
      width := w;
      height := h;
    }
  }

  /** A client of the notification protocol: a resize is seen once, and
      clearing it keeps the reported size. */
  method ResizeNotificationScenario()
  {
    var window := new Window(1280, 720, "WoW");
    assert !window.WasWindowResized() && window.GetExtent() == Extent(1280, 720);
    window.FrameBufferResizeCallback(0, 0);
    window.FrameBufferResizeCallback(800, 600);
    assert window.WasWindowResized() && window.GetExtent() == Extent(800, 600);
    window.ResetWindowResizeFlag();
    assert !window.WasWindowResized() && window.GetExtent() == Extent(800, 600);
  }
}
