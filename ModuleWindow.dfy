/**
 * The window module (`ModuleWindow`, ModuleWindow.cpp): the display
 * settings, their load from and save to the JSON configuration, and the
 * SDL calls that create and adjust the native window.
 *
 * SDL is not modelled. Whether `SDL_Init` and `SDL_CreateWindow` succeed is
 * an input of `Init`, and every native call the module issues is appended
 * to `calls`, so a contract can say exactly which calls were made with
 * which arguments.
 */
module Window {
  import opened Globals
  import opened Wrappers
  import opened JsonConfig
  import DebugUI
  import SeqFacts

  // SDL_WindowFlags values of SDL 2 (SDL_video.h)
  const FullscreenFlag: bv32 := 0x1
  const OpenGLFlag: bv32 := 0x2
  const ShownFlag: bv32 := 0x4
  const BorderlessFlag: bv32 := 0x10
  const ResizableFlag: bv32 := 0x20
  /** SDL_WINDOW_FULLSCREEN_DESKTOP is SDL_WINDOW_FULLSCREEN together with the bit 0x1000. */
  const DesktopBit: bv32 := 0x1000
  const FullscreenDesktopFlag: bv32 := FullscreenFlag | DesktopBit

  /** A call into SDL issued by the module. */
  datatype SdlCall =
    | InitVideo
    | SetGLContextVersion(major: int, minor: int)
    | CreateWindow(title: string, width: int, height: int, flags: bv32)
    | SetWindowBrightness(value: real)
    | SetWindowTitle(title: string)
    | SetWindowSize(width: int, height: int)
    | SetWindowFullscreen(flags: bv32)
    | SetWindowBordered(bordered: bool)
    | DestroyWindow
    | QuitSdl

  /**
   * The creation flags of ModuleWindow.cpp:45-87 and 106-130: OPENGL and
   * SHOWN always, each optional flag exactly when its setting is on, and
   * no other bit. Because the FULLSCREEN_DESKTOP flag contains the
   * FULLSCREEN bit, that bit is set when either fullscreen setting is.
   */
  function CreationFlags(fullscreen: bool, resizable: bool, borderless: bool, fullDesktop: bool): (flags: bv32)
    ensures flags & (OpenGLFlag | ShownFlag) == OpenGLFlag | ShownFlag
    ensures (flags & FullscreenFlag != 0) <==> (fullscreen || fullDesktop)
    ensures (flags & DesktopBit != 0) <==> fullDesktop
    ensures (flags & BorderlessFlag != 0) <==> borderless
    ensures (flags & ResizableFlag != 0) <==> resizable
    ensures flags & !(FullscreenDesktopFlag | OpenGLFlag | ShownFlag | BorderlessFlag | ResizableFlag) == 0
  {
    OpenGLFlag | ShownFlag
    | (if fullscreen then FullscreenFlag else 0)
    | (if resizable then ResizableFlag else 0)
    | (if borderless then BorderlessFlag else 0)
    | (if fullDesktop then FullscreenDesktopFlag else 0)
  }

  /** The settings the module persists. */
  datatype WindowSettings = WindowSettings(
    width: int, height: int, brightness: real,
    fullscreen: bool, borderless: bool, fullDesktop: bool)

  /** The settings `Init` uses without a configuration (ModuleWindow.cpp:42-87). */
  function DefaultSettings(b: BuildConfig): WindowSettings {
    WindowSettings(b.screenWidth * b.screenSize, b.screenHeight * b.screenSize, 1.0,
                   b.winFullscreen, b.winBorderless, b.winFullscreenDesktop)
  }

  /** The settings `Init` reads from its configuration (ModuleWindow.cpp:96-104). */
  function LoadSettings(o: JsonObject, b: BuildConfig): WindowSettings {
    WindowSettings(Truncate(GetNumber(o, "width")) * b.screenSize,
                   Truncate(GetNumber(o, "height")) * b.screenSize,
                   GetNumber(o, "brightness"),
                   ReadBool(o, "fullscreen"), ReadBool(o, "borderless"), ReadBool(o, "fullDesktop"))
  }

  /** The writes of `CleanUp` under the "window" object (ModuleWindow.cpp:166-173). */
  function SaveSettings(doc: JsonObject, s: WindowSettings): JsonObject {
    var d1 := SetInSection(doc, "window", "width", Number(s.width as real));
    var d2 := SetInSection(d1, "window", "height", Number(s.height as real));
    var d3 := SetInSection(d2, "window", "fullscreen", Boolean(s.fullscreen));
    var d4 := SetInSection(d3, "window", "fullDesktop", Boolean(s.fullDesktop));
    var d5 := SetInSection(d4, "window", "borderless", Boolean(s.borderless));
    SetInSection(d5, "window", "brightness", Number(s.brightness))
  }

  /** The "window" object after `SaveSettings`: the six entries overwritten. */
  function SavedFields(f: JsonObject, s: WindowSettings): JsonObject {
    f["width" := Number(s.width as real)]["height" := Number(s.height as real)]
     ["fullscreen" := Boolean(s.fullscreen)]["fullDesktop" := Boolean(s.fullDesktop)]
     ["borderless" := Boolean(s.borderless)]["brightness" := Number(s.brightness)]
  }

  lemma SaveSettingsSection(doc: JsonObject, s: WindowSettings)
    requires HasObject(doc, "window")
    ensures HasObject(SaveSettings(doc, s), "window")
    ensures SaveSettings(doc, s)["window"].fields == SavedFields(doc["window"].fields, s)
  {
  }

  lemma LoadSavedFields(f: JsonObject, s: WindowSettings, b: BuildConfig)
    ensures LoadSettings(SavedFields(f, s), b) ==
      s.(width := s.width * b.screenSize, height := s.height * b.screenSize)
  {
    TruncateInt(s.width);
    TruncateInt(s.height);
  }

  /**
   * Saving settings and loading them back gives the same flags and
   * brightness, but the size once more multiplied by the scale factor. When
   * the document has no "window" object nothing is written.
   */
  lemma SaveThenLoad(doc: JsonObject, s: WindowSettings, b: BuildConfig)
    ensures !HasObject(doc, "window") ==> SaveSettings(doc, s) == doc
    ensures HasObject(doc, "window") ==>
      HasObject(SaveSettings(doc, s), "window") &&
      LoadSettings(SaveSettings(doc, s)["window"].fields, b) ==
        s.(width := s.width * b.screenSize, height := s.height * b.screenSize)
  {
    if HasObject(doc, "window") {
      SaveSettingsSection(doc, s);
      LoadSavedFields(doc["window"].fields, s, b);
    }
  }

  /**
   * Init from a configuration, CleanUp, then Init from what was written:
   * the stored size comes back scaled twice, everything else unchanged.
   */
  lemma ReloadScalesTwice(o: JsonObject, doc: JsonObject, b: BuildConfig)
    requires HasObject(doc, "window")
    ensures var first := LoadSettings(o, b);
      var second := LoadSettings(SaveSettings(doc, first)["window"].fields, b);
      && second.width == Truncate(GetNumber(o, "width")) * b.screenSize * b.screenSize
      && second.height == Truncate(GetNumber(o, "height")) * b.screenSize * b.screenSize
      && second.brightness == first.brightness
      && second.fullscreen == first.fullscreen && second.borderless == first.borderless
      && second.fullDesktop == first.fullDesktop
  {
    SaveThenLoad(doc, LoadSettings(o, b), b);
  }

  /** The console lines `Init` logs (ModuleWindow.cpp:26-143). */
  function InitLog(data: Option<JsonObject>, videoOk: bool, windowCreated: bool): seq<string> {
    ["Init SDL window & surface"] +
    if !videoOk then ["SDL_VIDEO could not initialize!"]
    else
      (if data.None? then ["Window config couldn't load, using default values!"] else ["Window config loaded"]) +
      (if windowCreated then [] else ["Window could not be created!"])
  }

  /**
   * The SDL calls `Init` issues to create the window once SDL video is up
   * (ModuleWindow.cpp:45-128): the OpenGL 2.1 context request, the window
   * creation with the settings' size and flags, and, only with a
   * configuration, the brightness.
   */
  function OpenCalls(s: WindowSettings, b: BuildConfig, fromConfig: bool): seq<SdlCall> {
    [SetGLContextVersion(2, 1),
     CreateWindow(b.title, s.width, s.height, CreationFlags(s.fullscreen, b.winResizable, s.borderless, s.fullDesktop))]
    + (if fromConfig then [SetWindowBrightness(s.brightness)] else [])
  }

  class ModuleWindow {
    const name: string := "window"
    const build: BuildConfig
    /** The members width, height, brightness, fullscreen, borderless and fullDesktop. */
    var settings: WindowSettings
    var title: string
    /** Whether the window handle is non-NULL. */
    var hasWindow: bool
    /** Every SDL call issued so far, oldest first. */
    var calls: seq<SdlCall>

    /**
     * A module with a NULL window. The source leaves the settings
     * uninitialised until `Init`; here they start at zero.
     */
    constructor (build: BuildConfig)
      ensures this.build == build
      ensures !hasWindow && calls == [] && title == ""
      ensures settings == WindowSettings(0, 0, 0.0, false, false, false)
    {
      this.build := build;
      settings := WindowSettings(0, 0, 0.0, false, false, false);
      title := "";
      hasWindow := false;
      calls := [];
    }

    /**
     * Starts SDL video and creates the window from the configuration, or
     * from the compiled-in defaults when there is none. Fails when SDL video
     * cannot start (nothing is set then) or when no window is created (the
     * settings are set all the same).
     */
    method Init(data: Option<JsonObject>, videoOk: bool, windowCreated: bool, console: DebugUI.ModuleImGui)
      returns (ok: bool)
      modifies this`settings, this`title, this`hasWindow, this`calls, console`consoleText
      ensures ok == (videoOk && windowCreated)
      ensures console.consoleText == old(console.consoleText) + InitLog(data, videoOk, windowCreated)
      ensures !videoOk ==>
        settings == old(settings) && hasWindow == old(hasWindow) && title == old(title) &&
        calls == old(calls) + [InitVideo]
      ensures videoOk ==>
        && settings == (if data.None? then DefaultSettings(build) else LoadSettings(data.value, build))
        && hasWindow == windowCreated
        && title == (if windowCreated then build.title else old(title))
        && calls == old(calls) + [InitVideo] + OpenCalls(settings, build, data.Some?)
                    + (if windowCreated then [SetWindowTitle(build.title)] else [])
    {
      console.AddLogToWindow("Init SDL window & surface");
      ok := true;
      calls := calls + [InitVideo];
      if !videoOk {
        console.AddLogToWindow("SDL_VIDEO could not initialize!");
        ok := false;
      } else {
        OpenWindow(data, console);
        hasWindow := windowCreated;
        if !hasWindow {
          console.AddLogToWindow("Window could not be created!");
          ok := false;
        } else {
          SetTitle(build.title);
        }
      }
      assert console.consoleText == old(console.consoleText) + ["Init SDL window & surface"] +
        (if !videoOk then ["SDL_VIDEO could not initialize!"]
         else
           (if data.None? then ["Window config couldn't load, using default values!"] else ["Window config loaded"]) +
           (if windowCreated then [] else ["Window could not be created!"]));
      SeqFacts.AppendThree(old(console.consoleText), ["Init SDL window & surface"],
        if !videoOk then ["SDL_VIDEO could not initialize!"]
        else
          (if data.None? then ["Window config couldn't load, using default values!"] else ["Window config loaded"]) +
          (if windowCreated then [] else ["Window could not be created!"]));
    }

    /** The branch of `Init` on whether a configuration was given (ModuleWindow.cpp:37-128). */
    method OpenWindow(data: Option<JsonObject>, console: DebugUI.ModuleImGui)
      modifies this`settings, this`calls, console`consoleText
      ensures settings == (if data.None? then DefaultSettings(build) else LoadSettings(data.value, build))
      ensures calls == old(calls) + OpenCalls(settings, build, data.Some?)
      ensures console.consoleText == old(console.consoleText) +
        [if data.None? then "Window config couldn't load, using default values!" else "Window config loaded"]
    {
      if data.None? {
        console.AddLogToWindow("Window config couldn't load, using default values!");
        var flags := UseDefaults();
        calls := calls + [CreateWindow(build.title, settings.width, settings.height, flags)];
      } else {
        console.AddLogToWindow("Window config loaded");
        var flags := UseConfig(data.value);
        calls := calls + [CreateWindow(build.title, settings.width, settings.height, flags),
                          SetWindowBrightness(settings.brightness)];
      }
    }

    /** The settings and creation flags `Init` uses without a configuration (ModuleWindow.cpp:41-87). */
    method UseDefaults() returns (flags: bv32)
      modifies this`settings, this`calls
      ensures settings == DefaultSettings(build)
      ensures flags == CreationFlags(settings.fullscreen, build.winResizable, settings.borderless, settings.fullDesktop)
      ensures calls == old(calls) + [SetGLContextVersion(2, 1)]
    {
      settings := settings.(width := build.screenWidth * build.screenSize,
                            height := build.screenHeight * build.screenSize,
                            brightness := 1.0);
      flags := OpenGLFlag | ShownFlag;
      calls := calls + [SetGLContextVersion(2, 1)];
      if build.winFullscreen {
        settings := settings.(fullscreen := true);
        flags := flags | FullscreenFlag;
      } else {
        settings := settings.(fullscreen := false);
      }
      if build.winResizable {
        flags := flags | ResizableFlag;
      }
      if build.winBorderless {
        settings := settings.(borderless := true);
        flags := flags | BorderlessFlag;
      } else {
        settings := settings.(borderless := false);
      }
      if build.winFullscreenDesktop {
        settings := settings.(fullDesktop := true);
        flags := flags | FullscreenDesktopFlag;
      } else {
        settings := settings.(fullDesktop := false);
      }
    }

    /** The settings and creation flags `Init` reads from a configuration (ModuleWindow.cpp:92-128). */
    method UseConfig(o: JsonObject) returns (flags: bv32)
      modifies this`settings, this`calls
      ensures settings == LoadSettings(o, build)
      ensures flags == CreationFlags(settings.fullscreen, build.winResizable, settings.borderless, settings.fullDesktop)
      ensures calls == old(calls) + [SetGLContextVersion(2, 1)]
    {
      settings := WindowSettings(Truncate(GetNumber(o, "width")), Truncate(GetNumber(o, "height")),
                                 GetNumber(o, "brightness"), ReadBool(o, "fullscreen"),
                                 ReadBool(o, "borderless"), ReadBool(o, "fullDesktop"));
      settings := settings.(width := settings.width * build.screenSize,
                            height := settings.height * build.screenSize);
      flags := OpenGLFlag | ShownFlag;
      calls := calls + [SetGLContextVersion(2, 1)];
      if settings.fullscreen {
        flags := flags | FullscreenFlag;
      }
      if build.winResizable {
        flags := flags | ResizableFlag;
      }
      if settings.borderless {
        flags := flags | BorderlessFlag;
      }
      if settings.fullDesktop {
        flags := flags | FullscreenDesktopFlag;
      }
    }

    /** Whether the window handle `GetWindow` returns is non-NULL. */
    method GetWindow() returns (present: bool)
      ensures present == hasWindow
    {
      present := hasWindow;
    }

    /** Writes the current settings under "window", destroys the window and quits SDL. */
    method CleanUp(doc: JsonObject, console: DebugUI.ModuleImGui) returns (ok: bool, saved: JsonObject)
      modifies this`calls, console`consoleText
      ensures ok
      ensures saved == SaveSettings(doc, settings)
      ensures calls == old(calls) + (if hasWindow then [DestroyWindow] else []) + [QuitSdl]
      ensures console.consoleText == old(console.consoleText) + ["Destroying SDL window and quitting all SDL systems"]
    {
      console.AddLogToWindow("Destroying SDL window and quitting all SDL systems");
      saved := SaveSettings(doc, settings);
      if hasWindow {
        calls := calls + [DestroyWindow];
      }
      calls := calls + [QuitSdl];
      ok := true;
    }

    method GetTitle() returns (t: string)
      ensures t == title
    {
      t := title;
    }

    method SetTitle(t: string)
      modifies this`title, this`calls
      ensures title == t
      ensures calls == old(calls) + [SetWindowTitle(t)]
    {
      title := t;
      calls := calls + [SetWindowTitle(t)];
    }

    method ResizeWindow(w: int, h: int)
      modifies this`settings, this`calls
      ensures settings == old(settings).(width := w, height := h)
      ensures calls == old(calls) + [SetWindowSize(w, h)]
    {
      settings := settings.(width := w, height := h);
      calls := calls + [SetWindowSize(w, h)];
    }

    method GetWindowSize() returns (w: int, h: int)
      ensures w == settings.width && h == settings.height
    {
      w := settings.width;
      h := settings.height;
    }

    /**
     * The source passes an uninitialised local to SDL here; its value is
     * the parameter `indeterminate`, and the flags passed are that value with
     * the FULLSCREEN bit added when `fscreen` is set.
     */
    method SetFullscreen(fscreen: bool, indeterminate: bv32)
      modifies this`settings, this`calls
      ensures settings == old(settings).(fullscreen := fscreen)
      ensures calls == old(calls) + [SetWindowFullscreen(if fscreen then indeterminate | FullscreenFlag else indeterminate)]
    {
      var flags := indeterminate;
      if fscreen {
        settings := settings.(fullscreen := true);
        flags := flags | FullscreenFlag;
      } else {
        settings := settings.(fullscreen := false);
      }
      calls := calls + [SetWindowFullscreen(flags)];
    }

    method GetFullscreen() returns (r: bool)
      ensures r == settings.fullscreen
    {
      r := settings.fullscreen;
    }

    /** The brightness is stored as given, without clamping. */
    method SetBrightness(value: real)
      modifies this`settings, this`calls
      ensures settings == old(settings).(brightness := value)
      ensures calls == old(calls) + [SetWindowBrightness(value)]
    {
      settings := settings.(brightness := value);
      calls := calls + [SetWindowBrightness(value)];
    }

    method GetBrightness() returns (r: real)
      ensures r == settings.brightness
    {
      r := settings.brightness;
    }

    /** A borderless window is one SDL is told not to give a border. */
    method SetBorderless(bdless: bool)
      modifies this`settings, this`calls
      ensures settings == old(settings).(borderless := bdless)
      ensures calls == old(calls) + [SetWindowBordered(!bdless)]
    {
      if bdless {
        settings := settings.(borderless := true);
        calls := calls + [SetWindowBordered(false)];
      } else {
        settings := settings.(borderless := false);
        calls := calls + [SetWindowBordered(true)];
      }
    }

    method GetBorderless() returns (r: bool)
      ensures r == settings.borderless
    {
      r := settings.borderless;
    }

    /** As `SetFullscreen`, with the FULLSCREEN_DESKTOP flag. */
    method SetFullDesktop(fDesktop: bool, indeterminate: bv32)
      modifies this`settings, this`calls
      ensures settings == old(settings).(fullDesktop := fDesktop)
      ensures calls == old(calls) + [SetWindowFullscreen(if fDesktop then indeterminate | FullscreenDesktopFlag else indeterminate)]
    {
      var flags := indeterminate;
      if fDesktop {
        settings := settings.(fullDesktop := true);
        flags := flags | FullscreenDesktopFlag;
      } else {
        settings := settings.(fullDesktop := false);
      }
      calls := calls + [SetWindowFullscreen(flags)];
    }

    method GetFullDesktop() returns (r: bool)
      ensures r == settings.fullDesktop
    {
      r := settings.fullDesktop;
    }
  }
}
