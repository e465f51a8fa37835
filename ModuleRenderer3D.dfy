/**
 * The 3D renderer module (`ModuleRenderer3D`, ModuleRenderer3D.cpp): five
 * rendering toggles, their load from and save to the JSON configuration,
 * and the OpenGL capabilities they enable.
 *
 * OpenGL is not modelled beyond which capabilities are enabled: the GL
 * state is the set `capabilities`, `glEnable` adds to it and `glDisable`
 * removes from it. Context creation, the swap interval and the three
 * `glGetError` checks are inputs of `Init`.
 */
module Renderer {
  import opened Globals
  import opened Wrappers
  import opened JsonConfig
  import DebugUI
  import SeqFacts
  import Window

  /** The OpenGL capabilities the toggles control. */
  datatype Capability = DepthTest | CullFace | Lighting | ColorMaterial | Texture2D

  /** The members depthTest, cullFace, lighting, colorMaterial and texture2D. */
  datatype RenderToggles = RenderToggles(
    depthTest: bool, cullFace: bool, lighting: bool, colorMaterial: bool, texture2D: bool)

  /** The constructor's toggles (ModuleRenderer3D.cpp:15-23). */
  const AllOn := RenderToggles(true, true, true, true, true)

  /** The toggle that controls capability `c`. */
  function IsOn(t: RenderToggles, c: Capability): bool {
    match c
    case DepthTest => t.depthTest
    case CullFace => t.cullFace
    case Lighting => t.lighting
    case ColorMaterial => t.colorMaterial
    case Texture2D => t.texture2D
  }

  /** The capabilities whose toggle is on. */
  function EnabledCapabilities(t: RenderToggles): (r: set<Capability>)
    ensures forall c :: c in r <==> IsOn(t, c)
  {
    (if t.depthTest then {DepthTest} else {})
    + (if t.cullFace then {CullFace} else {})
    + (if t.lighting then {Lighting} else {})
    + (if t.colorMaterial then {ColorMaterial} else {})
    + (if t.texture2D then {Texture2D} else {})
  }

  /** The GL state after `glEnable(c)` when `on` holds and `glDisable(c)` otherwise. */
  function GlSet(caps: set<Capability>, c: Capability, on: bool): (r: set<Capability>)
    ensures c in r <==> on
    ensures forall d :: d != c ==> (d in r <==> d in caps)
  {
    if on then caps + {c} else caps - {c}
  }

  /**
   * Synchronising every capability with its toggle, in any state, enables
   * exactly the capabilities whose toggle is on.
   */
  lemma SyncAllCapabilities(caps: set<Capability>, t: RenderToggles)
    ensures GlSet(GlSet(GlSet(GlSet(GlSet(caps, DepthTest, t.depthTest), CullFace, t.cullFace),
              Lighting, t.lighting), ColorMaterial, t.colorMaterial), Texture2D, t.texture2D)
            == EnabledCapabilities(t)
  {
    var r := GlSet(GlSet(GlSet(GlSet(GlSet(caps, DepthTest, t.depthTest), CullFace, t.cullFace),
              Lighting, t.lighting), ColorMaterial, t.colorMaterial), Texture2D, t.texture2D);
    forall c | true
      ensures c in r <==> c in EnabledCapabilities(t)
    {
    }
  }

  /**
   * Synchronising one capability with its toggle keeps a GL state that
   * already matches the toggles as it is.
   */
  lemma SetKeepsSync(caps: set<Capability>, t: RenderToggles, c: Capability)
    requires caps == EnabledCapabilities(t)
    ensures GlSet(caps, c, IsOn(t, c)) == EnabledCapabilities(t)
  {
    var r := GlSet(caps, c, IsOn(t, c));
    forall d | true
      ensures d in r <==> d in EnabledCapabilities(t)
    {
    }
  }

  /** The toggles `Init` reads from a configuration (ModuleRenderer3D.cpp:38-46). */
  function LoadToggles(o: JsonObject): RenderToggles {
    RenderToggles(ReadBool(o, "depthTest"), ReadBool(o, "cullFace"), ReadBool(o, "lighting"),
                  ReadBool(o, "colorMaterial"), ReadBool(o, "texture2D"))
  }

  /** The writes of `CleanUp` under the "renderer" object (ModuleRenderer3D.cpp:202-208). */
  function SaveToggles(doc: JsonObject, t: RenderToggles): JsonObject {
    var d1 := SetInSection(doc, "renderer", "depthTest", Boolean(t.depthTest));
    var d2 := SetInSection(d1, "renderer", "cullFace", Boolean(t.cullFace));
    var d3 := SetInSection(d2, "renderer", "lighting", Boolean(t.lighting));
    var d4 := SetInSection(d3, "renderer", "colorMaterial", Boolean(t.colorMaterial));
    SetInSection(d4, "renderer", "texture2D", Boolean(t.texture2D))
  }

  /** The "renderer" object after `SaveToggles`: the five entries overwritten. */
  function SavedToggleFields(f: JsonObject, t: RenderToggles): JsonObject {
    f["depthTest" := Boolean(t.depthTest)]["cullFace" := Boolean(t.cullFace)]
     ["lighting" := Boolean(t.lighting)]["colorMaterial" := Boolean(t.colorMaterial)]
     ["texture2D" := Boolean(t.texture2D)]
  }

  lemma SaveTogglesSection(doc: JsonObject, t: RenderToggles)
    requires HasObject(doc, "renderer")
    ensures HasObject(SaveToggles(doc, t), "renderer")
    ensures SaveToggles(doc, t)["renderer"].fields == SavedToggleFields(doc["renderer"].fields, t)
  {
  }

  lemma LoadSavedToggleFields(f: JsonObject, t: RenderToggles)
    ensures LoadToggles(SavedToggleFields(f, t)) == t
  {
  }

  /**
   * Saving the toggles and loading them back reproduces them exactly; with
   * no "renderer" object nothing is written.
   */
  lemma SaveThenLoadToggles(doc: JsonObject, t: RenderToggles)
    ensures !HasObject(doc, "renderer") ==> SaveToggles(doc, t) == doc
    ensures HasObject(doc, "renderer") ==>
      HasObject(SaveToggles(doc, t), "renderer") &&
      LoadToggles(SaveToggles(doc, t)["renderer"].fields) == t
  {
    if HasObject(doc, "renderer") {
      SaveTogglesSection(doc, t);
      LoadSavedToggleFields(doc["renderer"].fields, t);
    }
  }

  /** A configuration without the toggles' keys turns every toggle on. */
  lemma LoadTogglesMissingKeys(o: JsonObject)
    requires forall c :: c in o ==> !o[c].Boolean?
    ensures LoadToggles(o) == AllOn
  {
  }

  /** The line logged when `c` holds. */
  function When(c: bool, line: string): seq<string> {
    if c then [line] else []
  }

  /** The console lines of the GL setup in `Init` (ModuleRenderer3D.cpp:66-114). */
  function SetUpLog(vsyncFailed: bool, error1: bool, error2: bool, error3: bool): seq<string> {
    When(vsyncFailed, "Warning: Unable to set VSync!") +
    When(error1, "Error initializing OpenGL!") +
    When(error2, "Error initializing OpenGL!") +
    When(error3, "Error initializing OpenGL!")
  }

  /** The console lines `Init` logs (ModuleRenderer3D.cpp:34-114). */
  function InitLog(contextCreated: bool, vsyncFailed: bool, error1: bool, error2: bool, error3: bool): seq<string> {
    ["Creating 3D Renderer context"] +
    if !contextCreated then ["OpenGL context could not be created!"]
    else SetUpLog(vsyncFailed, error1, error2, error3)
  }

  /** The viewport `OnResize` sets up; the projection matrix is not modelled. */
  datatype Viewport = NoViewport | Viewport(width: int, height: int)

  class ModuleRenderer3D {
    const name: string := "renderer"
    const build: BuildConfig
    var toggles: RenderToggles
    /** The OpenGL capabilities currently enabled. */
    var capabilities: set<Capability>
    /** Whether the OpenGL context handle is non-NULL. */
    var hasContext: bool
    var viewport: Viewport

    /** The GL state matches the toggles: exactly the capabilities toggled on are enabled. */
    ghost predicate Synced()
      reads this`capabilities, this`toggles
    {
      capabilities == EnabledCapabilities(toggles)
    }

    /** All toggles on; OpenGL starts with every capability disabled. */
    constructor (build: BuildConfig)
      ensures this.build == build
      ensures toggles == AllOn
      ensures capabilities == {} && !hasContext && viewport == NoViewport
    {
      this.build := build;
      toggles := AllOn;
      capabilities := {};
      hasContext := false;
      viewport := NoViewport;
    }

    /**
     * Reads the toggles from the configuration, creates the OpenGL context
     * and enables the configured capabilities. A failed context creation
     * skips the GL setup; a GL error is logged and makes the result false
     * but the setup goes on. The viewport is set to the window's size in
     * every case.
     */
    method Init(data: Option<JsonObject>, window: Window.ModuleWindow, console: DebugUI.ModuleImGui,
                contextCreated: bool, swapIntervalFailed: bool, error1: bool, error2: bool, error3: bool)
      returns (ok: bool)
      modifies this`toggles, this`capabilities, this`hasContext, this`viewport, console`consoleText
      ensures ok == (contextCreated && !error1 && !error2 && !error3)
      ensures toggles == (if data.Some? then LoadToggles(data.value) else old(toggles))
      ensures hasContext == contextCreated
      ensures capabilities ==
        (if contextCreated then old(capabilities) + EnabledCapabilities(toggles) else old(capabilities))
      ensures viewport == Viewport(window.settings.width, window.settings.height)
      ensures console.consoleText == old(console.consoleText) +
        InitLog(contextCreated, build.vsync && swapIntervalFailed, error1, error2, error3)
      ensures contextCreated && old(capabilities) == {} ==> Synced()
    {
      console.AddLogToWindow("Creating 3D Renderer context");
      ok := true;
      if data.Some? {
        ReadToggles(data.value);
      }
      hasContext := contextCreated;
      if !hasContext {
        console.AddLogToWindow("OpenGL context could not be created!");
        ok := false;
      }
      if ok {
        ok := SetUpGL(swapIntervalFailed, error1, error2, error3, console);
      }
      assert console.consoleText == old(console.consoleText) + ["Creating 3D Renderer context"] +
        (if contextCreated then SetUpLog(build.vsync && swapIntervalFailed, error1, error2, error3)
         else ["OpenGL context could not be created!"]);
      SeqFacts.AppendThree(old(console.consoleText), ["Creating 3D Renderer context"],
        if contextCreated then SetUpLog(build.vsync && swapIntervalFailed, error1, error2, error3)
        else ["OpenGL context could not be created!"]);
      var width, height := window.GetWindowSize();
      OnResize(width, height);
    }

    /**
     * The GL setup of `Init` once a context exists: every error check logs
     * and clears the result, and none of them stops the setup
     * (ModuleRenderer3D.cpp:66-153).
     */
    method SetUpGL(swapIntervalFailed: bool, error1: bool, error2: bool, error3: bool, console: DebugUI.ModuleImGui)
      returns (ok: bool)
      modifies this`capabilities, console`consoleText
      ensures ok == (!error1 && !error2 && !error3)
      ensures capabilities == old(capabilities) + EnabledCapabilities(toggles)
      ensures console.consoleText == old(console.consoleText) +
        SetUpLog(build.vsync && swapIntervalFailed, error1, error2, error3)
    {
      ok := true;
      ghost var log0 := console.consoleText;
      if build.vsync && swapIntervalFailed {
        console.AddLogToWindow("Warning: Unable to set VSync!");
      }
      ghost var log1 := console.consoleText;
      assert log1 == log0 + When(build.vsync && swapIntervalFailed, "Warning: Unable to set VSync!");
      if error1 {
        console.AddLogToWindow("Error initializing OpenGL!");
        ok := false;
      }
      ghost var log2 := console.consoleText;
      assert log2 == log1 + When(error1, "Error initializing OpenGL!");
      if error2 {
        console.AddLogToWindow("Error initializing OpenGL!");
        ok := false;
      }
      ghost var log3 := console.consoleText;
      assert log3 == log2 + When(error2, "Error initializing OpenGL!");
      if error3 {
        console.AddLogToWindow("Error initializing OpenGL!");
        ok := false;
      }
      assert console.consoleText == log3 + When(error3, "Error initializing OpenGL!");
      SeqFacts.AppendFour(log0, When(build.vsync && swapIntervalFailed, "Warning: Unable to set VSync!"),
                 When(error1, "Error initializing OpenGL!"), When(error2, "Error initializing OpenGL!"),
                 When(error3, "Error initializing OpenGL!"));
      EnableConfigured();
    }

    /** The configuration reads of `Init`; depthTest is read twice (ModuleRenderer3D.cpp:40-45). */
    method ReadToggles(o: JsonObject)
      modifies this`toggles
      ensures toggles == LoadToggles(o)
    {
      toggles := toggles.(depthTest := ReadBool(o, "depthTest"));
      toggles := toggles.(cullFace := ReadBool(o, "cullFace"));
      toggles := toggles.(lighting := ReadBool(o, "lighting"));
      toggles := toggles.(depthTest := ReadBool(o, "depthTest"));
      toggles := toggles.(colorMaterial := ReadBool(o, "colorMaterial"));
      toggles := toggles.(texture2D := ReadBool(o, "texture2D"));
    }

    /** The `glEnable` calls at the end of the GL setup (ModuleRenderer3D.cpp:132-152). */
    method EnableConfigured()
      modifies this`capabilities
      ensures capabilities == old(capabilities) + EnabledCapabilities(toggles)
    {
      if toggles.depthTest {
        capabilities := capabilities + {DepthTest};
      }
      if toggles.cullFace {
        capabilities := capabilities + {CullFace};
      }
      if toggles.lighting {
        capabilities := capabilities + {Lighting};
      }
      if toggles.colorMaterial {
        capabilities := capabilities + {ColorMaterial};
      }
      if toggles.texture2D {
        capabilities := capabilities + {Texture2D};
      }
    }

    method OnResize(width: int, height: int)
      modifies this`viewport
      ensures viewport == Viewport(width, height)
    {
      viewport := Viewport(width, height);
    }

    /** Deletes the context and writes the toggles under "renderer". */
    method CleanUp(doc: JsonObject, console: DebugUI.ModuleImGui) returns (ok: bool, saved: JsonObject)
      modifies this`hasContext, console`consoleText
      ensures ok && !hasContext
      ensures saved == SaveToggles(doc, toggles)
      ensures console.consoleText == old(console.consoleText) + ["Destroying 3D Renderer"]
    {
      console.AddLogToWindow("Destroying 3D Renderer");
      hasContext := false;
      saved := SaveToggles(doc, toggles);
      ok := true;
    }

    method SetDepthTest()
      modifies this`capabilities
      ensures capabilities == GlSet(old(capabilities), DepthTest, toggles.depthTest)
      ensures old(Synced()) ==> Synced()
    {
      if Synced() {
        SetKeepsSync(capabilities, toggles, DepthTest);
      }
      if toggles.depthTest {
        capabilities := capabilities + {DepthTest};
      } else {
        capabilities := capabilities - {DepthTest};
      }
    }

    method SetCullFace()
      modifies this`capabilities
      ensures capabilities == GlSet(old(capabilities), CullFace, toggles.cullFace)
      ensures old(Synced()) ==> Synced()
    {
      if Synced() {
        SetKeepsSync(capabilities, toggles, CullFace);
      }
      if toggles.cullFace {
        capabilities := capabilities + {CullFace};
      } else {
        capabilities := capabilities - {CullFace};
      }
    }

    method SetLighting()
      modifies this`capabilities
      ensures capabilities == GlSet(old(capabilities), Lighting, toggles.lighting)
      ensures old(Synced()) ==> Synced()
    {
      if Synced() {
        SetKeepsSync(capabilities, toggles, Lighting);
      }
      if toggles.lighting {
        capabilities := capabilities + {Lighting};
      } else {
        capabilities := capabilities - {Lighting};
      }
    }

    method SetColorMaterial()
      modifies this`capabilities
      ensures capabilities == GlSet(old(capabilities), ColorMaterial, toggles.colorMaterial)
      ensures old(Synced()) ==> Synced()
    {
      if Synced() {
        SetKeepsSync(capabilities, toggles, ColorMaterial);
      }
      if toggles.colorMaterial {
        capabilities := capabilities + {ColorMaterial};
      } else {
        capabilities := capabilities - {ColorMaterial};
      }
    }

    method SetTexture2D()
      modifies this`capabilities
      ensures capabilities == GlSet(old(capabilities), Texture2D, toggles.texture2D)
      ensures old(Synced()) ==> Synced()
    {
      if Synced() {
        SetKeepsSync(capabilities, toggles, Texture2D);
      }
      if toggles.texture2D {
        capabilities := capabilities + {Texture2D};
      } else {
        capabilities := capabilities - {Texture2D};
      }
    }
  }
}
