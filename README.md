# AK-Engine module layer in Dafny

A model of three engine modules of AK-Engine, a small C++ game engine
built on SDL 2, OpenGL and Dear ImGui, together with proofs about them.

- **Debug UI (`ModuleImGui`).** This module owns:
  - the visibility flags of the editor windows, flipped by the main menu
    bar, the "Debug" window and the "ImGui Menu" window;
  - the console log, which every module appends to and which is listed
    newest first;
  - the math playground, whose input fields and tri-state result an
    intersection test or "Reset" updates;
  - two 81-slot FPS and frame-time sample histories.
- **Window (`ModuleWindow`).** This module holds the window settings
  (size, brightness, fullscreen, borderless, desktop fullscreen). Its
  `Init` takes them from the JSON configuration or from the compiled-in
  defaults, composes the SDL creation flags and creates the window. Its
  `CleanUp` writes the settings back. Its setters and getters forward
  each change to SDL.
- **Renderer (`ModuleRenderer3D`).** This module holds five rendering
  toggles (depth test, face culling, lighting, colour material, 2D
  textures). `Init` loads them from the configuration, creates the
  OpenGL context and enables the configured capabilities. The `Set*`
  methods synchronise one capability with its toggle. `CleanUp` writes
  the toggles back.

How the model is built:

- **Classes.** Each module is a class whose fields the methods update in
  place.
- **Console.** The console is the debug UI's `consoleText`. `Init` and
  `CleanUp` of the window and the renderer take that object and append
  to it.
- **JSON configuration.** The configuration is a `map` from key to value
  (`JsonConfig`). It follows the answers of the parson library: a missing
  number reads as 0 and a missing boolean reads as -1, which C++ turns
  into `true`. A write into a missing section object changes nothing.
- **Outside libraries.** SDL, OpenGL and ImGui are not modelled.
  - What the user clicked in a frame is a method input, and so is
    whether an SDL or GL call succeeded.
  - The SDL calls of the window are appended to a call log.
  - The renderer's OpenGL state is the set of enabled capabilities.
- **Build constants.** The constants of `Globals.h` (`SCREEN_WIDTH`,
  `SCREEN_SIZE`, `WIN_*`, `VSYNC`, `TITLE`) are a `BuildConfig` value
  that the window and renderer constructors take. Every property holds
  for all such values.

Files:

- `Wrappers.dfy`: `Option`.
- `Globals.dfy`: `BuildConfig` and `UpdateStatus`.
- `JsonConfig.dfy`: the configuration document.
- `SampleHistory.dfy`: the sample history.
- `ModuleImGui.dfy`: module `DebugUI`.
- `ModuleWindow.dfy`: module `Window`.
- `ModuleRenderer3D.dfy`: module `Renderer`.
- `SeqFacts.dfy`: regrouping of sequence concatenations, used by the log proofs.

## Model

| member | source | states |
|---|---|---|
| JsonConfig.ReadBool | ModuleWindow.cpp:99-101 | A boolean read into a C++ `bool` is the stored boolean when there is one. Otherwise it is `true`, because parson answers -1. |
| JsonConfig.Truncate | ModuleWindow.cpp:96-97 | Storing a number into an `int` truncates toward zero: the result lies within 1 of the value, on the side of zero. |
| JsonConfig.SetInSection | ModuleWindow.cpp:164-173 | Writing key k of a section stores the value in that section's object when it exists. Otherwise the document is unchanged. No other section changes, and the document keeps its keys. |
| SampleHistory.CycleAsWritten | ModuleImGui.cpp:462-473 | The source's step: below 81 samples it appends, keeping the earlier samples. At 81 it keeps length 81, ends with the new sample, shifts slots 0..78 down by one, and leaves slot 79 as it was. |
| SampleHistory.CycleFifo | ModuleImGui.cpp:459-487 | The intended step: below 81 it appends, keeping the earlier samples. At 81 it drops the oldest sample, shifts all the others down by one, and puts the new sample last. |
| SampleHistory.CycleSamplesAsWritten | ModuleImGui.cpp:462-473 | The source's in-place loop (the shift stops at `MAX_FPS_MS_COUNT - 2`) computes exactly `CycleAsWritten`. |
| SampleHistory.CycleSamples | ModuleImGui.cpp:462-473 | The loop with the shift extended to the last slot but one computes exactly the FIFO step. |
| SampleHistory.HistoryAsWritten | ModuleImGui.cpp:459-487 | After n samples the as-written history holds min(n, 81) samples. |
| SampleHistory.FifoHistory | ModuleImGui.cpp:459-487 | After n samples the FIFO history holds min(n, 81) samples. |
| SampleHistory.HistoryBelowCapacity | ModuleImGui.cpp:470-473 | With at most 81 samples, both histories are exactly the samples in arrival order. |
| SampleHistory.FifoHistoryKeepsLatest | ModuleImGui.cpp:459-487 | The FIFO history is always the most recent min(n, 81) samples, in arrival order. |
| SampleHistory.HistoryAsWrittenAt | ModuleImGui.cpp:462-468 | Once full, the as-written slot i < 80 holds sample min(i + k, 79), where k counts the samples after the history filled. Slot 80 holds the newest sample. |
| SampleHistory.HistoryAsWrittenFreezes | ModuleImGui.cpp:462-468 | After 160 samples, every as-written slot except the last shows sample 79 forever. |
| SampleHistory.CycleDiffersFromFifo | ModuleImGui.cpp:462-468 | On a full history the as-written step equals the FIFO step exactly when slots 79 and 80 already hold equal samples. |
| SampleHistory.CycleAsWrittenCounterexample | ModuleImGui.cpp:464-468 | On the history 0..80 with sample 81, the as-written step leaves 79 in slot 79, where the FIFO step puts 80. |
| DebugUI.ApplyMathEvent | ModuleImGui.cpp:293-409 | Each math-window event has its effect on the playground. A test run stores its outcome as "intersects" and sets exactly one of the True/False flags to match. "Reset" zeroes all fifteen fields and clears the three flags. Each input event stores its values in exactly its own fields (sphere 1, sphere 2 or capsule), leaving the other fields and the flags alone. The True and False flags are never both set. |
| DebugUI.PlaygroundResultShown | ModuleImGui.cpp:308-409 | After any sequence of events the flags are still exclusive. After a last run the window shows exactly that run's outcome ("True" or "False"). After a last Reset all fields are zero, and from the next frame on the window shows no result. |
| DebugUI.Reversed | ModuleImGui.cpp:263-266 | The listing has as many lines as the log. |
| DebugUI.ReversedAt | ModuleImGui.cpp:263-266 | Line k of the listing is log entry size - 1 - k. |
| DebugUI.NewestShownFirst | ModuleImGui.cpp:263-274 | After `AddLogToWindow(x)` the listing is x followed by the previous listing. |
| DebugUI.MenuBarToggle | ModuleImGui.cpp:74-112 | "Console", "Math Test Playground", "Configuration" and "ImGui Demo" each flip exactly their own flag. The three Help links, and the menu's other flags, change nothing. |
| DebugUI.DebugWindowToggle | ModuleImGui.cpp:176-190 | Each clicked checkbox flips its own static state and, independently, one visibility flag. Nothing else changes. |
| DebugUI.MenuWindowToggle | ModuleImGui.cpp:214-237 | "Show Demo" flips the demo flag and its box. "View ---" flips only its box. "Close App" sets the stop request, which stays set. Nothing else changes. |
| DebugUI.StopSignal | ModuleImGui.cpp:119-144 | A frame's stop request is set exactly when it was set before, or when "Close App" is clicked while the menu window is visible after the debug window's toggles. |
| DebugUI.ModuleImGui.constructor | ModuleImGui.cpp:31-33 | Every window is hidden, every field is zero, and the log and histories are empty. |
| DebugUI.ModuleImGui.AddLogToWindow | ModuleImGui.cpp:271-274 | Exactly one entry is appended at the end, and nothing else in the module changes. |
| DebugUI.ModuleImGui.ConsoleLines | ModuleImGui.cpp:263-266 | The loop from the last index down to 0 lists the log in reverse insertion order. |
| DebugUI.ModuleImGui.ShowConsoleWindow | ModuleImGui.cpp:258-266 | "Clear" empties the log, then the (possibly empty) log is listed newest first. |
| DebugUI.ModuleImGui.RunMathTest | ModuleImGui.cpp:308-325 | A test run stores the outcome and sets the True/False flags exclusively from it. |
| DebugUI.ModuleImGui.ResetMathFields | ModuleImGui.cpp:382-409 | "Reset" zeroes all the scratch fields and clears the three result flags. |
| DebugUI.ModuleImGui.ShowMathWindow | ModuleImGui.cpp:276-413 | One frame of the math window applies its event as `ApplyMathEvent` says and keeps the flags exclusive. The result text is drawn before "Reset" is handled, so it reflects the new state after an input or a run and the previous state in a Reset frame. |
| DebugUI.ModuleImGui.ShowDebugWindow | ModuleImGui.cpp:157-192 | The visibility flags and checkbox states become `DebugWindowToggle` of the old ones. |
| DebugUI.ModuleImGui.ShowMenuWindow | ModuleImGui.cpp:194-239 | The visibility flags and checkbox states become `MenuWindowToggle` of the old ones. |
| DebugUI.ModuleImGui.CycleFPSAndMsData | ModuleImGui.cpp:459-487 | Each history takes one FIFO step with its own sample, stays within 81 samples, and is non-empty afterwards. |
| DebugUI.ModuleImGui.ShowConfigurationWindow | ModuleImGui.cpp:430-437 | With "Application" open, the histories cycle, and the titles show the newest fps and ms samples read at `size() - 1`. That index is in bounds. With it closed, nothing changes. |
| DebugUI.ModuleImGui.MainMenuBar | ModuleImGui.cpp:62-115 | The bar returns true exactly when "Quit" is chosen. Its flags become `MenuBarToggle` of the old ones. |
| DebugUI.ModuleImGui.ShowToggleWindows | ModuleImGui.cpp:119-124 | The debug window is handled first, then the menu window only if it is visible afterwards. |
| DebugUI.ModuleImGui.ShowContentWindows | ModuleImGui.cpp:129-140 | The console, math and configuration windows act only when their flag is set. The histories stay within capacity. |
| DebugUI.ModuleImGui.Update | ModuleImGui.cpp:59-149 | On "Quit" the frame stops at once and changes nothing. Otherwise the flags follow the toggles of the menu bar, the debug window and the menu window, each visible window applies its input, and the frame stops exactly when the stop request is set. |
| Window.CreationFlags | ModuleWindow.cpp:45-87 | The creation flags always contain OPENGL and SHOWN. They contain RESIZABLE exactly when `WIN_RESIZABLE` holds, BORDERLESS exactly when borderless is set, and the desktop bit exactly when desktop fullscreen is set. The FULLSCREEN bit is set when either fullscreen setting is. No other bit is set. |
| Window.SaveSettingsSection | ModuleWindow.cpp:164-173 | With a "window" object present, `CleanUp` overwrites exactly its width, height, fullscreen, fullDesktop, borderless and brightness entries. |
| Window.LoadSavedFields | ModuleWindow.cpp:96-104 | Reading written settings back gives the same brightness and booleans, and the size multiplied by `SCREEN_SIZE`. |
| Window.SaveThenLoad | ModuleWindow.cpp:161-173 | Writing settings and then reading them back gives the same booleans and brightness, and the size multiplied once more by `SCREEN_SIZE`. With no "window" object nothing is written. |
| Window.ReloadScalesTwice | ModuleWindow.cpp:96-104 | Init from a configuration, then CleanUp, then Init again gives the stored width and height times `SCREEN_SIZE`², and the same booleans and brightness. |
| Window.ModuleWindow.constructor | ModuleWindow.cpp:8-13 | The window is NULL and nothing has been called in SDL. |
| Window.ModuleWindow.Init | ModuleWindow.cpp:21-153 | Init fails exactly when SDL video or window creation fails. Without video nothing is set. Otherwise the settings come from the configuration or the defaults, and SDL receives the GL 2.1 request, the window creation with the composed flags, the brightness (configuration only) and the title (when a window exists). It logs exactly the source's lines. |
| Window.ModuleWindow.OpenWindow | ModuleWindow.cpp:37-128 | The configuration branch and the default branch set the settings and issue their SDL calls, and each logs its own line. |
| Window.ModuleWindow.UseDefaults | ModuleWindow.cpp:41-87 | Without a configuration, the size is the build size times `SCREEN_SIZE`, brightness is 1, and the three booleans are the `WIN_*` constants. The flags built by `\|=` are `CreationFlags` of them. |
| Window.ModuleWindow.UseConfig | ModuleWindow.cpp:92-128 | With a configuration, the size is the stored size times `SCREEN_SIZE`, and brightness and the booleans are copied. The flags built by `\|=` are `CreationFlags` of them. |
| Window.ModuleWindow.GetWindow | ModuleWindow.cpp:155-158 | The handle returned is non-NULL exactly when a window was created. |
| Window.ModuleWindow.CleanUp | ModuleWindow.cpp:161-184 | The current settings are written under "window", the window is destroyed if it exists, SDL quits, and the result is true. |
| Window.ModuleWindow.GetTitle | ModuleWindow.cpp:186-189 | The title returned is the one last set. |
| Window.ModuleWindow.SetTitle | ModuleWindow.cpp:192-196 | The title becomes t, so `GetTitle` returns t, and SDL is told. |
| Window.ModuleWindow.ResizeWindow | ModuleWindow.cpp:198-203 | The size becomes (w, h), so `GetWindowSize` yields (w, h), and SDL is told. Nothing else changes. |
| Window.ModuleWindow.GetWindowSize | ModuleWindow.cpp:205-209 | The size returned is the stored width and height. |
| Window.ModuleWindow.SetFullscreen | ModuleWindow.cpp:211-224 | The fullscreen field, which `GetFullscreen` returns, becomes `fscreen`. SDL receives the uninitialised flags, with FULLSCREEN added when `fscreen` is set. |
| Window.ModuleWindow.GetFullscreen | ModuleWindow.cpp:226-229 | The stored fullscreen setting is returned. |
| Window.ModuleWindow.SetBrightness | ModuleWindow.cpp:231-235 | The brightness becomes the value, unclamped, and SDL is told. |
| Window.ModuleWindow.GetBrightness | ModuleWindow.cpp:237-240 | The stored brightness is returned. |
| Window.ModuleWindow.SetBorderless | ModuleWindow.cpp:242-255 | The borderless field becomes `bdless`, and SDL is told to give the window a border exactly when it is not borderless. |
| Window.ModuleWindow.GetBorderless | ModuleWindow.cpp:257-260 | The stored borderless setting is returned. |
| Window.ModuleWindow.SetFullDesktop | ModuleWindow.cpp:262-275 | The fullDesktop field becomes `fDesktop`. SDL receives the uninitialised flags, with FULLSCREEN_DESKTOP added when `fDesktop` is set. |
| Window.ModuleWindow.GetFullDesktop | ModuleWindow.cpp:277-280 | The stored desktop-fullscreen setting is returned. |
| Renderer.EnabledCapabilities | ModuleRenderer3D.cpp:132-152 | A capability is in the set exactly when its toggle is on. |
| Renderer.GlSet | ModuleRenderer3D.cpp:228-284 | `glEnable`/`glDisable` of c makes c enabled exactly when asked, and leaves every other capability as it was. |
| Renderer.SetKeepsSync | ModuleRenderer3D.cpp:228-284 | When the GL state already matches the toggles, synchronising any one capability with its toggle leaves it matching. |
| Renderer.SyncAllCapabilities | ModuleRenderer3D.cpp:228-284 | Calling all five `Set*` methods, from any GL state, enables exactly the capabilities whose toggle is on. |
| Renderer.SaveTogglesSection | ModuleRenderer3D.cpp:202-208 | With a "renderer" object present, `CleanUp` overwrites exactly its five toggle entries. |
| Renderer.LoadSavedToggleFields | ModuleRenderer3D.cpp:38-46 | Reading written toggles back reproduces them. |
| Renderer.SaveThenLoadToggles | ModuleRenderer3D.cpp:195-212 | CleanUp followed by an Init from the written object reproduces all five toggles exactly. With no "renderer" object nothing is written. |
| Renderer.LoadTogglesMissingKeys | ModuleRenderer3D.cpp:38-46 | A configuration object with no boolean entries reads every toggle as on. |
| Renderer.ModuleRenderer3D.constructor | ModuleRenderer3D.cpp:15-23 | All five toggles are on, and no GL capability is enabled yet. |
| Renderer.ModuleRenderer3D.Init | ModuleRenderer3D.cpp:30-161 | Init succeeds exactly when the context is created and none of the three GL error checks fires. The configured toggles are loaded. Capabilities are enabled only with a context, and then exactly the ones toggled on are added. The viewport is set to the window's size even when Init fails. It logs exactly the source's lines. A successful context creation from the constructed, all-disabled state leaves the GL state matching the toggles (`Synced`). |
| Renderer.ModuleRenderer3D.SetUpGL | ModuleRenderer3D.cpp:66-153 | Each GL error check logs and makes the result false without stopping the setup, so the capabilities are enabled whatever the errors. |
| Renderer.ModuleRenderer3D.ReadToggles | ModuleRenderer3D.cpp:38-46 | All five toggles are set from the configuration. The second read of depthTest gives the same value as the first. |
| Renderer.ModuleRenderer3D.EnableConfigured | ModuleRenderer3D.cpp:132-152 | The capabilities toggled on are added to the GL state. |
| Renderer.ModuleRenderer3D.OnResize | ModuleRenderer3D.cpp:215-226 | The viewport becomes the given size. |
| Renderer.ModuleRenderer3D.CleanUp | ModuleRenderer3D.cpp:195-212 | The context is deleted, the five toggles are written under "renderer", and the result is true. |
| Renderer.ModuleRenderer3D.SetDepthTest | ModuleRenderer3D.cpp:228-238 | The depth test is enabled exactly when its toggle is on. The other capabilities are unchanged. A GL state matching the toggles stays matching. |
| Renderer.ModuleRenderer3D.SetCullFace | ModuleRenderer3D.cpp:239-249 | Face culling is enabled exactly when its toggle is on. The other capabilities are unchanged. A GL state matching the toggles stays matching. |
| Renderer.ModuleRenderer3D.SetLighting | ModuleRenderer3D.cpp:250-260 | Lighting is enabled exactly when its toggle is on. The other capabilities are unchanged. A GL state matching the toggles stays matching. |
| Renderer.ModuleRenderer3D.SetColorMaterial | ModuleRenderer3D.cpp:262-272 | Colour material is enabled exactly when its toggle is on. The other capabilities are unchanged. A GL state matching the toggles stays matching. |
| Renderer.ModuleRenderer3D.SetTexture2D | ModuleRenderer3D.cpp:274-284 | 2D texturing is enabled exactly when its toggle is on. The other capabilities are unchanged. A GL state matching the toggles stays matching. |

## Left out

- **ImGui rendering.** Window layout, item widths, histograms, text display, `ShowHelpMarker`, the `sprintf_s` titles, and frame begin/render/shutdown (`Start`, `PreUpdate`, `CleanUp` of the debug UI, `ImGui::ShowTestWindow`) are library calls. A click is a method input, and a window returns the texts it shows.
- **Collapsed windows.** A collapsed window simply receives no clicks. The model has one input event per window per frame, so typing into a field and clicking a button in the same frame is not modelled.
- **Help links.** The `ShellExecuteA` calls behind the three Help entries open a browser. They are menu choices that change no state.
- **Geometry.** `math::Sphere::Intersects` is not part of this model. Its outcome is the input of a run event, and the fifteen playground fields are only stored.
- **Floating point.** Samples, brightness and configuration numbers are `real`. That leaves out float rounding, and the float-to-bool and double-to-int conversions beyond truncation.
- **Integer overflow.** `int` is unbounded, so the overflow of `width * SCREEN_SIZE` is not modelled.
- **Source layout not preserved.** The members of each class are grouped into record-valued fields: `Visibility`, `Checkboxes` and `Playground` in the debug UI, `WindowSettings` in the window, and `RenderToggles` in the renderer. The static locals of `ShowDebugWindow` and `ShowMenuWindow` become the `Checkboxes` field.
- **Missing headers.** `Globals.h`, `ModuleImGui.h`, `ModuleWindow.h` and `ModuleRenderer3D.h` are not part of this model. Their constants are the `BuildConfig` parameter, and `MAX_FPS_MS_COUNT` is 81.
- DebugUI.ModuleImGui.ShowMathWindow: the source draws the result texts only inside an expanded header, and draws them once in each header. In a frame with a sphere-capsule run, the sphere-sphere header, drawn before the run, still shows the old result. The model returns one list of texts, as the window shows them after the frame's event (before a Reset).
- DebugUI.ModuleImGui.CycleFPSAndMsData: this member takes the corrected first-in-first-out step (`SampleHistory.CycleSamples`), and so do `ShowConfigurationWindow`, `ShowContentWindows` and `Update`, which call it. The source's step, which never refreshes slot 79, is modelled by `SampleHistory.CycleSamplesAsWritten` and `SampleHistory.CycleAsWritten` (see Findings).
- DebugUI.ModuleImGui.constructor: the initial values of the debug UI's members are not visible in the source, so they are taken as false, zero or empty.
- Window.ModuleWindow.constructor: the settings the source leaves uninitialised until `Init` start at zero here.
- Window.ModuleWindow.SetFullscreen: the flags the source passes to SDL are read from an uninitialised local. They are the parameter `indeterminate`, and nothing is claimed about its value.
- Window.ModuleWindow.SetFullDesktop: as for `SetFullscreen`, the flags come from the arbitrary `indeterminate`.
- **Native calls.** Only the calls' names and arguments are modelled, as the window's call log: the SDL attribute calls, window creation, title, size, fullscreen, bordered, destroy and quit. The window surface (`screen_surface`, `SDL_GetWindowSurface`) and SDL error strings are left out.
- **Renderer GL plumbing.** The GL attributes and context creation are reduced to the `contextCreated` input. Also left out are the swap interval, the projection and modelview setup, the clear colour, the materials, the blend function, the lights (`lights[0]`, `Active`, `Render`), `PreUpdate` and `PostUpdate`. `OnResize` keeps only the viewport size: the perspective matrix is float math.
- **Logger.** `LOG` writes to the debugger output and is left out. The console lines written by `AddLogToWindow` are modelled.

## Findings

| source | as written | input that shows it | evidently intended | confidence | as-written member | corrected member |
|---|---|---|---|---|---|---|
| ModuleImGui.cpp:464-468 | At capacity the shift loop runs `i < MAX_FPS_MS_COUNT - 2`, so slot 79 is never refreshed. From 160 samples on, the histogram shows the same sample in every slot but the last. | A full history 0, 1, ..., 80 followed by sample 81: slot 79 stays 79 instead of becoming 80. | A first-in-first-out history of the latest 81 samples, with the loop bound `MAX_FPS_MS_COUNT - 1`. | not executed | SampleHistory.CycleAsWritten | SampleHistory.CycleFifo |

The as-written step is also run by `SampleHistory.CycleSamplesAsWritten`. Its effects are proved by:

- `SampleHistory.CycleDiffersFromFifo`
- `SampleHistory.CycleAsWrittenCounterexample`
- `SampleHistory.HistoryAsWrittenAt`
- `SampleHistory.HistoryAsWrittenFreezes`

The debug UI's histories use the corrected step: `SampleHistory.CycleSamples` computes `CycleFifo`, and `SampleHistory.FifoHistoryKeepsLatest` proves that the histories keep the latest 81 samples.
