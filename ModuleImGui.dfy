/**
 * The debug-UI module (`ModuleImGui`, ModuleImGui.cpp): visibility flags
 * flipped by the menu bar and the debug windows, the console log, the
 * scratch fields of the math playground with its two result flags, and the
 * FPS / frame-time histories.
 *
 * ImGui itself is not modelled: a widget that the user clicked in a frame is
 * an input of the method that draws it ("clicked" implies that its window
 * was open and its header expanded), and a method returns what the window
 * would display where that display is computed from module state.
 */
module DebugUI {
  import opened Globals
  import opened Wrappers
  import SampleHistory

  /** The entry chosen in the main menu bar during a frame, if any. */
  datatype MenuBarChoice =
    | NoMenuChoice
    | FileQuit
    | ViewConsole
    | ViewMathPlayground
    | ViewConfiguration
    | HelpDemo
    | HelpDocumentation
    | HelpLatestRelease
    | HelpReportBug

  /** Checkboxes of the "Debug Options" header clicked during a frame. */
  datatype DebugClicks = DebugClicks(showMenu: bool, showConsole: bool, showMathPlayground: bool)

  /** Widgets of the "ImGui Menu" window clicked during a frame. */
  datatype MenuWindowClicks = MenuWindowClicks(showDemo: bool, viewGrid: bool, closeApp: bool)

  /** The fifteen integer input fields of the math playground. */
  datatype MathScratch = MathScratch(
    sphereRadius: int, sphereX: int, sphereY: int, sphereZ: int,
    sphereRadius2: int, sphereX2: int, sphereY2: int, sphereZ2: int,
    capsuleRadius: int,
    capsuleBotX: int, capsuleBotY: int, capsuleBotZ: int,
    capsuleTopX: int, capsuleTopY: int, capsuleTopZ: int)

  const ZeroScratch := MathScratch(0, 0, 0, 0, 0, 0, 0, 0, 0, 0, 0, 0, 0, 0, 0)

  /**
   * What the user did in the math window during a frame. The outcome of
   * `math::Sphere::Intersects` is an input: the geometry library is not
   * part of this model.
   */
  datatype MathEvent =
    | NoMathEvent
    | InputSphere(radius: int, x: int, y: int, z: int)
    | InputSphere2(radius: int, x: int, y: int, z: int)
    | InputCapsule(radius: int, botX: int, botY: int, botZ: int, topX: int, topY: int, topZ: int)
    | RunSphereSphere(intersects: bool)
    | RunSphereCapsule(intersects: bool)
    | ResetMath

  /** The whole state of the math playground. */
  datatype Playground = Playground(scratch: MathScratch, intersects: bool, intersectsTrue: bool, intersectsFalse: bool)

  /** The two result flags encode a tri-state and are never both set. */
  predicate ResultConsistent(p: Playground) {
    !(p.intersectsTrue && p.intersectsFalse)
  }

  /** The texts the math window shows below its "Run Math Test" button. */
  function ResultTexts(p: Playground): seq<string> {
    (if p.intersectsTrue then ["True"] else []) + (if p.intersectsFalse then ["False"] else [])
  }

  /** What one event does to the playground (ModuleImGui.cpp:293-409). */
  function ApplyMathEvent(p: Playground, e: MathEvent): (r: Playground)
    ensures (e.RunSphereSphere? || e.RunSphereCapsule?) ==>
      r.scratch == p.scratch && r.intersects == e.intersects &&
      r.intersectsTrue == e.intersects && r.intersectsFalse == !e.intersects
    ensures e.ResetMath? ==>
      r.scratch == ZeroScratch && !r.intersects && !r.intersectsTrue && !r.intersectsFalse
    ensures (e.NoMathEvent? || e.InputSphere? || e.InputSphere2? || e.InputCapsule?) ==>
      r.intersects == p.intersects && r.intersectsTrue == p.intersectsTrue &&
      r.intersectsFalse == p.intersectsFalse
    ensures e.NoMathEvent? ==> r.scratch == p.scratch
    ensures e.InputSphere? ==>
      r.scratch == p.scratch.(sphereRadius := e.radius, sphereX := e.x, sphereY := e.y, sphereZ := e.z)
    ensures e.InputSphere2? ==>
      r.scratch == p.scratch.(sphereRadius2 := e.radius, sphereX2 := e.x, sphereY2 := e.y, sphereZ2 := e.z)
    ensures e.InputCapsule? ==>
      r.scratch == p.scratch.(capsuleRadius := e.radius,
                              capsuleBotX := e.botX, capsuleBotY := e.botY, capsuleBotZ := e.botZ,
                              capsuleTopX := e.topX, capsuleTopY := e.topY, capsuleTopZ := e.topZ)
    ensures ResultConsistent(p) ==> ResultConsistent(r)
  {
    match e
    case NoMathEvent => p
    case InputSphere(radius, x, y, z) =>
      p.(scratch := p.scratch.(sphereRadius := radius, sphereX := x, sphereY := y, sphereZ := z))
    case InputSphere2(radius, x, y, z) =>
      p.(scratch := p.scratch.(sphereRadius2 := radius, sphereX2 := x, sphereY2 := y, sphereZ2 := z))
    case InputCapsule(radius, x0, y0, z0, x1, y1, z1) =>
      p.(scratch := p.scratch.(capsuleRadius := radius,
                               capsuleBotX := x0, capsuleBotY := y0, capsuleBotZ := z0,
                               capsuleTopX := x1, capsuleTopY := y1, capsuleTopZ := z1))
    case RunSphereSphere(b) =>
      if b then p.(intersects := b, intersectsTrue := true, intersectsFalse := false)
      else p.(intersects := b, intersectsTrue := false, intersectsFalse := true)
    case RunSphereCapsule(b) =>
      if b then p.(intersects := b, intersectsTrue := true, intersectsFalse := false)
      else p.(intersects := b, intersectsTrue := false, intersectsFalse := true)
    case ResetMath => Playground(ZeroScratch, false, false, false)
  }

  /**
   * After any sequence of events, a test run shows exactly its own outcome
   * and a Reset shows nothing.
   */
  lemma {:induction false} PlaygroundResultShown(p: Playground, events: seq<MathEvent>)
    requires ResultConsistent(p)
    ensures var q := ApplyAll(p, events);
      ResultConsistent(q) &&
      (events != [] && (events[|events| - 1].RunSphereSphere? || events[|events| - 1].RunSphereCapsule?) ==>
         ResultTexts(q) == [if events[|events| - 1].intersects then "True" else "False"]) &&
      (events != [] && events[|events| - 1].ResetMath? ==> ResultTexts(q) == [] && q.scratch == ZeroScratch)
  {
    if events != [] {
      PlaygroundResultShown(p, events[..|events| - 1]);
    }
  }

  /** The playground after a sequence of events, one per frame. */
  function ApplyAll(p: Playground, events: seq<MathEvent>): Playground {
    if events == [] then p else ApplyMathEvent(ApplyAll(p, events[..|events| - 1]), events[|events| - 1])
  }

  /** The console order: the last entry first. */
  function Reversed<T>(s: seq<T>): (r: seq<T>)
    ensures |r| == |s|
  {
    if s == [] then [] else [s[|s| - 1]] + Reversed(s[..|s| - 1])
  }

  lemma {:induction false} ReversedAt<T>(s: seq<T>, k: nat)
    requires k < |s|
    ensures Reversed(s)[k] == s[|s| - 1 - k]
  {
    if k > 0 {
      ReversedAt(s[..|s| - 1], k - 1);
    }
  }

  /** A newly logged entry is shown first, above all earlier ones in their old order. */
  lemma NewestShownFirst<T>(s: seq<T>, x: T)
    ensures Reversed(s + [x]) == [x] + Reversed(s)
  {
    assert (s + [x])[..|s|] == s;
  }

  /** The visibility flags of the module's windows and the stop request. */
  datatype Visibility = Visibility(
    menuActive: bool, consoleActive: bool, mathPlaygroundActive: bool,
    configurationActive: bool, testWindowActive: bool, closeApp: bool)

  /** The checkbox states the source keeps in static locals of ShowDebugWindow and ShowMenuWindow. */
  datatype Checkboxes = Checkboxes(
    openMenuWindow: bool, openConsoleWindow: bool, openMathPlaygroundWindow: bool,
    openTestWindow: bool, viewGrid: bool)

  /**
   * The main menu bar (ModuleImGui.cpp:74-97): each View or Help entry
   * flips exactly its own flag; Quit and the three external links change
   * no flag.
   */
  function MenuBarToggle(v: Visibility, choice: MenuBarChoice): (r: Visibility)
    ensures r.menuActive == v.menuActive && r.closeApp == v.closeApp
    ensures r.consoleActive == (v.consoleActive != (choice == ViewConsole))
    ensures r.mathPlaygroundActive == (v.mathPlaygroundActive != (choice == ViewMathPlayground))
    ensures r.configurationActive == (v.configurationActive != (choice == ViewConfiguration))
    ensures r.testWindowActive == (v.testWindowActive != (choice == HelpDemo))
  {
    match choice
    case ViewConsole => v.(consoleActive := !v.consoleActive)
    case ViewMathPlayground => v.(mathPlaygroundActive := !v.mathPlaygroundActive)
    case ViewConfiguration => v.(configurationActive := !v.configurationActive)
    case HelpDemo => v.(testWindowActive := !v.testWindowActive)
    case _ => v
  }

  /**
   * The "Debug Options" checkboxes (ModuleImGui.cpp:176-190): a click flips
   * the checkbox's own state and, independently of it, one visibility flag.
   */
  function DebugWindowToggle(v: Visibility, b: Checkboxes, c: DebugClicks): (r: (Visibility, Checkboxes))
    ensures r.0.menuActive == (v.menuActive != c.showMenu)
    ensures r.0.consoleActive == (v.consoleActive != c.showConsole)
    ensures r.0.mathPlaygroundActive == (v.mathPlaygroundActive != c.showMathPlayground)
    ensures r.0.configurationActive == v.configurationActive && r.0.testWindowActive == v.testWindowActive
    ensures r.0.closeApp == v.closeApp
    ensures r.1.openMenuWindow == (b.openMenuWindow != c.showMenu)
    ensures r.1.openConsoleWindow == (b.openConsoleWindow != c.showConsole)
    ensures r.1.openMathPlaygroundWindow == (b.openMathPlaygroundWindow != c.showMathPlayground)
    ensures r.1.openTestWindow == b.openTestWindow && r.1.viewGrid == b.viewGrid
  {
    var v1 := if c.showMenu then v.(menuActive := !v.menuActive) else v;
    var b1 := if c.showMenu then b.(openMenuWindow := !b.openMenuWindow) else b;
    var v2 := if c.showConsole then v1.(consoleActive := !v1.consoleActive) else v1;
    var b2 := if c.showConsole then b1.(openConsoleWindow := !b1.openConsoleWindow) else b1;
    var v3 := if c.showMathPlayground then v2.(mathPlaygroundActive := !v2.mathPlaygroundActive) else v2;
    var b3 := if c.showMathPlayground then b2.(openMathPlaygroundWindow := !b2.openMathPlaygroundWindow) else b2;
    (v3, b3)
  }

  /**
   * The "ImGui Menu" window (ModuleImGui.cpp:214-237): "Show Demo" flips
   * the demo flag, "View ---" flips only its own box, and "Close App" sets
   * the stop request, which nothing in the module clears again.
   */
  function MenuWindowToggle(v: Visibility, b: Checkboxes, c: MenuWindowClicks): (r: (Visibility, Checkboxes))
    ensures r.0.testWindowActive == (v.testWindowActive != c.showDemo)
    ensures r.0.closeApp == (v.closeApp || c.closeApp)
    ensures r.0.menuActive == v.menuActive && r.0.consoleActive == v.consoleActive
    ensures r.0.mathPlaygroundActive == v.mathPlaygroundActive
    ensures r.0.configurationActive == v.configurationActive
    ensures r.1.openTestWindow == (b.openTestWindow != c.showDemo)
    ensures r.1.viewGrid == (b.viewGrid != c.viewGrid)
    ensures r.1.openMenuWindow == b.openMenuWindow && r.1.openConsoleWindow == b.openConsoleWindow
    ensures r.1.openMathPlaygroundWindow == b.openMathPlaygroundWindow
  {
    var v1 := if c.showDemo then v.(testWindowActive := !v.testWindowActive) else v;
    var b1 := if c.showDemo then b.(openTestWindow := !b.openTestWindow) else b;
    var b2 := if c.viewGrid then b1.(viewGrid := !b1.viewGrid) else b1;
    var v2 := if c.closeApp then v1.(closeApp := true) else v1;
    (v2, b2)
  }

  /** The flags and checkboxes after the menu bar and the debug and menu windows of one frame. */
  function FrameToggles(v: Visibility, b: Checkboxes, choice: MenuBarChoice,
                        debug: DebugClicks, menuWindow: MenuWindowClicks): (Visibility, Checkboxes)
  {
    var afterDebug := DebugWindowToggle(MenuBarToggle(v, choice), b, debug);
    if afterDebug.0.menuActive then MenuWindowToggle(afterDebug.0, afterDebug.1, menuWindow) else afterDebug
  }

  /**
   * A frame stops the application exactly when Quit is chosen, when the
   * stop request was already set, or when "Close App" is clicked in the
   * menu window while that window is shown.
   */
  lemma StopSignal(v: Visibility, b: Checkboxes, choice: MenuBarChoice,
                   debug: DebugClicks, menuWindow: MenuWindowClicks)
    ensures FrameToggles(v, b, choice, debug, menuWindow).0.closeApp ==
      (v.closeApp || ((v.menuActive != debug.showMenu) && menuWindow.closeApp))
  {
  }

  class ModuleImGui {
    var visible: Visibility
    var boxes: Checkboxes
    var consoleText: seq<string>
    var math: Playground
    var fpsData: seq<real>
    var msData: seq<real>

    ghost predicate Valid()
      reads this`fpsData, this`msData, this`math
    {
      |fpsData| <= SampleHistory.Capacity && |msData| <= SampleHistory.Capacity && ResultConsistent(math)
    }

    /** Every window hidden, every field zero, the log and histories empty. */
    constructor ()
      ensures Valid()
      ensures visible == Visibility(false, false, false, false, false, false)
      ensures boxes == Checkboxes(false, false, false, false, false)
      ensures consoleText == [] && fpsData == [] && msData == []
      ensures math == Playground(ZeroScratch, false, false, false)
    {
      visible := Visibility(false, false, false, false, false, false);
      boxes := Checkboxes(false, false, false, false, false);
      consoleText := [];
      math := Playground(ZeroScratch, false, false, false);
      fpsData, msData := [], [];
    }

    /** Any module may log a line to the console window. */
    method AddLogToWindow(toAdd: string)
      modifies this`consoleText
      ensures consoleText == old(consoleText) + [toAdd]
    {
      consoleText := consoleText + [toAdd];
    }

    /** The lines the console window lists, read from the last index down to 0. */
    method ConsoleLines() returns (shown: seq<string>)
      ensures shown == Reversed(consoleText)
    {
      shown := [];
      var i := |consoleText| - 1;
      while i >= 0
        invariant -1 <= i < |consoleText|
        invariant |shown| == |consoleText| - 1 - i
        invariant forall k :: 0 <= k < |shown| ==> shown[k] == consoleText[|consoleText| - 1 - k]
      {
        shown := shown + [consoleText[i]];
        i := i - 1;
      }
      forall k | 0 <= k < |shown|
        ensures shown[k] == Reversed(consoleText)[k]
      {
        ReversedAt(consoleText, k);
      }
    }

    /** The console window: "Clear" empties the log, then the log is listed newest first. */
    method ShowConsoleWindow(clearClicked: bool) returns (shown: seq<string>)
      modifies this`consoleText
      ensures consoleText == if clearClicked then [] else old(consoleText)
      ensures shown == Reversed(consoleText)
    {
      if clearClicked {
        consoleText := [];
      }
      shown := ConsoleLines();
    }

    /** Both "Run Math Test" buttons store the outcome as two exclusive flags. */
    method RunMathTest(outcome: bool)
      modifies this`math
      ensures math == old(math).(intersects := outcome, intersectsTrue := outcome, intersectsFalse := !outcome)
    {
      math := math.(intersects := outcome);
      if math.intersects {
        math := math.(intersectsTrue := true, intersectsFalse := false);
      } else {
        math := math.(intersectsTrue := false, intersectsFalse := true);
      }
    }

    /** The "Reset" button of the math window. */
    method ResetMathFields()
      modifies this`math
      ensures math == Playground(ZeroScratch, false, false, false)
    {
      var s := math.scratch;
      s := s.(sphereRadius := 0, sphereX := 0, sphereY := 0, sphereZ := 0);
      s := s.(sphereRadius2 := 0, sphereX2 := 0, sphereY2 := 0, sphereZ2 := 0);
      s := s.(capsuleRadius := 0, capsuleBotX := 0, capsuleBotY := 0, capsuleBotZ := 0,
              capsuleTopX := 0, capsuleTopY := 0, capsuleTopZ := 0);
      math := math.(scratch := s, intersects := false, intersectsTrue := false, intersectsFalse := false);
    }

    /**
     * The math window for one frame; returns the result texts it shows.
     * The texts are drawn inside the two headers, before the "Reset" button
     * is handled, so a Reset frame still shows the previous result.
     */
    method ShowMathWindow(e: MathEvent) returns (shown: seq<string>)
      requires Valid()
      modifies this`math
      ensures Valid()
      ensures math == ApplyMathEvent(old(math), e)
      ensures shown == ResultTexts(if e.ResetMath? then old(math) else math)
    {
      match e {
        case NoMathEvent =>
        case InputSphere(radius, x, y, z) =>
          math := math.(scratch := math.scratch.(sphereRadius := radius, sphereX := x, sphereY := y, sphereZ := z));
        case InputSphere2(radius, x, y, z) =>
          math := math.(scratch := math.scratch.(sphereRadius2 := radius, sphereX2 := x, sphereY2 := y, sphereZ2 := z));
        case InputCapsule(radius, x0, y0, z0, x1, y1, z1) =>
          math := math.(scratch := math.scratch.(capsuleRadius := radius,
                                                 capsuleBotX := x0, capsuleBotY := y0, capsuleBotZ := z0,
                                                 capsuleTopX := x1, capsuleTopY := y1, capsuleTopZ := z1));
        case RunSphereSphere(b) => RunMathTest(b);
        case RunSphereCapsule(b) => RunMathTest(b);
        case ResetMath =>
      }
      shown := ResultTexts(math);
      if e.ResetMath? {
        ResetMathFields();
      }
    }

    /** The "Debug" window with its three checkboxes. */
    method ShowDebugWindow(clicks: DebugClicks)
      modifies this`visible, this`boxes
      ensures (visible, boxes) == DebugWindowToggle(old(visible), old(boxes), clicks)
    {
      if clicks.showMenu {
        boxes := boxes.(openMenuWindow := !boxes.openMenuWindow);
        visible := visible.(menuActive := !visible.menuActive);
      }
      if clicks.showConsole {
        boxes := boxes.(openConsoleWindow := !boxes.openConsoleWindow);
        visible := visible.(consoleActive := !visible.consoleActive);
      }
      if clicks.showMathPlayground {
        boxes := boxes.(openMathPlaygroundWindow := !boxes.openMathPlaygroundWindow);
        visible := visible.(mathPlaygroundActive := !visible.mathPlaygroundActive);
      }
    }

    /** The "ImGui Menu" window. */
    method ShowMenuWindow(clicks: MenuWindowClicks)
      modifies this`visible, this`boxes
      ensures (visible, boxes) == MenuWindowToggle(old(visible), old(boxes), clicks)
    {
      if clicks.showDemo {
        boxes := boxes.(openTestWindow := !boxes.openTestWindow);
        visible := visible.(testWindowActive := !visible.testWindowActive);
      }
      if clicks.viewGrid {
        boxes := boxes.(viewGrid := !boxes.viewGrid);
      }
      if clicks.closeApp {
        visible := visible.(closeApp := true);
      }
    }

    /** Adds one sample to each history; the two histories follow the same rule independently. */
    method CycleFPSAndMsData(fps: real, ms: real)
      requires Valid()
      modifies this`fpsData, this`msData
      ensures Valid()
      ensures fpsData == SampleHistory.CycleFifo(old(fpsData), fps)
      ensures msData == SampleHistory.CycleFifo(old(msData), ms)
      ensures |fpsData| > 0 && |msData| > 0
    {
      fpsData := SampleHistory.CycleSamples(fpsData, fps);
      msData := SampleHistory.CycleSamples(msData, ms);
    }

    /**
     * The configuration window. With its "Application" header open it cycles
     * the histories and shows the newest sample of each in the histogram
     * titles, read at index `size() - 1`.
     */
    method ShowConfigurationWindow(applicationOpen: bool, fps: real, ms: real)
      returns (framerate: Option<real>, milliseconds: Option<real>)
      requires Valid()
      modifies this`fpsData, this`msData
      ensures Valid()
      ensures fpsData == if applicationOpen then SampleHistory.CycleFifo(old(fpsData), fps) else old(fpsData)
      ensures msData == if applicationOpen then SampleHistory.CycleFifo(old(msData), ms) else old(msData)
      ensures framerate == if applicationOpen then Some(fps) else None
      ensures milliseconds == if applicationOpen then Some(ms) else None
    {
      framerate, milliseconds := None, None;
      if applicationOpen {
        CycleFPSAndMsData(fps, ms);
        framerate := Some(fpsData[|fpsData| - 1]);
        milliseconds := Some(msData[|msData| - 1]);
      }
    }

    /** The main menu bar. Returns whether "Quit" was chosen. */
    method MainMenuBar(choice: MenuBarChoice) returns (quit: bool)
      modifies this`visible
      ensures quit == (choice == FileQuit)
      ensures visible == MenuBarToggle(old(visible), choice)
    {
      quit := false;
      match choice {
        case FileQuit => quit := true;
        case ViewConsole => visible := visible.(consoleActive := !visible.consoleActive);
        case ViewMathPlayground => visible := visible.(mathPlaygroundActive := !visible.mathPlaygroundActive);
        case ViewConfiguration => visible := visible.(configurationActive := !visible.configurationActive);
        case HelpDemo => visible := visible.(testWindowActive := !visible.testWindowActive);
        case HelpDocumentation =>
        case HelpLatestRelease =>
        case HelpReportBug =>
        case NoMenuChoice =>
      }
    }

    /** The debug window, then the menu window when it is visible. */
    method ShowToggleWindows(debug: DebugClicks, menuWindow: MenuWindowClicks)
      modifies this`visible, this`boxes
      ensures (visible, boxes) ==
        var afterDebug := DebugWindowToggle(old(visible), old(boxes), debug);
        if afterDebug.0.menuActive then MenuWindowToggle(afterDebug.0, afterDebug.1, menuWindow) else afterDebug
    {
      ShowDebugWindow(debug);
      if visible.menuActive {
        ShowMenuWindow(menuWindow);
      }
    }

    /** The console, math and configuration windows, each drawn only when visible. */
    method ShowContentWindows(consoleClear: bool, mathEvent: MathEvent, applicationOpen: bool, fps: real, ms: real)
      requires Valid()
      modifies this`consoleText, this`math, this`fpsData, this`msData
      ensures Valid()
      ensures consoleText == if visible.consoleActive && consoleClear then [] else old(consoleText)
      ensures math == if visible.mathPlaygroundActive then ApplyMathEvent(old(math), mathEvent) else old(math)
      ensures fpsData == if visible.configurationActive && applicationOpen
                         then SampleHistory.CycleFifo(old(fpsData), fps) else old(fpsData)
      ensures msData == if visible.configurationActive && applicationOpen
                        then SampleHistory.CycleFifo(old(msData), ms) else old(msData)
    {
      if visible.consoleActive {
        var _ := ShowConsoleWindow(consoleClear);
      }
      if visible.mathPlaygroundActive {
        var _ := ShowMathWindow(mathEvent);
      }
      if visible.configurationActive {
        var _, _ := ShowConfigurationWindow(applicationOpen, fps, ms);
      }
    }

    /**
     * One frame of the debug UI. "Quit" stops at once and changes nothing;
     * otherwise the menu bar and the debug and menu windows toggle flags,
     * each visible window then handles its own widgets, and a set
     * `closeApp` stops the application.
     */
    method Update(menuBar: MenuBarChoice, debug: DebugClicks, menuWindow: MenuWindowClicks,
                  consoleClear: bool, mathEvent: MathEvent, applicationOpen: bool, fps: real, ms: real)
      returns (status: UpdateStatus)
      requires Valid()
      modifies this
      ensures Valid()
      ensures menuBar == FileQuit ==> status == UpdateStop && unchanged(this)
      ensures menuBar != FileQuit ==>
        && (visible, boxes) == FrameToggles(old(visible), old(boxes), menuBar, debug, menuWindow)
        && consoleText == (if visible.consoleActive && consoleClear then [] else old(consoleText))
        && math == (if visible.mathPlaygroundActive then ApplyMathEvent(old(math), mathEvent) else old(math))
        && fpsData == (if visible.configurationActive && applicationOpen
                       then SampleHistory.CycleFifo(old(fpsData), fps) else old(fpsData))
        && msData == (if visible.configurationActive && applicationOpen
                      then SampleHistory.CycleFifo(old(msData), ms) else old(msData))
        && status == (if visible.closeApp then UpdateStop else UpdateContinue)
    {
      var quit := MainMenuBar(menuBar);
      if quit {
        status := UpdateStop;
      } else {
        ShowToggleWindows(debug, menuWindow);
        ShowContentWindows(consoleClear, mathEvent, applicationOpen, fps, ms);
        status := if visible.closeApp then UpdateStop else UpdateContinue;
      }
    }
  }
}
