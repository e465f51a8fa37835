/**
 * The compile-time constants the modules read from `Globals.h`. That header
 * is not part of this model, so the constants are a value handed to the
 * module constructors and every property below holds whatever they are.
 */
module Globals {

  datatype BuildConfig = BuildConfig(
    screenWidth: int,           // SCREEN_WIDTH
    screenHeight: int,          // SCREEN_HEIGHT
    screenSize: int,            // SCREEN_SIZE, the UI scale factor
    winFullscreen: bool,        // WIN_FULLSCREEN
    winResizable: bool,         // WIN_RESIZABLE
    winBorderless: bool,        // WIN_BORDERLESS
    winFullscreenDesktop: bool, // WIN_FULLSCREEN_DESKTOP
    vsync: bool,                // VSYNC
    title: string)              // TITLE

  /** The module update results used here (`update_status`). */
  datatype UpdateStatus = UpdateContinue | UpdateStop
}
