/**
 * Global hotkeys (HotkeyManager): two key-down monitors, one for full-screen
 * capture (command-shift-3) and one for area capture (command-shift-4),
 * installed only when the process is trusted for accessibility.
 */
module Hotkey {

  /** The modifier flags a key event can carry. */
  datatype Modifier = Command | Shift | OptionKey | Control | CapsLock | FunctionKey | NumericPad | Help

  datatype KeyEvent = KeyEvent(modifierFlags: set<Modifier>, keyCode: int)

  /** What a monitor triggers on the screenshot manager. */
  datatype Action = CaptureFullScreen | CaptureArea

  /** Virtual key code of the '3' key. */
  const FullScreenKeyCode := 20
  /** Virtual key code of the '4' key. */
  const AreaKeyCode := 21

  /** The flags contain both command and shift (other flags may be present too). */
  predicate HasCommandShift(e: KeyEvent)
  {
    {Command, Shift} <= e.modifierFlags
  }

  predicate MatchesFullScreen(e: KeyEvent)
  {
    HasCommandShift(e) && e.keyCode == FullScreenKeyCode
  }

  predicate MatchesArea(e: KeyEvent)
  {
    HasCommandShift(e) && e.keyCode == AreaKeyCode
  }

  /** No key event matches both hotkeys. */
  lemma MatchesAreExclusive(e: KeyEvent)
    ensures !(MatchesFullScreen(e) && MatchesArea(e))
  {
  }

  /** Adding modifier flags to a matching event keeps it matching. */
  lemma ExtraModifiersStillMatch(e: KeyEvent, extra: set<Modifier>)
    ensures MatchesFullScreen(e) ==> MatchesFullScreen(KeyEvent(e.modifierFlags + extra, e.keyCode))
    ensures MatchesArea(e) ==> MatchesArea(KeyEvent(e.modifierFlags + extra, e.keyCode))
  {
  }

  /** A HotkeyManager: whether each of its two monitors is installed. */
  class HotkeyManager {
    var fullScreenMonitor: bool
    var areaSelectionMonitor: bool

    /** init, which runs registerHotkeys; `trusted` is the accessibility-trust answer. */
    constructor (trusted: bool)
      ensures fullScreenMonitor == trusted && areaSelectionMonitor == trusted
    {
      fullScreenMonitor, areaSelectionMonitor := false, false;
      if trusted {
        fullScreenMonitor := true;
        areaSelectionMonitor := true;
      }
    }

    /** A key-down event delivered to the installed monitors: the actions it triggers. */
    method OnKeyDown(e: KeyEvent) returns (actions: seq<Action>)
      ensures CaptureFullScreen in actions <==> fullScreenMonitor && MatchesFullScreen(e)
      ensures CaptureArea in actions <==> areaSelectionMonitor && MatchesArea(e)
      ensures |actions| <= 1
      ensures actions == [] <==> !(fullScreenMonitor && MatchesFullScreen(e)) && !(areaSelectionMonitor && MatchesArea(e))
    {
      actions := [];
      if fullScreenMonitor && MatchesFullScreen(e) {
        actions := actions + [CaptureFullScreen];
      }
      if areaSelectionMonitor && MatchesArea(e) {
        actions := actions + [CaptureArea];
      }
    }

    /** deinit: removes every installed monitor; returns how many were removed. */
    method Deinit() returns (removed: nat)
      modifies this
      ensures removed == (if old(fullScreenMonitor) then 1 else 0) + (if old(areaSelectionMonitor) then 1 else 0)
      ensures !fullScreenMonitor && !areaSelectionMonitor
    {
      removed := 0;
      if fullScreenMonitor {
        removed := removed + 1;
        fullScreenMonitor := false;
      }
      if areaSelectionMonitor {
        removed := removed + 1;
        areaSelectionMonitor := false;
      }
    }
  }

  /** Without accessibility trust, no key event triggers anything. */
  method UntrustedIgnoresKeys(e: KeyEvent) returns (actions: seq<Action>)
    ensures actions == []
  {
    var m := new HotkeyManager(false);
    actions := m.OnKeyDown(e);
  }
}
