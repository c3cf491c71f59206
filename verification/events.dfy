/** The hook event as the recorder, listener and playback code see it
    (recording/constants.py and the attributes the pyHook events carry). */
module Events {

  /** EventType.MOUSE and EventType.KEYBOARD; any other code is possible in a queued event. */
  const MOUSE: int := 0
  const KEYBOARD: int := 1

  /** One input event. Mouse events use the button and position fields, keyboard
      events the key fields; the recorder stamps `time` and the three modifier flags. */
  datatype Event = Event(
    kind: int,             // Type
    keyId: int,            // KeyID, a Windows virtual-key code
    key: string,           // Key, the key name
    isDown: bool,          // Is_Down
    isUp: bool,            // Is_Up
    isLeft: bool,          // Is_Left
    isRight: bool,         // Is_Right
    isDouble: bool,        // Is_Double
    injected: bool,        // Injected
    window: int,           // Window handle
    windowName: string,    // WindowName
    x: int, y: int,        // Position
    time: int,             // Time, the delay since the previous recorded event
    isShift: bool,         // Is_Shift
    isCtrl: bool,          // Is_Ctrl
    isAlt: bool            // Is_Alt
  )
}
