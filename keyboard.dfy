/** The global hotkey registrations of the `keyboard` library, seen as a set
    of bindings: which key combination triggers which handler callback, on
    press or on release, and whether the key event is kept from reaching the
    focused application. */
module Keyboard {

  /** The handler callbacks that hotkeys are bound to. */
  datatype Action = StartRecordingAction | StopRecordingAction | RetypeAction | TypeAction

  /** `keyboard.add_hotkey(combo, callback, trigger_on_release=onRelease, suppress=suppress)`. */
  datatype Binding = Binding(combo: string, action: Action, onRelease: bool, suppress: bool)
}
