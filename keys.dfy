/** The key codes of java.awt.event.KeyEvent that the simulation reacts to. */
module KeyCodes {

  const KeyUp: int := 38
  const KeyDown: int := 40
  const Key1: int := 49
  const Key2: int := 50
  const Key3: int := 51
  const Key4: int := 52
  const KeyC: int := 67
  const KeyG: int := 71
  const KeyM: int := 77
  const KeyN: int := 78
  const KeyV: int := 86

  /** The view's "no key pressed" value, restored after the N key. */
  const NoKey: int := -1
}
