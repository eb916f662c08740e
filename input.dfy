/**
 * The engine's input queries.  Input keeps one map from keys to their state
 * and one from mouse buttons to their state; the queries only look entries up
 * (a missing entry reads as "not pressed") and never insert one.
 */
module Input {
  /** The state of a key or mouse button; Down and Up last for one tick. */
  datatype KeyState = Down | Up | Held | Released

  /** Key codes and mouse-button numbers are plain integers coming from the window system. */
  type KeyCode = int
  type MouseButton = int

  /** A state in which the key counts as pressed. */
  predicate IsPressed(s: KeyState)
  {
    s == Down || s == Held
  }

  /** Input::GetKey: the key is pressed now (it went down this tick or is held). */
  function GetKey(states: map<KeyCode, KeyState>, key: KeyCode): (pressed: bool)
    ensures pressed <==> key in states && IsPressed(states[key])
  {
    if key !in states then false else states[key] == Down || states[key] == Held
  }

  /** Input::GetKeyDown: the key went down this tick. */
  function GetKeyDown(states: map<KeyCode, KeyState>, key: KeyCode): (down: bool)
    ensures down <==> key in states && states[key] == Down
  {
    if key !in states then false else states[key] == Down
  }

  /** Input::GetKeyUp: the key went up this tick. */
  function GetKeyUp(states: map<KeyCode, KeyState>, key: KeyCode): (up: bool)
    ensures up <==> key in states && states[key] == Up
  {
    if key !in states then false else states[key] == Up
  }

  /** Input::GetMouseButton. */
  function GetMouseButton(states: map<MouseButton, KeyState>, button: MouseButton): (pressed: bool)
    ensures pressed <==> button in states && IsPressed(states[button])
  {
    if button !in states then false else states[button] == Down || states[button] == Held
  }

  /** Input::GetMouseButtonDown. */
  function GetMouseButtonDown(states: map<MouseButton, KeyState>, button: MouseButton): (down: bool)
    ensures down <==> button in states && states[button] == Down
  {
    if button !in states then false else states[button] == Down
  }

  /** Input::GetMouseButtonUp. */
  function GetMouseButtonUp(states: map<MouseButton, KeyState>, button: MouseButton): (up: bool)
    ensures up <==> button in states && states[button] == Up
  {
    if button !in states then false else states[button] == Up
  }

  /**
   * The three queries agree with each other: a key that went down is pressed,
   * a key that went up is not, and a key never seen reads false everywhere.
   */
  lemma KeyQueriesConsistent(states: map<KeyCode, KeyState>, key: KeyCode)
    ensures GetKeyDown(states, key) ==> GetKey(states, key)
    ensures GetKeyUp(states, key) ==> !GetKey(states, key)
    ensures !(GetKeyDown(states, key) && GetKeyUp(states, key))
    ensures key !in states ==> !GetKey(states, key) && !GetKeyDown(states, key) && !GetKeyUp(states, key)
  {
  }

  /** The mouse-button queries follow the same rules over their own map. */
  lemma MouseQueriesConsistent(states: map<MouseButton, KeyState>, button: MouseButton)
    ensures GetMouseButtonDown(states, button) ==> GetMouseButton(states, button)
    ensures GetMouseButtonUp(states, button) ==> !GetMouseButton(states, button)
    ensures GetMouseButton(states, button) == GetKey(states, button)
    ensures GetMouseButtonDown(states, button) == GetKeyDown(states, button)
    ensures GetMouseButtonUp(states, button) == GetKeyUp(states, button)
  {
  }
}
