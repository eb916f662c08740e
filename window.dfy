/**
 * The window's side of input handling.  The window callbacks record each key
 * or mouse-button change in Input's state maps and append the key to a pending
 * list; at the start of every input tick the pending entries age by one step
 * (Down becomes Held, Up becomes Released) and the lists are emptied, and only
 * then are the new window events polled.
 */
module Window {
  import opened Input

  /** Advancing one tick: the one-tick states become the lasting ones. */
  function Advance(s: KeyState): (r: KeyState)
    ensures r != Down && r != Up
    ensures IsPressed(r) == IsPressed(s)
    ensures s == Held || s == Released ==> r == s
  {
    match s
    case Down => Held
    case Up => Released
    case _ => s
  }

  /** The update UpdateKeyStates applies for one pending key. */
  function AdvanceKey<K>(states: map<K, KeyState>, key: K): map<K, KeyState>
  {
    if key in states then states[key := Advance(states[key])] else states
  }

  /** UpdateKeyStates' loop over a pending list, one entry after the other. */
  function AdvanceAll<K>(states: map<K, KeyState>, pending: seq<K>): map<K, KeyState>
  {
    if pending == [] then states
    else AdvanceKey(AdvanceAll(states, pending[..|pending| - 1]), pending[|pending| - 1])
  }

  /**
   * Reference definition of a tick: every pending key that has an entry is
   * advanced once and every other entry keeps its state.
   */
  function AdvancedStates<K>(states: map<K, KeyState>, pending: seq<K>): map<K, KeyState>
  {
    map k | k in states :: if k in pending then Advance(states[k]) else states[k]
  }

  /**
   * Processing the pending list in order is the same as advancing each pending
   * key once: repeated entries make no difference, because Advance is
   * idempotent, and no entry is ever inserted.
   */
  lemma {:induction false} AdvanceAllIsAdvancedStates<K>(states: map<K, KeyState>, pending: seq<K>)
    ensures AdvanceAll(states, pending) == AdvancedStates(states, pending)
  {
    if pending != [] {
      var front, last := pending[..|pending| - 1], pending[|pending| - 1];
      AdvanceAllIsAdvancedStates(states, front);
      var before := AdvancedStates(states, front);
      var after := AdvanceKey(before, last);
      forall k | k in states
        ensures after[k] == (if k in pending then Advance(states[k]) else states[k])
      {
        assert k in pending <==> k in front || k == last;
      }
      assert after.Keys == states.Keys;
    }
  }

  /** The state of every key after a tick, stated key by key. */
  lemma TickOnKey<K>(states: map<K, KeyState>, pending: seq<K>, key: K)
    ensures key in AdvanceAll(states, pending) <==> key in states
    ensures key in states && key in pending ==> AdvanceAll(states, pending)[key] == Advance(states[key])
    ensures key in states && key !in pending ==> AdvanceAll(states, pending)[key] == states[key]
  {
    AdvanceAllIsAdvancedStates(states, pending);
  }

  /**
   * A tick never changes whether a key is pressed, and afterwards no pending
   * key reports Down or Up: those last exactly one tick.
   */
  lemma TickKeepsPressedState(states: map<KeyCode, KeyState>, pending: seq<KeyCode>, key: KeyCode)
    ensures GetKey(AdvanceAll(states, pending), key) == GetKey(states, key)
    ensures key in pending ==> !GetKeyDown(AdvanceAll(states, pending), key) && !GetKeyUp(AdvanceAll(states, pending), key)
    ensures key !in pending ==> GetKeyDown(AdvanceAll(states, pending), key) == GetKeyDown(states, key)
  {
    TickOnKey(states, pending, key);
  }

  /** A GLFW key or mouse-button action. */
  datatype Action = Press | Release | Repeat

  /** The window events the callbacks react to, in the order PollEvents delivers them. */
  datatype WindowEvent =
    | KeyEvent(key: KeyCode, action: Action)
    | MouseButtonEvent(button: MouseButton, action: Action)
    | CursorPosEvent(x: real, y: real)
    | OtherEvent

  /** The static state of Input that the window writes. */
  datatype InputData = InputData(
    keyStates: map<KeyCode, KeyState>,
    mouseButtonStates: map<MouseButton, KeyState>,
    keysToUpdate: seq<KeyCode>,
    mouseButtonsToUpdate: seq<MouseButton>,
    cursorX: real,
    cursorY: real)

  /** UpdateKeyStates on the whole input state. */
  function TickData(d: InputData): InputData
  {
    d.(keyStates := AdvanceAll(d.keyStates, d.keysToUpdate), keysToUpdate := [],
       mouseButtonStates := AdvanceAll(d.mouseButtonStates, d.mouseButtonsToUpdate), mouseButtonsToUpdate := [])
  }

  /** What one event's callback does to the input state. */
  function OnEvent(d: InputData, e: WindowEvent): InputData
  {
    match e
    case KeyEvent(key, action) =>
      if action == Press then d.(keyStates := d.keyStates[key := Down], keysToUpdate := d.keysToUpdate + [key])
      else if action == Release then d.(keyStates := d.keyStates[key := Up], keysToUpdate := d.keysToUpdate + [key])
      else d
    case MouseButtonEvent(button, action) =>
      if action == Press then
        d.(mouseButtonStates := d.mouseButtonStates[button := Down], mouseButtonsToUpdate := d.mouseButtonsToUpdate + [button])
      else if action == Release then
        d.(mouseButtonStates := d.mouseButtonStates[button := Up], mouseButtonsToUpdate := d.mouseButtonsToUpdate + [button])
      else d
    case CursorPosEvent(x, y) => d.(cursorX := x, cursorY := y)
    case OtherEvent => d
  }

  /** PollEvents: the callbacks of the polled events, in order. */
  function PollData(d: InputData, events: seq<WindowEvent>): InputData
  {
    if events == [] then d else OnEvent(PollData(d, events[..|events| - 1]), events[|events| - 1])
  }

  /** InputTick: first the tick, then the poll. */
  function InputTickData(d: InputData, events: seq<WindowEvent>): InputData
  {
    PollData(TickData(d), events)
  }

  /** The last key event for key in events that changes its state, if any. */
  function LastKeyAction(events: seq<WindowEvent>, key: KeyCode): Action
  {
    if events == [] then Repeat
    else
      var e := events[|events| - 1];
      if e.KeyEvent? && e.key == key && e.action != Repeat then e.action
      else LastKeyAction(events[..|events| - 1], key)
  }

  /**
   * After polling, a key's state is decided by its last press or release:
   * Down after a press, Up after a release; a key without such events keeps
   * its state.  Every pressed or released key is pending.
   */
  lemma {:induction false} PollKeyState(d: InputData, events: seq<WindowEvent>, key: KeyCode)
    ensures var p := PollData(d, events);
      && (LastKeyAction(events, key) == Press ==> key in p.keyStates && p.keyStates[key] == Down && key in p.keysToUpdate)
      && (LastKeyAction(events, key) == Release ==> key in p.keyStates && p.keyStates[key] == Up && key in p.keysToUpdate)
      && (LastKeyAction(events, key) == Repeat ==>
            (key in p.keyStates <==> key in d.keyStates) && (key in d.keyStates ==> p.keyStates[key] == d.keyStates[key]))
      && (forall k :: k in d.keysToUpdate ==> k in p.keysToUpdate)
  {
    if events != [] {
      var front := events[..|events| - 1];
      PollKeyState(d, front, key);
      var p0 := PollData(d, front);
      var e := events[|events| - 1];
      assert PollData(d, events) == OnEvent(p0, e);
      if e.KeyEvent? && e.action != Repeat {
        assert e.key in OnEvent(p0, e).keysToUpdate;
      }
    }
  }

  /**
   * A key pressed during a tick's poll reads as "went down" until the next
   * tick, which turns it into Held: pressed, but no longer "went down".
   */
  lemma DownSurvivesUntilNextTick(d: InputData, events: seq<WindowEvent>, later: seq<WindowEvent>, key: KeyCode)
    requires LastKeyAction(events, key) == Press
    requires LastKeyAction(later, key) == Repeat
    ensures GetKeyDown(InputTickData(d, events).keyStates, key)
    ensures var next := InputTickData(InputTickData(d, events), later);
      GetKey(next.keyStates, key) && !GetKeyDown(next.keyStates, key)
  {
    var first := InputTickData(d, events);
    PollKeyState(TickData(d), events, key);
    TickOnKey(first.keyStates, first.keysToUpdate, key);
    PollKeyState(TickData(first), later, key);
  }

  /** Input's static state, which the window's callbacks and its input tick update in place. */
  class InputSystem {
    var keyStates: map<KeyCode, KeyState>
    var mouseButtonStates: map<MouseButton, KeyState>
    var keysToUpdate: seq<KeyCode>
    var mouseButtonsToUpdate: seq<MouseButton>
    var cursorX: real
    var cursorY: real

    function Data(): InputData
      reads this
    {
      InputData(keyStates, mouseButtonStates, keysToUpdate, mouseButtonsToUpdate, cursorX, cursorY)
    }

    constructor ()
      ensures keyStates == map[] && mouseButtonStates == map[]
      ensures keysToUpdate == [] && mouseButtonsToUpdate == []
      ensures cursorX == 0.0 && cursorY == 0.0
    {
      keyStates, mouseButtonStates := map[], map[];
      keysToUpdate, mouseButtonsToUpdate := [], [];
      cursorX, cursorY := 0.0, 0.0;
    }

    /** Window::SetKeyState: record the key's new state and queue it for the next tick. */
    method SetKeyState(key: KeyCode, state: KeyState)
      modifies this
      ensures keyStates == old(keyStates)[key := state]
      ensures keysToUpdate == old(keysToUpdate) + [key]
      ensures mouseButtonStates == old(mouseButtonStates) && mouseButtonsToUpdate == old(mouseButtonsToUpdate)
      ensures cursorX == old(cursorX) && cursorY == old(cursorY)
    {
      keyStates := keyStates[key := state];
      keysToUpdate := keysToUpdate + [key];
    }

    /** Window::SetMouseButtonState: the same for a mouse button. */
    method SetMouseButtonState(button: MouseButton, state: KeyState)
      modifies this
      ensures mouseButtonStates == old(mouseButtonStates)[button := state]
      ensures mouseButtonsToUpdate == old(mouseButtonsToUpdate) + [button]
      ensures keyStates == old(keyStates) && keysToUpdate == old(keysToUpdate)
      ensures cursorX == old(cursorX) && cursorY == old(cursorY)
    {
      mouseButtonStates := mouseButtonStates[button := state];
      mouseButtonsToUpdate := mouseButtonsToUpdate + [button];
    }

    /** Window::SetCursorPos. */
    method SetCursorPos(x: real, y: real)
      modifies this
      ensures Data() == old(Data()).(cursorX := x, cursorY := y)
    {
      cursorX, cursorY := x, y;
    }

    /** Window::UpdateKeyStates: age every pending key, then every pending mouse button, and empty both lists. */
    method UpdateKeyStates()
      modifies this
      ensures Data() == TickData(old(Data()))
    {
      var pending := keysToUpdate;
      for i := 0 to |pending|
        invariant keyStates == AdvanceAll(old(keyStates), pending[..i])
        invariant unchanged(`mouseButtonStates) && unchanged(`mouseButtonsToUpdate)
        invariant unchanged(`keysToUpdate) && unchanged(`cursorX) && unchanged(`cursorY)
      {
        assert pending[..i + 1][..i] == pending[..i];
        var key := pending[i];
        if key in keyStates {
          if keyStates[key] == Down {
            keyStates := keyStates[key := Held];
          } else if keyStates[key] == Up {
            keyStates := keyStates[key := Released];
          }
        }
      }
      assert pending[..|pending|] == pending;
      keysToUpdate := [];

      var buttons := mouseButtonsToUpdate;
      for i := 0 to |buttons|
        invariant mouseButtonStates == AdvanceAll(old(mouseButtonStates), buttons[..i])
        invariant keyStates == AdvanceAll(old(keyStates), old(keysToUpdate)) && keysToUpdate == []
        invariant unchanged(`mouseButtonsToUpdate) && unchanged(`cursorX) && unchanged(`cursorY)
      {
        assert buttons[..i + 1][..i] == buttons[..i];
        var button := buttons[i];
        if button in mouseButtonStates {
          if mouseButtonStates[button] == Down {
            mouseButtonStates := mouseButtonStates[button := Held];
          } else if mouseButtonStates[button] == Up {
            mouseButtonStates := mouseButtonStates[button := Released];
          }
        }
      }
      assert buttons[..|buttons|] == buttons;
      mouseButtonsToUpdate := [];
    }

    /** The callback the window system runs for one event. */
    method HandleEvent(e: WindowEvent)
      modifies this
      ensures Data() == OnEvent(old(Data()), e)
    {
      match e
      case KeyEvent(key, action) =>
        if action == Press {
          SetKeyState(key, Down);
        } else if action == Release {
          SetKeyState(key, Up);
        }
      case MouseButtonEvent(button, action) =>
        if action == Press {
          SetMouseButtonState(button, Down);
        } else if action == Release {
          SetMouseButtonState(button, Up);
        }
      case CursorPosEvent(x, y) =>
        SetCursorPos(x, y);
      case OtherEvent =>
    }

    /** Window::PollEvents: the callbacks of the pending window events run in order. */
    method PollEvents(events: seq<WindowEvent>)
      modifies this
      ensures Data() == PollData(old(Data()), events)
    {
      for i := 0 to |events|
        invariant Data() == PollData(old(Data()), events[..i])
      {
        assert events[..i + 1][..i] == events[..i];
        HandleEvent(events[i]);
      }
      assert events[..|events|] == events;
    }

    /** Window::InputTick: the pending states age before the new events arrive. */
    method InputTick(events: seq<WindowEvent>)
      modifies this
      ensures Data() == InputTickData(old(Data()), events)
    {
      UpdateKeyStates();
      PollEvents(events);
    }
  }
}
