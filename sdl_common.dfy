/** The input half of the SDL2 glue shared by every backend
    (demo/sdl/nuklear_sdl_common.h): translating SDL events into Nuklear
    input calls, the mouse-grab rule, and the clipboard callbacks.

    Nuklear's `nk_input_*` functions and the SDL calls are not part of this
    model: each call the shim makes is appended to a log on `Context`, so the
    properties are statements about what was logged and in which order. */
module SdlCommon {
  import opened Base

  // SDL2 event type tags (SDL_EventType).
  const SDL_KEYDOWN: Uint32 := 0x300
  const SDL_KEYUP: Uint32 := 0x301
  const SDL_TEXTINPUT: Uint32 := 0x303
  const SDL_MOUSEMOTION: Uint32 := 0x400
  const SDL_MOUSEBUTTONDOWN: Uint32 := 0x401
  const SDL_MOUSEBUTTONUP: Uint32 := 0x402
  const SDL_MOUSEWHEEL: Uint32 := 0x403

  // SDL2 key codes (SDL_Keycode) that the shim recognises.
  const SDLK_BACKSPACE := 8
  const SDLK_TAB := 9
  const SDLK_RETURN := 13
  const SDLK_DELETE := 127
  const SDLK_a := 97
  const SDLK_b := 98
  const SDLK_c := 99
  const SDLK_e := 101
  const SDLK_r := 114
  const SDLK_v := 118
  const SDLK_x := 120
  const SDLK_z := 122
  const SDLK_HOME := 0x4000_004A
  const SDLK_PAGEUP := 0x4000_004B
  const SDLK_END := 0x4000_004D
  const SDLK_PAGEDOWN := 0x4000_004E
  const SDLK_RIGHT := 0x4000_004F
  const SDLK_LEFT := 0x4000_0050
  const SDLK_DOWN := 0x4000_0051
  const SDLK_UP := 0x4000_0052
  const SDLK_KP_ENTER := 0x4000_0058
  const SDLK_LSHIFT := 0x4000_00E1
  const SDLK_RSHIFT := 0x4000_00E5

  // SDL2 modifier bits (SDL_Keymod) for the two Ctrl keys.
  const KMOD_LCTRL: bv16 := 0x0040
  const KMOD_RCTRL: bv16 := 0x0080

  // SDL2 mouse button ids.
  const SDL_BUTTON_LEFT: Byte := 1
  const SDL_BUTTON_MIDDLE: Byte := 2
  const SDL_BUTTON_RIGHT: Byte := 3

  /** Size of SDL's text-input buffer and of Nuklear's glyph. */
  const SDL_TEXTINPUTEVENT_TEXT_SIZE := 32
  const NK_UTF_SIZE := 4

  type TextBuffer = s: seq<Byte> | |s| == SDL_TEXTINPUTEVENT_TEXT_SIZE
    witness seq(SDL_TEXTINPUTEVENT_TEXT_SIZE, _ => 0)

  datatype KeyboardEvent = KeyboardEvent(sym: int)
  datatype MouseButtonEvent = MouseButtonEvent(button: Byte, clicks: Byte, x: int, y: int)
  datatype MouseMotionEvent = MouseMotionEvent(x: int, y: int, xrel: int, yrel: int)
  datatype TextInputEvent = TextInputEvent(text: TextBuffer)
  /** The wheel's precise offsets are floats that are passed on untouched. */
  datatype MouseWheelEvent = MouseWheelEvent(preciseX: real, preciseY: real)

  /** An `SDL_Event`: its type tag and the union members the shim reads. */
  datatype Event = Event(
    kind: Uint32,
    key: KeyboardEvent,
    button: MouseButtonEvent,
    motion: MouseMotionEvent,
    text: TextInputEvent,
    wheel: MouseWheelEvent)

  /** The Nuklear keys (`enum nk_keys`) the shim reports. */
  datatype NkKey =
    | Shift | Del | Enter | Tab | Backspace
    | TextStart | TextEnd | ScrollStart | ScrollEnd | ScrollDown | ScrollUp
    | TextUndo | TextRedo | Copy | Paste | Cut | TextLineStart | TextLineEnd
    | Up | Down | TextSelectAll | TextWordLeft | TextWordRight | Left | Right

  /** Nuklear's mouse buttons (`enum nk_buttons`). */
  datatype NkButton = ButtonLeft | ButtonMiddle | ButtonRight | ButtonDouble

  /** One call into Nuklear's input API. */
  datatype Input =
    | InputKey(key: NkKey, down: bool)
    | InputButton(id: NkButton, x: int, y: int, down: bool)
    | InputMotion(x: int, y: int)
    | InputGlyph(glyph: seq<Byte>)
    | InputScroll(dx: real, dy: real)

  /** What `nk_sdl_handle_event` does: the input calls it makes, in order,
      and the value it returns. */
  datatype Handled = Handled(inputs: seq<Input>, ret: int)

  /** A vector of two floats (`struct nk_vec2`). */
  datatype Vec2 = Vec2(x: real, y: real)

  /** The part of Nuklear's mouse state (`ctx->input.mouse`) the shim uses. */
  datatype Mouse = Mouse(pos: Vec2, prev: Vec2, grab: bool, ungrab: bool, grabbed: bool)

  /** One call into SDL, or into Nuklear's text editor, outside the input API. */
  datatype Effect =
    | SetRelativeMouseMode(enabled: bool)
    | WarpMouseInWindow(window: nat, x: int, y: int)
    | SetClipboardText(text: seq<Byte>)
    | GetClipboardText
    | TextEditPaste(edit: nat, text: seq<Byte>, len: nat)
    | SdlFree

  /** The event types the shim consumes. */
  predicate HandledKind(kind: Uint32)
  {
    kind == SDL_KEYDOWN || kind == SDL_KEYUP
    || kind == SDL_MOUSEBUTTONDOWN || kind == SDL_MOUSEBUTTONUP
    || kind == SDL_MOUSEMOTION || kind == SDL_TEXTINPUT || kind == SDL_MOUSEWHEEL
  }

  /** The keys the shim translates; every other key code is ignored. */
  predicate MappedKey(sym: int)
  {
    sym in {SDLK_RSHIFT, SDLK_LSHIFT, SDLK_DELETE, SDLK_KP_ENTER, SDLK_RETURN,
            SDLK_TAB, SDLK_BACKSPACE, SDLK_HOME, SDLK_END, SDLK_PAGEDOWN, SDLK_PAGEUP,
            SDLK_z, SDLK_r, SDLK_c, SDLK_v, SDLK_x, SDLK_b, SDLK_e,
            SDLK_UP, SDLK_DOWN, SDLK_a, SDLK_LEFT, SDLK_RIGHT}
  }

  /** The text-editing shortcuts that are reported pressed only with Ctrl held. */
  predicate CtrlShortcut(sym: int)
  {
    sym in {SDLK_z, SDLK_r, SDLK_c, SDLK_v, SDLK_x, SDLK_b, SDLK_e}
  }

  /** Whether either Ctrl key is held in SDL's modifier state. */
  predicate CtrlDown(modState: bv16)
  {
    modState & (KMOD_LCTRL | KMOD_RCTRL) != 0
  }

  /** The key calls for one keyboard event with key code `sym`. */
  function KeyInput(sym: int, down: bool, ctrl: bool): (r: seq<Input>)
    ensures |r| <= 2
    ensures forall i :: 0 <= i < |r| ==> r[i].InputKey?
    // a release is never reported as a press, and a shortcut needs Ctrl to be pressed
    ensures forall i :: 0 <= i < |r| ==> (r[i].down ==> down)
    ensures CtrlShortcut(sym) ==> forall i :: 0 <= i < |r| ==> (r[i].down ==> ctrl)
    // nothing happens exactly for unmapped keys and for `a` without Ctrl
    ensures r == [] <==> !MappedKey(sym) || (sym == SDLK_a && !ctrl)
    ensures |r| == 2 <==> sym == SDLK_HOME || sym == SDLK_END
  {
    if sym == SDLK_RSHIFT || sym == SDLK_LSHIFT then [InputKey(Shift, down)]
    else if sym == SDLK_DELETE then [InputKey(Del, down)]
    else if sym == SDLK_KP_ENTER || sym == SDLK_RETURN then [InputKey(Enter, down)]
    else if sym == SDLK_TAB then [InputKey(Tab, down)]
    else if sym == SDLK_BACKSPACE then [InputKey(Backspace, down)]
    else if sym == SDLK_HOME then [InputKey(TextStart, down), InputKey(ScrollStart, down)]
    else if sym == SDLK_END then [InputKey(TextEnd, down), InputKey(ScrollEnd, down)]
    else if sym == SDLK_PAGEDOWN then [InputKey(ScrollDown, down)]
    else if sym == SDLK_PAGEUP then [InputKey(ScrollUp, down)]
    else if sym == SDLK_z then [InputKey(TextUndo, down && ctrl)]
    else if sym == SDLK_r then [InputKey(TextRedo, down && ctrl)]
    else if sym == SDLK_c then [InputKey(Copy, down && ctrl)]
    else if sym == SDLK_v then [InputKey(Paste, down && ctrl)]
    else if sym == SDLK_x then [InputKey(Cut, down && ctrl)]
    else if sym == SDLK_b then [InputKey(TextLineStart, down && ctrl)]
    else if sym == SDLK_e then [InputKey(TextLineEnd, down && ctrl)]
    else if sym == SDLK_UP then [InputKey(Up, down)]
    else if sym == SDLK_DOWN then [InputKey(Down, down)]
    else if sym == SDLK_a then (if ctrl then [InputKey(TextSelectAll, down)] else [])
    else if sym == SDLK_LEFT then [InputKey(if ctrl then TextWordLeft else Left, down)]
    else if sym == SDLK_RIGHT then [InputKey(if ctrl then TextWordRight else Right, down)]
    else []
  }

  /** The button calls for one mouse-button event. */
  function ButtonInput(b: MouseButtonEvent, down: bool): (r: seq<Input>)
    // every call carries the event's position and the event's up/down state
    ensures forall i :: 0 <= i < |r| ==> r[i].InputButton? && r[i].x == b.x && r[i].y == b.y && r[i].down == down
    ensures |r| == (if b.button == SDL_BUTTON_LEFT && b.clicks > 1 then 2
                    else if b.button in {SDL_BUTTON_LEFT, SDL_BUTTON_MIDDLE, SDL_BUTTON_RIGHT} then 1
                    else 0)
    // a double click is reported before the left button itself
    ensures |r| == 2 ==> r[0].id == ButtonDouble && r[1].id == ButtonLeft
    ensures |r| == 1 ==> r[0].id == (if b.button == SDL_BUTTON_LEFT then ButtonLeft
                                     else if b.button == SDL_BUTTON_MIDDLE then ButtonMiddle
                                     else ButtonRight)
  {
    if b.button == SDL_BUTTON_LEFT then
      (if b.clicks > 1 then [InputButton(ButtonDouble, b.x, b.y, down)] else [])
      + [InputButton(ButtonLeft, b.x, b.y, down)]
    else if b.button == SDL_BUTTON_MIDDLE then [InputButton(ButtonMiddle, b.x, b.y, down)]
    else if b.button == SDL_BUTTON_RIGHT then [InputButton(ButtonRight, b.x, b.y, down)]
    else []
  }

  /** The motion call for one mouse-motion event: while the mouse is grabbed
      (relative mode) the position is the previous one moved by the relative
      delta, otherwise the event's absolute position. */
  function MotionInput(m: MouseMotionEvent, grabbed: bool, prev: Vec2): (r: Input)
    ensures r.InputMotion?
    // while grabbed: the previous position with its fraction dropped toward
    // zero, moved by the relative delta
    ensures grabbed ==> TowardZero(prev.x, r.x - m.xrel) && TowardZero(prev.y, r.y - m.yrel)
    ensures !grabbed ==> r.x == m.x && r.y == m.y
  {
    if grabbed then InputMotion(Trunc(prev.x) + m.xrel, Trunc(prev.y) + m.yrel)
    else InputMotion(m.x, m.y)
  }

  /** While grabbed, a mouse at a whole-pixel previous position reports that
      position moved by exactly the relative delta; otherwise the event's own
      position is reported whatever the previous one was. */
  lemma MotionFromWholePosition(m: MouseMotionEvent, prev: Vec2, px: int, py: int)
    requires prev == Vec2(px as real, py as real)
    ensures MotionInput(m, true, prev) == InputMotion(px + m.xrel, py + m.yrel)
    ensures MotionInput(m, false, prev) == InputMotion(m.x, m.y)
  {
  }

  /** `nk_sdl_handle_event` as a function of the event, SDL's modifier state
      and the mouse state it reads. */
  function Translate(evt: Event, modState: bv16, grabbed: bool, prev: Vec2): (r: Handled)
    ensures r.ret == (if HandledKind(evt.kind) then 1 else 0)
    ensures r.ret == 0 ==> r.inputs == []
    ensures evt.kind == SDL_KEYDOWN || evt.kind == SDL_KEYUP ==>
              r.inputs == KeyInput(evt.key.sym, evt.kind == SDL_KEYDOWN, CtrlDown(modState))
    ensures evt.kind == SDL_MOUSEBUTTONDOWN || evt.kind == SDL_MOUSEBUTTONUP ==>
              r.inputs == ButtonInput(evt.button, evt.kind == SDL_MOUSEBUTTONDOWN)
    ensures evt.kind == SDL_MOUSEMOTION ==> r.inputs == [MotionInput(evt.motion, grabbed, prev)]
    ensures evt.kind == SDL_TEXTINPUT ==> r.inputs == [InputGlyph(evt.text.text[..NK_UTF_SIZE])]
    ensures evt.kind == SDL_MOUSEWHEEL ==> r.inputs == [InputScroll(evt.wheel.preciseX, evt.wheel.preciseY)]
  {
    if evt.kind == SDL_KEYUP || evt.kind == SDL_KEYDOWN then
      Handled(KeyInput(evt.key.sym, evt.kind == SDL_KEYDOWN, CtrlDown(modState)), 1)
    else if evt.kind == SDL_MOUSEBUTTONUP || evt.kind == SDL_MOUSEBUTTONDOWN then
      Handled(ButtonInput(evt.button, evt.kind == SDL_MOUSEBUTTONDOWN), 1)
    else if evt.kind == SDL_MOUSEMOTION then
      Handled([MotionInput(evt.motion, grabbed, prev)], 1)
    else if evt.kind == SDL_TEXTINPUT then
      Handled([InputGlyph(evt.text.text[..NK_UTF_SIZE])], 1)
    else if evt.kind == SDL_MOUSEWHEEL then
      Handled([InputScroll(evt.wheel.preciseX, evt.wheel.preciseY)], 1)
    else
      Handled([], 0)
  }

  /** A key event reports `down` exactly when it is a key press: a release
      reports every key released, and a press reports pressed every key it
      names, except a shortcut without Ctrl. */
  lemma KeyDownOnlyOnPress(evt: Event, modState: bv16, grabbed: bool, prev: Vec2)
    requires evt.kind == SDL_KEYDOWN || evt.kind == SDL_KEYUP
    ensures var r := Translate(evt, modState, grabbed, prev);
      r.ret == 1 &&
      (forall i :: 0 <= i < |r.inputs| ==>
         r.inputs[i].InputKey? &&
         (r.inputs[i].down <==>
            evt.kind == SDL_KEYDOWN && (CtrlShortcut(evt.key.sym) ==> CtrlDown(modState))))
  {
  }

  /** A press and a release of the same key name the same Nuklear keys in the
      same order; only the up/down flag differs. */
  lemma PressAndReleaseNameSameKeys(sym: int, ctrl: bool)
    ensures |KeyInput(sym, true, ctrl)| == |KeyInput(sym, false, ctrl)|
    ensures forall i :: 0 <= i < |KeyInput(sym, true, ctrl)| ==>
              KeyInput(sym, true, ctrl)[i].key == KeyInput(sym, false, ctrl)[i].key
  {
  }

  /** Both shift keys are SHIFT, both enter keys are ENTER, and HOME and END
      each report the text and the scroll variant, text first. */
  lemma KeyAliases(down: bool, ctrl: bool)
    ensures KeyInput(SDLK_LSHIFT, down, ctrl) == KeyInput(SDLK_RSHIFT, down, ctrl) == [InputKey(Shift, down)]
    ensures KeyInput(SDLK_RETURN, down, ctrl) == KeyInput(SDLK_KP_ENTER, down, ctrl) == [InputKey(Enter, down)]
    ensures KeyInput(SDLK_HOME, down, ctrl) == [InputKey(TextStart, down), InputKey(ScrollStart, down)]
    ensures KeyInput(SDLK_END, down, ctrl) == [InputKey(TextEnd, down), InputKey(ScrollEnd, down)]
  {
  }

  /** Without Ctrl, pressing a shortcut key is indistinguishable from
      releasing it: both report the shortcut released. */
  lemma ShortcutWithoutCtrlIsRelease(sym: int)
    requires CtrlShortcut(sym)
    ensures KeyInput(sym, true, false) == KeyInput(sym, false, false)
    ensures |KeyInput(sym, true, false)| == 1 && !KeyInput(sym, true, false)[0].down
  {
  }

  /** `a` is SELECT_ALL and only with Ctrl; LEFT and RIGHT become word moves
      with Ctrl and plain cursor moves without. */
  lemma CtrlSelectsVariant(down: bool, ctrl: bool)
    ensures KeyInput(SDLK_a, down, ctrl) == if ctrl then [InputKey(TextSelectAll, down)] else []
    ensures KeyInput(SDLK_LEFT, down, ctrl) == [InputKey(if ctrl then TextWordLeft else Left, down)]
    ensures KeyInput(SDLK_RIGHT, down, ctrl) == [InputKey(if ctrl then TextWordRight else Right, down)]
  {
  }

  /** The outcome of `nk_sdl_handle_grab`: the new mouse state and the SDL
      calls, chosen by the first of `grab`, `ungrab`, `grabbed` that is set. */
  datatype GrabOutcome = GrabOutcome(mouse: Mouse, effects: seq<Effect>)

  function Grab(m: Mouse, window: nat): (r: GrabOutcome)
    // only the position can change, and only to the previous position
    ensures r.mouse == m.(pos := r.mouse.pos)
    ensures r.mouse.pos == m.pos || r.mouse.pos == m.prev
    ensures m.grab ==> r == GrabOutcome(m, [SetRelativeMouseMode(true)])
    ensures !m.grab && m.ungrab ==>
              r == GrabOutcome(m, [SetRelativeMouseMode(false), WarpMouseInWindow(window, Trunc(m.prev.x), Trunc(m.prev.y))])
    ensures !m.grab && !m.ungrab && m.grabbed ==> r == GrabOutcome(m.(pos := m.prev), [])
    ensures !m.grab && !m.ungrab && !m.grabbed ==> r == GrabOutcome(m, [])
  {
    if m.grab then GrabOutcome(m, [SetRelativeMouseMode(true)])
    else if m.ungrab then
      GrabOutcome(m, [SetRelativeMouseMode(false), WarpMouseInWindow(window, Trunc(m.prev.x), Trunc(m.prev.y))])
    else if m.grabbed then GrabOutcome(m.(pos := m.prev), [])
    else GrabOutcome(m, [])
  }

  /** Running the grab rule a second time without new input repeats the same
      SDL calls and leaves the mouse where the first run put it. */
  lemma GrabTwice(m: Mouse, window: nat)
    ensures Grab(Grab(m, window).mouse, window) == GrabOutcome(Grab(m, window).mouse, Grab(m, window).effects)
  {
  }

  /** The NUL-terminated copy that `nk_sdl_clipboard_copy` hands to SDL. */
  function Terminated(text: seq<Byte>, len: nat): (s: seq<Byte>)
    requires len <= |text|
    ensures |s| == len + 1 && s[len] == 0
    ensures forall i :: 0 <= i < len ==> s[i] == text[i]
  {
    text[..len] + [0]
  }

  /** `nk_strlen`: the number of bytes before the first NUL, or all of them
      when there is none. */
  function StrLen(s: seq<Byte>): (n: nat)
    ensures n <= |s|
    ensures forall i :: 0 <= i < n ==> s[i] != 0
    ensures n < |s| ==> s[n] == 0
  {
    if s == [] || s[0] == 0 then 0 else 1 + StrLen(s[1..])
  }

  /** The Nuklear context's input side, with a log of the input calls and of
      the SDL calls the shim makes on its behalf. */
  class Context {
    var mouse: Mouse
    ghost var inputs: seq<Input>
    ghost var effects: seq<Effect>

    constructor (mouse: Mouse)
      ensures this.mouse == mouse && inputs == [] && effects == []
    {
      this.mouse := mouse;
      inputs := [];
      effects := [];
    }

    /** `nk_sdl_handle_grab`: switch SDL's relative mouse mode on a grab,
        switch it off and put the pointer back on an ungrab, and pin the
        position while grabbed. */
    method HandleGrab(window: nat)
      modifies this`mouse, this`effects
      ensures mouse == Grab(old(mouse), window).mouse
      ensures effects == old(effects) + Grab(old(mouse), window).effects
      ensures inputs == old(inputs)
    {
      if mouse.grab {
        effects := effects + [SetRelativeMouseMode(true)];
      } else if mouse.ungrab {
        // relative mode goes off first, then the pointer is warped back
        effects := effects + [SetRelativeMouseMode(false)];
        effects := effects + [WarpMouseInWindow(window, Trunc(mouse.prev.x), Trunc(mouse.prev.y))];
      } else if mouse.grabbed {
        mouse := mouse.(pos := mouse.prev);
      }
    }

    /** `nk_sdl_handle_event`: feed one event to Nuklear and say whether it
        was consumed. `modState` is what `SDL_GetModState` returns. */
    method HandleEvent(evt: Event, modState: bv16) returns (ret: int)
      modifies this`inputs
      ensures inputs == old(inputs) + Translate(evt, modState, mouse.grabbed, mouse.prev).inputs
      ensures ret == (if HandledKind(evt.kind) then 1 else 0)
      ensures mouse == old(mouse) && effects == old(effects)
    {
      var r := Translate(evt, modState, mouse.grabbed, mouse.prev);
      inputs := inputs + r.inputs;
      ret := r.ret;
    }

    /** `nk_sdl_clipboard_copy`: hand SDL a NUL-terminated copy of the first
        `len` bytes of `text`. Nothing happens for an empty selection or when
        the allocation fails (`mallocOk` is what `malloc` reports). */
    method ClipboardCopy(text: seq<Byte>, len: int, mallocOk: bool)
      requires 0 <= len <= |text|
      modifies this`effects
      ensures effects == old(effects) +
                (if len == 0 || !mallocOk then [] else [SetClipboardText(Terminated(text, len))])
      ensures mouse == old(mouse) && inputs == old(inputs)
    {
      if len == 0 || !mallocOk {
        return;
      }
      var str := new Byte[len + 1];
      var i := 0;
      while i < len
        invariant 0 <= i <= len
        invariant forall k :: 0 <= k < i ==> str[k] == text[k]
        modifies str
      {
        str[i] := text[i];
        i := i + 1;
      }
      str[len] := 0;
      assert str[..] == Terminated(text, len);
      effects := effects + [SetClipboardText(str[..])];
    }

    /** `nk_sdl_clipboard_paste`: ask SDL for the clipboard text (`clipboard`
        is its answer, None for NULL) and paste it into the edit field,
        with its length up to the first NUL, then release SDL's copy. */
    method ClipboardPaste(clipboard: Option<seq<Byte>>, edit: nat)
      modifies this`effects
      ensures effects == old(effects) + [GetClipboardText] +
                (if clipboard.Some? then [TextEditPaste(edit, clipboard.value, StrLen(clipboard.value)), SdlFree] else [])
      ensures mouse == old(mouse) && inputs == old(inputs)
    {
      effects := effects + [GetClipboardText];
      if clipboard.Some? {
        var text := clipboard.value;
        effects := effects + [TextEditPaste(edit, text, StrLen(text))];
        effects := effects + [SdlFree];
      }
    }
  }
}
