/**
 * The Windows low-level keyboard hook: the process-wide `HOOK_HANDLE`, its
 * install/uninstall life cycle, and the callback that turns Ctrl+Comma into
 * a `WM_USER + 1` thread message. Every Win32 call the code makes is
 * recorded as an `OsCall`, so that "forwarded exactly once" and "posted at
 * most once" become statements about the recorded calls.
 */
module Keyboard {

  const HC_ACTION: int := 0
  const WM_KEYDOWN: nat := 0x0100
  const WM_USER: nat := 0x0400
  const WM_QUIT: nat := 0x0012
  /** The custom "toggle visibility" thread message. */
  const WM_TOGGLE: nat := WM_USER + 1
  const VK_OEM_COMMA: nat := 0xBC
  const U32_RANGE: nat := 0x1_0000_0000

  /** An `HHOOK`; 0 is the null handle, the only one `is_invalid` reports as invalid. */
  type Handle = nat
  const NULL_HANDLE: Handle := 0
  type ValidHandle = h: Handle | h != NULL_HANDLE witness 1

  predicate IsInvalid(h: Handle) { h == NULL_HANDLE }

  /** What `SetWindowsHookExW(..).unwrap()` gives: a valid handle, or a panic. */
  datatype Registration = Registered(hook: ValidHandle) | RegistrationFailed

  datatype OsCall =
    | SetWindowsHookEx
    | UnhookWindowsHookEx(hook: Handle)
    | PostThreadMessage(threadId: nat, message: nat, wparam: nat, lparam: int)
    | CallNextHookEx(hook: Handle, code: int, wparam: nat, lparam: int)

  /** One invocation of the hook procedure: `code`, `wparam`, and the `vkCode` of the `KBDLLHOOKSTRUCT` that `lparam` points at. */
  datatype KeyEvent = KeyEvent(code: int, wparam: nat, lparam: int, vkCode: nat)

  /** The 16 bits `GetAsyncKeyState` returns. */
  type KeyState = bv16

  /** Those bits read as the `i16` the API is declared to return. */
  function AsI16(s: KeyState): int {
    if s as int >= 0x8000 then s as int - 0x1_0000 else s as int
  }

  /** `GetAsyncKeyState(VK_CONTROL) & 0x8000u16 as i16 != 0`. */
  predicate CtrlHeld(s: KeyState) {
    s & 0x8000 != 0
  }

  /** The bit test in the source is a sign test on the `i16` key state. */
  lemma CtrlHeldIsNegative(s: KeyState)
    ensures CtrlHeld(s) <==> AsI16(s) < 0
  {
    assert s & 0x8000 != 0 <==> s >= 0x8000;
  }

  /** The filter of `low_level_keyboard_proc`; `wparam.0 as u32` keeps the low 32 bits. */
  predicate IsHotkey(ev: KeyEvent, ctrl: KeyState) {
    && ev.code == HC_ACTION
    && ev.wparam % U32_RANGE == WM_KEYDOWN
    && ev.vkCode == VK_OEM_COMMA
    && CtrlHeld(ctrl)
  }

  /**
   * The OS calls one invocation of `low_level_keyboard_proc` makes, given the
   * current `HOOK_HANDLE`, the Ctrl key state and the hook thread's id.
   */
  function KeyboardProc(hook: Handle, ev: KeyEvent, ctrl: KeyState, threadId: nat): (calls: seq<OsCall>)
    ensures |calls| == if IsHotkey(ev, ctrl) then 2 else 1
    ensures calls[|calls| - 1] == CallNextHookEx(hook, ev.code, ev.wparam, ev.lparam)
    ensures IsHotkey(ev, ctrl) ==> calls[0] == PostThreadMessage(threadId, WM_TOGGLE, 0, 0)
  {
    var posted := if IsHotkey(ev, ctrl) then [PostThreadMessage(threadId, WM_TOGGLE, 0, 0)] else [];
    posted + [CallNextHookEx(hook, ev.code, ev.wparam, ev.lparam)]
  }

  function CountForwards(calls: seq<OsCall>): nat {
    if |calls| == 0 then 0
    else CountForwards(calls[..|calls| - 1]) + (if calls[|calls| - 1].CallNextHookEx? then 1 else 0)
  }

  function CountPosts(calls: seq<OsCall>): nat {
    if |calls| == 0 then 0
    else CountPosts(calls[..|calls| - 1]) + (if calls[|calls| - 1].PostThreadMessage? then 1 else 0)
  }

  /** Every event, matching or not, is forwarded exactly once; a message is posted iff it is the hotkey. */
  lemma ForwardedOncePostedIffHotkey(hook: Handle, ev: KeyEvent, ctrl: KeyState, threadId: nat)
    ensures CountForwards(KeyboardProc(hook, ev, ctrl, threadId)) == 1
    ensures CountPosts(KeyboardProc(hook, ev, ctrl, threadId)) == if IsHotkey(ev, ctrl) then 1 else 0
  {
    var calls := KeyboardProc(hook, ev, ctrl, threadId);
    var last := CallNextHookEx(hook, ev.code, ev.wparam, ev.lparam);
    if IsHotkey(ev, ctrl) {
      var post := PostThreadMessage(threadId, WM_TOGGLE, 0, 0);
      assert calls == [post, last];
      assert calls[..1] == [post] && [post][..0] == [];
      assert CountForwards([post]) == 0 && CountPosts([post]) == 1;
    } else {
      assert calls == [last] && calls[..0] == [];
    }
  }

  /** Comma with Ctrl released, or any other key, or a key-up, posts nothing. */
  lemma HotkeySpecificity(ev: KeyEvent, ctrl: KeyState)
    ensures IsHotkey(ev, ctrl) <==>
      ev.code == 0 && ev.wparam % U32_RANGE == 0x0100 && ev.vkCode == 0xBC && AsI16(ctrl) < 0
  {
    CtrlHeldIsNegative(ctrl);
  }

  /** The handle after `install_hook`: kept when valid, else the registered hook; a failed registration panics before the store. */
  function InstallSpec(h: Handle, moduleFound: bool, reg: Registration): Handle {
    if !IsInvalid(h) then h
    else if moduleFound && reg.Registered? then reg.hook
    else h
  }

  function InstallCalls(h: Handle, moduleFound: bool): seq<OsCall> {
    if IsInvalid(h) && moduleFound then [SetWindowsHookEx] else []
  }

  /** The handle after `uninstall_hook` as written: it unhooks and resets only an INVALID handle. */
  function UninstallAsWritten(h: Handle): Handle {
    if IsInvalid(h) then NULL_HANDLE else h
  }

  function UninstallCallsAsWritten(h: Handle): seq<OsCall> {
    if IsInvalid(h) then [UnhookWindowsHookEx(h)] else []
  }

  /** The evidently intended `uninstall_hook`: unhook a valid handle and reset it to null. */
  function UninstallIntended(h: Handle): Handle {
    if !IsInvalid(h) then NULL_HANDLE else h
  }

  function UninstallCallsIntended(h: Handle): seq<OsCall> {
    if !IsInvalid(h) then [UnhookWindowsHookEx(h)] else []
  }

  /** Installing twice is installing once. */
  lemma InstallIdempotent(h: Handle, moduleFound: bool, reg: Registration, moduleFound2: bool, reg2: Registration)
    requires moduleFound && reg.Registered?
    ensures !IsInvalid(InstallSpec(h, moduleFound, reg))
    ensures InstallSpec(InstallSpec(h, moduleFound, reg), moduleFound2, reg2) == InstallSpec(h, moduleFound, reg)
    ensures InstallCalls(InstallSpec(h, moduleFound, reg), moduleFound2) == []
  {
  }

  /** As written, uninstalling never changes the handle, and it only ever unhooks the null handle. */
  lemma UninstallAsWrittenKeepsHook(h: Handle)
    ensures UninstallAsWritten(h) == h
    ensures forall c :: c in UninstallCallsAsWritten(h) ==> c == UnhookWindowsHookEx(NULL_HANDLE)
  {
  }

  /** Counterexample: a successful install followed by `uninstall_hook` leaves the hook installed. */
  lemma InstallThenUninstallStaysInstalled()
    ensures var h := InstallSpec(NULL_HANDLE, true, Registered(7));
      !IsInvalid(UninstallAsWritten(h)) && UninstallCallsAsWritten(h) == []
  {
  }

  /** With the guard the right way round, uninstall after install removes the hook, and uninstall is a no-op when nothing is installed. */
  lemma IntendedUninstallRemovesHook(h: Handle, moduleFound: bool, reg: Registration)
    requires moduleFound && reg.Registered?
    ensures IsInvalid(UninstallIntended(InstallSpec(h, moduleFound, reg)))
    ensures UninstallCallsIntended(InstallSpec(h, moduleFound, reg)) == [UnhookWindowsHookEx(InstallSpec(h, moduleFound, reg))]
    ensures UninstallIntended(NULL_HANDLE) == NULL_HANDLE && UninstallCallsIntended(NULL_HANDLE) == []
  {
  }

  /** After the intended uninstall no hook is left, and a valid hook is unhooked exactly once. */
  lemma IntendedUninstallAlwaysClears(h: Handle)
    ensures IsInvalid(UninstallIntended(h))
    ensures |UninstallCallsIntended(h)| == (if IsInvalid(h) then 0 else 1)
    ensures UninstallIntended(UninstallIntended(h)) == UninstallIntended(h)
  {
  }

  /** The `static mut HOOK_HANDLE` and the hook-related OS calls made so far. */
  class HookSystem {
    var handle: Handle
    var calls: seq<OsCall>

    /** `HOOK_HANDLE` starts as `HHOOK(0)`. */
    constructor ()
      ensures handle == NULL_HANDLE && IsInvalid(handle) && calls == []
    {
      handle := NULL_HANDLE;
      calls := [];
    }

    /** `install_hook`; `panicked` when `GetModuleHandleW` or `SetWindowsHookExW` fails and `unwrap` aborts. */
    method InstallHook(moduleFound: bool, reg: Registration) returns (panicked: bool)
      modifies this
      ensures handle == InstallSpec(old(handle), moduleFound, reg)
      ensures calls == old(calls) + InstallCalls(old(handle), moduleFound)
      ensures panicked <==> IsInvalid(old(handle)) && !(moduleFound && reg.Registered?)
    {
      panicked := false;
      if !IsInvalid(handle) {
        return;
      }
      if !moduleFound {
        panicked := true;
        return;
      }
      calls := calls + [SetWindowsHookEx];
      match reg {
        case Registered(hook) =>
          handle := hook;
        case RegistrationFailed =>
          panicked := true;
      }
    }

    /**
     * `uninstall_hook` with its guard the right way round (see
     * `UninstallAsWritten` for the code as written): unhook a valid handle
     * and reset it to null.
     */
    method UninstallHook()
      modifies this
      ensures handle == UninstallIntended(old(handle))
      ensures calls == old(calls) + UninstallCallsIntended(old(handle))
    {
      if !IsInvalid(handle) {
        calls := calls + [UnhookWindowsHookEx(handle)];
        handle := NULL_HANDLE;
      }
    }

    /** The OS invoking the hook procedure for one keyboard event; the handle itself is only read. */
    method OnKeyboardEvent(ev: KeyEvent, ctrl: KeyState, threadId: nat)
      modifies this`calls
      ensures calls == old(calls) + KeyboardProc(handle, ev, ctrl, threadId)
    {
      if ev.code == HC_ACTION {
        if ev.wparam % U32_RANGE == WM_KEYDOWN && ev.vkCode == VK_OEM_COMMA {
          if CtrlHeld(ctrl) {
            calls := calls + [PostThreadMessage(threadId, WM_TOGGLE, 0, 0)];
          }
        }
      }
      calls := calls + [CallNextHookEx(handle, ev.code, ev.wparam, ev.lparam)];
    }
  }
}
