/**
 * The program's objects: KeyInfo, one per lock key, updating its state and
 * tray record in place, and LockKeys, which holds the three (possibly
 * absent) indicators the keyboard hook and the timer refresh.
 */
module LockStatus {
  import opened KeyModes
  import opened Tray
  import opened KeyIndicator
  import opened Dispatch

  class KeyInfo {
    /** The notification area this indicator's calls go to. */
    const shell: Shell
    const virtualKey: int
    /** The icons loaded at construction; None where the mode does not show that state. */
    const onIcon: Option<HIcon>
    const offIcon: Option<HIcon>
    /** True if the icon corresponds to the "on" state. */
    var state: bool
    var trayIcon: NotifyIconData

    /** The indicator as a value. */
    function Value(): Indicator
      reads this
    {
      Indicator(virtualKey, onIcon, offIcon, state, trayIcon)
    }

    /**
     * Loads the icons the mode shows and, unless the mode is Never,
     * negotiates the tray version, takes the on-icon's id as the tray id
     * and makes the first refresh (one NIM_ADD).
     */
    constructor (shell: Shell, virtualKey: int, onIconId: int, offIconId: int, mode: KeyIconMode,
                 getKeyState: int -> bv16)
      modifies shell
      ensures this.shell == shell
      ensures var o := Create(virtualKey, onIconId, offIconId, mode, Toggled(getKeyState(virtualKey)));
        Value() == o.after && shell.log == old(shell.log) + o.calls
    {
      this.shell := shell;
      this.virtualKey := virtualKey;
      onIcon := LoadIf(mode == OnlyOn || mode == Always, onIconId);
      offIcon := LoadIf(mode == OnlyOff || mode == Always, offIconId);
      state := false;
      trayIcon := ZeroData;
      new;
      if mode == Never {
        return;
      }
      shell.NotifyIcon(SetVersion, trayIcon);
      trayIcon := trayIcon.(uID := onIconId);
      refresh(true, getKeyState);
    }

    /** Refresh(): a non-first refresh. */
    method Refresh(getKeyState: int -> bv16)
      modifies this, shell
      ensures var o := KeyIndicator.Refresh(old(Value()), Toggled(getKeyState(virtualKey)), false);
        Value() == o.after && shell.log == old(shell.log) + o.calls
    {
      refresh(false, getKeyState);
    }

    /** DeleteFromTray(): NIM_DELETE of the tray record. */
    method DeleteFromTray()
      modifies shell
      ensures shell.log == old(shell.log) + [NotifyCall(Delete, trayIcon)]
    {
      shell.NotifyIcon(Delete, trayIcon);
    }

    /** refresh(first): samples the key and, on the first call or a change, updates the tray. */
    method refresh(first: bool, getKeyState: int -> bv16)
      modifies this, shell
      ensures var o := KeyIndicator.Refresh(old(Value()), Toggled(getKeyState(virtualKey)), first);
        Value() == o.after && shell.log == old(shell.log) + o.calls
    {
      if onIcon.None? && offIcon.None? {
        return;
      }
      var on := Toggled(getKeyState(virtualKey));
      if on == state && !first {
        return;
      }
      state := on;
      var icon := if on then onIcon else offIcon;
      if icon.None? {
        trayIcon := trayIcon.(dwState := NIS_HIDDEN, dwStateMask := NIS_HIDDEN);
      } else {
        trayIcon := trayIcon.(dwState := 0, dwStateMask := NIS_HIDDEN, hIcon := icon);
      }
      shell.NotifyIcon(if first then Add else Modify, trayIcon);
    }
  }

  /** `mode == Never ? NULL : new KeyInfo(...)`: one key's indicator at startup. */
  method BuildKey(shell: Shell, virtualKey: int, onIconId: int, offIconId: int, mode: KeyIconMode,
                  getKeyState: int -> bv16) returns (k: KeyInfo?)
    modifies shell
    ensures var o := Build(virtualKey, onIconId, offIconId, mode, getKeyState);
      && (k == null <==> o.slot.None?)
      && (k != null ==> fresh(k) && k.shell == shell && o.slot == Some(k.Value()))
      && (k != null ==> k.virtualKey == virtualKey && Synced(k.Value()))
      && shell.log == old(shell.log) + o.calls
  {
    if mode == Never {
      k := null;
    } else {
      k := new KeyInfo(shell, virtualKey, onIconId, offIconId, mode, getKeyState);
      CreateAddsOnce(virtualKey, onIconId, offIconId, mode, Toggled(getKeyState(virtualKey)));
    }
  }

  /** The three indicators (null where the mode is Never) and the notification area they share. */
  class LockKeys {
    const shell: Shell
    const caps: KeyInfo?
    const num: KeyInfo?
    const scroll: KeyInfo?

    /**
     * The indicators are distinct objects that all report to this shell,
     * each bound to its own key with its tray record showing its state.
     */
    ghost predicate Valid()
      reads caps, num, scroll
    {
      && WellFormed(Slots())
      && (caps != null ==> caps.shell == shell)
      && (num != null ==> num.shell == shell)
      && (scroll != null ==> scroll.shell == shell)
      && (caps != null && num != null ==> caps != num)
      && (caps != null && scroll != null ==> caps != scroll)
      && (num != null && scroll != null ==> num != scroll)
    }

    /** The three slots as values. */
    function Slots(): Dispatch.Slots
      reads caps, num, scroll
    {
      Dispatch.Slots(
        if caps == null then None else Some(caps.Value()),
        if num == null then None else Some(num.Value()),
        if scroll == null then None else Some(scroll.Value()))
    }

    /**
     * Startup (the body of WinMain up to the message loop): parse the
     * command line and construct an indicator for each key whose mode is
     * not Never, Caps Lock, Num Lock, Scroll Lock.
     */
    constructor (shell: Shell, cmdLine: string, ids: IconIds, getKeyState: int -> bv16)
      modifies shell
      ensures Valid() && this.shell == shell
      ensures var o := Startup(cmdLine, ids, getKeyState);
        Slots() == o.slots && shell.log == old(shell.log) + o.calls
    {
      var m := ParseModes(cmdLine);
      var c := BuildKey(shell, VK_CAPITAL, ids.capsOn, ids.capsOff, m.caps, getKeyState);
      var n := BuildKey(shell, VK_NUMLOCK, ids.numOn, ids.numOff, m.num, getKeyState);
      var l := BuildKey(shell, VK_SCROLL, ids.scrollOn, ids.scrollOff, m.scroll, getKeyState);
      this.shell := shell;
      caps, num, scroll := c, n, l;
    }

    /**
     * KeyboardHook: on HC_ACTION refresh the existing indicator the key
     * event is for, then always hand the event on to the next hook.
     */
    method KeyboardHook(nCode: int, wParam: int, vkCode: int, getKeyState: int -> bv16) returns (next: NextHook)
      requires Valid()
      modifies shell, caps, num, scroll
      ensures Valid()
      ensures next == NextHook(nCode, wParam, vkCode)
      ensures var o := Hook(old(Slots()), nCode, vkCode, getKeyState);
        Slots() == o.slots && shell.log == old(shell.log) + o.calls
    {
      if nCode == HC_ACTION {
        if caps != null && vkCode == VK_CAPITAL {
          caps.Refresh(getKeyState);
        }
        if num != null && vkCode == VK_NUMLOCK {
          num.Refresh(getKeyState);
        }
        if scroll != null && vkCode == VK_SCROLL {
          scroll.Refresh(getKeyState);
        }
      }
      next := NextHook(nCode, wParam, vkCode);
      DispatchKeepsWellFormed(old(Slots()), nCode, vkCode, getKeyState);
    }

    /** RefreshStates: the timer callback refreshes every existing indicator in order. */
    method RefreshStates(getKeyState: int -> bv16)
      requires Valid()
      modifies shell, caps, num, scroll
      ensures Valid()
      ensures var o := Tick(old(Slots()), getKeyState);
        Slots() == o.slots && shell.log == old(shell.log) + o.calls
    {
      ghost var s := Slots();
      if caps != null {
        caps.Refresh(getKeyState);
      }
      assert Slots() == s.(caps := Visit(s.caps, true, getKeyState).slot);
      if num != null {
        num.Refresh(getKeyState);
      }
      assert Slots() == s.(caps := Visit(s.caps, true, getKeyState).slot, num := Visit(s.num, true, getKeyState).slot);
      if scroll != null {
        scroll.Refresh(getKeyState);
      }
      DispatchKeepsWellFormed(old(Slots()), HC_ACTION, 0, getKeyState);
    }

    /** At exit: delete each existing indicator's tray icon, Caps Lock, Num Lock, Scroll Lock. */
    method DeleteAll()
      requires Valid()
      modifies shell
      ensures shell.log == old(shell.log) + Shutdown(Slots())
    {
      if caps != null {
        caps.DeleteFromTray();
      }
      if num != null {
        num.DeleteFromTray();
      }
      if scroll != null {
        scroll.DeleteFromTray();
      }
    }
  }
}
