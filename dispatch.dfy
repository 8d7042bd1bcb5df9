/**
 * The routing of the two triggers (the low-level keyboard hook and the
 * periodic timer) into the three indicators, startup from the command line,
 * and the tray cleanup at exit, as values. The LockKeys class in module
 * LockStatus is proved against these functions.
 */
module Dispatch {
  import opened KeyModes
  import opened Tray
  import opened KeyIndicator

  /** Virtual-key codes of the three lock keys. */
  const VK_CAPITAL: int := 0x14
  const VK_NUMLOCK: int := 0x90
  const VK_SCROLL: int := 0x91

  /** The hook code under which a keyboard hook may look at the event. */
  const HC_ACTION: int := 0

  /** The icon resource ids, one pair per key (their values are fixed by the resource script). */
  datatype IconIds = IconIds(capsOn: int, capsOff: int, numOn: int, numOff: int, scrollOn: int, scrollOff: int)

  /** The three indicator slots; None where the mode is Never and no indicator was built. */
  datatype Slots = Slots(caps: Option<Indicator>, num: Option<Indicator>, scroll: Option<Indicator>)

  datatype SlotOutcome = SlotOutcome(slot: Option<Indicator>, calls: seq<NotifyCall>)
  datatype SlotsOutcome = SlotsOutcome(slots: Slots, calls: seq<NotifyCall>)

  /** The arguments the keyboard hook hands on to CallNextHookEx. */
  datatype NextHook = NextHook(nCode: int, wParam: int, vkCode: int)

  /** Each existing indicator is bound to its own key and keeps its tray record in step with its state. */
  predicate WellFormed(s: Slots) {
    && (s.caps.Some? ==> s.caps.value.virtualKey == VK_CAPITAL && Synced(s.caps.value))
    && (s.num.Some? ==> s.num.value.virtualKey == VK_NUMLOCK && Synced(s.num.value))
    && (s.scroll.Some? ==> s.scroll.value.virtualKey == VK_SCROLL && Synced(s.scroll.value))
  }

  /** Refresh() on a slot when `wanted` holds and the slot holds an indicator, sampling that indicator's key. */
  function Visit(slot: Option<Indicator>, wanted: bool, getKeyState: int -> bv16): (o: SlotOutcome)
    ensures o.slot.Some? <==> slot.Some?
    ensures !wanted ==> o == SlotOutcome(slot, [])
    ensures slot.None? ==> o == SlotOutcome(None, [])
    ensures |o.calls| <= 1
  {
    if slot.Some? && wanted then
      var r := Refresh(slot.value, Toggled(getKeyState(slot.value.virtualKey)), false);
      SlotOutcome(Some(r.after), r.calls)
    else
      SlotOutcome(slot, [])
  }

  /** KeyboardHook: on HC_ACTION, refresh the existing indicator whose key the event is for. */
  function Hook(s: Slots, nCode: int, vkCode: int, getKeyState: int -> bv16): (o: SlotsOutcome)
    ensures nCode != HC_ACTION ==> o == SlotsOutcome(s, [])
    ensures o.slots.caps.Some? <==> s.caps.Some?
    ensures o.slots.num.Some? <==> s.num.Some?
    ensures o.slots.scroll.Some? <==> s.scroll.Some?
    ensures |o.calls| <= 1
  {
    if nCode == HC_ACTION then
      var c := Visit(s.caps, vkCode == VK_CAPITAL, getKeyState);
      var n := Visit(s.num, vkCode == VK_NUMLOCK, getKeyState);
      var l := Visit(s.scroll, vkCode == VK_SCROLL, getKeyState);
      SlotsOutcome(Slots(c.slot, n.slot, l.slot), c.calls + n.calls + l.calls)
    else
      SlotsOutcome(s, [])
  }

  /** RefreshStates: refresh every existing indicator, Caps Lock, then Num Lock, then Scroll Lock. */
  function Tick(s: Slots, getKeyState: int -> bv16): (o: SlotsOutcome)
    ensures o.slots.caps.Some? <==> s.caps.Some?
    ensures o.slots.num.Some? <==> s.num.Some?
    ensures o.slots.scroll.Some? <==> s.scroll.Some?
    ensures |o.calls| <= Present(s)
    ensures forall i :: 0 <= i < |o.calls| ==> o.calls[i].message == Modify
  {
    var c := Visit(s.caps, true, getKeyState);
    var n := Visit(s.num, true, getKeyState);
    var l := Visit(s.scroll, true, getKeyState);
    SlotsOutcome(Slots(c.slot, n.slot, l.slot), c.calls + n.calls + l.calls)
  }

  /** Building one key's indicator at startup: none for mode Never, otherwise a constructed one. */
  function Build(virtualKey: int, onIconId: int, offIconId: int, mode: KeyIconMode, getKeyState: int -> bv16): (o: SlotOutcome)
    ensures o.slot.None? <==> mode == Never
    ensures o.slot.Some? ==> o.slot.value.virtualKey == virtualKey && o.slot.value.state == Toggled(getKeyState(virtualKey))
    ensures o.slot.Some? ==> IconsMatchMode(o.slot.value, mode)
  {
    if mode == Never then
      SlotOutcome(None, [])
    else
      var k := Create(virtualKey, onIconId, offIconId, mode, Toggled(getKeyState(virtualKey)));
      SlotOutcome(Some(k.after), k.calls)
  }

  /** Startup: parse the modes, then build Caps Lock, Num Lock and Scroll Lock in that order. */
  function Startup(cmdLine: string, ids: IconIds, getKeyState: int -> bv16): (o: SlotsOutcome)
    ensures o.slots.caps.None? <==> ParseModes(cmdLine).caps == Never
    ensures o.slots.num.None? <==> ParseModes(cmdLine).num == Never
    ensures o.slots.scroll.None? <==> ParseModes(cmdLine).scroll == Never
    ensures |cmdLine| != 3 ==> o.slots.num.None? && o.slots.caps.Some? && o.slots.scroll.Some?
  {
    var m := ParseModes(cmdLine);
    var c := Build(VK_CAPITAL, ids.capsOn, ids.capsOff, m.caps, getKeyState);
    var n := Build(VK_NUMLOCK, ids.numOn, ids.numOff, m.num, getKeyState);
    var l := Build(VK_SCROLL, ids.scrollOn, ids.scrollOff, m.scroll, getKeyState);
    SlotsOutcome(Slots(c.slot, n.slot, l.slot), c.calls + n.calls + l.calls)
  }

  /** NIM_DELETE for one slot, if it holds an indicator. */
  function DeleteCall(slot: Option<Indicator>): seq<NotifyCall> {
    if slot.Some? then [NotifyCall(Delete, slot.value.tray)] else []
  }

  /** The tray calls made at exit: one NIM_DELETE per existing indicator, Caps Lock, Num Lock, Scroll Lock. */
  function Shutdown(s: Slots): (calls: seq<NotifyCall>)
    ensures forall i :: 0 <= i < |calls| ==> calls[i].message == Delete
  {
    DeleteCall(s.caps) + DeleteCall(s.num) + DeleteCall(s.scroll)
  }

  /**
   * Startup builds exactly the indicators whose mode is not Never, each
   * bound to its key, showing its key's sampled state, with its icons
   * chosen by its mode.
   */
  lemma StartupBuildsNonNever(cmdLine: string, ids: IconIds, getKeyState: int -> bv16)
    ensures var o := Startup(cmdLine, ids, getKeyState); var m := ParseModes(cmdLine);
      && WellFormed(o.slots)
      && (o.slots.caps.None? <==> m.caps == Never)
      && (o.slots.num.None? <==> m.num == Never)
      && (o.slots.scroll.None? <==> m.scroll == Never)
      && (o.slots.caps.Some? ==> o.slots.caps.value.state == Toggled(getKeyState(VK_CAPITAL)) && IconsMatchMode(o.slots.caps.value, m.caps))
      && (o.slots.num.Some? ==> o.slots.num.value.state == Toggled(getKeyState(VK_NUMLOCK)) && IconsMatchMode(o.slots.num.value, m.num))
      && (o.slots.scroll.Some? ==> o.slots.scroll.value.state == Toggled(getKeyState(VK_SCROLL)) && IconsMatchMode(o.slots.scroll.value, m.scroll))
  {
    var m := ParseModes(cmdLine);
    if m.caps != Never { CreateAddsOnce(VK_CAPITAL, ids.capsOn, ids.capsOff, m.caps, Toggled(getKeyState(VK_CAPITAL))); }
    if m.num != Never { CreateAddsOnce(VK_NUMLOCK, ids.numOn, ids.numOff, m.num, Toggled(getKeyState(VK_NUMLOCK))); }
    if m.scroll != Never { CreateAddsOnce(VK_SCROLL, ids.scrollOn, ids.scrollOff, m.scroll, Toggled(getKeyState(VK_SCROLL))); }
  }

  /** Startup makes one NIM_ADD per indicator it builds, and no NIM_MODIFY or NIM_DELETE. */
  lemma StartupAddsOncePerIndicator(cmdLine: string, ids: IconIds, getKeyState: int -> bv16)
    ensures var o := Startup(cmdLine, ids, getKeyState);
      && |o.calls| == 2 * Present(o.slots)
      && (forall i :: 0 <= i < |o.calls| ==> o.calls[i].message == (if i % 2 == 0 then SetVersion else Add))
  {
    var m := ParseModes(cmdLine);
    BuildPair(VK_CAPITAL, ids.capsOn, ids.capsOff, m.caps, getKeyState);
    BuildPair(VK_NUMLOCK, ids.numOn, ids.numOff, m.num, getKeyState);
    BuildPair(VK_SCROLL, ids.scrollOn, ids.scrollOff, m.scroll, getKeyState);
  }

  /** How many slots hold an indicator. */
  function Present(s: Slots): nat {
    (if s.caps.Some? then 1 else 0) + (if s.num.Some? then 1 else 0) + (if s.scroll.Some? then 1 else 0)
  }

  /** A built indicator contributes NIM_SETVERSION then NIM_ADD; a Never slot contributes nothing. */
  lemma BuildPair(virtualKey: int, onIconId: int, offIconId: int, mode: KeyIconMode, getKeyState: int -> bv16)
    ensures var b := Build(virtualKey, onIconId, offIconId, mode, getKeyState);
      && (b.slot.None? <==> mode == Never)
      && |b.calls| == (if b.slot.Some? then 2 else 0)
      && (b.slot.Some? ==> b.calls[0].message == SetVersion && b.calls[1].message == Add)
  {
    if mode != Never {
      CreateAddsOnce(virtualKey, onIconId, offIconId, mode, Toggled(getKeyState(virtualKey)));
    }
  }

  /**
   * The hook refreshes at most the one indicator the event is for, only
   * on HC_ACTION and only if it exists: that slot becomes the refreshed
   * indicator, the other slots stay as they were and the tray calls are
   * that refresh's.
   */
  lemma HookTouchesOnlyMatching(s: Slots, nCode: int, vkCode: int, getKeyState: int -> bv16)
    ensures var o := Hook(s, nCode, vkCode, getKeyState);
      && (nCode != HC_ACTION || (vkCode != VK_CAPITAL && vkCode != VK_NUMLOCK && vkCode != VK_SCROLL) ==> o == SlotsOutcome(s, []))
      && (nCode == HC_ACTION && vkCode == VK_CAPITAL ==>
            o.slots.caps == Visit(s.caps, true, getKeyState).slot && o.slots.num == s.num && o.slots.scroll == s.scroll
            && o.calls == Visit(s.caps, true, getKeyState).calls)
      && (nCode == HC_ACTION && vkCode == VK_NUMLOCK ==>
            o.slots.caps == s.caps && o.slots.num == Visit(s.num, true, getKeyState).slot && o.slots.scroll == s.scroll
            && o.calls == Visit(s.num, true, getKeyState).calls)
      && (nCode == HC_ACTION && vkCode == VK_SCROLL ==>
            o.slots.caps == s.caps && o.slots.num == s.num && o.slots.scroll == Visit(s.scroll, true, getKeyState).slot
            && o.calls == Visit(s.scroll, true, getKeyState).calls)
  {
  }

  /** An event for a key whose mode is Never does no work at all. */
  lemma HookIgnoresAbsent(s: Slots, nCode: int, getKeyState: int -> bv16)
    ensures s.caps.None? ==> Hook(s, nCode, VK_CAPITAL, getKeyState) == SlotsOutcome(s, [])
    ensures s.num.None? ==> Hook(s, nCode, VK_NUMLOCK, getKeyState) == SlotsOutcome(s, [])
    ensures s.scroll.None? ==> Hook(s, nCode, VK_SCROLL, getKeyState) == SlotsOutcome(s, [])
  {
  }

  /** The hook and the timer keep every indicator bound to its key and synced, and never create one. */
  lemma DispatchKeepsWellFormed(s: Slots, nCode: int, vkCode: int, getKeyState: int -> bv16)
    requires WellFormed(s)
    ensures var h := Hook(s, nCode, vkCode, getKeyState).slots;
      WellFormed(h) && (h.caps.None? <==> s.caps.None?) && (h.num.None? <==> s.num.None?) && (h.scroll.None? <==> s.scroll.None?)
    ensures var t := Tick(s, getKeyState).slots;
      WellFormed(t) && (t.caps.None? <==> s.caps.None?) && (t.num.None? <==> s.num.None?) && (t.scroll.None? <==> s.scroll.None?)
  {
    if s.caps.Some? { RefreshKeepsSynced(s.caps.value, Toggled(getKeyState(VK_CAPITAL)), false); }
    if s.num.Some? { RefreshKeepsSynced(s.num.value, Toggled(getKeyState(VK_NUMLOCK)), false); }
    if s.scroll.Some? { RefreshKeepsSynced(s.scroll.value, Toggled(getKeyState(VK_SCROLL)), false); }
  }

  /**
   * A timer tick has the same effect as a Caps Lock event, then a Num Lock
   * event, then a Scroll Lock event reaching the hook: it refreshes every
   * existing indicator, in that order.
   */
  lemma TickIsThreeKeyEvents(s: Slots, getKeyState: int -> bv16)
    ensures var a := Hook(s, HC_ACTION, VK_CAPITAL, getKeyState);
      var b := Hook(a.slots, HC_ACTION, VK_NUMLOCK, getKeyState);
      var c := Hook(b.slots, HC_ACTION, VK_SCROLL, getKeyState);
      Tick(s, getKeyState) == SlotsOutcome(c.slots, a.calls + b.calls + c.calls)
  {
  }

  /**
   * After a timer tick every existing indicator shows its key's current
   * toggle state, whatever key events were missed before it.
   */
  lemma TickConverges(s: Slots, getKeyState: int -> bv16)
    requires WellFormed(s)
    ensures var t := Tick(s, getKeyState).slots;
      && (t.caps.Some? && t.caps.value.HasIcon() ==>
            t.caps.value.state == Toggled(getKeyState(VK_CAPITAL)) && Displays(t.caps.value, t.caps.value.state))
      && (t.num.Some? && t.num.value.HasIcon() ==>
            t.num.value.state == Toggled(getKeyState(VK_NUMLOCK)) && Displays(t.num.value, t.num.value.state))
      && (t.scroll.Some? && t.scroll.value.HasIcon() ==>
            t.scroll.value.state == Toggled(getKeyState(VK_SCROLL)) && Displays(t.scroll.value, t.scroll.value.state))
  {
    DispatchKeepsWellFormed(s, HC_ACTION, 0, getKeyState);
  }

  /** A second timer tick with the keys unchanged makes no tray call and changes nothing. */
  lemma TickIdempotent(s: Slots, getKeyState: int -> bv16)
    ensures var t := Tick(s, getKeyState);
      Tick(t.slots, getKeyState) == SlotsOutcome(t.slots, [])
  {
  }

  /** At exit each existing indicator's record is deleted once, Caps Lock, Num Lock, Scroll Lock. */
  lemma ShutdownDeletesEach(s: Slots)
    ensures |Shutdown(s)| == Present(s)
    ensures s.caps.Some? ==> Shutdown(s)[0] == NotifyCall(Delete, s.caps.value.tray)
    ensures s.num.Some? ==> Shutdown(s)[if s.caps.Some? then 1 else 0] == NotifyCall(Delete, s.num.value.tray)
    ensures s.scroll.Some? ==> Shutdown(s)[|Shutdown(s)| - 1] == NotifyCall(Delete, s.scroll.value.tray)
  {
  }
}
