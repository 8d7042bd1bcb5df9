/**
 * The behaviour of one lock-key indicator (the KeyInfo class) as values:
 * what construction and refresh do to its state and which tray calls they
 * issue. The KeyInfo class in module LockStatus is proved against these
 * functions.
 */
module KeyIndicator {
  import opened KeyModes
  import opened Tray

  /** The toggle state of a key: the low bit of what GetKeyState returns. */
  function Toggled(keyState: bv16): (on: bool)
    ensures on <==> keyState % 2 == 1
  {
    keyState & 1 != 0
  }

  /** An indicator: its key, the icons it loaded, the last state it showed and its tray record. */
  datatype Indicator = Indicator(
    virtualKey: int,
    onIcon: Option<HIcon>,
    offIcon: Option<HIcon>,
    state: bool,
    tray: NotifyIconData)
  {
    /** Whether an icon was loaded for either state; an indicator without one is inert. */
    predicate HasIcon() {
      onIcon.Some? || offIcon.Some?
    }

    /** The icon that stands for the given state, None if that state is not to be shown. */
    function IconFor(on: bool): Option<HIcon> {
      if on then onIcon else offIcon
    }
  }

  /** An indicator after an operation, with the tray calls the operation made, oldest first. */
  datatype Outcome = Outcome(after: Indicator, calls: seq<NotifyCall>)

  /** Whether a mode asks for the icon to be visible while the key is in the given state. */
  predicate ShownUnder(mode: KeyIconMode, on: bool) {
    match mode
    case Never => false
    case OnlyOn => on
    case OnlyOff => !on
    case Always => true
  }

  /** The icon loaded for a state: present exactly when some state of the key is to be shown in it. */
  function LoadIf(wanted: bool, iconId: int): (icon: Option<HIcon>)
    ensures icon.Some? <==> wanted
  {
    if wanted then Some(LoadedIcon(iconId)) else None
  }

  /** The icons an indicator loads for a mode: each state's icon is loaded iff the mode shows that state. */
  predicate IconsMatchMode(k: Indicator, mode: KeyIconMode) {
    && (k.onIcon.Some? <==> ShownUnder(mode, true))
    && (k.offIcon.Some? <==> ShownUnder(mode, false))
  }

  /**
   * The tray record shows the given state: the hidden bit is the one
   * being set, it is set iff there is no icon for the state, and otherwise
   * the record carries that icon.
   */
  predicate Displays(k: Indicator, on: bool) {
    && k.tray.dwStateMask == NIS_HIDDEN
    && (k.tray.dwState == NIS_HIDDEN <==> k.IconFor(on).None?)
    && (k.IconFor(on).Some? ==> k.tray.dwState == 0 && k.tray.hIcon == k.IconFor(on))
  }

  /** The indicator's invariant once constructed: if it has an icon, its tray record shows its recorded state. */
  predicate Synced(k: Indicator) {
    k.HasIcon() ==> Displays(k, k.state)
  }

  /**
   * refresh(first): with no icon nothing happens; a non-first refresh
   * that samples the recorded state does nothing; otherwise the sampled
   * state is recorded, the tray record is marked hidden or given the
   * state's icon, and one NIM_ADD (first) or NIM_MODIFY call is made.
   */
  function Refresh(k: Indicator, on: bool, first: bool): (o: Outcome)
    ensures o.after.virtualKey == k.virtualKey && o.after.tray.uID == k.tray.uID
    ensures o.after.onIcon == k.onIcon && o.after.offIcon == k.offIcon
    ensures |o.calls| <= 1
  {
    if k.onIcon.None? && k.offIcon.None? then
      Outcome(k, [])
    else if on == k.state && !first then
      Outcome(k, [])
    else
      var icon := k.IconFor(on);
      var tray :=
        if icon.None? then k.tray.(dwState := NIS_HIDDEN, dwStateMask := NIS_HIDDEN)
        else k.tray.(dwState := 0, dwStateMask := NIS_HIDDEN, hIcon := icon);
      Outcome(k.(state := on, tray := tray), [NotifyCall(if first then Add else Modify, tray)])
  }

  /**
   * Construction: with mode Never nothing is loaded and no tray call is
   * made; otherwise NIM_SETVERSION is sent with the still-zero record,
   * the record takes the on-icon's id as uID, the icons the mode shows
   * are loaded, and a first refresh samples the key.
   */
  function Create(virtualKey: int, onIconId: int, offIconId: int, mode: KeyIconMode, on: bool): (o: Outcome)
    ensures IconsMatchMode(o.after, mode)
    ensures o.after.virtualKey == virtualKey
    ensures o.after.onIcon.Some? ==> o.after.onIcon == Some(LoadedIcon(onIconId))
    ensures o.after.offIcon.Some? ==> o.after.offIcon == Some(LoadedIcon(offIconId))
  {
    if mode == Never then
      Outcome(Indicator(virtualKey, None, None, false, ZeroData), [])
    else
      var k := Indicator(
        virtualKey,
        LoadIf(mode == OnlyOn || mode == Always, onIconId),
        LoadIf(mode == OnlyOff || mode == Always, offIconId),
        false,
        ZeroData.(uID := onIconId));
      var r := Refresh(k, on, true);
      Outcome(r.after, [NotifyCall(SetVersion, ZeroData)] + r.calls)
  }

  /** Refresh() called once per sample, in order. */
  function RefreshMany(k: Indicator, samples: seq<bool>): (o: Outcome)
    decreases |samples|
  {
    if samples == [] then
      Outcome(k, [])
    else
      var r := Refresh(k, samples[0], false);
      var rest := RefreshMany(r.after, samples[1..]);
      Outcome(rest.after, r.calls + rest.calls)
  }

  /** How many samples differ from the one before them, the first being compared with `state`. */
  function Changes(state: bool, samples: seq<bool>): nat
    decreases |samples|
  {
    if samples == [] then 0
    else (if samples[0] != state then 1 else 0) + Changes(samples[0], samples[1..])
  }

  /** With mode Never the constructor loads no icon and makes no tray call. */
  lemma CreateNever(virtualKey: int, onIconId: int, offIconId: int, on: bool)
    ensures var o := Create(virtualKey, onIconId, offIconId, Never, on);
      !o.after.HasIcon() && o.calls == []
  {
  }

  /**
   * With any other mode the constructor makes exactly two tray calls,
   * NIM_SETVERSION and then one NIM_ADD of the record it ends with, and
   * records the sampled state, whether or not it equals the initial false.
   */
  lemma CreateAddsOnce(virtualKey: int, onIconId: int, offIconId: int, mode: KeyIconMode, on: bool)
    requires mode != Never
    ensures var o := Create(virtualKey, onIconId, offIconId, mode, on);
      && o.after.HasIcon()
      && o.after.state == on
      && o.calls == [NotifyCall(SetVersion, ZeroData), NotifyCall(Add, o.after.tray)]
      && o.after.tray.uID == onIconId
      && Synced(o.after)
  {
  }

  /** An indicator with no icon never changes and never calls the tray. */
  lemma RefreshInert(k: Indicator, on: bool, first: bool)
    requires !k.HasIcon()
    ensures Refresh(k, on, first) == Outcome(k, [])
  {
  }

  /** A non-first refresh that samples the recorded state changes nothing and makes no tray call. */
  lemma RefreshUnchanged(k: Indicator, on: bool)
    requires on == k.state
    ensures Refresh(k, on, false) == Outcome(k, [])
  {
  }

  /**
   * A non-first refresh that samples a new state records it and makes
   * exactly one NIM_MODIFY call with the new record; nothing but the state
   * and the record's state, mask and icon change.
   */
  lemma RefreshChanged(k: Indicator, on: bool)
    requires k.HasIcon() && on != k.state
    ensures var o := Refresh(k, on, false);
      && o.after.state == on
      && o.calls == [NotifyCall(Modify, o.after.tray)]
      && o.after.tray.uID == k.tray.uID
      && Displays(o.after, on)
  {
  }

  /**
   * The hidden flag follows the mode: whenever a refresh makes a tray
   * call, the record's mask is NIS_HIDDEN, it is hidden exactly when the
   * mode does not show the sampled state, and otherwise it carries the
   * icon loaded for that state.
   */
  lemma RefreshHiddenByMode(k: Indicator, mode: KeyIconMode, on: bool, first: bool)
    requires IconsMatchMode(k, mode) && mode != Never
    requires first || on != k.state
    ensures var o := Refresh(k, on, first);
      && |o.calls| == 1
      && o.calls[0].data.dwStateMask == NIS_HIDDEN
      && (o.calls[0].data.dwState == NIS_HIDDEN <==> !ShownUnder(mode, on))
      && (ShownUnder(mode, on) ==> o.calls[0].data.dwState == 0 && o.calls[0].data.hIcon == k.IconFor(on))
  {
  }

  /**
   * What the hidden flag means per mode, for the record the constructor
   * adds and for the record a changed refresh sends: Always is never
   * hidden, OnlyOn is hidden exactly when off, OnlyOff exactly when on.
   */
  lemma HiddenExactlyWhenModeHides(virtualKey: int, onIconId: int, offIconId: int, mode: KeyIconMode, on: bool,
                                   k: Indicator, next: bool)
    requires mode != Never
    requires IconsMatchMode(k, mode) && next != k.state
    ensures Create(virtualKey, onIconId, offIconId, mode, on).after.tray.dwState == NIS_HIDDEN
      <==> (mode == OnlyOn && !on) || (mode == OnlyOff && on)
    ensures Refresh(k, next, false).after.tray.dwState == NIS_HIDDEN
      <==> (mode == OnlyOn && !next) || (mode == OnlyOff && next)
  {
  }

  /** Refresh keeps the invariant that the tray record shows the recorded state. */
  lemma RefreshKeepsSynced(k: Indicator, on: bool, first: bool)
    requires Synced(k)
    ensures Synced(Refresh(k, on, first).after)
  {
  }

  /** A sequence of refreshes on an indicator without icons changes nothing and calls nothing. */
  lemma {:induction false} RefreshManyInert(k: Indicator, samples: seq<bool>)
    requires !k.HasIcon()
    ensures RefreshMany(k, samples) == Outcome(k, [])
    decreases |samples|
  {
    if samples != [] {
      RefreshInert(k, samples[0], false);
      RefreshManyInert(k, samples[1..]);
    }
  }

  /**
   * Refreshing any number of times while the key keeps its recorded
   * state (timer ticks with no key activity) makes no tray call at all.
   */
  lemma {:induction false} RefreshManySteady(k: Indicator, samples: seq<bool>)
    requires forall i :: 0 <= i < |samples| ==> samples[i] == k.state
    ensures RefreshMany(k, samples) == Outcome(k, [])
    decreases |samples|
  {
    if samples != [] {
      RefreshUnchanged(k, samples[0]);
      RefreshManySteady(k, samples[1..]);
    }
  }

  /**
   * Over any sequence of refreshes, an indicator with an icon makes one
   * NIM_MODIFY call per change of the key's state and no other call.
   */
  lemma {:induction false} RefreshManyCallsPerChange(k: Indicator, samples: seq<bool>)
    requires k.HasIcon()
    ensures var o := RefreshMany(k, samples);
      && |o.calls| == Changes(k.state, samples)
      && forall i :: 0 <= i < |o.calls| ==> o.calls[i].message == Modify
    decreases |samples|
  {
    if samples != [] {
      var r := Refresh(k, samples[0], false);
      RefreshManyCallsPerChange(r.after, samples[1..]);
      if samples[0] == k.state {
        RefreshUnchanged(k, samples[0]);
      }
    }
  }

  /**
   * After a non-empty sequence of refreshes an indicator with an icon has
   * caught up with the last sample and its tray record shows it.
   */
  lemma {:induction false} RefreshManyConverges(k: Indicator, samples: seq<bool>)
    requires k.HasIcon() && Synced(k) && samples != []
    ensures var o := RefreshMany(k, samples);
      o.after.state == samples[|samples| - 1] && Displays(o.after, o.after.state)
    decreases |samples|
  {
    var r := Refresh(k, samples[0], false);
    RefreshKeepsSynced(k, samples[0], false);
    if |samples| > 1 {
      RefreshManyConverges(r.after, samples[1..]);
    }
  }

  /**
   * Constructing an indicator and refreshing it twice with the key
   * unchanged makes one NIM_ADD in all (after the version negotiation)
   * and no NIM_MODIFY.
   */
  lemma CreateThenRefreshTwice(virtualKey: int, onIconId: int, offIconId: int, mode: KeyIconMode, on: bool)
    requires mode != Never
    ensures var c := Create(virtualKey, onIconId, offIconId, mode, on);
      var r := RefreshMany(c.after, [on, on]);
      c.calls + r.calls == [NotifyCall(SetVersion, ZeroData), NotifyCall(Add, c.after.tray)]
  {
    var c := Create(virtualKey, onIconId, offIconId, mode, on);
    CreateAddsOnce(virtualKey, onIconId, offIconId, mode, on);
    RefreshManySteady(c.after, [on, on]);
  }
}
