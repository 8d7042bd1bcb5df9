# LockStatus in Dafny

LockStatus is a small Windows background utility. It shows the toggle state of Caps Lock, Num Lock and
Scroll Lock as notification-area ("tray") icons. This project models its core and proves properties of
that model:

- **Mode parsing** (`KeyModes`). A three-character command line picks one display mode per key:
  `'0'` only when off, `'1'` only when on, `'n'`/`'N'` never, anything else always. Any other length
  keeps the defaults: Caps only-on, Num never, Scroll only-on.
- **The `KeyInfo` indicator**. `KeyIndicator` gives its behaviour as functions on values.
  `LockStatus.KeyInfo` is the class that updates its fields in place, proved against those functions.
  - The constructor loads the icons the mode shows. Unless the mode is Never, it negotiates the tray
    version, sets the tray id and makes a first refresh.
  - `refresh(first)` samples the key's toggle bit. A non-first refresh that sees no change does nothing.
    Otherwise it records the state, marks the tray record hidden or gives it the state's icon, and makes
    exactly one `NIM_ADD` (first call) or `NIM_MODIFY` call.
- **Dispatch**. `Dispatch` gives the behaviour as functions; `LockStatus.LockKeys` is the coordination
  object holding the three (possibly null) indicators.
  - Startup builds an indicator only for each key whose mode is not Never.
  - The low-level keyboard hook refreshes only the existing indicator the event is for, and always hands
    the event on.
  - The timer refreshes every existing indicator, in the order Caps, Num, Scroll.
  - At exit each existing indicator's icon is deleted.
- **The freestanding `memset`** (`Crt.Memset`). It fills the first `count` bytes of a buffer in place
  with the low byte of `value` and returns the buffer.

Platform calls are abstracted as follows:

- `Shell_NotifyIcon` is an appended log of `(message, record)` calls on a `Tray.Shell` object.
- `GetKeyState` is a function parameter `int -> bv16`; its low bit is the toggle state.
- `LoadIcon` yields an icon handle that names the resource it was loaded from.
- The icon resource ids are parameters (`Dispatch.IconIds`), because their values live in a resource
  header that is not part of this model. The virtual-key codes are Windows' own (0x14, 0x90, 0x91).

Two details of the code that the model keeps:

- The constructor also sends `NIM_SETVERSION`, before the tray id is set, so with the tray id still 0.
  Construction therefore makes two tray calls, `NIM_SETVERSION` then one `NIM_ADD`, not a single call.
- Parsing is the fixed three-character rule of this version. It does not read the tail of the raw
  command line.

## Model

| member | source | states |
|---|---|---|
| KeyModes.ParseModes | LockStatus.cpp:115-144 | a command line whose length is not 3 selects the defaults; a 3-character line selects Caps, Num and Scroll from characters 0, 1 and 2 by ModeOf |
| KeyModes.ModeOf | LockStatus.cpp:124-129 | a character selects OnlyOff iff it is '0', OnlyOn iff '1', Never iff 'n' or 'N', and Always iff it is none of these |
| KeyModes.ParseWrongLengthGivesDefaults | LockStatus.cpp:115-122 | a command line whose length is not 3 gives Caps=OnlyOn, Num=Never, Scroll=OnlyOn |
| KeyModes.ParseIsPositional | LockStatus.cpp:122-144 | for a 3-character line each key's mode depends only on its own position (0 Caps, 1 Num, 2 Scroll), and a key is Never iff its character is 'n' or 'N' |
| KeyModes.ParseFormatRoundTrip | LockStatus.cpp:119-144 | every combination of the three modes can be selected: formatting a mode triple as a command line and parsing it gives it back |
| KeyModes.ParseExamples | LockStatus.cpp:115-144 | "01N" gives OnlyOff/OnlyOn/Never, a 2-character line gives the defaults, "n1x" gives Never/OnlyOn/Always |
| KeyIndicator.Toggled | LockStatus.cpp:61 | the sampled state is on iff the low bit of the GetKeyState value is set |
| KeyIndicator.Create | LockStatus.cpp:20-43 | construction loads the on-icon iff the mode is OnlyOn or Always and the off-icon iff OnlyOff or Always, each from its own resource id, and keeps the key |
| KeyIndicator.Refresh | LockStatus.cpp:56-79 | refresh never changes the key, the tray id or the loaded icons, and makes at most one tray call |
| KeyIndicator.CreateNever | LockStatus.cpp:26-27 | with mode Never the constructor loads no icon and makes no tray call |
| KeyIndicator.CreateAddsOnce | LockStatus.cpp:20-43 | with another mode, construction makes NIM_SETVERSION then exactly one NIM_ADD of its final record, records the sampled state even when it equals the initial false, sets uID to the on-icon id, and leaves the record showing the state |
| KeyIndicator.RefreshInert | LockStatus.cpp:58-59 | an indicator without icons is unchanged by any refresh and makes no tray call |
| KeyIndicator.RefreshUnchanged | LockStatus.cpp:62-63 | a non-first refresh that samples the recorded state changes nothing and makes no tray call |
| KeyIndicator.RefreshChanged | LockStatus.cpp:64-78 | a non-first refresh that samples a new state records it and makes exactly one NIM_MODIFY with the new record, which shows that state |
| KeyIndicator.RefreshHiddenByMode | LockStatus.cpp:66-77 | whenever refresh calls the tray, dwStateMask is NIS_HIDDEN, the record is hidden iff the mode does not show the sampled state, and otherwise carries that state's icon |
| KeyIndicator.HiddenExactlyWhenModeHides | LockStatus.cpp:37-77 | for a mode other than Never, the record added at construction and the record sent by a refresh that sees a change are hidden exactly when the mode is OnlyOn and the key is off, or OnlyOff and the key is on |
| KeyIndicator.RefreshKeepsSynced | LockStatus.cpp:64-78 | refresh preserves the invariant that the tray record of an indicator with an icon shows its recorded state |
| KeyIndicator.RefreshManyInert | LockStatus.cpp:58-59 | any number of refreshes of an indicator without icons changes nothing and calls nothing |
| KeyIndicator.RefreshManySteady | LockStatus.cpp:62-63 | any number of refreshes while the key keeps its recorded state makes no tray call and changes nothing |
| KeyIndicator.RefreshManyCallsPerChange | LockStatus.cpp:62-78 | over any sequence of refreshes an indicator with an icon makes exactly one NIM_MODIFY per change of the key's state and no other call |
| KeyIndicator.RefreshManyConverges | LockStatus.cpp:64-78 | after a non-empty sequence of refreshes the indicator's state is the last sample and its tray record shows it |
| KeyIndicator.CreateThenRefreshTwice | LockStatus.cpp:42-78 | constructing and then refreshing twice with the key unchanged makes NIM_SETVERSION and one NIM_ADD in all |
| Dispatch.Visit | LockStatus.cpp:92-97 | a slot is refreshed only when the event is for it and it holds an indicator: an empty slot or an event for another key leaves the slot as it is with no tray call; a slot never gains or loses its indicator and makes at most one tray call |
| Dispatch.Hook | LockStatus.cpp:86-100 | outside HC_ACTION the hook changes nothing and calls nothing; it never creates or removes an indicator, and one key event makes at most one tray call |
| Dispatch.Tick | LockStatus.cpp:102-111 | a timer tick never creates or removes an indicator, makes at most one tray call per existing indicator, and every call it makes is a NIM_MODIFY |
| Dispatch.Build | LockStatus.cpp:152-157 | a key gets no indicator iff its mode is Never; an indicator it gets is bound to the key, holds the key's sampled toggle state and has the icons its mode shows |
| Dispatch.Startup | LockStatus.cpp:113-157 | each key has an indicator iff its parsed mode is not Never; a command line whose length is not 3 gives indicators for Caps and Scroll only |
| Dispatch.BuildPair | LockStatus.cpp:152-157 | a key has no indicator iff its mode is Never; a key with mode Never gets no indicator and no tray call; any other key gets NIM_SETVERSION then NIM_ADD |
| Dispatch.StartupBuildsNonNever | LockStatus.cpp:152-157 | startup builds exactly the indicators whose parsed mode is not Never, each bound to its key, showing its key's sampled state, with icons chosen by its mode |
| Dispatch.StartupAddsOncePerIndicator | LockStatus.cpp:152-157 | startup's tray calls alternate NIM_SETVERSION and NIM_ADD, two per indicator built |
| Dispatch.HookTouchesOnlyMatching | LockStatus.cpp:89-98 | outside HC_ACTION, or for a key that is none of the three, the hook does nothing; otherwise the matching slot becomes its refreshed indicator, the other two slots are unchanged, and the tray calls are that slot's refresh |
| Dispatch.HookIgnoresAbsent | LockStatus.cpp:92-97 | an event for a key whose indicator does not exist does no work |
| Dispatch.DispatchKeepsWellFormed | LockStatus.cpp:86-111 | the hook and the timer keep each indicator bound to its key and synced, and never create or remove one |
| Dispatch.TickIsThreeKeyEvents | LockStatus.cpp:86-111 | a timer tick has exactly the effect, on the indicators and on the tray calls, of a Caps Lock, then a Num Lock, then a Scroll Lock key event reaching the hook |
| Dispatch.TickConverges | LockStatus.cpp:102-111 | after a timer tick every existing indicator with an icon holds and shows its key's current toggle state |
| Dispatch.TickIdempotent | LockStatus.cpp:102-111 | for any slots, a second timer tick with the keys unchanged makes no tray call and changes nothing |
| Dispatch.Shutdown | LockStatus.cpp:174-179 | every tray call made at exit is a NIM_DELETE |
| Dispatch.ShutdownDeletesEach | LockStatus.cpp:174-179 | exit makes one NIM_DELETE per existing indicator, each of that indicator's own record, in the order Caps Lock, Num Lock, Scroll Lock |
| LockStatus.KeyInfo.constructor | LockStatus.cpp:20-43 | the object's state and the tray calls it makes are those of KeyIndicator.Create for the sampled key state |
| LockStatus.KeyInfo.refresh | LockStatus.cpp:56-79 | refresh(first) updates the state and tray record in place and appends exactly the tray calls of KeyIndicator.Refresh |
| LockStatus.KeyInfo.Refresh | LockStatus.cpp:45-48 | Refresh() is refresh(false) |
| LockStatus.KeyInfo.DeleteFromTray | LockStatus.cpp:50-53 | one NIM_DELETE of the current record |
| LockStatus.BuildKey | LockStatus.cpp:152-157 | null for mode Never, otherwise a fresh KeyInfo bound to the key and in sync, with the construction's tray calls |
| LockStatus.LockKeys.constructor | LockStatus.cpp:113-157 | startup leaves the three slots and the tray log as Dispatch.Startup says and establishes the invariant |
| LockStatus.LockKeys.KeyboardHook | LockStatus.cpp:86-100 | the hook updates the indicators and the tray log as Dispatch.Hook says, keeps the invariant, and always forwards its arguments to the next hook |
| LockStatus.LockKeys.RefreshStates | LockStatus.cpp:102-111 | the timer updates the indicators and the tray log as Dispatch.Tick says and keeps the invariant |
| LockStatus.LockKeys.DeleteAll | LockStatus.cpp:174-179 | exit appends the NIM_DELETE calls of Dispatch.Shutdown |
| Crt.ToUnsignedChar | stdafx.cpp:8 | the byte written is congruent to value modulo 256, and equals value when value is already a byte |
| Crt.Memset | stdafx.cpp:5-11 | bytes [0, count) hold the truncated value, every byte from count on is unchanged (so count 0 changes nothing), and the returned pointer is the original target |

## Left out

- Win32 calls: `CreateWindow`, `SetWindowsHookEx`, `SetTimer`, `CallNextHookEx` and the
  `GetMessage`/`DispatchMessage` loop. These are platform registration and delivery. The hook returns the
  arguments it forwards instead of calling the next hook. Each callback is one atomic sequential call,
  because both run on the single message-loop thread.
- The 750 ms timer period. Timing is not modelled.
- `NOTIFYICONDATA` fields `cbSize`, `uVersion`, `hWnd` and `uFlags`. They are fixed setup handed to the OS
  and only the tray calls carry them.
- The tooltip text and its `StringCchCopy`. It is a library call with no logic here.
- `strlen` of the command line. The command line is modelled as the characters before its terminating NUL,
  so a model string never contains NUL: `ParseModes("ab\0")` sees three characters where `strlen` sees two.
- The command line is an `LPSTR`, a byte string. Each model character stands for one byte, so a character
  that takes several bytes in the code page counts as several characters, as it does for `strlen`.
- The parameterless `KeyInfo()` constructor. Nothing calls it.
- Success or failure of platform calls. Tray calls are assumed to succeed, as the program assumes.
- Process exit code.
- memset on raw pointers. The target is an array and the advancing pointer is an index. The caller must
  supply `count` writable bytes, which the C code assumes without checking. The wrap of `cbTarget` to
  `SIZE_MAX` after the final post-decrement is not observable and is not modelled.
- `stdafx.h`. It holds only includes, a declaration and a pragma.
- Per-install stable icon identifiers and tail-of-command-line parsing. They belong to other variants
  of the program and are not in this source.
