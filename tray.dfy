/**
 * The notification area ("tray") as the indicators see it: the part of a
 * NOTIFYICONDATA record they change, and Shell_NotifyIcon as a log of the
 * calls made to it.
 */
module Tray {

  datatype Option<T> = None | Some(value: T)

  /** An icon handle; LoadIcon is modelled as naming the resource the icon came from. */
  datatype HIcon = LoadedIcon(resourceId: int)

  /** The NIS_HIDDEN bit of NOTIFYICONDATA.dwState and dwStateMask. */
  const NIS_HIDDEN: int := 1

  /**
   * The fields of NOTIFYICONDATA that carry behaviour here: the icon's id,
   * its state and state mask, and its icon handle (None for NULL).
   */
  datatype NotifyIconData = NotifyIconData(uID: int, dwState: int, dwStateMask: int, hIcon: Option<HIcon>)

  /** A value-initialised NOTIFYICONDATA: every field zero, no icon. */
  const ZeroData: NotifyIconData := NotifyIconData(0, 0, 0, None)

  /** The Shell_NotifyIcon messages the program sends: NIM_ADD, NIM_MODIFY, NIM_DELETE, NIM_SETVERSION. */
  datatype NotifyMessage = Add | Modify | Delete | SetVersion

  /** One Shell_NotifyIcon call, with the record as it was when the call was made. */
  datatype NotifyCall = NotifyCall(message: NotifyMessage, data: NotifyIconData)

  /** The shell's notification area, observed through the calls made to it, oldest first. */
  class Shell {
    var log: seq<NotifyCall>

    constructor ()
      ensures log == []
    {
      log := [];
    }

    /** Shell_NotifyIcon(message, &data). */
    method NotifyIcon(message: NotifyMessage, data: NotifyIconData)
      modifies this
      ensures log == old(log) + [NotifyCall(message, data)]
    {
      log := log + [NotifyCall(message, data)];
    }
  }
}
