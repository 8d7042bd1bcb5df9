/**
 * The display modes of the three lock-key indicators and the
 * "poor man's" command-line parsing that selects them at startup.
 */
module KeyModes {

  /** When an indicator's tray icon is shown. */
  datatype KeyIconMode = Never | OnlyOn | OnlyOff | Always

  /** One mode per key, in command-line order: Caps Lock, Num Lock, Scroll Lock. */
  datatype Modes = Modes(caps: KeyIconMode, num: KeyIconMode, scroll: KeyIconMode)

  /** The modes used when the command line is not exactly three characters long. */
  const DefaultModes: Modes := Modes(OnlyOn, Never, OnlyOn)

  /** The mode selected by one command-line character. */
  function ModeOf(c: char): (m: KeyIconMode)
    ensures m == OnlyOff <==> c == '0'
    ensures m == OnlyOn <==> c == '1'
    ensures m == Never <==> c == 'n' || c == 'N'
    ensures m == Always <==> c != '0' && c != '1' && c != 'n' && c != 'N'
  {
    match c
    case '0' => OnlyOff
    case '1' => OnlyOn
    case 'n' => Never
    case 'N' => Never
    case _ => Always
  }

  /**
   * The modes chosen by the command line (the characters before its
   * terminating NUL): exactly three characters select one mode per key,
   * anything else keeps the defaults.
   */
  function ParseModes(cmdLine: string): (m: Modes)
    ensures |cmdLine| != 3 ==> m == DefaultModes
    ensures |cmdLine| == 3 ==> m.caps == ModeOf(cmdLine[0]) && m.num == ModeOf(cmdLine[1]) && m.scroll == ModeOf(cmdLine[2])
  {
    if |cmdLine| == 3 then
      Modes(ModeOf(cmdLine[0]), ModeOf(cmdLine[1]), ModeOf(cmdLine[2]))
    else
      DefaultModes
  }

  /** A command-line character that selects the given mode. */
  function CharOf(m: KeyIconMode): (c: char)
    ensures ModeOf(c) == m
  {
    match m
    case Never => 'N'
    case OnlyOn => '1'
    case OnlyOff => '0'
    case Always => '*'
  }

  /** A command line that selects the given modes. */
  function FormatModes(m: Modes): string {
    [CharOf(m.caps), CharOf(m.num), CharOf(m.scroll)]
  }

  /** A command line whose length is not three leaves every key at its default mode. */
  lemma ParseWrongLengthGivesDefaults(cmdLine: string)
    requires |cmdLine| != 3
    ensures ParseModes(cmdLine).caps == OnlyOn
    ensures ParseModes(cmdLine).num == Never
    ensures ParseModes(cmdLine).scroll == OnlyOn
  {
  }

  /**
   * A three-character command line decides each key's mode from its own
   * position alone: position 0 is Caps Lock, 1 is Num Lock, 2 is Scroll Lock.
   */
  lemma ParseIsPositional(cmdLine: string, other: string)
    requires |cmdLine| == 3 && |other| == 3
    ensures cmdLine[0] == other[0] ==> ParseModes(cmdLine).caps == ParseModes(other).caps
    ensures cmdLine[1] == other[1] ==> ParseModes(cmdLine).num == ParseModes(other).num
    ensures cmdLine[2] == other[2] ==> ParseModes(cmdLine).scroll == ParseModes(other).scroll
    ensures ParseModes(cmdLine).caps == Never <==> cmdLine[0] in {'n', 'N'}
    ensures ParseModes(cmdLine).num == Never <==> cmdLine[1] in {'n', 'N'}
    ensures ParseModes(cmdLine).scroll == Never <==> cmdLine[2] in {'n', 'N'}
  {
  }

  /** Every combination of modes can be selected: formatting then parsing gives the modes back. */
  lemma ParseFormatRoundTrip(m: Modes)
    ensures ParseModes(FormatModes(m)) == m
  {
  }

  /** "01N" shows Caps Lock only when off, Num Lock only when on, and never Scroll Lock; a two-character line keeps the defaults. */
  lemma ParseExamples()
    ensures ParseModes("01N") == Modes(OnlyOff, OnlyOn, Never)
    ensures ParseModes("01") == Modes(OnlyOn, Never, OnlyOn)
    ensures ParseModes("n1x") == Modes(Never, OnlyOn, Always)
  {
  }
}
