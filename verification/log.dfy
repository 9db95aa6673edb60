/**
 * The leveled console logger of package `log`: a level filter, a line
 * template chosen by level and colour mode, and a logger whose `Print`
 * appends at most one rendered line to its output and stops the process on
 * FATAL.
 */
module Log {
  import Fmt

  // Severity levels, in increasing order of urgency (Go `iota` constants).
  const DEBUG: int := 0
  const INFO: int := 1
  const WARNING: int := 2
  const ERROR: int := 3
  const FATAL: int := 4

  /** Display labels, indexed by level, padded to five characters. */
  const LEVEL_FLAGS: seq<string> := ["DEBUG", " INFO", " WARN", "ERROR", "FATAL"]

  /** The ANSI escape character (octal 033). */
  const ESC: char := '\U{1B}'

  // Colour parameters of the ANSI "select graphic rendition" sequences.
  const TIME_COLOR: string := "36"
  const RESET: string := "0"

  /** A level with a label: an index into LEVEL_FLAGS. */
  predicate IsLevel(level: int)
  {
    DEBUG <= level <= FATAL
  }

  /** The filter of Print: only WARNING and above pass unless verbose. */
  predicate Emits(verbose: bool, level: int)
  {
    verbose || level >= WARNING
  }

  /** LEVEL_FLAGS[level]. */
  function Label(level: int): (flag: string)
    requires IsLevel(level)
    ensures |flag| == 5
    ensures ESC !in flag && '\n' !in flag && '%' !in flag
  {
    LEVEL_FLAGS[level]
  }

  /** Colour parameter of each level's label: blue, green, yellow, red, magenta. */
  function LevelColor(level: int): (code: string)
    requires IsLevel(level)
  {
    if level == DEBUG then "34"
    else if level == INFO then "32"
    else if level == WARNING then "33"
    else if level == ERROR then "31"
    else "35"
  }

  /** The escape sequence `ESC [ code m`. */
  function Sgr(code: string): (sequence: string)
  {
    [ESC, '['] + code + "m"
  }

  /**
   * The template Print hands to `Fprintf`: plain unless colour is on, and
   * one literal coloured template per level. A level outside 0..4 keeps the
   * plain template, since the source's `switch` has no default case.
   */
  function LogFormat(level: int, nonColor: bool): (template: string)
  {
    var plain := "%s %s [%s] %s\n";
    if nonColor then plain
    else if level == DEBUG then "%s \U{1B}[36m%s\U{1B}[0m [\U{1B}[34m%s\U{1B}[0m] %s\n"
    else if level == INFO then "%s \U{1B}[36m%s\U{1B}[0m [\U{1B}[32m%s\U{1B}[0m] %s\n"
    else if level == WARNING then "%s \U{1B}[36m%s\U{1B}[0m [\U{1B}[33m%s\U{1B}[0m] %s\n"
    else if level == ERROR then "%s \U{1B}[36m%s\U{1B}[0m [\U{1B}[31m%s\U{1B}[0m] %s\n"
    else if level == FATAL then "%s \U{1B}[36m%s\U{1B}[0m [\U{1B}[35m%s\U{1B}[0m] %s\n"
    else plain
  }

  /**
   * The common layout of every template: prefix, timestamp, bracketed label
   * and message, with the timestamp and the label each between an opening
   * and a closing decoration.
   */
  function Layout(timeOpen: string, timeClose: string, labelOpen: string, labelClose: string): (template: string)
  {
    LayoutHead(timeOpen, timeClose) + LayoutTail(labelOpen, labelClose)
  }

  /** The layout up to the opening bracket of the label. */
  function LayoutHead(timeOpen: string, timeClose: string): (head: string)
  {
    "%s" + " " + timeOpen + "%s" + timeClose + " ["
  }

  /** The layout from the label on. */
  function LayoutTail(labelOpen: string, labelClose: string): (tail: string)
  {
    labelOpen + "%s" + labelClose + "] " + "%s" + "\n"
  }

  /** The plain template is the layout with no decorations. */
  lemma PlainTemplate(level: int)
    ensures LogFormat(level, true) == Layout("", "", "", "")
  {
  }

  /** Each coloured template is the layout with cyan time and the level's label colour. */
  lemma ColorTemplate(level: int)
    requires IsLevel(level)
    ensures LogFormat(level, false) == Layout(Sgr(TIME_COLOR), Sgr(RESET), Sgr(LevelColor(level)), Sgr(RESET))
  {
    if level == DEBUG {
      DebugTemplate();
    } else if level == INFO {
      InfoTemplate();
    } else if level == WARNING {
      WarnTemplate();
    } else if level == ERROR {
      ErrorTemplate();
    } else {
      FatalTemplate();
    }
  }

  /** The literal DEBUG template: label in blue. */
  lemma DebugTemplate()
    ensures LogFormat(DEBUG, false) == Layout(Sgr(TIME_COLOR), Sgr(RESET), Sgr("34"), Sgr(RESET))
  {
  }

  /** The literal INFO template: label in green. */
  lemma InfoTemplate()
    ensures LogFormat(INFO, false) == Layout(Sgr(TIME_COLOR), Sgr(RESET), Sgr("32"), Sgr(RESET))
  {
  }

  /** The literal WARNING template: label in yellow. */
  lemma WarnTemplate()
    ensures LogFormat(WARNING, false) == Layout(Sgr(TIME_COLOR), Sgr(RESET), Sgr("33"), Sgr(RESET))
  {
  }

  /** The literal ERROR template: label in red. */
  lemma ErrorTemplate()
    ensures LogFormat(ERROR, false) == Layout(Sgr(TIME_COLOR), Sgr(RESET), Sgr("31"), Sgr(RESET))
  {
  }

  /** The literal FATAL template: label in magenta. */
  lemma FatalTemplate()
    ensures LogFormat(FATAL, false) == Layout(Sgr(TIME_COLOR), Sgr(RESET), Sgr("35"), Sgr(RESET))
  {
  }

  /** Formatting the head of the layout fills in prefix and timestamp. */
  lemma RenderHead(timeOpen: string, timeClose: string, prefix: string, timestamp: string)
    requires '%' !in timeOpen && '%' !in timeClose
    ensures var f := LayoutHead(timeOpen, timeClose);
      Fmt.StringVerbsOnly(f) && Fmt.VerbCount(f) == 2 &&
      Fmt.Sprintf(f, [prefix, timestamp]) == prefix + " " + timeOpen + timestamp + timeClose + " ["
  {
    Fmt.AppendVerb([], [], prefix);
    assert [] + "%s" == "%s" && [] + [prefix] == [prefix];
    var f, args := "%s", [prefix];
    Fmt.AppendLiteral(f, args, " ");
    f := f + " ";
    Fmt.AppendLiteral(f, args, timeOpen);
    f := f + timeOpen;
    Fmt.AppendVerb(f, args, timestamp);
    f, args := f + "%s", args + [timestamp];
    Fmt.AppendLiteral(f, args, timeClose);
    f := f + timeClose;
    Fmt.AppendLiteral(f, args, " [");
    assert args == [prefix, timestamp];
  }

  /** Formatting the tail of the layout fills in label and message. */
  lemma RenderTail(labelOpen: string, labelClose: string, flag: string, message: string)
    requires '%' !in labelOpen && '%' !in labelClose
    ensures var f := LayoutTail(labelOpen, labelClose);
      Fmt.StringVerbsOnly(f) && Fmt.VerbCount(f) == 2 &&
      Fmt.Sprintf(f, [flag, message]) == labelOpen + flag + labelClose + "] " + message + "\n"
  {
    Fmt.VerbFree(labelOpen, []);
    var f, args := labelOpen, [];
    Fmt.AppendVerb(f, args, flag);
    f, args := f + "%s", args + [flag];
    Fmt.AppendLiteral(f, args, labelClose);
    f := f + labelClose;
    Fmt.AppendLiteral(f, args, "] ");
    f := f + "] ";
    Fmt.AppendVerb(f, args, message);
    f, args := f + "%s", args + [message];
    Fmt.AppendLiteral(f, args, "\n");
    assert args == [flag, message];
  }

  /** Formatting the layout puts the four arguments in its four slots. */
  lemma RenderLayout(timeOpen: string, timeClose: string, labelOpen: string, labelClose: string,
                     prefix: string, timestamp: string, flag: string, message: string)
    requires '%' !in timeOpen && '%' !in timeClose && '%' !in labelOpen && '%' !in labelClose
    ensures Fmt.Sprintf(Layout(timeOpen, timeClose, labelOpen, labelClose), [prefix, timestamp, flag, message])
         == (prefix + " " + timeOpen + timestamp + timeClose + " [") + (labelOpen + flag + labelClose + "] " + message + "\n")
  {
    RenderHead(timeOpen, timeClose, prefix, timestamp);
    RenderTail(labelOpen, labelClose, flag, message);
    Fmt.SprintfAppend(LayoutHead(timeOpen, timeClose), LayoutTail(labelOpen, labelClose),
                      [prefix, timestamp], [flag, message]);
    assert [prefix, timestamp] + [flag, message] == [prefix, timestamp, flag, message];
  }

  /** Formatting the plain template of a level gives its plain line. */
  lemma RenderPlain(level: int, prefix: string, timestamp: string, message: string)
    requires IsLevel(level)
    ensures Fmt.Sprintf(LogFormat(level, true), [prefix, timestamp, Label(level), message])
         == RenderLine(level, true, prefix, timestamp, message)
  {
    PlainTemplate(level);
    RenderLayout("", "", "", "", prefix, timestamp, Label(level), message);
    Regroup(prefix, "", timestamp, "", "", Label(level), "", message);
    NoDecorations(prefix, timestamp, Label(level), message);
  }

  /** Formatting the coloured template of a level gives its coloured line. */
  lemma RenderColor(level: int, prefix: string, timestamp: string, message: string)
    requires IsLevel(level)
    ensures Fmt.Sprintf(LogFormat(level, false), [prefix, timestamp, Label(level), message])
         == RenderLine(level, false, prefix, timestamp, message)
  {
    ColorTemplate(level);
    RenderLayout(Sgr(TIME_COLOR), Sgr(RESET), Sgr(LevelColor(level)), Sgr(RESET),
                 prefix, timestamp, Label(level), message);
    Regroup(prefix, Sgr(TIME_COLOR), timestamp, Sgr(RESET), Sgr(LevelColor(level)), Label(level), Sgr(RESET), message);
  }

  /**
   * The line Print writes for a level that passes the filter: prefix,
   * timestamp, bracketed label and message, separated by single spaces and
   * ended by a newline; with colour on, the timestamp is cyan and the label
   * has its level's colour.
   */
  function RenderLine(level: int, nonColor: bool, prefix: string, timestamp: string, message: string): (line: string)
    requires IsLevel(level)
  {
    if nonColor then
      prefix + " " + timestamp + " [" + Label(level) + "] " + message + "\n"
    else
      prefix + " " + Sgr(TIME_COLOR) + timestamp + Sgr(RESET)
      + " [" + Sgr(LevelColor(level)) + Label(level) + Sgr(RESET) + "] " + message + "\n"
  }

  /**
   * Formatting the level's template, as Print does, yields RenderLine: the
   * templates have four `%s` verbs, filled by prefix, timestamp, label and
   * message in that order.
   */
  lemma TemplateRendersLine(level: int, nonColor: bool, prefix: string, timestamp: string, message: string)
    requires IsLevel(level)
    ensures Fmt.Sprintf(LogFormat(level, nonColor), [prefix, timestamp, LEVEL_FLAGS[level], message])
         == RenderLine(level, nonColor, prefix, timestamp, message)
  {
    if nonColor {
      RenderPlain(level, prefix, timestamp, message);
    } else {
      RenderColor(level, prefix, timestamp, message);
    }
  }

  /** Distinct levels have distinct labels. */
  lemma LabelsDistinct(l1: int, l2: int)
    requires IsLevel(l1) && IsLevel(l2) && Label(l1) == Label(l2)
    ensures l1 == l2
  {
  }

  /** Distinct levels have distinct label colours, none of them the timestamp's cyan. */
  lemma ColorsDistinct(l1: int, l2: int)
    requires IsLevel(l1) && IsLevel(l2)
    ensures LevelColor(l1) == LevelColor(l2) ==> l1 == l2
    ensures LevelColor(l1) != TIME_COLOR
  {
  }

  /** An escape sequence contains no newline, no '%' and exactly one ESC, at its start. */
  lemma SgrChars(code: string)
    requires '\n' !in code && ESC !in code && '%' !in code
    ensures var e := Sgr(code); '\n' !in e && '%' !in e && e[0] == ESC && ESC !in e[1..]
  {
    assert Sgr(code)[1..] == ['['] + code + "m";
  }

  /**
   * A rendered line is one line: it ends in a newline and, when the prefix,
   * timestamp and message hold no newline, has no other.
   */
  lemma SingleTrailingNewline(level: int, nonColor: bool, prefix: string, timestamp: string, message: string)
    requires IsLevel(level)
    ensures var line := RenderLine(level, nonColor, prefix, timestamp, message);
      |line| > 0 && line[|line| - 1] == '\n'
    ensures var line := RenderLine(level, nonColor, prefix, timestamp, message);
      '\n' !in prefix && '\n' !in timestamp && '\n' !in message ==>
        forall i | 0 <= i < |line| - 1 :: line[i] != '\n'
  {
    var line := RenderLine(level, nonColor, prefix, timestamp, message);
    var body := line[..|line| - 1];
    if nonColor {
      assert line == (prefix + " " + timestamp + " [" + Label(level) + "] " + message) + "\n";
    } else {
      SgrChars(TIME_COLOR);
      SgrChars(RESET);
      SgrChars(LevelColor(level));
      assert line == (prefix + " " + Sgr(TIME_COLOR) + timestamp + Sgr(RESET)
        + " [" + Sgr(LevelColor(level)) + Label(level) + Sgr(RESET) + "] " + message) + "\n";
    }
    if '\n' !in prefix && '\n' !in timestamp && '\n' !in message {
      assert '\n' !in body;
      forall i | 0 <= i < |line| - 1 ensures line[i] != '\n' {
        assert line[i] == body[i];
      }
    }
  }

  /** Without colour, a line holds no ESC character unless its inputs do. */
  lemma PlainLineHasNoEscape(level: int, prefix: string, timestamp: string, message: string)
    requires IsLevel(level)
    requires ESC !in prefix && ESC !in timestamp && ESC !in message
    ensures ESC !in RenderLine(level, true, prefix, timestamp, message)
  {
  }

  /** Helper: the two halves of a formatted layout re-associated into one line. */
  lemma Regroup(prefix: string, timeOpen: string, timestamp: string, timeClose: string,
                labelOpen: string, flag: string, labelClose: string, message: string)
    ensures (prefix + " " + timeOpen + timestamp + timeClose + " [") + (labelOpen + flag + labelClose + "] " + message + "\n")
         == prefix + " " + timeOpen + timestamp + timeClose + " [" + labelOpen + flag + labelClose + "] " + message + "\n"
  {
  }

  /** Helper: empty decorations drop out of the plain shape. */
  lemma NoDecorations(prefix: string, timestamp: string, flag: string, message: string)
    ensures prefix + " " + "" + timestamp + "" + " [" + "" + flag + "" + "] " + message + "\n"
         == prefix + " " + timestamp + " [" + flag + "] " + message + "\n"
  {
  }

  /** Helper: `x` sits at `from` in `s` when it matches there character by character. */
  lemma SliceIs(s: string, from: nat, x: string)
    requires from + |x| <= |s|
    requires forall i | 0 <= i < |x| :: s[from + i] == x[i]
    ensures s[from..from + |x|] == x
  {
    forall i | 0 <= i < |x| ensures s[from..from + |x|][i] == x[i] {
      assert s[from + i] == x[i];
    }
  }

  /** Field positions in a line of the plain shape. */
  lemma PlainShape(prefix: string, timestamp: string, flag: string, message: string)
    ensures var line := prefix + " " + timestamp + " [" + flag + "] " + message + "\n";
      var p, t, f := |prefix|, |timestamp|, |flag|;
      |line| == p + t + f + |message| + 6 &&
      line[..p] == prefix &&
      line[p + 1..p + 1 + t] == timestamp &&
      line[p + t + 2..p + t + f + 4] == "[" + flag + "]" &&
      line[p + t + f + 5..|line| - 1] == message
  {
    var line := prefix + " " + timestamp + " [" + flag + "] " + message + "\n";
    var p, t := |prefix|, |timestamp|;
    SliceIs(line, p + 1, timestamp);
    SliceIs(line, p + t + 2, "[" + flag + "]");
    SliceIs(line, p + t + |flag| + 5, message);
  }

  /** Field positions in a line of the coloured shape. */
  lemma ColorShape(prefix: string, timeOpen: string, timestamp: string, timeClose: string,
                   labelOpen: string, flag: string, labelClose: string, message: string)
    ensures var line := prefix + " " + timeOpen + timestamp + timeClose
                        + " [" + labelOpen + flag + labelClose + "] " + message + "\n";
      var p, s, b := |prefix|, |timeOpen + timestamp + timeClose|, |labelOpen + flag + labelClose|;
      |line| == p + s + b + |message| + 6 &&
      line[..p] == prefix &&
      line[p + 1..p + 1 + s] == timeOpen + timestamp + timeClose &&
      line[p + s + 2..p + s + b + 4] == "[" + labelOpen + flag + labelClose + "]" &&
      line[p + s + b + 5..|line| - 1] == message
  {
    var line := prefix + " " + timeOpen + timestamp + timeClose
                + " [" + labelOpen + flag + labelClose + "] " + message + "\n";
    var p, s, b := |prefix|, |timeOpen + timestamp + timeClose|, |labelOpen + flag + labelClose|;
    SliceIs(line, p + 1, timeOpen + timestamp + timeClose);
    SliceIs(line, p + s + 2, "[" + labelOpen + flag + labelClose + "]");
    SliceIs(line, p + s + b + 5, message);
  }

  /**
   * Where the fields sit in a plain line: the prefix first, then the
   * timestamp, the bracketed label and the message before the final newline.
   */
  lemma PlainFields(level: int, prefix: string, timestamp: string, message: string)
    requires IsLevel(level)
    ensures var line := RenderLine(level, true, prefix, timestamp, message);
      var p, t := |prefix|, |timestamp|;
      |line| == p + t + |message| + 11 &&
      line[..p] == prefix &&
      line[p + 1..p + 1 + t] == timestamp &&
      line[p + t + 2..p + t + 9] == "[" + Label(level) + "]" &&
      line[p + t + 10..|line| - 1] == message
  {
    PlainShape(prefix, timestamp, Label(level), message);
  }

  /**
   * Where the fields sit in a coloured line: the prefix first, then the
   * timestamp between cyan and reset, the bracketed label in its level's
   * colour, and the message before the final newline.
   */
  lemma ColorFields(level: int, prefix: string, timestamp: string, message: string)
    requires IsLevel(level)
    ensures var line := RenderLine(level, false, prefix, timestamp, message);
      var p, t := |prefix|, |timestamp|;
      |line| == p + t + |message| + 29 &&
      line[..p] == prefix &&
      line[p + 1..p + t + 10] == Sgr(TIME_COLOR) + timestamp + Sgr(RESET) &&
      line[p + t + 11..p + t + 27] == "[" + Sgr(LevelColor(level)) + Label(level) + Sgr(RESET) + "]" &&
      line[p + t + 28..|line| - 1] == message
  {
    ColorShape(prefix, Sgr(TIME_COLOR), timestamp, Sgr(RESET),
               Sgr(LevelColor(level)), Label(level), Sgr(RESET), message);
  }

  /**
   * For a fixed prefix, timestamp and colour mode, the line determines the
   * level and the message: distinct calls that both write leave distinct lines.
   */
  lemma RenderLineInjective(l1: int, l2: int, nonColor: bool, prefix: string, timestamp: string, m1: string, m2: string)
    requires IsLevel(l1) && IsLevel(l2)
    requires RenderLine(l1, nonColor, prefix, timestamp, m1) == RenderLine(l2, nonColor, prefix, timestamp, m2)
    ensures l1 == l2 && m1 == m2
  {
    var p, t := |prefix|, |timestamp|;
    if nonColor {
      PlainFields(l1, prefix, timestamp, m1);
      PlainFields(l2, prefix, timestamp, m2);
      assert ("[" + Label(l1) + "]")[1..6] == Label(l1);
      assert ("[" + Label(l2) + "]")[1..6] == Label(l2);
    } else {
      ColorFields(l1, prefix, timestamp, m1);
      ColorFields(l2, prefix, timestamp, m2);
      var b1 := "[" + Sgr(LevelColor(l1)) + Label(l1) + Sgr(RESET) + "]";
      var b2 := "[" + Sgr(LevelColor(l2)) + Label(l2) + Sgr(RESET) + "]";
      assert b1 == b2;
      assert b1[6..11] == Label(l1) by { SliceIs(b1, 6, Label(l1)); }
      assert b2[6..11] == Label(l2) by { SliceIs(b2, 6, Label(l2)); }
    }
    LabelsDistinct(l1, l2);
  }

  /**
   * The package-wide state: the Verbose and NonColor switches, the lines
   * written to Output so far, and whether the process has exited. The
   * switches are public and may be reassigned at any time, as in the package.
   */
  class Logger {
    var verbose: bool
    var nonColor: bool
    var output: seq<string>
    var exited: bool
    /** "[" + the logger's own source file + "]": the same for every call and every caller. */
    const prefix: string

    /** Package initialisation: quiet, and colour off only on Windows. */
    constructor (sourceFile: string, isWindows: bool)
      ensures prefix == "[" + sourceFile + "]"
      ensures !verbose && nonColor == isWindows
      ensures output == [] && !exited
    {
      prefix := "[" + sourceFile + "]";
      verbose := false;
      nonColor := isWindows;
      output := [];
      exited := false;
    }

    /**
     * Writes one line for `level` unless the filter drops it, then exits on
     * FATAL. A level that passes the filter must index the label table.
     */
    method Print(level: int, timestamp: string, message: string)
      requires !exited
      requires Emits(verbose, level) ==> IsLevel(level)
      modifies this`output, this`exited
      ensures !Emits(verbose, level) ==> output == old(output)
      ensures Emits(verbose, level) ==>
        output == old(output) + [RenderLine(level, nonColor, prefix, timestamp, message)]
      ensures exited <==> level == FATAL
    {
      if !verbose && level < WARNING {
        return;
      }
      var line := Fmt.Sprintf(LogFormat(level, nonColor), [prefix, timestamp, LEVEL_FLAGS[level], message]);
      TemplateRendersLine(level, nonColor, prefix, timestamp, message);
      output := output + [line];
      if level == FATAL {
        exited := true;
      }
    }

    /** Print at DEBUG: written only when verbose. */
    method Debug(timestamp: string, message: string)
      requires !exited
      modifies this`output, this`exited
      ensures output == old(output) + (if verbose then [RenderLine(DEBUG, nonColor, prefix, timestamp, message)] else [])
      ensures !exited
    {
      Print(DEBUG, timestamp, message);
    }

    /** Print at WARNING: always written. */
    method Warn(timestamp: string, message: string)
      requires !exited
      modifies this`output, this`exited
      ensures output == old(output) + [RenderLine(WARNING, nonColor, prefix, timestamp, message)]
      ensures !exited
    {
      Print(WARNING, timestamp, message);
    }

    /** Print at INFO: written only when verbose. */
    method Info(timestamp: string, message: string)
      requires !exited
      modifies this`output, this`exited
      ensures output == old(output) + (if verbose then [RenderLine(INFO, nonColor, prefix, timestamp, message)] else [])
      ensures !exited
    {
      Print(INFO, timestamp, message);
    }

    /** Print at ERROR: always written. */
    method Error(timestamp: string, message: string)
      requires !exited
      modifies this`output, this`exited
      ensures output == old(output) + [RenderLine(ERROR, nonColor, prefix, timestamp, message)]
      ensures !exited
    {
      Print(ERROR, timestamp, message);
    }

    /** Print at FATAL: always written, then the process exits. */
    method Fatal(timestamp: string, message: string)
      requires !exited
      modifies this`output, this`exited
      ensures output == old(output) + [RenderLine(FATAL, nonColor, prefix, timestamp, message)]
      ensures exited
    {
      Print(FATAL, timestamp, message);
    }
  }
}
