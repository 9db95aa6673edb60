# Leveled console logger (package `log`)

A Dafny model of the leveled console logger in `logger/log.go`. The package
keeps two process-wide switches, `Verbose` and `NonColor`, and an output
writer. `Print(level, format, args...)` drops DEBUG and INFO messages unless
`Verbose` is set. Otherwise it picks a line template by level and colour mode,
formats one line `prefix timestamp [LABEL] message\n` onto the output, and
exits the process when the level is FATAL. Five wrappers (`Debug`, `Warn`,
`Info`, `Error`, `Fatal`) call `Print` with their level.

Files:

- `fmt.dfy`, module `Fmt`: the part of Go's `fmt` the line templates use.
  A template's `%s` verbs are replaced, left to right, by string arguments.
  A verb with no argument left becomes `%!s(MISSING)`, as in Go. The module
  proves that formatting distributes over concatenation of templates.
- `log.dfy`, module `Log`: the level constants and the label table
  `LEVEL_FLAGS`. `LogFormat` holds the six literal templates, written as in
  the source with ESC spelled `\U{1B}`. `RenderLine` states the shape of a
  written line. `TemplateRendersLine` proves that formatting a level's
  template, as `Print` does, gives exactly that line. Further lemmas describe
  the line. Class `Logger` holds the package state. Its `Print` method
  formats the template as the source does, and five wrappers call it.

The timestamp (`time.Now().Format(TIME_FORMAT)`) and the interpolated message
(`fmt.Sprintf(format, args...)`) are opaque string parameters. The prefix is
`"[" + sourceFile + "]"`, fixed when the logger is created. Output is the
sequence of lines written so far. `os.Exit(1)` sets the `exited` flag.

## Model

| member | source | states |
|---|---|---|
| `Fmt.VerbFree` | logger/log.go:72-73 | Template text without '%' has no verbs and is copied unchanged into the output |
| `Fmt.VerbsAppend` | logger/log.go:72-73 | The verbs of two concatenated templates are the verbs of each, added up |
| `Fmt.SprintfAppend` | logger/log.go:72-73 | Formatting the concatenation of two templates gives the concatenation of the two formatted pieces, when the first piece has one argument per verb |
| `Fmt.AppendLiteral` | logger/log.go:72-73 | Literal text at the end of a template appears unchanged at the end of the output |
| `Fmt.AppendVerb` | logger/log.go:72-73 | A `%s` at the end of a template puts the next argument at the end of the output |
| `Log.Label` | logger/log.go:20 | Every entry of the label table is exactly 5 characters and holds no ESC, newline or '%' |
| `Log.LabelsDistinct` | logger/log.go:20 | The five levels have five different labels |
| `Log.ColorsDistinct` | logger/log.go:57-69 | The five label colours differ from each other, and none of them is the timestamp's cyan 36 |
| `Log.PlainTemplate` | logger/log.go:56 | The plain template is the common layout with no decorations |
| `Log.ColorTemplate` | logger/log.go:57-69 | With colour on, each level's template is the layout with the timestamp in `ESC[36m … ESC[0m` and the label in `ESC[<level colour>m … ESC[0m` |
| `Log.DebugTemplate` | logger/log.go:59-60 | The DEBUG template colours the label with 34 (blue) |
| `Log.InfoTemplate` | logger/log.go:61-62 | The INFO template colours the label with 32 (green) |
| `Log.WarnTemplate` | logger/log.go:63-64 | The WARNING template colours the label with 33 (yellow) |
| `Log.ErrorTemplate` | logger/log.go:65-66 | The ERROR template colours the label with 31 (red) |
| `Log.FatalTemplate` | logger/log.go:67-68 | The FATAL template colours the label with 35 (magenta) |
| `Log.RenderHead` | logger/log.go:56-73 | The head of every template has two `%s` verbs, filled by prefix and timestamp |
| `Log.RenderTail` | logger/log.go:56-73 | The tail of every template has two `%s` verbs, filled by label and message |
| `Log.RenderLayout` | logger/log.go:56-73 | A layout formats with prefix, timestamp, label and message in its four slots, in that order |
| `Log.RenderPlain` | logger/log.go:56 | The plain template formats to `prefix + " " + timestamp + " [" + label + "] " + message + "\n"` |
| `Log.RenderColor` | logger/log.go:57-73 | A level's coloured template formats to the plain shape with the timestamp and the label wrapped in their escape sequences |
| `Log.TemplateRendersLine` | logger/log.go:55-73 | What `Print` formats is `RenderLine`. With `NonColor` set that is the plain shape. Otherwise it is the coloured shape: cyan timestamp, and the label in its level's colour |
| `Log.SingleTrailingNewline` | logger/log.go:56-73 | Every line ends in a newline, and it is the line's only newline when prefix, timestamp and message hold none |
| `Log.PlainLineHasNoEscape` | logger/log.go:56 | A plain line holds no ESC (0x1B) when its inputs hold none |
| `Log.PlainFields` | logger/log.go:56 | A plain line starts with the prefix, then has the timestamp, then `"[" + label + "]"`, then the message before the final newline, each at a stated position |
| `Log.ColorFields` | logger/log.go:57-73 | A coloured line starts with the prefix, then has `ESC[36m` + timestamp + `ESC[0m`, then `"[" + ESC[<colour>m + label + ESC[0m + "]"`, then the message, each at a stated position |
| `Log.RenderLineInjective` | logger/log.go:56-73 | With prefix, timestamp and colour mode fixed, two equal lines come from the same level and the same message |
| `Log.Logger.constructor` | logger/log.go:16-27 | The initial state is quiet, with colour off exactly on Windows, nothing written and no exit; the prefix is `"[" + source file + "]"` |
| `Log.Logger.Print` | logger/log.go:49-78 | When quiet, a DEBUG or INFO call leaves the output unchanged. Any call that passes the filter appends exactly one `RenderLine` line, built with the logger's fixed prefix. Exactly a FATAL call sets `exited`; the method sets it after appending the line |
| `Log.Logger.Debug` | logger/log.go:80-82 | `Print` at DEBUG: appends one DEBUG line when verbose and nothing otherwise; never exits |
| `Log.Logger.Warn` | logger/log.go:84-86 | `Print` at WARNING: always appends one WARNING line; never exits |
| `Log.Logger.Info` | logger/log.go:88-90 | `Print` at INFO: appends one INFO line when verbose and nothing otherwise; never exits |
| `Log.Logger.Error` | logger/log.go:92-94 | `Print` at ERROR: always appends one ERROR line; never exits |
| `Log.Logger.Fatal` | logger/log.go:96-98 | `Print` at FATAL: always appends one FATAL line, then exits |

## Left out

- Clock: `time.Now()` and the layout `TIME_FORMAT` (logger/log.go:13, 72) are clock I/O and library formatting. The timestamp is an opaque string parameter of `Print`.
- Message interpolation: `fmt.Sprintf(format, args...)` (logger/log.go:73) is Go's variadic formatter. The formatted message is an opaque string parameter.
- `Fmt.Sprintf` models only the `%s` verb with string arguments. Those are the only verbs the line templates contain, and `RenderHead` and `RenderTail` prove it for every template. Go's report of surplus arguments (`%!(EXTRA …)`) and its other verbs are not modelled.
- Source path: `runtime.Caller(0)` in `__FILE__` (logger/log.go:37-40) is runtime introspection. The logger's own source path is a constructor parameter. `__prefix__` (logger/log.go:42-47) is never called and is not modelled.
- Platform check: `runtime.GOOS == "windows"` in `init` (logger/log.go:23-27) is platform detection. It becomes the constructor parameter `isWindows`.
- Writer: the `io.Writer` behind `Output` and the error that `Fprintf` discards (logger/log.go:18, 72) are not modelled. Output is the sequence of lines written, and a write never fails. Swapping the writer is not modelled.
- Exit: `os.Exit(1)` (logger/log.go:76) becomes the `exited` flag. The exit status 1 is not recorded.
- Calls after exit: `Print` requires `!exited`, because no code runs after `os.Exit`.
- Out-of-range levels: a level outside 0..4 that passes the filter makes `LEVEL_FLAGS[level]` panic in Go (logger/log.go:73). `Print` requires that such a level never passes the filter. An out-of-range level that the filter drops, such as a negative level while quiet, is accepted and writes nothing, as in the source.
- Concurrency: unsynchronised concurrent use of `Output`, `Verbose` and `NonColor` is out of scope.
- Bytes: Go strings are byte sequences, while the model's strings are sequences of Unicode characters. Lengths and positions (`Label`'s five characters, the offsets in `PlainFields` and `ColorFields`) count characters, and a message holding bytes that are not valid UTF-8 cannot be represented. All constant text of the templates and labels is ASCII, so for it characters and bytes coincide.
