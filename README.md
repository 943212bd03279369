# A verified model of the node CLI console (`lib/cli.js`)

The console reads lines typed by an operator and writes to standard output.
Each line is trimmed and lower-cased, then searched for the keywords `man`,
`help`, `exit` and `stats`, in that order and as substrings. The first keyword
found runs its responder:

- `man` and `help` print the manual;
- `exit` prints a notice and ends the process;
- `stats` prints a page of host statistics.

A line that names no keyword gets one red error line. A blank line gets nothing.
Both pages are drawn by small layout helpers:

- a rule as wide as the terminal;
- the title centred in it;
- blank lines;
- padded `label / value` rows whose label carries colour escapes.

The model has six modules:

- `Text`: `trim`, `toLowerCase`, the substring test, repeated appending.
- `Layout`: `horizontalLine`, `centered`, `verticalSpace` and the row-padding loop.
- `Responders`: the manual, the statistics page, the exit notice.
- `Dispatcher`: `processInput` and its event table.
- `Session`: `init`'s line and close handlers.
- `Wrappers`: `Option`.

Standard output is modelled as the returned list of lines. Each element is one
`console.log` call. Every helper that loops in the source is a method with the
same loop, proved equal to a specification function. The properties of the
console are proved as lemmas about those functions.

The terminal width (`process.stdout.columns`) and the host's figures are
parameters. In a session they are given per typed line, because the source
reads them afresh each time a responder runs.

Three details of `lib/cli.js` shape the output:

- The manual lists three commands, `man`, `exit` and `stats`; `help` has no row of its own.
- The error line quotes the trimmed input, because `str` is reassigned to its trimmed form at lib/cli.js:133.
- A row's spaces are appended after the coloured label, and the value follows them.

## Model

| member | source | states |
|---|---|---|
| Text.Trim | lib/cli.js:133 | the trimmed line is empty exactly when the input is all ECMAScript whitespace; otherwise it starts and ends with a non-whitespace character; it is never longer than the input |
| Text.TrimDropsOnlySpace | lib/cli.js:133 | trimming removes a run of whitespace at each end and nothing else: the result sits in the input between two all-whitespace runs |
| Text.TrimUnchanged | lib/cli.js:80 | text that neither starts nor ends with whitespace, such as either page title, is left unchanged |
| Text.TrimToLower | lib/cli.js:141 | lower-casing and trimming commute, because lower-casing neither creates nor removes whitespace |
| Text.ToLower | lib/cli.js:141 | `toLowerCase` maps each character on its own and keeps the length; `TrimToLower` shows it commutes with trimming, and `DispatchIgnoresCase` that it does not change which responder a line selects |
| Text.Contains | lib/cli.js:141 | `indexOf(keyword) > -1`: the keyword occurs at some position of the line; `FirstMatch`, `CommandOpensManual` and `HelpExitOpensManual` are stated with it |
| Text.ToLowerIdempotent | lib/cli.js:141 | lower-casing a lower-cased line changes nothing |
| Text.Repeat | lib/cli.js:47-49 | `n` rounds of `line += c` give exactly `n` characters, each equal to `c`; it stands for all four append loops, at lines 47-49, 73-75, 86-88 and 118-120 |
| Layout.HorizontalLine | lib/cli.js:69-77 | writes exactly one line, the rule of `width` dashes; for width 0, which also stands for `undefined` columns, the line is empty |
| Layout.LeftPadding | lib/cli.js:83 | when the text fits, the left padding leaves as many free columns on the right as on the left, or one more; when it does not fit, the padding is zero |
| Layout.CenteredLayout | lib/cli.js:79-92 | the centred line is `LeftPadding` spaces followed by exactly the trimmed text; if the text fits, the right margin equals the left margin or exceeds it by one |
| Layout.Centered | lib/cli.js:79-92 | the loop with the possibly negative `leftPadding` writes exactly one line, the centred text |
| Layout.CenteredBlank | lib/cli.js:80 | whitespace-only or empty text is centred as the empty string: the line is `width / 2` spaces |
| Layout.VerticalSpace | lib/cli.js:61-67 | writes exactly `lines` empty lines when `lines` is positive and exactly one otherwise, including 0 and negative values |
| Layout.Label | lib/cli.js:44 | the coloured label is the yellow escape, then the key, then the reset escape: nine escape characters around the key |
| Layout.RowLayout | lib/cli.js:115-122 | a padded row is the label, then only spaces, then the value, which starts at the wider of the column and the label; the row is that width plus the value |
| Layout.PadRow | lib/cli.js:44-51 | the padding loop, which may be given a negative count, builds exactly the specified row |
| Responders.StatsEntries | lib/cli.js:100-105 | the statistics page has four entries, and the uptime value ends in ` seconds` |
| Responders.RowsAt | lib/cli.js:41-56 | entry `i` of a page body is written as its padded row, followed by one blank line |
| Responders.Page | lib/cli.js:36-58 | a page has `2 * entries + 7` lines |
| Responders.PageFrame | lib/cli.js:107-129 | a page opens with a rule, the centred title, a rule and two blank lines, and closes with a blank line and a rule |
| Responders.PageRowAt | lib/cli.js:112-127 | entry `i` of a page is on line `5 + 2i`, followed by a blank line |
| Responders.WriteRows | lib/cli.js:41-56 | the `for ... in` loop writes each entry's padded row and one blank line, in declaration order |
| Responders.Report | lib/cli.js:36-58 | the shared body of both responders writes exactly the specified page |
| Responders.ShowHelp | lib/cli.js:30-59 | `responders.help` writes the manual page |
| Responders.ShowStats | lib/cli.js:99-130 | `responders.stats` writes the statistics page for the given host figures |
| Responders.Respond | lib/cli.js:12-26 | each listener runs its responder: the manual, the exit notice, or the statistics page |
| Responders.PageAligned | lib/cli.js:44-51 | when no label is wider than the column, each row starts with its label and its value starts exactly at the column |
| Responders.HelpCommands | lib/cli.js:31-35 | the manual lists `man`, `exit` and `stats`, in that order; `help` is not listed |
| Responders.HelpRowsAligned | lib/cli.js:41-56 | every description in the manual starts at column 20 |
| Responders.StatsRows | lib/cli.js:100-105 | the statistics rows are Load Average, CPU Count, Free Memory and Uptime, in that order |
| Responders.StatsRowsAligned | lib/cli.js:112-127 | every statistics value starts at column 40 |
| Dispatcher.ErrorLine | lib/cli.js:149-152 | the error line is the red escape, the fixed message, the trimmed input and the reset escape, in that order |
| Dispatcher.FirstMatch | lib/cli.js:140-146 | a keyword found occurs in the line; nothing is found exactly when no keyword occurs |
| Dispatcher.FirstMatchIsFirst | lib/cli.js:140-146 | an occurring keyword with no earlier keyword occurring is the one chosen |
| Dispatcher.FirstMatchIgnoresLater | lib/cli.js:140-146 | once a keyword matches, `some` looks at no later keyword |
| Dispatcher.Dispatch | lib/cli.js:132-146 | the responder a line selects, characterised by `DispatchCases`: nothing for a blank line, then `man` or `help`, `exit`, `stats`, else nothing |
| Dispatcher.ProcessOutput | lib/cli.js:132-155 | everything `processInput` writes, characterised by `BlankLineIgnored` (blank line: nothing), `UnknownCommandReported` (no keyword: one error line) and `ExitWritesNotice` (`exit`: the notice alone); otherwise the selected responder's page |
| Dispatcher.ProcessInput | lib/cli.js:132-155 | the loop with the `matchFound` flag selects the specified responder and writes exactly the specified output |
| Dispatcher.ExitWritesNotice | lib/cli.js:20-22 | a line that selects `exit` writes the exit notice and nothing else |
| Dispatcher.EventTableCoversKeywords | lib/cli.js:12-26 | there is a listener for each keyword, and every listener belongs to a keyword |
| Dispatcher.FirstKeyword | lib/cli.js:135-146 | the scan settles on `man`, else `help`, else `exit`, else `stats`, else nothing |
| Dispatcher.DispatchCases | lib/cli.js:132-146 | blank lines select nothing; otherwise `man` or `help` anywhere selects the manual, even when `exit` also occurs; failing those `exit`; then `stats`; otherwise nothing |
| Dispatcher.CommandOpensManual | lib/cli.js:141 | `command` opens the manual because it contains `man` |
| Dispatcher.HelpExitOpensManual | lib/cli.js:135-146 | `help exit` opens the manual, and `exit` is never reached |
| Dispatcher.BlankLineIgnored | lib/cli.js:133-134 | a blank or whitespace-only line selects nothing and writes nothing |
| Dispatcher.UnknownCommandReported | lib/cli.js:148-152 | a non-blank line with no keyword writes exactly one line, the error line for the trimmed input, and runs no responder |
| Dispatcher.DispatchIgnoresCase | lib/cli.js:141 | a line selects the same responder as its lower-cased form |
| Session.EffectsAt | lib/cli.js:168-171 | the effect of the line at a position is the output and exit decision of `processInput` for that line, with its own width and host figures |
| Session.EffectsConcat | lib/cli.js:168-171 | lines are handled one after another: the effects of two consecutive runs of lines are the two runs of effects, joined |
| Session.Run | lib/cli.js:168-175 | the line and close handlers: each line's output in order until a line exits, and the close handler's exit notice when the input ends first; characterised by `RunShape` and `RunStopsAtExit` |
| Session.Trace | lib/cli.js:157-176 | everything `cli.init` writes: the startup notice, then the run over the typed lines; characterised by `TraceShape` and `ExitLikeClose` |
| Session.ExitIndex | lib/cli.js:168-171 | the first line that ends the process: no earlier line ends it |
| Session.EffectsExitWithNotice | lib/cli.js:94-97 | in every session, each line that ends the process writes only the exit notice |
| Session.RunShape | lib/cli.js:168-175 | a run writes the outputs of the lines before the first exit, then exactly one exit notice |
| Session.FirstExitLine | lib/cli.js:168-171 | the first line whose effect ends the process is the first line that selects `exit`; no earlier line selects it |
| Session.TraceShape | lib/cli.js:157-176 | a session writes the startup notice, the output of every line before the first `exit`, then exactly one exit notice, whether or not `exit` is typed |
| Session.RunStopsAtExit | lib/cli.js:96 | after a line that exits, nothing more is read or written |
| Session.ExitLikeClose | lib/cli.js:173-175 | typing `exit` leaves the same trace as closing the input at that point, whatever width and figures the later lines would have seen |

## Left out

- The `readline` interface, the prompt and `process.stdin`: a session is the finite list of lines typed before the input closes. The prompt is written by readline, not by `console.log`, and is not part of the trace.
- `process.exit(0)` and the exit status: exiting is modelled as the end of the trace.
- Host figures (`os.loadavg`, `os.cpus`, `os.freemem`, `os.uptime`) are foreign calls returning floating-point and integer values. They are opaque, already-rendered strings in `HostStats`. Only the ` seconds` suffix on the uptime is modelled.
- The `events` emitter is collapsed into the keyword-to-responder table `EventTable`, because it adds no behaviour.
- `Text.ToLower` maps only the ASCII capitals, while JavaScript's `toLowerCase` maps all of Unicode. Only two non-ASCII characters lower-case to ASCII letters:
  - U+212A KELVIN SIGN becomes `k`, and no keyword contains `k`.
  - U+0130 becomes `i` followed by U+0307, and the U+0307 cannot be part of a keyword.

  So which responder runs is the same. The error line quotes the trimmed input, which is not lower-cased.
- Lengths count code points, not UTF-16 code units. They differ only for characters outside the Basic Multilingual Plane, and only in how far `centered` pads.
- JavaScript's dynamic type checks (`typeof str === 'string'`, `typeof lines === 'number'`) and non-integer `lines`. The input is always a string, and `lines` is an integer.
- An `undefined` terminal width is modelled as width 0. Both the rule loop and the padding loop then run zero times, as they do for `NaN` bounds.
- How ANSI colour escapes render. The escape characters are kept as characters, because they count toward the padding.
- Within one line's output the terminal width is taken as fixed. The source reads `process.stdout.columns` again in every `horizontalLine` and `centered` call (lib/cli.js:70, 82), so a resize while one page is being written is not modelled.
- `console.log`'s `%s` formatting: the formatted line is modelled directly.
- The undeclared global loop counter `i` and the unused `debug` logger. No loop in the source reads `i` after another loop has changed it.
