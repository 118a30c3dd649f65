# CommandTerminal builtin commands, modelled in Dafny

This project models the builtin command set of CommandTerminal, an in-game
command console: the handlers `noop`, `clear`, `ls`, `help`, `time`,
`print` and `trace`, the `JoinArguments` helper they share, and the
registration data (help text, argument-count bounds) that their
`RegisterCommand` attributes declare.

The handlers run against an explicit context, the class
`CommandTerminal.Terminal`, which holds:

- `logs`: the logger's ordered history. Each entry has a message, a kind
  (shell message or error) and stack-trace text.
- `commands`: the interpreter's command table. It is a sequence of
  (name, info) pairs in iteration order. Its type, `CommandTable`, requires
  every name to be upper-case (its own `ToUpper`) and no name to occur
  twice. Each info has optional help text and min/max argument counts.

Each handler is a method taking that context, and its postcondition states the
new history exactly. `JoinArguments` is the source's counted loop, proved
equal to the specification function `Text.Join`. Lemmas then state what
`Join` means: single-space separators, the length, the first and last
token at the ends, and a round trip with a whitespace tokenizer. Other
lemmas describe the lines `ls` writes and the registration table.

Files:

- `wrappers.dfy`: `Option`, used for help text that may be null.
- `text.dfy`: `Join`, `Tokens`, `PadRight`, ASCII `ToUpper` and their lemmas.
- `terminal.dfy`: log entries, command info, the command table, `Lookup`,
  and the `Terminal` context with `Log`, `IssueErrorMessage`, `Clear` and a
  stand-in for `RunCommand`.
- `builtin_commands.dfy`: the handlers (module `BuiltinCommands`) and the
  registration table (module `Registration`).

Three details of the source that the model keeps:

- The listing command is registered as `LS`.
- `help` tests whether the help text is null, not whether it is empty. An
  empty help text is logged verbatim as an empty message.
- `trace` reads entry `count - 2` of the history as it stands when the
  handler starts, and says "Nothing to trace." when there are fewer than two
  entries.

## Model

| member | source | states |
|---|---|---|
| `BuiltinCommands.JoinArguments` | CommandTerminal/BuiltinCommands.cs:92-105 | the loop's result is `Join(args)`: the tokens in order, separated by single spaces; empty for no arguments |
| `Text.JoinCons` | CommandTerminal/BuiltinCommands.cs:96-102 | joining a first token with at least one more is that token, one space, then the rest joined |
| `Text.JoinLength` | CommandTerminal/BuiltinCommands.cs:96-102 | for n ≥ 1 tokens the joined length is the sum of the token lengths plus n − 1 |
| `Text.JoinEnds` | CommandTerminal/BuiltinCommands.cs:96-102 | the joined line starts with the first token and ends with the last one, so there is no separator before the first or after the last |
| `Text.TokensOfJoin` | CommandTerminal/BuiltinCommands.cs:92-105 | for non-empty tokens without whitespace, splitting the joined line on whitespace gives back exactly the tokens |
| `Text.PadRight` | CommandTerminal/BuiltinCommands.cs:20 | the padded name has length max(\|name\|, width), has the name as its prefix, and only spaces after it |
| `Text.ToUpper` | CommandTerminal/BuiltinCommands.cs:31 | same length as the input, each character upper-cased (ASCII letters only) |
| `CommandTerminal.Lookup` | CommandTerminal/BuiltinCommands.cs:33-38 | the name is absent exactly when no table entry has it; when present, the info returned is registered under that name |
| `CommandTerminal.LookupRegistered` | CommandTerminal/BuiltinCommands.cs:38 | in a table with unique names, looking up a registered name yields that entry's own info |
| `BuiltinCommands.CommandNoop` | CommandTerminal/BuiltinCommands.cs:9-10 | the history is unchanged |
| `BuiltinCommands.CommandClear` | CommandTerminal/BuiltinCommands.cs:12-15 | the history is empty afterwards; the command table is untouched |
| `BuiltinCommands.CommandLs` | CommandTerminal/BuiltinCommands.cs:17-22 | the old history is kept and `LsEntries(commands)` is appended after it: one line per command, in table order |
| `BuiltinCommands.LsEntriesAt` | CommandTerminal/BuiltinCommands.cs:19-21 | `ls` appends exactly one shell message per command; the k-th is the k-th name padded with spaces to max(\|name\|, 16), then ": ", then its help (empty when null) |
| `BuiltinCommands.CommandHelp` | CommandTerminal/BuiltinCommands.cs:24-45 | with no arguments the history changes exactly as with `ls`. Otherwise the upper-cased first argument is looked up, and exactly one entry is appended: the error "Command NAME could not be found." when the name is absent, "NAME does not provide any help documentation." when the help is null, or the help text verbatim |
| `BuiltinCommands.CommandTime` | CommandTerminal/BuiltinCommands.cs:47-56 | runs `Join(args)` as a command line once, then appends exactly one "Time: …ms" shell message |
| `BuiltinCommands.CommandPrint` | CommandTerminal/BuiltinCommands.cs:58-61 | appends exactly one shell message, equal to the joined arguments; earlier entries are unchanged |
| `BuiltinCommands.CommandTrace` | CommandTerminal/BuiltinCommands.cs:63-80 | appends exactly one entry and keeps every earlier one. With fewer than two entries it is "Nothing to trace.". Otherwise it is the stack trace of the entry at count − 2, or that entry's message plus " (no trace)" when the trace is empty |
| `Registration.BuiltinTableWellFormed` | CommandTerminal/BuiltinCommands.cs:9-83 | the registration table has 8 commands in debug builds and 7 otherwise. Every name is upper-case and has help text. Every minimum is ≥ 0, and every maximum is −1 (unbounded) or at least the minimum |
| `Registration.TraceOnlyInDebug` | CommandTerminal/BuiltinCommands.cs:63-81 | `TRACE` is registered exactly when the build is a debug build |
| `Registration.HelpForPrint` | CommandTerminal/BuiltinCommands.cs:58 | `help print` finds `PRINT` with help "Outputs message" and bounds 0..unbounded |
| `Registration.HelpForUnknown` | CommandTerminal/BuiltinCommands.cs:33-35 | `help nosuchcommand` finds no command, so `help` takes its error branch |

## Left out

- `CommandQuit` (stopping the editor or quitting the application) is a host call with no modellable effect on the history.
- BuiltinCommands.CommandTime: the Stopwatch reading and its division into milliseconds are clock-dependent floating-point work, so the formatted elapsed time is a parameter. The effect of `Interpreter.RunCommand` on the history is also a parameter, because the interpreter is not part of this model. The contract says only that the line is run once and then one report is appended.
- The interpreter (tokenizing, command lookup at dispatch, argument-count enforcement, catching handler failures) is not part of this model. The registration bounds are recorded, but nothing is claimed about how they are enforced. `Text.Tokens` is an independent reference tokenizer for the round trip with `Join`, not a model of the interpreter's own.
- The logger (`CommandLog`, with any capacity limit and dropping of old entries) is not part of this model. Its history is an unbounded sequence. Entries written by `Log` and `IssueErrorMessage` carry an empty stack trace, and the interpreter's error message is appended directly as one error entry.
- `Terminal.Log` treats its first argument as a format string. The model takes every message verbatim, and writes each `string.Format` call as a concatenation of its literal pieces and arguments.
- BuiltinCommands.CommandPrint: user text is passed to `Terminal.Log` as the format string with no format arguments, at three call sites: `Terminal.Log(help)` in `help`, `Terminal.Log(JoinArguments(args))` in `print` and `Terminal.Log(log_item.stack_trace)` in `trace`. For such text the model's "appended verbatim" is not what happens. Doubled braces are unescaped (`print {{` logs `{`). Malformed or placeholder text (`print {0}`, `print }`) makes `string.Format` throw a FormatException, so nothing is appended. The model covers only text without braces.
- BuiltinCommands.CommandHelp: the same gap holds for a help text that contains braces, logged through `Terminal.Log(help)`.
- BuiltinCommands.CommandTrace: the same gap holds for a stack trace that contains braces, logged through `Terminal.Log(log_item.stack_trace)`.
- Reflection-based discovery of `RegisterCommand` attributes is not modelled. The table lists the commands in declaration order under names derived from their identifiers (`CommandLs` is `LS`). Bounds an attribute leaves out default to 0 and −1. The `#if DEBUG` build switch is the `debug` flag.
- Text.ToUpper: upper-cases ASCII letters only, not the culture-specific mapping of C#'s `ToUpper`.
- Command arguments are their token strings; the typed conversions of `CommandArg` are not used by these handlers and are not modelled.
