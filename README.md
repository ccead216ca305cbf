# Vim command-line controller

A model of `CommandLine`, the controller behind VSCodeVim's `:` command line.
`PromptAndRun` pre-fills an input box, optionally with a `:` marker. It strips
that marker from the answer, records the answer in the command-line history,
and hands it to `Run`. `Run` ignores a blank command. Otherwise it parses the
command and runs it either through the embedded neovim engine or through the
parsed command's own `execute`. It turns any failure into one of three
outcomes: a redirect to neovim on error `E492`, a persistent status-bar
message for any other `VimError`, or a generic error message. `ShowHistory`
records its initial text and offers the history in a quick pick.

The model is one module, `CmdLine` (`command_line.dfy`):

- The configuration switches are a `Configuration` value. The collaborators
  the controller cannot see are a `Host` value: the active-editor test, the
  input box, the parser, the neovim call and the quick pick. Each answer is
  an input of the model.
- Every call the controller makes into the input box, the history store's
  `add`, the parser, neovim, a command's `execute`, the status bar, the error
  message surface and the quick pick is an `Effect`. Each operation returns
  the effects it emits, in order. The read `this._history.get()` is not an
  effect of its own (see "## Left out").
- The class `CommandLine` holds `history`, the sequence of arguments passed to
  the history store's `add`. An undefined prompt result is recorded as `None`.
- `Run` is an imperative method that emulates the try/catch with a local
  "thrown" value. `RunEffects` is its reference definition, written as a
  composition of the engine choice (`UseNeovim`) and the catch block
  (`Recover`). `Run` is proved equal to it.
- `Recorded` projects a trace onto its `HistoryAdd` arguments. For each
  operation, the growth of `history` is proved to be exactly what its trace
  records.

## Model

| member | source | states |
|---|---|---|
| `CmdLine.StripColon` | src/cmd_line/commandLine.ts:27-29 | the result differs from the prompt result exactly when `cmdLineInitialColon` is set and the result is defined and starts with `:`; it is then the input with that one leading `:` removed (so `::w` gives `:w`); definedness is preserved |
| `CmdLine.InputBoxOptionsFor` | src/cmd_line/commandLine.ts:69-79 | the value ends with the initial text and is one character longer, with `:` first, exactly when `cmdLineInitialColon` is set; both selection ends equal the value's length (empty selection, cursor at the end); fixed prompt text, `ignoreFocusOut` false |
| `CmdLine.StripUndoesPrefill` | src/cmd_line/commandLine.ts:26-29 | accepting the pre-filled input box unchanged gives back exactly the initial text, with either setting of `cmdLineInitialColon` |
| `CmdLine.Recover` | src/cmd_line/commandLine.ts:50-66 | a failure yields exactly one effect: `nvim.run` with the command iff it is a `VimError` with code E492 and neovim is enabled; a persistent status text `"<err>. <command>"` iff it is any other `VimError`; a generic error message with the error's text iff it is not a `VimError` |
| `CmdLine.RunEffects` | src/cmd_line/commandLine.ts:36-67 | no effect at all iff the command is undefined or empty; otherwise the parse comes first; after a successful parse the second effect is `nvim.run` iff neovim is enabled and the parsed command is present and neovim-capable, and `execute` otherwise, and what follows that engine call is exactly `Recover`'s effect when it throws and nothing when it completes (so a `w` that executes normally shows no message); a failed parse runs nothing and is followed only by the recovery; every neovim call gets the unmodified command; `execute` happens at most once, right after the parse; at most one user message; at most three effects, all of them parse, run or message |
| `CmdLine.RunRecordsNothing` | src/cmd_line/commandLine.ts:36-67 | `Run` never writes the history |
| `CmdLine.CommandLine.Run` | src/cmd_line/commandLine.ts:36-67 | the step-by-step dispatch with its try/catch emits exactly the effects of `RunEffects` and changes no field |
| `CmdLine.CommandLine.PromptAndRun` | src/cmd_line/commandLine.ts:20-34 | without an active editor there is no effect and no history change; otherwise it shows the pre-filled input box, appends exactly one history entry, the possibly stripped answer (even when empty or cancelled), before running that same answer through `Run`; the history grows by exactly the entries its trace records |
| `CmdLine.CommandLine.ShowHistory` | src/cmd_line/commandLine.ts:81-95 | without an active editor it returns `""` with no effect and no history change; otherwise it appends `initialText` once, offers the whole history (including that entry) in the quick pick with place-holder `Vim command history` and `ignoreFocusOut` false and returns the pick unchanged; it never parses or runs a command |
| `CmdLine.CommandLine.constructor` | src/cmd_line/commandLine.ts:16-18 | a new controller starts with an empty history |

## Left out

- The logger calls (`logger.debug`, `logger.error`) are diagnostics only and are not modelled.
- The VS Code host calls `showInputBox`, `showQuickPick` and `activeTextEditor` are not modelled. Their answers are inputs (`Host`); only the fact and the arguments of the `showInputBox` and `showQuickPick` calls are recorded (for the quick pick, its items and its `placeHolder` and `ignoreFocusOut` options).
- The parser's grammar (`./parser`) is not part of this model. `parse` is an oracle from the command string to a failure or to a descriptor. The descriptor has an optional command with a `neovimCapable` flag and gives the outcome of its `execute`.
- The neovim protocol behind `vimState.nvim.run` is not modelled. Only the call and its string are recorded. When neovim is the chosen engine, the outcome of the call is an input, because a throw there is caught by the same handler.
- The redirect call to `nvim.run` inside the catch block is recorded, but its own failure is not modelled. In the source such a failure escapes the handler, and the model assumes the call returns normally.
- The `CommandLineHistory` store is not part of this model: its file storage, its location under the extension directory, any entries loaded from disk, and any capacity or eviction rule. `history` is only the sequence of `add` arguments, and `get()` is taken to return that sequence. The `get()` call is not recorded as an effect of its own; its result is the item list of the `ShowQuickPick` effect.
- `StatusBar.SetText` also receives the current mode and the macro-recording flag from `vimState`. Those pass-through arguments are not modelled.
- The formats of `VimError.toString()` and of other thrown values' `toString()` are not modelled. Each error carries the text it converts to.
- `ErrorCode` is not part of this model. Codes are natural numbers, and E492 is 492.
- Strings are sequences of Dafny characters, not UTF-16 code units, so `cmd[0]`, `slice(1)` and `length` count characters.
- `async`/`await` is treated as one sequential step per await. The controller has no concurrency.
