/**
 * The Vim command-line controller: it prompts for an ex command, records it
 * in the command-line history, parses it and dispatches it either to the
 * command's own `execute` or to the embedded neovim engine, and classifies
 * any failure into a neovim redirect, a persistent status-bar message or a
 * generic error message.
 *
 * Everything the controller talks to (the editor window, the input box, the
 * parser, neovim, the quick pick) is a collaborator whose answers are inputs
 * of the model (`Host`); what the controller does to them is recorded as a
 * sequence of `Effect`s, in the order the calls happen.
 */
module CmdLine {

  datatype Option<T> = None | Some(value: T)

  /** The code the source compares against: "E492: Not an editor command". */
  const E492: nat := 492

  /** The two configuration switches the controller consults. */
  datatype Configuration = Configuration(enableNeovim: bool, cmdLineInitialColon: bool)

  /**
   * A thrown value: a `VimError` carrying its code, or anything else.
   * `text` is what the value's `toString()` yields.
   */
  datatype Error =
    | VimErr(code: nat, text: string)
    | OtherErr(text: string)

  /** How an awaited call ended: normally, or by throwing. */
  datatype Outcome = Done | Threw(error: Error)

  /** The part of a parsed command the dispatcher inspects. */
  datatype CommandInfo = CommandInfo(neovimCapable: bool)

  /**
   * What `parser.parse` does with a command string: it throws, or it returns
   * a descriptor whose `command` may be absent and whose `execute` ends with
   * the given outcome when called.
   */
  datatype ParseResult =
    | ParseFailed(error: Error)
    | Parsed(command: Option<CommandInfo>, execution: Outcome)

  /** The cursor range of the input box: start and end offsets into its value. */
  datatype Selection = Selection(start: nat, end: nat)

  /** The options handed to the input box. */
  datatype InputBoxOptions =
    InputBoxOptions(prompt: string, value: string, ignoreFocusOut: bool, valueSelection: Selection)

  /** The options handed to the history quick pick. */
  datatype QuickPickOptions = QuickPickOptions(placeHolder: string, ignoreFocusOut: bool)

  /** The quick pick of `ShowHistory`: fixed place-holder text, closes when focus leaves. */
  const HistoryPickOptions: QuickPickOptions := QuickPickOptions("Vim command history", false)

  /** The answers of the collaborators the controller cannot see. */
  datatype Host = Host(
    editorActive: bool,                                // is there an active text editor?
    prompt: InputBoxOptions -> Option<string>,         // the input box; None when cancelled
    parse: string -> ParseResult,                      // the ex-command parser
    nvimRun: string -> Outcome,                        // neovim, when chosen as the engine
    quickPick: seq<Option<string>> -> Option<string>   // the history quick pick; None when dismissed
  )

  /** The observable calls the controller makes, in order. */
  datatype Effect =
    | ShowInputBox(options: InputBoxOptions)
    | HistoryAdd(entry: Option<string>)
    | Parse(source: string)
    | NvimRun(command: string)
    | Execute
    | StatusText(text: string, persistent: bool)
    | ShowError(message: string)
    | ShowQuickPick(items: seq<Option<string>>, pickOptions: QuickPickOptions)

  /** Effects that parse or run a command. */
  predicate IsDispatch(e: Effect) {
    e.Parse? || e.NvimRun? || e.Execute?
  }

  /** Effects that put a message in front of the user. */
  predicate IsMessage(e: Effect) {
    e.StatusText? || e.ShowError?
  }

  predicate StartsWithColon(s: string) {
    |s| > 0 && s[0] == ':'
  }

  /** A command that JavaScript treats as false: undefined or the empty string. */
  predicate IsBlank(command: Option<string>) {
    command.None? || |command.value| == 0
  }

  // ---------------------------------------------------------------------
  // Colon marker
  // ---------------------------------------------------------------------

  /**
   * The prompt result with the leading ':' the input box was pre-filled with
   * removed, when `cmdLineInitialColon` asks for that marker. At most one
   * colon goes: "::w" becomes ":w".
   */
  function StripColon(cmd: Option<string>, initialColon: bool): (r: Option<string>)
    ensures r.Some? == cmd.Some?
    ensures r != cmd <==> initialColon && cmd.Some? && StartsWithColon(cmd.value)
    ensures r != cmd ==> [':'] + r.value == cmd.value
  {
    if cmd.Some? && StartsWithColon(cmd.value) && initialColon then Some(cmd.value[1..]) else cmd
  }

  /**
   * The input box pre-fill: the initial text, behind a ':' when
   * `cmdLineInitialColon` is set, with an empty selection at its end.
   */
  function InputBoxOptionsFor(text: string, initialColon: bool): (o: InputBoxOptions)
    ensures o.prompt == "Vim command line" && !o.ignoreFocusOut
    ensures |o.value| == |text| + (if initialColon then 1 else 0)
    ensures o.value[|o.value| - |text|..] == text
    ensures initialColon <==> o.value != text
    ensures initialColon ==> o.value[0] == ':'
    ensures o.valueSelection == Selection(|o.value|, |o.value|)
  {
    InputBoxOptions(
      "Vim command line",
      if initialColon then ":" + text else text,
      false,
      Selection(if initialColon then |text| + 1 else |text|,
                if initialColon then |text| + 1 else |text|))
  }

  /** Accepting the pre-filled input box unchanged yields the initial text again. */
  lemma StripUndoesPrefill(text: string, initialColon: bool)
    ensures StripColon(Some(InputBoxOptionsFor(text, initialColon).value), initialColon) == Some(text)
  {
  }

  // ---------------------------------------------------------------------
  // Dispatch and error policy
  // ---------------------------------------------------------------------

  /** Neovim runs a parsed command when it is enabled and the command is present and capable. */
  predicate UseNeovim(config: Configuration, command: Option<CommandInfo>) {
    config.enableNeovim && command.Some? && command.value.neovimCapable
  }

  /**
   * The catch block of `Run`: the one effect a failure of `command` leads to.
   */
  function Recover(config: Configuration, command: string, e: Error): (t: seq<Effect>)
    ensures |t| == 1
    ensures t == [NvimRun(command)] <==> e.VimErr? && e.code == E492 && config.enableNeovim
    ensures t[0].StatusText? <==> e.VimErr? && !(e.code == E492 && config.enableNeovim)
    ensures t[0].StatusText? ==> t[0] == StatusText(e.text + ". " + command, true)
    ensures t == [ShowError(e.text)] <==> e.OtherErr?
  {
    match e
    case VimErr(code, text) =>
      if code == E492 && config.enableNeovim then [NvimRun(command)]
      else [StatusText(text + ". " + command, true)]
    case OtherErr(text) => [ShowError(text)]
  }

  /** The catch block applied to how the try block ended. */
  function Finish(config: Configuration, command: string, outcome: Outcome): seq<Effect> {
    if outcome.Threw? then Recover(config, command, outcome.error) else []
  }

  /**
   * Reference definition of `Run`: the effects of running `command`, as the
   * concatenation of parsing, the engine call and the recovery.
   */
  function RunEffects(config: Configuration, command: Option<string>, host: Host): (t: seq<Effect>)
    ensures t == [] <==> IsBlank(command)
    ensures !IsBlank(command) ==> t[0] == Parse(command.value) && |t| <= 3
    ensures !IsBlank(command) && host.parse(command.value).Parsed? ==>
      |t| >= 2 &&
      (t[1] == NvimRun(command.value) <==> UseNeovim(config, host.parse(command.value).command)) &&
      (t[1] == Execute <==> !UseNeovim(config, host.parse(command.value).command))
    ensures !IsBlank(command) && host.parse(command.value).ParseFailed? ==>
      t == [Parse(command.value)] + Recover(config, command.value, host.parse(command.value).error)
    ensures !IsBlank(command) && host.parse(command.value).Parsed? ==>
      var p := host.parse(command.value);
      var outcome := if UseNeovim(config, p.command) then host.nvimRun(command.value) else p.execution;
      t[2..] == (if outcome.Threw? then Recover(config, command.value, outcome.error) else [])
    ensures forall k :: 0 <= k < |t| ==> IsDispatch(t[k]) || IsMessage(t[k])
    ensures forall k :: 0 <= k < |t| && t[k].NvimRun? ==> t[k].command == command.value
    ensures forall k :: 0 <= k < |t| && t[k].Execute? ==> k == 1
    ensures forall j, k :: 0 <= j < k < |t| && IsMessage(t[j]) ==> !IsMessage(t[k])
  {
    if IsBlank(command) then []
    else
      var c := command.value;
      match host.parse(c)
      case ParseFailed(e) => [Parse(c)] + Recover(config, c, e)
      case Parsed(cmd, execution) =>
        if UseNeovim(config, cmd) then [Parse(c), NvimRun(c)] + Finish(config, c, host.nvimRun(c))
        else [Parse(c), Execute] + Finish(config, c, execution)
  }

  // ---------------------------------------------------------------------
  // History
  // ---------------------------------------------------------------------

  /** The arguments of the `HistoryAdd` effects in `effects`, in order. */
  function Recorded(effects: seq<Effect>): (entries: seq<Option<string>>)
    ensures |entries| <= |effects|
    ensures forall x :: x in entries <==> HistoryAdd(x) in effects
  {
    if effects == [] then []
    else
      assert effects == [effects[0]] + effects[1..];
      (if effects[0].HistoryAdd? then [effects[0].entry] else []) + Recorded(effects[1..])
  }

  lemma {:induction false} RecordedAppend(a: seq<Effect>, b: seq<Effect>)
    ensures Recorded(a + b) == Recorded(a) + Recorded(b)
  {
    if a == [] {
      assert a + b == b;
    } else {
      assert (a + b)[1..] == a[1..] + b;
      RecordedAppend(a[1..], b);
    }
  }

  /** A trace without `HistoryAdd` effects records nothing. */
  lemma {:induction false} RecordedNone(effects: seq<Effect>)
    requires forall k :: 0 <= k < |effects| ==> !effects[k].HistoryAdd?
    ensures Recorded(effects) == []
  {
    if effects != [] {
      RecordedNone(effects[1..]);
    }
  }

  /** `Run` never writes the history. */
  lemma RunRecordsNothing(config: Configuration, command: Option<string>, host: Host)
    ensures Recorded(RunEffects(config, command, host)) == []
  {
    RecordedNone(RunEffects(config, command, host));
  }

  // ---------------------------------------------------------------------
  // The controller
  // ---------------------------------------------------------------------

  class CommandLine {
    /** The arguments of every `add` on the command-line history, oldest first. */
    var history: seq<Option<string>>

    constructor ()
      ensures history == []
    {
      history := [];
    }

    /**
     * Prompts for a command, strips the pre-filled colon, records the result
     * (even a cancelled or empty one) and runs it. Without an active editor
     * it does nothing at all.
     */
    method PromptAndRun(initialText: string, config: Configuration, host: Host)
      returns (effects: seq<Effect>)
      modifies this
      ensures !host.editorActive ==> effects == [] && history == old(history)
      ensures host.editorActive ==>
        var options := InputBoxOptionsFor(initialText, config.cmdLineInitialColon);
        var cmd := StripColon(host.prompt(options), config.cmdLineInitialColon);
        history == old(history) + [cmd] &&
        effects == [ShowInputBox(options), HistoryAdd(cmd)] + RunEffects(config, cmd, host)
      ensures history == old(history) + Recorded(effects)
    {
      if !host.editorActive {
        return [];
      }
      var options := InputBoxOptionsFor(initialText, config.cmdLineInitialColon);
      var cmd := host.prompt(options);
      if cmd.Some? && StartsWithColon(cmd.value) && config.cmdLineInitialColon {
        cmd := Some(cmd.value[1..]);
      }
      history := history + [cmd];
      var ran := Run(config, cmd, host);
      effects := [ShowInputBox(options), HistoryAdd(cmd)] + ran;
      RecordedAppend([ShowInputBox(options), HistoryAdd(cmd)], ran);
      RunRecordsNothing(config, cmd, host);
    }

    /**
     * Runs `command`: parse it, hand it to neovim or to its own `execute`,
     * and recover from whatever the try block throws.
     */
    method Run(config: Configuration, command: Option<string>, host: Host)
      returns (effects: seq<Effect>)
      ensures effects == RunEffects(config, command, host)
    {
      effects := [];
      if IsBlank(command) {
        return;
      }
      var c := command.value;
      var thrown: Option<Error> := None;
      // try
      effects := effects + [Parse(c)];
      var parsed := host.parse(c);
      match parsed {
        case ParseFailed(e) =>
          thrown := Some(e);
        case Parsed(cmd, execution) =>
          var useNeovim := config.enableNeovim && cmd.Some? && cmd.value.neovimCapable;
          if useNeovim {
            effects := effects + [NvimRun(c)];
            var outcome := host.nvimRun(c);
            if outcome.Threw? {
              thrown := Some(outcome.error);
            }
          } else {
            effects := effects + [Execute];
            if execution.Threw? {
              thrown := Some(execution.error);
            }
          }
      }
      // catch
      if thrown.Some? {
        var e := thrown.value;
        if e.VimErr? {
          if e.code == E492 && config.enableNeovim {
            effects := effects + [NvimRun(c)];
          } else {
            effects := effects + [StatusText(e.text + ". " + c, true)];
          }
        } else {
          effects := effects + [ShowError(e.text)];
        }
      }
    }

    /**
     * Records `initialText`, offers the whole history in a quick pick and
     * returns the pick; it never runs anything. Without an active editor it
     * returns "" and does nothing else.
     */
    method ShowHistory(initialText: string, host: Host)
      returns (picked: Option<string>, effects: seq<Effect>)
      modifies this
      ensures !host.editorActive ==> picked == Some("") && effects == [] && history == old(history)
      ensures host.editorActive ==>
        history == old(history) + [Some(initialText)] &&
        effects == [HistoryAdd(Some(initialText)), ShowQuickPick(history, HistoryPickOptions)] &&
        picked == host.quickPick(history)
      ensures history == old(history) + Recorded(effects)
      ensures forall k :: 0 <= k < |effects| ==> !IsDispatch(effects[k])
    {
      if !host.editorActive {
        return Some(""), [];
      }
      history := history + [Some(initialText)];
      effects := [HistoryAdd(Some(initialText)), ShowQuickPick(history, HistoryPickOptions)];
      picked := host.quickPick(history);
    }
  }
}
