/**
  The builtin command handlers. Each handler receives its argument tokens and
  works on the shared `Terminal`: it clears the history, appends to it, or
  reads an earlier entry and then appends a report.
 */
module BuiltinCommands {
  import opened Wrappers
  import opened Text
  import opened CommandTerminal

  /** Column width `ls` pads command names to. */
  const NameColumn: nat := 16

  /** The help text as `string.Format` renders it: a null help becomes empty. */
  function HelpText(info: CommandInfo): string {
    info.help.GetOr("")
  }

  /** The line `ls` writes for one command: `"{0}: {1}"` with the padded name and the help. */
  function LsLine(name: string, info: CommandInfo): string {
    PadRight(name, NameColumn) + ": " + HelpText(info)
  }

  /** What `ls` appends for a table: one line per command, in table order. */
  function LsEntries(table: seq<(string, CommandInfo)>): seq<LogEntry> {
    if |table| == 0 then []
    else LsEntries(table[..|table| - 1]) + [Message(LsLine(table[|table| - 1].0, table[|table| - 1].1))]
  }

  /**
    `ls` writes exactly one shell message per command; the k-th starts with
    the k-th name, padded with spaces to at least 16 characters, followed by
    `": "` and that command's help text (empty when there is none).
   */
  lemma {:induction false} LsEntriesAt(table: seq<(string, CommandInfo)>, k: nat)
    requires k < |table|
    ensures |LsEntries(table)| == |table|
    ensures var name := table[k].0;
            var width := if |name| < NameColumn then NameColumn else |name|;
            var m := LsEntries(table)[k].message;
            && LsEntries(table)[k].kind == ShellMessage
            && |m| == width + 2 + |HelpText(table[k].1)|
            && m[..|name|] == name
            && (forall i :: |name| <= i < width ==> m[i] == ' ')
            && m[width..width + 2] == ": "
            && m[width + 2..] == HelpText(table[k].1)
  {
    var n := |table|;
    if k < n - 1 {
      LsEntriesAt(table[..n - 1], k);
      assert table[..n - 1][k] == table[k];
    } else if n > 1 {
      LsEntriesAt(table[..n - 1], 0);
    }
    var name := table[k].0;
    var p := PadRight(name, NameColumn);
    var m := p + ": " + HelpText(table[k].1);
    assert LsEntries(table)[k].message == m;
    assert m[..|name|] == p[..|name|];
    assert m[|p|..|p| + 2] == ": ";
  }

  /**
    JoinArguments: the argument tokens separated by single spaces, built
    left to right with a space after every token but the last.
   */
  method JoinArguments(args: seq<string>) returns (line: string)
    ensures line == Join(args)
    ensures |args| == 0 ==> line == ""
  {
    var sb := "";
    var argLength := |args|;
    for i := 0 to argLength
      invariant sb == if i == 0 then "" else Join(args[..i]) + (if i < argLength then " " else "")
    {
      assert args[..i + 1][..i] == args[..i];
      sb := sb + args[i];
      if i < argLength - 1 {
        sb := sb + " ";
      }
    }
    assert args[..argLength] == args;
    line := sb;
  }

  /** `noop`: does nothing. */
  method CommandNoop(t: Terminal, args: seq<string>)
    ensures t.logs == old(t.logs)
  {
  }

  /** `clear`: the history is empty afterwards. */
  method CommandClear(t: Terminal, args: seq<string>)
    modifies t`logs
    ensures t.logs == []
  {
    t.Clear();
  }

  /** `ls`: one line per registered command, appended in table order. */
  method CommandLs(t: Terminal, args: seq<string>)
    modifies t`logs
    ensures t.logs == old(t.logs) + LsEntries(t.commands)
  {
    var commands := t.commands;
    for i := 0 to |commands|
      invariant t.logs == old(t.logs) + LsEntries(commands[..i])
    {
      assert commands[..i + 1][..i] == commands[..i];
      var (name, info) := commands[i];
      t.Log(LsLine(name, info));
    }
    assert commands[..|commands|] == commands;
  }

  /** The text `help` writes when a command exists but has no help. */
  function NoHelpText(name: string): string {
    name + " does not provide any help documentation."
  }

  /** The error `help` issues when no command has the name. */
  function NotFoundText(name: string): string {
    "Command " + name + " could not be found."
  }

  /**
    `help`: without arguments, the same as `ls`; otherwise the first argument
    is upper-cased and looked up, and exactly one entry is appended: an error
    when no command has that name, the "no help documentation" message when
    its help is null, and its help text verbatim otherwise.
   */
  method CommandHelp(t: Terminal, args: seq<string>)
    modifies t`logs
    ensures |args| == 0 ==> t.logs == old(t.logs) + LsEntries(t.commands)
    ensures |args| > 0 ==>
      var name := ToUpper(args[0]);
      match Lookup(t.commands, name)
      case None => t.logs == old(t.logs) + [ErrorMessage(NotFoundText(name))]
      case Some(info) =>
        t.logs == old(t.logs) + [Message(if info.help.None? then NoHelpText(name) else info.help.value)]
  {
    if |args| == 0 {
      CommandLs(t, args);
      return;
    }

    var commandName := ToUpper(args[0]);

    var found := Lookup(t.commands, commandName);
    if found.None? {
      t.IssueErrorMessage(NotFoundText(commandName));
      return;
    }

    var help := found.value.help;

    if help.None? {
      t.Log(NoHelpText(commandName));
    } else {
      t.Log(help.value);
    }
  }

  /** The line `time` writes after the timed command: `"Time: {0}ms"`. */
  function TimeText(elapsedMs: string): string {
    "Time: " + elapsedMs + "ms"
  }

  /**
    `time`: runs the joined arguments as a command line once, then appends
    one report. The clock reading, already formatted, is `elapsedMs`; the
    effect of running the line is `run`.
   */
  method CommandTime(t: Terminal, args: seq<string>, elapsedMs: string,
                     run: (seq<LogEntry>, string) -> seq<LogEntry>)
    modifies t`logs
    ensures t.logs == run(old(t.logs), Join(args)) + [Message(TimeText(elapsedMs))]
  {
    var line := JoinArguments(args);
    t.RunCommand(line, run);
    t.Log(TimeText(elapsedMs));
  }

  /** `print`: appends one shell message holding the joined arguments. */
  method CommandPrint(t: Terminal, args: seq<string>)
    modifies t`logs
    ensures t.logs == old(t.logs) + [Message(Join(args))]
  {
    var line := JoinArguments(args);
    t.Log(line);
  }

  /** The report `trace` writes about an entry. */
  function TraceText(entry: LogEntry): string {
    if entry.stackTrace == "" then entry.message + " (no trace)" else entry.stackTrace
  }

  /**
    `trace`: with fewer than two entries, appends "Nothing to trace.";
    otherwise reports on the entry before the last one. Either way exactly
    one entry is appended and the earlier ones are left as they were.
   */
  method CommandTrace(t: Terminal, args: seq<string>)
    modifies t`logs
    ensures |old(t.logs)| < 2 ==> t.logs == old(t.logs) + [Message("Nothing to trace.")]
    ensures |old(t.logs)| >= 2 ==>
      t.logs == old(t.logs) + [Message(TraceText(old(t.logs)[|old(t.logs)| - 2]))]
  {
    var logCount := |t.logs|;

    if logCount - 2 < 0 {
      t.Log("Nothing to trace.");
      return;
    }

    var logItem := t.logs[logCount - 2];

    if logItem.stackTrace == "" {
      t.Log(logItem.message + " (no trace)");
    } else {
      t.Log(logItem.stackTrace);
    }
  }
}

/**
  The registration data the `RegisterCommand` attributes declare, in
  declaration order. A command's name is its handler's identifier without
  the `Command` prefix, upper-cased; an attribute that leaves a bound out
  gets minimum 0 and maximum -1 (unbounded).
 */
module Registration {
  import opened Wrappers
  import opened Text
  import opened CommandTerminal

  /** The registered builtins; `TRACE` exists only in debug builds. */
  function BuiltinTable(debug: bool): CommandTable {
    BuiltinNamesDistinct(debug);
    BuiltinNamesUpper(debug);
    BuiltinList(debug)
  }

  /** The declared names are pairwise distinct: they differ in first letter or in length. */
  lemma BuiltinNamesDistinct(debug: bool)
    ensures UniqueNames(BuiltinList(debug))
  {
    var table := BuiltinList(debug);
    assert forall i :: 0 <= i < |table| ==> |table[i].0| > 0;
    assert forall i, j :: 0 <= i < j < |table| ==>
      table[i].0[0] != table[j].0[0] || |table[i].0| != |table[j].0|;
  }

  /** The declared names are already upper-case. */
  lemma BuiltinNamesUpper(debug: bool)
    ensures UpperCaseNames(BuiltinList(debug))
  {
    var table := BuiltinList(debug);
    forall i | 0 <= i < |table|
      ensures ToUpper(table[i].0) == table[i].0
    {
      UpperCaseName(table[i].0);
    }
  }

  /** The builtins as declared, before their names are known to be distinct. */
  function BuiltinList(debug: bool): seq<(string, CommandInfo)> {
    [ ("NOOP", CommandInfo(Some("Does nothing"), 0, -1)),
      ("CLEAR", CommandInfo(Some("Clears the Command Console"), 0, 0)),
      ("LS", CommandInfo(Some("Displays all Console Commands"), 0, 0)),
      ("HELP", CommandInfo(Some("Displays help documentation of a Command"), 0, 1)),
      ("TIME", CommandInfo(Some("Times the execution of a Command"), 1, -1)),
      ("PRINT", CommandInfo(Some("Outputs message"), 0, -1)) ]
    + (if debug then [("TRACE", CommandInfo(Some("Outputs the StackTrace of the previous message"), 0, 0))] else [])
    + [ ("QUIT", CommandInfo(Some("Quits running Application"), 0, 0)) ]
  }

  /** Bounds are consistent: a minimum of at least 0, and a maximum of -1 (none) or at least the minimum. */
  predicate ValidBounds(info: CommandInfo) {
    0 <= info.minArgCount && (info.maxArgCount == -1 || info.minArgCount <= info.maxArgCount)
  }

  /** Every builtin is registered under an upper-case name, with help text and consistent bounds. */
  lemma BuiltinTableWellFormed(debug: bool)
    ensures |BuiltinTable(debug)| == if debug then 8 else 7
    ensures forall i :: 0 <= i < |BuiltinTable(debug)| ==>
      ToUpper(BuiltinTable(debug)[i].0) == BuiltinTable(debug)[i].0
    ensures forall i :: 0 <= i < |BuiltinTable(debug)| ==>
      BuiltinTable(debug)[i].1.help.Some? && ValidBounds(BuiltinTable(debug)[i].1)
  {
  }

  /** `TRACE` is registered exactly in debug builds. */
  lemma TraceOnlyInDebug(debug: bool)
    ensures Lookup(BuiltinTable(debug), "TRACE").Some? <==> debug
  {
    var table := BuiltinList(debug);
    if debug {
      LookupRegistered(table, 6);
    } else {
      assert forall i :: 0 <= i < |table| ==> table[i].0[0] != 'T' || |table[i].0| != 5;
    }
  }

  /** `help print` finds `PRINT` and its help text, "Outputs message". */
  lemma HelpForPrint(debug: bool)
    ensures Lookup(BuiltinTable(debug), ToUpper("print")) == Some(CommandInfo(Some("Outputs message"), 0, -1))
  {
    assert ToUpper("print") == "PRINT";
    LookupRegistered(BuiltinTable(debug), 5);
  }

  /** `help nosuchcommand` finds nothing, so `help` issues its error. */
  lemma HelpForUnknown(debug: bool)
    ensures Lookup(BuiltinTable(debug), ToUpper("nosuchcommand")).None?
  {
    BuiltinNamesShort(debug);
    assert |ToUpper("nosuchcommand")| == 13;
  }

  /** No builtin name is longer than five characters. */
  lemma BuiltinNamesShort(debug: bool)
    ensures forall i :: 0 <= i < |BuiltinTable(debug)| ==> |BuiltinTable(debug)[i].0| <= 5
  {
  }
}
