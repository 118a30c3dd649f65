/**
  The interpreter context the builtin commands run against: the logger's
  ordered history of entries and the table of registered commands.
 */
module CommandTerminal {
  import opened Wrappers
  import opened Text

  /** Severity of a history entry: ordinary shell output or an error. */
  datatype LogKind = ShellMessage | Error

  /** One entry of the logger's history. */
  datatype LogEntry = LogEntry(message: string, kind: LogKind, stackTrace: string)

  /** Registration data of one command; `help` is absent when the attribute gives none. */
  datatype CommandInfo = CommandInfo(help: Option<string>, minArgCount: int, maxArgCount: int)

  /** An entry written by `Terminal.Log`. */
  function Message(text: string): LogEntry {
    LogEntry(text, ShellMessage, "")
  }

  /** An entry written by `IssueErrorMessage`. */
  function ErrorMessage(text: string): LogEntry {
    LogEntry(text, Error, "")
  }

  /** No name is registered twice (the table is a dictionary keyed by name). */
  predicate UniqueNames(table: seq<(string, CommandInfo)>) {
    forall i, j :: 0 <= i < j < |table| ==> table[i].0 != table[j].0
  }

  /** Every name is stored upper-cased, as the registry normalizes it. */
  predicate UpperCaseNames(table: seq<(string, CommandInfo)>) {
    forall i :: 0 <= i < |table| ==> ToUpper(table[i].0) == table[i].0
  }

  /** The command table in its iteration order: upper-case names, none twice. */
  type CommandTable = table: seq<(string, CommandInfo)> | UniqueNames(table) && UpperCaseNames(table) witness []

  /** Dictionary lookup by name. */
  function Lookup(table: seq<(string, CommandInfo)>, name: string): (r: Option<CommandInfo>)
    ensures r.None? <==> forall i :: 0 <= i < |table| ==> table[i].0 != name
    ensures r.Some? ==> exists i :: 0 <= i < |table| && table[i] == (name, r.value)
  {
    if |table| == 0 then None
    else if table[0].0 == name then Some(table[0].1)
    else Lookup(table[1..], name)
  }

  /** In a table with unique names, looking up a registered name finds its own info. */
  lemma LookupRegistered(table: CommandTable, i: nat)
    requires i < |table|
    ensures Lookup(table, table[i].0) == Some(table[i].1)
  {
  }

  /**
    The shared state the handlers reach through `Terminal`: the logger's
    history, which they read, append to and clear, and the command table,
    which they only read.
   */
  class Terminal {
    var logs: seq<LogEntry>
    const commands: CommandTable

    constructor (commands: CommandTable)
      ensures this.commands == commands && logs == []
    {
      this.commands := commands;
      logs := [];
    }

    /** `Terminal.Log`: append one shell message. */
    method Log(text: string)
      modifies this`logs
      ensures logs == old(logs) + [Message(text)]
    {
      logs := logs + [Message(text)];
    }

    /** `Interpreter.IssueErrorMessage`: append one error entry with the formatted text. */
    method IssueErrorMessage(text: string)
      modifies this`logs
      ensures logs == old(logs) + [ErrorMessage(text)]
    {
      logs := logs + [ErrorMessage(text)];
    }

    /** `Logger.Clear`: empty the history. */
    method Clear()
      modifies this`logs
      ensures logs == []
    {
      logs := [];
    }

    /**
      `Interpreter.RunCommand(line)`, whose code is not part of this model:
      its effect on the history is supplied as `effect`.
     */
    method RunCommand(line: string, effect: (seq<LogEntry>, string) -> seq<LogEntry>)
      modifies this`logs
      ensures logs == effect(old(logs), line)
    {
      logs := effect(logs, line);
    }
  }
}
