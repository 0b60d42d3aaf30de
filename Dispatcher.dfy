/**
 The command dispatcher: `handle(args)` picks a subcommand from the first
 token, validates its arguments, reads and (for `new`, `del` and `clear`)
 rewrites the store, and answers with a standard-output and a standard-error
 text. `Run` is the dispatcher as a function of the parsed command and the
 store; `TodoApp` is the object that owns the store and updates it in place.
 */
module Dispatcher {
  import opened Text
  import opened Store
  import opened Listing

  /** What one invocation prints: the normal output and the error output. */
  datatype Output = Output(stdout: string, stderr: string)

  /** The subcommand selected by the arguments, with its validated parameters. */
  datatype Command =
    | ShowHelp                              // no token, or `help`
    | Unknown(token: string)                // any other unrecognised token
    | ListTodos                             // `list`
    | NewTodo(priority: int, text: string)  // `new <integer priority> <text>`
    | NewUsageError                         // `new` without both arguments, or with a non-integer priority
    | DeleteTodo(id: string)                // `del <id>`
    | DeleteUsageError                      // `del` without an ID
    | ClearTodos                            // `clear`

  const Subcommands: set<string> := {"help", "list", "new", "del", "clear"}

  const NewUsage := "Must pass an integer priority and text string."
  const DeleteUsage := "Must pass a valid todo id. See valid todo ids via the `list` subcommand."
  const Cleared := "Cleared all todos."

  function UnknownSubcommand(token: string): string {
    "No valid subcommand `" + token + "`."
  }

  function Created(t: Todo): string {
    "Created todo with priority " + IntToString(t.priority) + ": \"" + t.text + "\"."
  }

  function Deleted(t: Todo): string {
    "Deleted todo with priority " + IntToString(t.priority) + ": \"" + t.text + "\"."
  }

  /** The position of the first ':' in `s`, or `|s|` when there is none. */
  function ColonIndex(s: string): nat
  {
    if s == [] || s[0] == ':' then 0 else 1 + ColonIndex(s[1..])
  }

  lemma {:induction false} ColonAfter(d: string, x: string)
    requires ':' !in d && |x| > 0 && x[0] == ':'
    ensures ColonIndex(d + x) == |d|
  {
    if d != [] {
      assert (d + x)[0] == d[0] && (d + x)[1..] == d[1..] + x;
      assert ':' !in d[1..] by {
        assert forall i :: 0 <= i < |d[1..]| ==> d[1..][i] == d[i + 1];
      }
      ColonAfter(d[1..], x);
    }
  }

  /** A colon-free head followed by a ':' is recovered from the whole string. */
  lemma SplitAtColon(d1: string, x1: string, d2: string, x2: string)
    requires d1 + x1 == d2 + x2
    requires ':' !in d1 && ':' !in d2
    requires |x1| > 0 && x1[0] == ':' && |x2| > 0 && x2[0] == ':'
    ensures d1 == d2 && x1 == x2
  {
    ColonAfter(d1, x1);
    ColonAfter(d2, x2);
    assert d1 == (d1 + x1)[..|d1|] && x1 == (d1 + x1)[|d1|..];
    assert d2 == (d2 + x2)[..|d2|] && x2 == (d2 + x2)[|d2|..];
  }

  /** The rest of a report after its fixed prefix: the priority, then the quoted text. */
  function Tail(t: Todo): string {
    ": \"" + t.text + "\"."
  }

  /** The digits of a rendered priority never contain the ':' that ends them in a report. */
  lemma ColonEndsPriority(t1: Todo, t2: Todo, prefix: string)
    requires prefix + IntToString(t1.priority) + ": \"" + t1.text + "\"." ==
             prefix + IntToString(t2.priority) + ": \"" + t2.text + "\"."
    ensures t1 == t2
  {
    var d1, d2 := IntToString(t1.priority), IntToString(t2.priority);
    var x1, x2 := Tail(t1), Tail(t2);
    assert prefix + IntToString(t1.priority) + ": \"" + t1.text + "\"." == prefix + (d1 + x1);
    assert prefix + IntToString(t2.priority) + ": \"" + t2.text + "\"." == prefix + (d2 + x2);
    assert d1 + x1 == (prefix + (d1 + x1))[|prefix|..];
    assert d2 + x2 == (prefix + (d2 + x2))[|prefix|..];
    SplitAtColon(d1, x1, d2, x2);
    ParseIntOfIntToString(t1.priority);
    ParseIntOfIntToString(t2.priority);
    assert t1.text == x1[3..|x1| - 2] && t2.text == x2[3..|x2| - 2];
  }

  /**
   The confirmations name the todo unambiguously: different todos are reported
   differently, and an unknown-subcommand message names the token it rejected.
   */
  lemma MessagesIdentify(t1: Todo, t2: Todo, token1: string, token2: string)
    ensures Created(t1) == Created(t2) ==> t1 == t2
    ensures Deleted(t1) == Deleted(t2) ==> t1 == t2
    ensures Created(t1) != Deleted(t2)
    ensures UnknownSubcommand(token1) == UnknownSubcommand(token2) ==> token1 == token2
  {
    if Created(t1) == Created(t2) {
      ColonEndsPriority(t1, t2, "Created todo with priority ");
    }
    if Deleted(t1) == Deleted(t2) {
      ColonEndsPriority(t1, t2, "Deleted todo with priority ");
    }
    assert Created(t1)[0] != Deleted(t2)[0];
    var u1, u2 := UnknownSubcommand(token1), UnknownSubcommand(token2);
    assert token1 == u1[21..|u1| - 2] && token2 == u2[21..|u2| - 2];
  }

  /**
   Selects the subcommand from the first token. Arguments after the ones a
   subcommand uses are ignored.
   */
  function ParseCommand(args: seq<string>): (c: Command)
    ensures c.ShowHelp? <==> args == [] || args[0] == "help"
    ensures c.Unknown? <==> args != [] && args[0] !in Subcommands
    ensures c.Unknown? ==> c.token == args[0]
    ensures c.NewTodo? <==> |args| >= 3 && args[0] == "new" && ParseInt(args[1]).Some?
    ensures c.NewTodo? ==> Some(c.priority) == ParseInt(args[1]) && c.text == args[2]
    ensures c.NewUsageError? <==> args != [] && args[0] == "new" && (|args| < 3 || ParseInt(args[1]).None?)
    ensures c.DeleteTodo? <==> |args| >= 2 && args[0] == "del"
    ensures c.DeleteTodo? ==> c.id == args[1]
    ensures c.DeleteUsageError? <==> |args| == 1 && args[0] == "del"
    ensures c.ListTodos? <==> args != [] && args[0] == "list"
    ensures c.ClearTodos? <==> args != [] && args[0] == "clear"
  {
    if args == [] || args[0] == "help" then ShowHelp
    else if args[0] == "list" then ListTodos
    else if args[0] == "new" then
      if |args| < 3 then NewUsageError
      else match ParseInt(args[1]) {
        case Some(p) => NewTodo(p, args[2])
        case None => NewUsageError
      }
    else if args[0] == "del" then
      if |args| < 2 then DeleteUsageError else DeleteTodo(args[1])
    else if args[0] == "clear" then ClearTodos
    else Unknown(args[0])
  }

  /** The printed output together with the store as the command leaves it. */
  datatype Outcome = Outcome(output: Output, store: Todos)

  /**
   The dispatcher on a parsed command and the store it finds on disk.
   `freshId` stands for the random ID that `new` draws; it is unused by the
   other subcommands.
   */
  function Run(help: string, cmd: Command, m: Todos, freshId: string): (o: Outcome)
    requires cmd.NewTodo? ==> IsFreshId(freshId, m)
    ensures o.store.Keys <= m.Keys + {freshId}
    ensures forall k :: k in o.store && k != freshId ==> k in m && o.store[k] == m[k]
    ensures o.output.stderr == "" || o.output.stdout == help
  {
    match cmd
    case ShowHelp => Outcome(Output(help, ""), m)
    case Unknown(token) => Outcome(Output(help, UnknownSubcommand(token)), m)
    case ListTodos => Outcome(Output(ListOutput(m), ""), m)
    case NewTodo(p, text) => Outcome(Output(Created(Todo(p, text)), ""), m[freshId := Todo(p, text)])
    case NewUsageError => Outcome(Output(help, NewUsage), m)
    case DeleteTodo(id) =>
      if id in m then Outcome(Output(Deleted(m[id]), ""), m - {id})
      else Outcome(Output(help, DeleteUsage), m)
    case DeleteUsageError => Outcome(Output(help, DeleteUsage), m)
    case ClearTodos => Outcome(Output(Cleared, ""), map[])
  }

  /** The commands answered with the help text and a usage message. */
  predicate IsUsageError(cmd: Command, m: Todos) {
    cmd.Unknown? || cmd.NewUsageError? || cmd.DeleteUsageError? || (cmd.DeleteTodo? && cmd.id !in m)
  }

  /**
   Something is written to standard error exactly for usage errors; then
   standard output is the help text and the store is left as it was.
   */
  lemma UsageErrors(help: string, cmd: Command, m: Todos, freshId: string)
    requires cmd.NewTodo? ==> IsFreshId(freshId, m)
    ensures var o := Run(help, cmd, m, freshId);
      (o.output.stderr != "" <==> IsUsageError(cmd, m)) &&
      (o.output.stderr != "" ==> o.output.stdout == help && o.store == m)
  {
  }

  /** Only `new`, a successful `del` and `clear` change the store. */
  lemma OnlyMutationsChangeStore(help: string, cmd: Command, m: Todos, freshId: string)
    requires cmd.NewTodo? ==> IsFreshId(freshId, m)
    ensures Run(help, cmd, m, freshId).store != m ==>
      cmd.NewTodo? || (cmd.DeleteTodo? && cmd.id in m) || (cmd.ClearTodos? && m != map[])
  {
  }

  /**
   A valid `new` adds exactly one entry, under a four-character key that was
   not in use, and leaves every existing entry unchanged.
   */
  lemma NewAddsOne(help: string, p: int, text: string, m: Todos, freshId: string)
    requires IsFreshId(freshId, m)
    ensures var s := Run(help, NewTodo(p, text), m, freshId).store;
      s.Keys == m.Keys + {freshId} && |s| == |m| + 1 &&
      |freshId| == 4 && freshId !in m && s[freshId] == Todo(p, text) &&
      forall k :: k in m ==> s[k] == m[k]
  {
    var s := Run(help, NewTodo(p, text), m, freshId).store;
    assert s.Keys == m.Keys + {freshId};
  }

  /** A successful `del` removes exactly that key and reports the removed entry. */
  lemma DeleteRemovesOne(help: string, id: string, m: Todos)
    requires id in m
    ensures var o := Run(help, DeleteTodo(id), m, "");
      o.store.Keys == m.Keys - {id} && |o.store| == |m| - 1 &&
      (forall k :: k in o.store ==> o.store[k] == m[k]) &&
      o.output == Output(Deleted(m[id]), "")
  {
    var s := Run(help, DeleteTodo(id), m, "").store;
    assert s.Keys == m.Keys - {id};
  }

  /** `new` followed by `del` of the ID it created restores the store and reports the same todo. */
  lemma NewThenDelete(help: string, p: int, text: string, m: Todos, freshId: string, other: string)
    requires IsFreshId(freshId, m)
    ensures var created := Run(help, NewTodo(p, text), m, freshId);
      Run(help, DeleteTodo(freshId), created.store, other) ==
      Outcome(Output(Deleted(Todo(p, text)), ""), m)
  {
    var s := Run(help, NewTodo(p, text), m, freshId).store;
    assert s - {freshId} == m;
  }

  /** After `new`, `list` has one more row, and one of them is the new todo. */
  lemma NewThenList(help: string, p: int, text: string, m: Todos, freshId: string)
    requires IsFreshId(freshId, m)
    ensures var s := Run(help, NewTodo(p, text), m, freshId).store;
      Entry(freshId, Todo(p, text)) in SortedEntries(s) &&
      |SortedEntries(s)| == |SortedEntries(m)| + 1
  {
    var s := Run(help, NewTodo(p, text), m, freshId).store;
    NewAddsOne(help, p, text, m, freshId);
    SortedEntriesLength(s);
    SortedEntriesLength(m);
  }

  /** After a successful `del`, no row of `list` carries the deleted ID. */
  lemma DeleteThenList(help: string, id: string, m: Todos)
    requires id in m
    ensures var s := Run(help, DeleteTodo(id), m, "").store;
      forall e :: e in SortedEntries(s) ==> e.id != id
  {
  }

  /** After `clear`, `list` finds no todos, whatever the store held. */
  lemma ClearThenList(help: string, m: Todos, freshId: string)
    ensures var s := Run(help, ClearTodos, m, freshId).store;
      s == map[] && Save(s) == JsonObject(map[]) &&
      Run(help, ListTodos, s, freshId).output == Output(NoTodos, "")
  {
  }

  /** The subcommands that write the store back to the data file. */
  predicate Rewrites(cmd: Command, m: Todos) {
    cmd.NewTodo? || (cmd.DeleteTodo? && cmd.id in m) || cmd.ClearTodos?
  }

  /**
   The command-line object. `file` is the data file on disk: every `Handle`
   reads it afresh, and `new`, a successful `del` and `clear` write it back;
   between calls anything else may replace it. `todos` is the store as the
   current call read and changed it.
   */
  class TodoApp {
    const help: string
    var file: DataFile
    var todos: Todos

    /** Nothing is read until the first command. */
    constructor (help: string, file: DataFile)
      ensures this.help == help && this.file == file && todos == map[]
    {
      this.help := help;
      this.file := file;
      todos := map[];
    }

    /** Reads the data file afresh. */
    method Read()
      modifies this
      ensures todos == Load(file) && file == old(file)
    {
      todos := Load(file);
    }

    method List() returns (out: Output)
      ensures out == Output(ListOutput(todos), "")
      ensures out.stdout == NoTodos <==> todos == map[]
    {
      out := Output(ListOutput(todos), "");
    }

    method New(priority: int, text: string, id: string) returns (out: Output)
      requires IsFreshId(id, todos)
      modifies this
      ensures todos == old(todos)[id := Todo(priority, text)] && file == Save(todos)
      ensures out == Output(Created(Todo(priority, text)), "")
    {
      todos := todos[id := Todo(priority, text)];
      file := Save(todos);
      out := Output(Created(Todo(priority, text)), "");
    }

    method Delete(id: string) returns (out: Output)
      modifies this
      ensures id in old(todos) ==>
        todos == old(todos) - {id} && file == Save(todos) && out == Output(Deleted(old(todos)[id]), "")
      ensures id !in old(todos) ==>
        todos == old(todos) && file == old(file) && out == Output(help, DeleteUsage)
    {
      if id in todos {
        out := Output(Deleted(todos[id]), "");
        todos := todos - {id};
        file := Save(todos);
      } else {
        out := Output(help, DeleteUsage);
      }
    }

    method Clear() returns (out: Output)
      modifies this
      ensures todos == map[] && file == Save(map[])
      ensures out == Output(Cleared, "")
    {
      todos := map[];
      file := Save(todos);
      out := Output(Cleared, "");
    }

    /**
     `Todo#handle`: read the data file, dispatch on the arguments, and write
     the store back when the subcommand changes it. Afterwards the data file
     holds exactly the store the command left.
     */
    method Handle(args: seq<string>, freshId: string) returns (stdout: string, stderr: string)
      requires ParseCommand(args).NewTodo? ==> IsFreshId(freshId, Load(file))
      modifies this
      ensures Outcome(Output(stdout, stderr), todos) == Run(help, ParseCommand(args), Load(old(file)), freshId)
      ensures file == if Rewrites(ParseCommand(args), Load(old(file))) then Save(todos) else old(file)
      ensures Load(file) == todos
    {
      Read();
      var out: Output;
      match ParseCommand(args) {
        case ShowHelp =>
          out := Output(help, "");
        case Unknown(token) =>
          out := Output(help, UnknownSubcommand(token));
        case ListTodos =>
          out := List();
        case NewTodo(p, text) =>
          out := New(p, text, freshId);
        case NewUsageError =>
          out := Output(help, NewUsage);
        case DeleteTodo(id) =>
          out := Delete(id);
        case DeleteUsageError =>
          out := Output(help, DeleteUsage);
        case ClearTodos =>
          out := Clear();
      }
      stdout, stderr := out.stdout, out.stderr;
    }
  }
}
