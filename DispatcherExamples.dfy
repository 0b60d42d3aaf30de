/**
 The dispatcher cases the test suite asserts, derived from `ParseCommand` and
 `Run`, and one invocation sequence driven through `TodoApp`.
 */
module DispatcherExamples {
  import opened Text
  import opened Store
  import opened Listing
  import opened Dispatcher
  import opened ListingExamples

  /** test_no_subcommand, test_help: the help text, nothing on standard error. */
  lemma NoSubcommandOrHelp(help: string, m: Todos, freshId: string)
    ensures Run(help, ParseCommand([]), m, freshId).output == Output(help, "")
    ensures Run(help, ParseCommand(["help"]), m, freshId).output == Output(help, "")
  {
  }

  /** test_invalid_subcommand. */
  lemma InvalidSubcommand(help: string, m: Todos, freshId: string)
    ensures Run(help, ParseCommand(["foo"]), m, freshId) ==
      Outcome(Output(help, "No valid subcommand `foo`."), m)
  {
  }

  /** test_list_no_datafile, test_list_empty_datafile, test_list_empty_json_object. */
  lemma ListEmptyStores(help: string, f: DataFile, freshId: string)
    requires f == NoFile || f == EmptyFile || f == JsonObject(map[])
    ensures Run(help, ParseCommand(["list"]), Load(f), freshId).output.stdout == "No todos!"
  {
  }

  /** test_new_no_arguments, test_new_no_text, test_new_invalid_priority. */
  lemma NewUsageErrors(help: string, m: Todos, freshId: string)
    ensures Run(help, ParseCommand(["new"]), m, freshId) == Outcome(Output(help, NewUsage), m)
    ensures Run(help, ParseCommand(["new", "1"]), m, freshId) == Outcome(Output(help, NewUsage), m)
    ensures Run(help, ParseCommand(["new", "qsf", "Foo"]), m, freshId) == Outcome(Output(help, NewUsage), m)
    ensures NewUsage == "Must pass an integer priority and text string."
  {
    assert !IsDigit('q');
  }

  lemma ParseOne()
    ensures ParseCommand(["new", "1", "Foo"]) == NewTodo(1, "Foo")
  {
    assert ParseInt("1") == Some(1);
  }

  lemma CreatedOneFoo()
    ensures Created(Todo(1, "Foo")) == "Created todo with priority 1: \"Foo\"."
  {
    assert IntToString(1) == "1";
  }

  /** test_new_no_datafile: one entry, under a four-character key, holding priority 1 and "Foo". */
  lemma NewOnEmptyStore(help: string, freshId: string)
    requires IsFreshId(freshId, map[])
    ensures var o := Run(help, ParseCommand(["new", "1", "Foo"]), Load(NoFile), freshId);
      o.store.Keys == {freshId} && |freshId| == 4 && o.store[freshId] == Todo(1, "Foo") &&
      o.output.stdout == "Created todo with priority 1: \"Foo\"."
  {
    ParseOne();
    CreatedOneFoo();
  }

  /** test_new_existing_datafile: the existing entry stays, the new one is added beside it. */
  lemma NewBesideExisting(help: string, freshId: string)
    requires IsFreshId(freshId, map["asdf" := Todo(3, "Bar")])
    ensures var o := Run(help, ParseCommand(["new", "1", "Foo"]), map["asdf" := Todo(3, "Bar")], freshId);
      |o.store| == 2 && freshId != "asdf" &&
      o.store["asdf"] == Todo(3, "Bar") && o.store[freshId] == Todo(1, "Foo") &&
      o.output.stdout == "Created todo with priority 1: \"Foo\"."
  {
    ParseOne();
    CreatedOneFoo();
    NewAddsOne(help, 1, "Foo", map["asdf" := Todo(3, "Bar")], freshId);
  }

  /** test_del_no_todo_id, test_del_no_datafile, test_del_no_todo_for_given_id. */
  lemma DeleteUsageErrors(help: string, freshId: string)
    ensures Run(help, ParseCommand(["del"]), map[], freshId).output == Output(help, DeleteUsage)
    ensures Run(help, ParseCommand(["del", "1234"]), Load(NoFile), freshId).output == Output(help, DeleteUsage)
    ensures Run(help, ParseCommand(["del", "1234"]), map["4567" := Todo(1, "Foo")], freshId) ==
      Outcome(Output(help, DeleteUsage), map["4567" := Todo(1, "Foo")])
    ensures DeleteUsage == "Must pass a valid todo id. See valid todo ids via the `list` subcommand."
  {
  }

  lemma DeletedOneFoo()
    ensures Deleted(Todo(1, "Foo")) == "Deleted todo with priority 1: \"Foo\"."
  {
    assert IntToString(1) == "1";
  }

  /** test_del_valid_todo_id: only "othr" remains, and the removed todo is reported. */
  lemma DeleteValidId(help: string, freshId: string)
    ensures Run(help, ParseCommand(["del", "1234"]),
                map["1234" := Todo(1, "Foo"), "othr" := Todo(3, "Bar")], freshId) ==
      Outcome(Output("Deleted todo with priority 1: \"Foo\".", ""), map["othr" := Todo(3, "Bar")])
  {
    DeletedOneFoo();
    var m := map["1234" := Todo(1, "Foo"), "othr" := Todo(3, "Bar")];
    assert m - {"1234"} == map["othr" := Todo(3, "Bar")];
  }

  /** test_clear: the store is written back as `{}`. */
  lemma ClearAny(help: string, m: Todos, freshId: string)
    ensures var o := Run(help, ParseCommand(["clear"]), m, freshId);
      o.output == Output("Cleared all todos.", "") && Save(o.store) == JsonObject(map[])
  {
  }

  /**
   test_list_basic: the object is made before the data file is written, and
   each `list` reads the file as it is at that call.
   */
  method ListBeforeAndAfterWrite(help: string) returns (before: string, after: string)
    ensures before == "No todos!"
    ensures after ==
      "Priority  ID    Todo\n" +
      ("       1  1234  Foo\n" + ("       3  4567  Bar\n" + "")) +
      ("\n" + "Missing priorities:\n" + "2" + "\n")
  {
    var app := new TodoApp(help, NoFile);
    var err;
    before, err := app.Handle(["list"], "");
    app.file := JsonObject(BasicStore());
    after, err := app.Handle(["list"], "");
    ListBasic();
  }

  /** Create, list, delete and list again on a fresh data file. */
  method Session(help: string) returns (created: string, listed: string, deleted: string, relisted: string)
    ensures created == "Created todo with priority 1: \"Foo\"."
    ensures listed == "Priority  ID    Todo\n" + ("       1  1234  Foo\n" + "")
    ensures deleted == "Deleted todo with priority 1: \"Foo\"."
    ensures relisted == "No todos!"
  {
    var app := new TodoApp(help, NoFile);
    var err;
    ParseOne();
    created, err := app.Handle(["new", "1", "Foo"], "1234");
    CreatedOneFoo();
    assert Load(app.file) == map["1234" := Todo(1, "Foo")];
    assert ParseCommand(["list"]) == ListTodos;
    listed, err := app.Handle(["list"], "");
    ListSingle();
    assert ParseCommand(["del", "1234"]) == DeleteTodo("1234");
    deleted, err := app.Handle(["del", "1234"], "");
    DeletedOneFoo();
    assert Load(app.file) == map[];
    relisted, err := app.Handle(["list"], "");
  }
}
