# A verified model of the `todo` command line

`todo` is a small command-line todo list written in Ruby. It keeps its items
in one JSON file. Each item is stored under a random four-character ID and
holds an integer priority and a text. `Todo#handle(args)` takes the argument
list and returns a standard-output text and a standard-error text. The
subcommands are `help`, `list`, `new <priority> <text>`, `del <id>` and
`clear`.

The program's behaviour is known from its test suite, `test.rb`. This project
models that behaviour in Dafny:

- `Text` models the string helpers the output uses. These are integer
  printing and parsing, Ruby's `rjust`/`ljust` and `join`, and the
  code-point order on strings.
- `Store` models the store as a map from ID to `Todo(priority, text)`. It also
  models the three shapes of data file the tests set up: no file, an empty
  file, and a JSON object. The first two load as the empty store.
- `Listing` models the `list` output:
  - the table is sorted by priority, and equal priorities by ID;
  - each row is aligned under the `Priority  ID    Todo` header;
  - an optional "Missing priorities" section follows the table.
- `Dispatcher` models the dispatch in three layers:
  - `ParseCommand` maps the argument list to a subcommand;
  - `Run` gives the output and the resulting store as a function of that
    subcommand and the stored map;
  - `TodoApp` is the object the tests create once and call repeatedly. Its
    `file` field is the data file on disk. Every `Handle` call reads that
    file afresh, runs the subcommand on the store in place, and writes the
    store back after `new`, a successful `del` and `clear`. `Handle` is proved
    to agree with `Run`. A test that writes the data file between two calls
    is modelled as an assignment to `file`.
- `ListingExamples` and `DispatcherExamples` derive the test suite's expected
  outputs and stores from the general definitions.

## Model

| member | source | states |
|---|---|---|
| Store.Load | test.rb:33-53 | A missing file, an empty file and `{}` all load as the empty store; a JSON object loads as its entries |
| Store.Save | test.rb:222-231 | Saving and loading gives back the same store; an empty store is written as the JSON object `{}` |
| Text.ParseIntOfIntToString | test.rb:146-163 | Reading back a printed integer gives the integer, so a priority survives `new` and its confirmation message |
| Text.ParseInt | test.rb:146-154 | A priority is accepted only as an optional `-` followed by at least one digit, so `qsf` and a lone `-` are rejected. A numeral without a leading zero reads as its decimal value; one with a leading zero reads as octal when all its digits are octal and is rejected otherwise, as Ruby's `Integer()` does |
| Text.ParseIntExamples | test.rb:146-154 | `010` reads as 8 and `-010` as -8, `0` as 0, and `08`, `x1`, `+1` and `-` are rejected |
| Text.IntToString | test.rb:162 | A printed integer is non-empty, begins with `-` exactly when it is negative, and is otherwise all digits |
| Text.NatToString | test.rb:67-74 | A printed natural number is all digits, without a leading zero unless it is 0 |
| Text.DigitsValueOfNatToString | test.rb:146-163 | The digit string of a natural number evaluates back to that number |
| Text.RightJustify | test.rb:67-70 | Left-padding keeps the string as the suffix, pads with spaces only, and reaches the width unless the string is longer |
| Text.LeftJustify | test.rb:67-70 | Right-padding keeps the string as the prefix, pads with spaces only, and reaches the width unless the string is longer |
| Text.JoinEnds | test.rb:126 | A join starts with the first part, ends with the last, and has the separator right after the first part |
| Text.JoinAppend | test.rb:126 | Joining two non-empty lists puts exactly one separator between their joins |
| Text.LexLessIrreflexive | test.rb:116-123 | No ID sorts before itself |
| Text.LexLessAsymmetric | test.rb:116-123 | Two IDs never sort before each other |
| Text.LexLessTransitive | test.rb:116-123 | The ID order is transitive |
| Text.LexLessTotal | test.rb:116-123 | Of two different IDs, one sorts before the other |
| Listing.PrecedesIrreflexive | test.rb:116-123 | No row precedes itself in the listing order |
| Listing.PrecedesAsymmetric | test.rb:116-123 | Two rows never precede each other |
| Listing.PrecedesTransitive | test.rb:116-123 | The listing order is transitive |
| Listing.PrecedesTotal | test.rb:116-123 | Of two rows with different IDs, one precedes the other |
| Listing.FirstExists | test.rb:116-123 | Every non-empty store has an entry that precedes all the others |
| Listing.FirstUnique | test.rb:116-123 | That first entry is unique |
| Listing.SortedFromAdjacent | test.rb:116-123 | A sequence where each row precedes the next is sorted |
| Listing.SortedEntries | test.rb:100-130 | The rows list every entry of the store exactly once, and each row precedes every later one |
| Listing.SortedEntriesLength | test.rb:116-123 | There is one row per stored todo |
| Listing.HeadIsFirst | test.rb:116-123 | The first row of a sorted enumeration is the store's first entry |
| Listing.TailListsExactly | test.rb:116-123 | Removing the first row of an exact enumeration enumerates the rest of the store |
| Listing.SortedEntriesUnique | test.rb:100-130 | Any sorted enumeration of the store is the listing order, so the order is fully determined |
| Listing.MaxPriority | test.rb:116-127 | Some todo has the highest priority, and every todo's priority is at most that |
| Listing.GapsMembers | test.rb:72-73 | The gaps of `[lo, hi)` are exactly the integers of that range that no todo uses |
| Listing.GapsIncreasing | test.rb:125-126 | The gaps come in strictly ascending order |
| Listing.MissingPriorities | test.rb:55-130 | An integer is missing exactly when it is at least 1, no todo uses it, and some todo has a higher priority; the list is ascending |
| Listing.IncreasingUnique | test.rb:125-126 | An ascending list is determined by its elements, so the missing-priority line is fully determined |
| Listing.FieldsAt | test.rb:67-70 | An 8-wide field, two spaces, a 4-wide field and two spaces put the next text at column 16 |
| Listing.HeaderColumns | test.rb:68 | In the header, "Priority" fills columns 0-7, "ID" starts at column 10 and "Todo" at column 16 |
| Listing.Row | test.rb:67-70 | A row ends with the todo's text followed by a newline, and is at least as wide as the three columns |
| Listing.RowColumns | test.rb:67-70 | A row's priority is right-aligned under "Priority" with spaces to its left, its ID is left-aligned under "ID" with spaces to column 14, the columns are separated by two spaces, and the text starts under "Todo" |
| Listing.Rows | test.rb:67-74 | The table body ends with a newline whenever it has a row |
| Listing.NumeralsSpec | test.rb:125-126 | There is one numeral per missing priority, and each is that priority printed in decimal, in the same order |
| Listing.NumeralsAppend | test.rb:125-126 | Printing the numbers of a concatenation prints each part in turn |
| Listing.MissingSection | test.rb:79-98 | The missing-priority section is absent exactly when no priority is missing |
| Listing.ListOutput | test.rb:33-130 | The output is `No todos!` exactly when the store is empty; otherwise it ends with a newline |
| ListingExamples.SortedAs | test.rb:100-130 | A sequence that enumerates the store with each row preceding the next is the listing order |
| ListingExamples.BasicSorted | test.rb:55-70 | Priorities 1 and 3 are listed in that order |
| ListingExamples.BasicMissing | test.rb:72-73 | With priorities 1 and 3, only 2 is missing |
| ListingExamples.RowOneFoo | test.rb:69 | The row for `1234`, priority 1, `Foo` |
| ListingExamples.RowThreeBar | test.rb:70 | The row for `4567`, priority 3, `Bar` |
| ListingExamples.NumeralTwo | test.rb:73 | The missing-priority line of `[2]` is `2` |
| ListingExamples.BasicMissingText | test.rb:71-73 | A blank line, the heading, then `2` |
| ListingExamples.BasicText | test.rb:69-70 | The two rows of the basic listing |
| ListingExamples.ListBasic | test.rb:55-77 | The complete expected output of the basic listing |
| ListingExamples.ListSingle | test.rb:67-70 | A store holding only `1234` at priority 1 is listed as the header and that one row, in the row format of the listing tests, with no missing priorities |
| ListingExamples.NoGapSorted | test.rb:79-94 | Priorities 1 and 2 are listed in that order |
| ListingExamples.NoGapMissing | test.rb:79-95 | With priorities 1 and 2, nothing is missing |
| ListingExamples.RowTwoBar | test.rb:94 | The row for `4567`, priority 2, `Bar` |
| ListingExamples.NoGapText | test.rb:93-94 | The two rows of the no-gap listing |
| ListingExamples.ListNoMissingPriorities | test.rb:79-98 | The complete expected output, with no missing-priority section |
| ListingExamples.ComplexSorted | test.rb:100-123 | The six todos come out in the expected order, with `1234` before `8b42` at priority 12 |
| ListingExamples.ComplexPriorities | test.rb:103-110 | The priorities in use are 5, 7, 9, 12 and 16 |
| ListingExamples.ComplexGaps | test.rb:125-126 | The gaps below 16 are 1, 2, 3, 4, 6, 8, 10, 11, 13, 14 and 15 |
| ListingExamples.UpperGaps | test.rb:126 | The gaps from 9 to 15 are 10, 11, 13, 14 and 15 |
| ListingExamples.ComplexMissing | test.rb:100-127 | The missing priorities of the complex store are those eleven numbers |
| ListingExamples.Twelve | test.rb:121-122 | 12 is printed as `12` |
| ListingExamples.Sixteen | test.rb:123 | 16 is printed as `16` |
| ListingExamples.RowFive | test.rb:118 | The row for `92f2`, priority 5, `1251` |
| ListingExamples.RowSeven | test.rb:119 | The row for `as43`, priority 7, `Bar` |
| ListingExamples.RowNine | test.rb:120 | The row for `4567`, priority 9, `Foo` |
| ListingExamples.ComplexTiedRows | test.rb:121-122 | The two rows at priority 12, including the one with empty text |
| ListingExamples.RowSixteen | test.rb:123 | The row for `rc23`, priority 16, with its punctuation-heavy text |
| ListingExamples.ComplexLastRows | test.rb:122-123 | The last two rows of the complex listing |
| ListingExamples.ComplexTopText | test.rb:121-123 | The last three rows of the complex listing |
| ListingExamples.ComplexText | test.rb:118-123 | All six rows of the complex listing, in order |
| ListingExamples.TwoDigitNumerals | test.rb:126 | 10, 11, 13, 14 and 15 are printed with two digits |
| ListingExamples.SmallNumerals | test.rb:126 | The one-digit missing priorities are printed as `1` to `8` |
| ListingExamples.LargeNumerals | test.rb:126 | The two-digit missing priorities are printed as `10` to `15` |
| ListingExamples.ComplexNumerals | test.rb:126 | The eleven missing priorities are printed in order |
| ListingExamples.SmallMissingText | test.rb:126 | The first six numbers of the line, separated by `, ` |
| ListingExamples.LargeMissingText | test.rb:126 | The last five numbers of the line, separated by `, ` |
| ListingExamples.ComplexMissingText | test.rb:126 | The missing-priority line is `1, 2, 3, 4, 6, 8, 10, 11, 13, 14, 15` |
| ListingExamples.ListComplex | test.rb:100-130 | The complete expected output of the complex listing: the header, the six rows character by character, the blank line, the heading and the line of eleven missing priorities |
| Dispatcher.ParseCommand | test.rb:14-31 | Each subcommand is selected by exactly its condition: help for no token or `help`; `list`; `clear`; `new` with a parseable priority and a text, otherwise the `new` usage error; `del` with an ID, otherwise (a bare `del`) the `del` usage error; unknown for any other token |
| Dispatcher.Run | test.rb:14-231 | No subcommand changes or drops an existing todo other than by removing it, and nothing but the fresh ID is ever added; standard error is empty unless standard output is the help text |
| Dispatcher.MessagesIdentify | test.rb:162 | The `new` report (test.rb line 162) and the `del` report (line 219) name their todo unambiguously: equal reports mean equal todos, and the two reports never coincide. The unknown-subcommand message (line 23) names its token |
| Dispatcher.ColonEndsPriority | test.rb:162 | A report's priority and text can be read back from it, because the printed priority never contains the `:` that follows it |
| Dispatcher.UsageErrors | test.rb:20-25 | Something goes to standard error exactly on a usage error; the output is then the help text and the store is left unchanged |
| Dispatcher.OnlyMutationsChangeStore | test.rb:132-207 | Only `new`, a `del` of a stored ID and `clear` can change the store |
| Dispatcher.NewAddsOne | test.rb:153-182 | A valid `new` adds one entry under an unused four-character ID and keeps every other entry |
| Dispatcher.DeleteRemovesOne | test.rb:209-220 | A `del` of a stored ID removes exactly that entry, keeps the others, and reports the removed todo |
| Dispatcher.NewThenDelete | test.rb:153-220 | Deleting the ID that `new` just created restores the store and reports the created todo |
| Dispatcher.NewThenList | test.rb:153-163 | After `new`, the listing has one more row, and one row is the new todo |
| Dispatcher.DeleteThenList | test.rb:209-220 | After a successful `del`, no row of the listing has the deleted ID |
| Dispatcher.ClearThenList | test.rb:222-231 | After `clear`, the file holds `{}` and `list` prints `No todos!` |
| Dispatcher.TodoApp.constructor | test.rb:5-8 | Creating the object reads nothing: it only records the help text and the data file as they are |
| Dispatcher.TodoApp.Read | test.rb:63-65 | Each call starts from the data file as it is at that moment |
| Dispatcher.TodoApp.List | test.rb:33-130 | Prints the listing of the current store, and `No todos!` exactly when it is empty |
| Dispatcher.TodoApp.New | test.rb:153-182 | Adds the todo under the fresh ID, writes the store back to the data file and confirms it |
| Dispatcher.TodoApp.Delete | test.rb:184-220 | Removes and reports a stored ID and writes the store back; for an unknown ID, leaves the store and the file alone and returns the usage error |
| Dispatcher.TodoApp.Clear | test.rb:222-231 | Empties the store, writes `{}` to the data file and confirms it |
| Dispatcher.TodoApp.Handle | test.rb:14-231 | The printed texts and the new store are exactly those that `Run` gives for the parsed arguments and the store read from the data file at this call. The file is rewritten exactly by `new`, a successful `del` and `clear`, and afterwards it always holds the new store |
| DispatcherExamples.NoSubcommandOrHelp | test.rb:14-31 | No arguments, and `help`, print the help text |
| DispatcherExamples.InvalidSubcommand | test.rb:20-25 | `foo` prints the help text and reports the invalid subcommand on standard error |
| DispatcherExamples.ListEmptyStores | test.rb:33-53 | With no file, an empty file or `{}`, `list` prints `No todos!` |
| DispatcherExamples.NewUsageErrors | test.rb:132-151 | `new` with no arguments, with no text, or with priority `qsf` prints the help text and the `new` usage message |
| DispatcherExamples.ParseOne | test.rb:153-154 | `new 1 Foo` parses as priority 1 and text `Foo` |
| DispatcherExamples.CreatedOneFoo | test.rb:162 | The confirmation for priority 1 and `Foo` |
| DispatcherExamples.NewOnEmptyStore | test.rb:153-163 | On a missing file, `new 1 Foo` leaves one four-character ID holding priority 1 and `Foo` |
| DispatcherExamples.NewBesideExisting | test.rb:165-182 | Beside `asdf`, `new 1 Foo` leaves two entries and keeps `asdf` as it was |
| DispatcherExamples.DeleteUsageErrors | test.rb:184-207 | `del` with no ID, with no file, or with an unknown ID prints the help text and the `del` usage message |
| DispatcherExamples.DeletedOneFoo | test.rb:219 | The deletion report for priority 1 and `Foo` |
| DispatcherExamples.DeleteValidId | test.rb:209-220 | Deleting `1234` leaves only `othr` and reports the removed todo |
| DispatcherExamples.ClearAny | test.rb:222-231 | `clear` confirms and leaves the file holding `{}` |
| DispatcherExamples.ListBeforeAndAfterWrite | test.rb:55-77 | With the object made before the file is written, the first `list` prints `No todos!` and the `list` after the write prints the full basic listing |
| DispatcherExamples.Session | test.rb:153-231 | On a fresh file, `new 1 Foo`, `list`, `del` of the new ID and `list` print the confirmation, the one-row listing, the deletion report and `No todos!` |

## Left out

- JSON text encoding and decoding, and the file reads and writes, are left out. The store is the decoded map, and the file is one of the three shapes in `Store.DataFile`.
- A data file with malformed JSON, and failed writes, are left out. The tests never produce them.
- Random ID generation is left out. The ID is a parameter of `Run`, `TodoApp.New` and `TodoApp.Handle`. For a valid `new`, it must be four characters long and not already in use. The alphanumeric alphabet and the retry on a collision are not modelled.
- The help text's wording is left out. It is a parameter.
- Dispatcher.ParseCommand: a priority is an optional `-` followed by digits, read as decimal, or as octal when it has a leading zero (so `010` is 8 and `08` is rejected). The other spellings that Ruby's `Integer()` accepts are not modelled: a leading `+`, surrounding whitespace, underscores, and the `0x`, `0o`, `0b` and `0d` prefixes.
- Text.ParseInt: reading a leading zero as octal assumes the priority is parsed with Ruby's `Integer()`. The tests only show that `1` is accepted and `qsf` rejected, so a plain base-10 reading of `010` as 10 is equally consistent with them.
- Dispatcher.ParseCommand: extra arguments after `new <priority> <text>` and after `del <id>` are ignored. The tests never pass extra arguments.
- Listing.SortedEntries: equal priorities are ordered by ascending ID, by code point. In the only test with a tie, this order and the data file's insertion order agree, so the tests cannot tell the two apart.
- Dispatcher.TodoApp.Handle: a test writing the data file between calls is modelled as an assignment to the object's `file` field. The file system itself is not modelled.
- Concurrent invocations on the same data file are left out.
