/**
 The persisted store: a map from a todo's short ID to its priority and text.
 The JSON file behind it is represented only by the three shapes the
 command line distinguishes when it reads the file back.
 */
module Store {

  /** One stored todo, the value half of a `"<id>": {"priority": p, "text": t}` pair. */
  datatype Todo = Todo(priority: int, text: string)

  type Todos = map<string, Todo>

  /** What the data file can hold when a command starts. */
  datatype DataFile =
    | NoFile                    // the file does not exist
    | EmptyFile                 // the file exists and holds the empty string
    | JsonObject(entries: Todos) // the file holds a JSON object (possibly `{}`)

  /** Reading the data file: a missing file and an empty file both mean "no todos". */
  function Load(f: DataFile): (m: Todos)
    ensures f.JsonObject? ==> m == f.entries
    ensures m == map[] <==> (f.NoFile? || f.EmptyFile? || f.entries == map[])
  {
    match f
    case NoFile => map[]
    case EmptyFile => map[]
    case JsonObject(entries) => entries
  }

  /** Writing the store back always produces a JSON object; `{}` when it is empty. */
  function Save(m: Todos): (f: DataFile)
    ensures Load(f) == m
    ensures m == map[] ==> f == JsonObject(map[])
  {
    JsonObject(m)
  }

  /** IDs are four characters long; a new one must not collide with a stored one. */
  const IdLength := 4

  predicate IsFreshId(id: string, m: Todos) {
    |id| == IdLength && id !in m
  }
}
