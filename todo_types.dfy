/** The TaskFlow domain: priorities, todos, categories, the store that holds both, and the
    built-in data the application starts from. Timestamps and due dates are ISO-8601 strings. */
module TodoTypes {
  import opened Wrappers

  datatype Priority = Low | Medium | High

  datatype Todo = Todo(
    id: string,
    title: string,
    description: string,
    priority: Priority,
    categoryId: Option<string>,   // None: uncategorised
    dueDate: Option<string>,
    completed: bool,
    createdAt: string,
    updatedAt: string)

  /** A category has a creation time but, unlike a todo, no update time. */
  datatype Category = Category(id: string, name: string, color: string, createdAt: string)

  /** The unit of persistence: all todos and all categories, each list in insertion order. */
  datatype TodoStore = TodoStore(todos: seq<Todo>, categories: seq<Category>)

  /** The fields a caller supplies to create a todo (everything but the id and the timestamps). */
  datatype TodoDraft = TodoDraft(
    title: string,
    description: string,
    priority: Priority,
    categoryId: Option<string>,
    dueDate: Option<string>,
    completed: bool)

  /** The fields an update may overwrite; `None` leaves the field as it is. A supplied
      `updatedAt` is accepted by the type but always overridden by the update's own clock. */
  datatype TodoPatch = TodoPatch(
    title: Option<string>,
    description: Option<string>,
    priority: Option<Priority>,
    categoryId: Option<Option<string>>,
    dueDate: Option<Option<string>>,
    completed: Option<bool>,
    updatedAt: Option<string>)

  datatype CategoryDraft = CategoryDraft(name: string, color: string)

  datatype CategoryPatch = CategoryPatch(name: Option<string>, color: Option<string>)

  /** The serialised name of a priority. */
  function PriorityName(p: Priority): string {
    match p
    case Low => "low"
    case Medium => "medium"
    case High => "high"
  }

  /** Reads a serialised priority: exactly the three names are accepted. */
  function ParsePriority(s: string): (r: Option<Priority>)
    ensures r.Some? <==> s == "low" || s == "medium" || s == "high"
    ensures r.Some? ==> PriorityName(r.value) == s
  {
    if s == "low" then Some(Low)
    else if s == "medium" then Some(Medium)
    else if s == "high" then Some(High)
    else None
  }

  lemma PriorityNameRoundTrip(p: Priority)
    ensures ParsePriority(PriorityName(p)) == Some(p)
  {
  }

  /** The colour shown for each priority. */
  function PriorityColor(p: Priority): string {
    match p
    case Low => "oklch(0.6 0.15 150)"
    case Medium => "oklch(0.7 0.15 45)"
    case High => "oklch(0.65 0.15 25)"
  }

  /** Every priority has its own colour. */
  lemma PriorityColorsDistinct(p: Priority, q: Priority)
    ensures p != q ==> PriorityColor(p) != PriorityColor(q)
  {
  }

  /** The ids of a list of todos. */
  function TodoIds(todos: seq<Todo>): set<string> {
    set i | 0 <= i < |todos| :: todos[i].id
  }

  function CategoryIds(categories: seq<Category>): set<string> {
    set i | 0 <= i < |categories| :: categories[i].id
  }

  predicate UniqueTodoIds(todos: seq<Todo>) {
    forall i, j :: 0 <= i < j < |todos| ==> todos[i].id != todos[j].id
  }

  predicate UniqueCategoryIds(categories: seq<Category>) {
    forall i, j :: 0 <= i < j < |categories| ==> categories[i].id != categories[j].id
  }

  /** One day in milliseconds: the seed's first todo is due this long after load time. */
  const DayMillis: nat := 86400000

  /** The instant the seed data were built at, in milliseconds since the epoch, with
      `toISOString` as a function of such an instant. */
  datatype LoadTime = LoadTime(millis: int, toIso: int -> string) {
    /** `new Date().toISOString()` at load time. */
    function Now(): string {
      toIso(millis)
    }

    /** `new Date(Date.now() + 86400000).toISOString()`: one day after load time. */
    function DayLater(): string {
      toIso(millis + DayMillis)
    }
  }

  /** The five built-in categories. */
  function DefaultCategories(t: LoadTime): (r: seq<Category>)
    ensures |r| == 5 && UniqueCategoryIds(r)
    ensures r[0].id == "work" && r[1].id == "personal" && r[2].id == "shopping"
    ensures r[3].id == "health" && r[4].id == "projects"
    ensures forall i :: 0 <= i < |r| ==> r[i].createdAt == t.Now()
  {
    [ Category("work", "Work", "oklch(0.6 0.15 200)", t.Now()),
      Category("personal", "Personal", "oklch(0.65 0.15 320)", t.Now()),
      Category("shopping", "Shopping", "oklch(0.55 0.15 120)", t.Now()),
      Category("health", "Health", "oklch(0.6 0.15 140)", t.Now()),
      Category("projects", "Projects", "oklch(0.7 0.15 60)", t.Now()) ]
  }

  /** The three sample todos: open, uncategorised, and only the first has a due date. */
  function SeedTodos(t: LoadTime): (r: seq<Todo>)
    ensures |r| == 3 && UniqueTodoIds(r)
    ensures r[0].id == "todo-1" && r[1].id == "todo-2" && r[2].id == "todo-3"
    ensures forall i :: 0 <= i < |r| ==> !r[i].completed && r[i].categoryId.None?
    ensures r[0].dueDate == Some(t.toIso(t.millis + DayMillis)) && r[1].dueDate.None? && r[2].dueDate.None?
    ensures forall i :: 0 <= i < |r| ==> r[i].createdAt == r[i].updatedAt == t.Now()
  {
    [ Todo("todo-1", "Welcome to TaskFlow!",
           "This is your first task. Feel free to edit or delete it.",
           Medium, None, Some(t.DayLater()), false, t.Now(), t.Now()),
      Todo("todo-2", "Try creating a new task",
           "Click the 'Add Task' button to create your first task.",
           Low, None, None, false, t.Now(), t.Now()),
      Todo("todo-3", "Explore categories",
           "Organize your tasks by categories for better management.",
           Medium, None, None, false, t.Now(), t.Now()) ]
  }

  /** The store `loadStore` falls back to. */
  function SeedStore(t: LoadTime): TodoStore {
    TodoStore(SeedTodos(t), DefaultCategories(t))
  }
}
