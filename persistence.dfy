/** Persistence of the TaskFlow store in browser storage: one serialised store under
    `taskflow-store`, a one-time migration from two legacy keys guarded by the sentinel key
    `taskflow-migrated`, and the create / update / delete / toggle operations, each of which
    computes a new store and writes all of it back.

    Each storage operation has a specification function that gives its result and the storage
    contents afterwards from the contents before (`Save`, `Migrate`, `Load`, `Clear`, `Commit`)
    and a method, working on the `Storage` object step by step as the source does, proved
    equal to it. The list operations are pure: a `Change` is the value an operation returns
    together with the store it hands to `saveStore`, if any. */
module Persistence {
  import opened Wrappers
  import opened Lists
  import opened TodoTypes
  import opened BrowserStorage

  const StoreKey := "taskflow-store"
  const MigrationKey := "taskflow-migrated"
  const LegacyTodosKey := "taskflow-todos"
  const LegacyCategoriesKey := "taskflow-categories"
  /** The key `getStorage` writes and removes again to check that storage works. */
  const ProbeKey := "__storage_test__"

  datatype ErrorCode = QuotaExceeded | ParseError | StorageUnavailable

  /** The typed error the persistence module throws. */
  datatype PersistenceError = PersistenceError(message: string, code: ErrorCode)

  const UnavailableError := PersistenceError("Storage unavailable", StorageUnavailable)

  /** The error `saveStore` throws for a write the medium did not accept: only a quota
      rejection is reported as such; every other failure counts as unavailable storage. */
  function WriteError(o: WriteOutcome): (e: PersistenceError)
    requires o != Written
    ensures e.code == QuotaExceeded <==> o == QuotaRejected
    ensures e.code == StorageUnavailable <==> o == Refused
  {
    match o
    case QuotaRejected => PersistenceError("Storage quota exceeded", QuotaExceeded)
    case Refused => PersistenceError("Failed to save to storage", StorageUnavailable)
  }

  /** What `JSON.parse` of the stored text gives, as far as `loadStore` looks at it: the parse
      throws, or the value's `todos` or `categories` is not an array, or both are arrays. */
  datatype ParseResult = Unparsable | NotAStore | Parsed(store: TodoStore)

  /** JSON serialisation, taken as given: `stringify` for the store, `parse` for the stored
      store, and the two parses of the legacy lists (`None`: the parse throws). */
  datatype Codec = Codec(
    stringify: TodoStore -> string,
    parse: string -> ParseResult,
    parseTodos: string -> Option<seq<Todo>>,
    parseCategories: string -> Option<seq<Category>>)
  {
    /** Serialising never gives the empty string, and parsing reads back what was written. */
    ghost predicate Lawful() {
      forall s: TodoStore :: stringify(s) != "" && parse(stringify(s)) == Parsed(s)
    }
  }

  /** JavaScript truthiness of a `getItem` result: present and not the empty string. */
  predicate Truthy(v: Option<string>) {
    v.Some? && v.value != ""
  }

  // ---------------------------------------------------------------------------------------
  // Storage operations: specifications

  /** `getStorage()`: whether storage is usable, and the contents after the probe. */
  function Probe(available: bool, items: map<string, string>): (r: (bool, map<string, string>))
    ensures r.0 == available
    ensures forall k :: k != ProbeKey ==> Lookup(r.1, k) == Lookup(items, k)
    ensures ProbeKey !in r.1 || !available
  {
    if available then (true, items - {ProbeKey}) else (false, items)
  }

  /** `saveStore`: writes `blob` under `StoreKey`, and nothing else, or reports why not. */
  function Save(available: bool, verdict: Verdict, items: map<string, string>, blob: string)
    : (r: (Outcome<PersistenceError>, map<string, string>))
    ensures !available ==> r == (Fail(UnavailableError), items)
    ensures r.0.Pass? <==> available && verdict(items - {ProbeKey}, StoreKey, blob) == Written
    ensures r.0.Fail? && r.0.error.code == QuotaExceeded
        <==> available && verdict(items - {ProbeKey}, StoreKey, blob) == QuotaRejected
    ensures r.0.Fail? ==> r.0.error.code != ParseError
    ensures r.0.Pass? ==> Lookup(r.1, StoreKey) == Some(blob)
    ensures r.0.Fail? ==> Lookup(r.1, StoreKey) == Lookup(items, StoreKey)
    ensures forall k :: k != StoreKey && k != ProbeKey ==> Lookup(r.1, k) == Lookup(items, k)
  {
    var (ok, items1) := Probe(available, items);
    if !ok then (Fail(UnavailableError), items1)
    else
      var (o, items2) := Store(verdict, items1, StoreKey, blob);
      (if o == Written then Pass else Fail(WriteError(o)), items2)
  }

  /** `migrateLegacyData`: when a legacy key holds data, the merged store (the missing half
      from `seed`) and the contents with both legacy keys removed. A legacy value that does not
      parse abandons the migration before anything is removed. */
  function Migrate(items: map<string, string>, codec: Codec, seed: TodoStore)
    : (r: (Option<TodoStore>, map<string, string>))
  {
    var legacyTodos := Lookup(items, LegacyTodosKey);
    var legacyCategories := Lookup(items, LegacyCategoriesKey);
    if !Truthy(legacyTodos) && !Truthy(legacyCategories) then (None, items)
    else
      var todos := if Truthy(legacyTodos) then codec.parseTodos(legacyTodos.value)
                   else Some(seed.todos);
      var categories := if Truthy(legacyCategories) then codec.parseCategories(legacyCategories.value)
                        else Some(seed.categories);
      if todos.None? || categories.None? then (None, items)
      else (Some(TodoStore(todos.value, categories.value)),
            items - {LegacyTodosKey} - {LegacyCategoriesKey})
  }

  /** How `loadStore` reads the stored text: missing, empty, unparsable or of the wrong shape
      gives `seed`. */
  function Interpret(blob: Option<string>, codec: Codec, seed: TodoStore): TodoStore {
    if !Truthy(blob) then seed
    else match codec.parse(blob.value)
      case Parsed(s) => s
      case _ => seed
  }

  /** `loadStore`: the store it returns and the contents afterwards. Every failure on the way
      (a throwing parse, a rejected write) ends in `seed`; nothing escapes as an error. */
  function Load(available: bool, verdict: Verdict, items: map<string, string>, codec: Codec, seed: TodoStore)
    : (r: (TodoStore, map<string, string>))
  {
    var (ok, items1) := Probe(available, items);
    if !ok then (seed, items1)
    else if Truthy(Lookup(items1, MigrationKey)) then
      (Interpret(Lookup(items1, StoreKey), codec, seed), items1)
    else
      var (legacy, items2) := Migrate(items1, codec, seed);
      if legacy.Some? then
        var (saved, items3) := Save(available, verdict, items2, codec.stringify(legacy.value));
        if saved.Fail? then (seed, items3)
        else
          var (o, items4) := Store(verdict, items3, MigrationKey, "true");
          (if o == Written then legacy.value else seed, items4)
      else
        var (o, items3) := Store(verdict, items2, MigrationKey, "true");
        (if o == Written then Interpret(Lookup(items3, StoreKey), codec, seed) else seed, items3)
  }

  /** `clearAllData`: removes the stored store and nothing else of the application's. */
  function Clear(available: bool, items: map<string, string>): (r: map<string, string>)
    ensures forall k :: k != StoreKey && k != ProbeKey ==> Lookup(r, k) == Lookup(items, k)
    ensures available ==> StoreKey !in r
    ensures !available ==> r == items
  {
    var (ok, items1) := Probe(available, items);
    if ok then items1 - {StoreKey} else items1
  }

  // ---------------------------------------------------------------------------------------
  // Storage operations: the methods

  method GetStorage(ls: Storage) returns (ok: bool)
    modifies ls
    ensures (ok, ls.items) == Probe(ls.available, old(ls.items))
  {
    if !ls.available {
      return false;
    }
    // The probe's write is accepted (that is what `available` records); its removal is what remains.
    ls.RemoveItem(ProbeKey);
    return true;
  }

  method SaveStore(ls: Storage, codec: Codec, store: TodoStore) returns (r: Outcome<PersistenceError>)
    modifies ls
    ensures (r, ls.items) == Save(ls.available, ls.verdict, old(ls.items), codec.stringify(store))
  {
    var ok := GetStorage(ls);
    if !ok {
      return Fail(UnavailableError);
    }
    var o := ls.SetItem(StoreKey, codec.stringify(store));
    if o == Written {
      r := Pass;
    } else {
      r := Fail(WriteError(o));
    }
  }

  method MigrateLegacyData(ls: Storage, codec: Codec, seed: TodoStore) returns (r: Option<TodoStore>)
    modifies ls
    ensures (r, ls.items) == Migrate(old(ls.items), codec, seed)
  {
    var legacyTodos := ls.GetItem(LegacyTodosKey);
    var legacyCategories := ls.GetItem(LegacyCategoriesKey);
    if !Truthy(legacyTodos) && !Truthy(legacyCategories) {
      return None;
    }
    var todos := if Truthy(legacyTodos) then codec.parseTodos(legacyTodos.value) else Some(seed.todos);
    if todos.None? {
      return None;
    }
    var categories := if Truthy(legacyCategories) then codec.parseCategories(legacyCategories.value)
                      else Some(seed.categories);
    if categories.None? {
      return None;
    }
    ls.RemoveItem(LegacyTodosKey);
    ls.RemoveItem(LegacyCategoriesKey);
    return Some(TodoStore(todos.value, categories.value));
  }

  method LoadStore(ls: Storage, codec: Codec, t: LoadTime) returns (r: TodoStore)
    modifies ls
    ensures (r, ls.items) == Load(ls.available, ls.verdict, old(ls.items), codec, SeedStore(t))
  {
    var seed := SeedStore(t);
    var ok := GetStorage(ls);
    if !ok {
      return seed;
    }
    var migrated := ls.GetItem(MigrationKey);
    if !Truthy(migrated) {
      var legacy := MigrateLegacyData(ls, codec, seed);
      if legacy.Some? {
        var saved := SaveStore(ls, codec, legacy.value);
        if saved.Fail? {
          return seed;
        }
        var o := ls.SetItem(MigrationKey, "true");
        if o != Written {
          return seed;
        }
        return legacy.value;
      }
      var o := ls.SetItem(MigrationKey, "true");
      if o != Written {
        return seed;
      }
    }
    var data := ls.GetItem(StoreKey);
    if !Truthy(data) {
      return seed;
    }
    match codec.parse(data.value)
    case Parsed(s) =>
      r := s;
    case _ =>
      r := seed;
  }

  method ClearAllData(ls: Storage)
    modifies ls
    ensures ls.items == Clear(ls.available, old(ls.items))
  {
    var ok := GetStorage(ls);
    if ok {
      ls.RemoveItem(StoreKey);
    }
  }

  // ---------------------------------------------------------------------------------------
  // Properties of loading and saving

  /** Saving a store and loading again gives that store back, once the migration has run. */
  lemma SaveThenLoad(verdict: Verdict, items: map<string, string>, codec: Codec, seed: TodoStore, s: TodoStore)
    requires codec.Lawful()
    requires Truthy(Lookup(items, MigrationKey))
    requires Save(true, verdict, items, codec.stringify(s)).0.Pass?
    ensures Load(true, verdict, Save(true, verdict, items, codec.stringify(s)).1, codec, seed).0 == s
  {
    var items1 := Save(true, verdict, items, codec.stringify(s)).1;
    assert Lookup(items1 - {ProbeKey}, MigrationKey) == Lookup(items, MigrationKey);
    assert Lookup(items1 - {ProbeKey}, StoreKey) == Some(codec.stringify(s));
  }

  /** The four ways `loadStore` ends in the seed store without any migration happening. */
  lemma LoadFallsBackToSeed(available: bool, verdict: Verdict, items: map<string, string>, codec: Codec, seed: TodoStore)
    requires !available
          || (Truthy(Lookup(items, MigrationKey))
              && (!Truthy(Lookup(items, StoreKey)) || !codec.parse(Lookup(items, StoreKey).value).Parsed?))
    ensures Load(available, verdict, items, codec, seed).0 == seed
  {
    if available {
      assert Lookup(items - {ProbeKey}, MigrationKey) == Lookup(items, MigrationKey);
      assert Lookup(items - {ProbeKey}, StoreKey) == Lookup(items, StoreKey);
    }
  }

  /** A first load that finds legacy data and whose writes succeed returns the merged data,
      stores it, removes both legacy keys and sets the sentinel to "true". */
  lemma MigrationMovesLegacyData(verdict: Verdict, items: map<string, string>, codec: Codec, seed: TodoStore)
    requires codec.Lawful()
    requires !Truthy(Lookup(items, MigrationKey))
    requires Migrate(items - {ProbeKey}, codec, seed).0.Some?
    requires forall m, k, v :: verdict(m, k, v) == Written
    ensures var merged := Migrate(items - {ProbeKey}, codec, seed).0.value;
      var (r, after) := Load(true, verdict, items, codec, seed);
      && r == merged
      && Lookup(after, StoreKey) == Some(codec.stringify(merged))
      && Lookup(after, MigrationKey) == Some("true")
      && LegacyTodosKey !in after && LegacyCategoriesKey !in after
      && Load(true, verdict, after, codec, seed).0 == merged
  {
    var items1 := items - {ProbeKey};
    assert Lookup(items1, MigrationKey) == Lookup(items, MigrationKey);
    var (legacy, items2) := Migrate(items1, codec, seed);
    var merged := legacy.value;
    var items3 := Save(true, verdict, items2, codec.stringify(merged)).1;
    var items4 := items3[MigrationKey := "true"];
    assert Lookup(items4, StoreKey) == Some(codec.stringify(merged));
    assert Lookup(items4 - {ProbeKey}, MigrationKey) == Some("true");
    assert Lookup(items4 - {ProbeKey}, StoreKey) == Some(codec.stringify(merged));
  }

  /** Which legacy half is taken from the seed: a legacy value wins whenever it is present. */
  lemma MigrationFillsMissingHalf(items: map<string, string>, codec: Codec, seed: TodoStore)
    requires Migrate(items, codec, seed).0.Some?
    ensures var merged := Migrate(items, codec, seed).0.value;
      && (!Truthy(Lookup(items, LegacyTodosKey)) ==> merged.todos == seed.todos)
      && (!Truthy(Lookup(items, LegacyCategoriesKey)) ==> merged.categories == seed.categories)
      && (Truthy(Lookup(items, LegacyTodosKey)) ==> Some(merged.todos) == codec.parseTodos(items[LegacyTodosKey]))
      && (Truthy(Lookup(items, LegacyCategoriesKey)) ==>
            Some(merged.categories) == codec.parseCategories(items[LegacyCategoriesKey]))
  {
  }

  /** A first load that finds no legacy data only sets the sentinel. */
  lemma FirstLoadWithoutLegacyData(verdict: Verdict, items: map<string, string>, codec: Codec, seed: TodoStore)
    requires !Truthy(Lookup(items, MigrationKey))
    requires !Truthy(Lookup(items, LegacyTodosKey)) && !Truthy(Lookup(items, LegacyCategoriesKey))
    requires verdict(items - {ProbeKey}, MigrationKey, "true") == Written
    ensures var (r, after) := Load(true, verdict, items, codec, seed);
      && after == items - {ProbeKey} + map[MigrationKey := "true"]
      && r == Interpret(Lookup(items, StoreKey), codec, seed)
  {
    var items1 := items - {ProbeKey};
    assert Lookup(items1, LegacyTodosKey) == Lookup(items, LegacyTodosKey);
    assert Lookup(items1, LegacyCategoriesKey) == Lookup(items, LegacyCategoriesKey);
    assert Lookup(items1, MigrationKey) == Lookup(items, MigrationKey);
    assert Lookup(items1[MigrationKey := "true"], StoreKey) == Lookup(items, StoreKey);
  }

  /** Legacy data that does not parse (either half) stays where it is, but the sentinel is still
      set. */
  lemma MalformedLegacyDataStays(verdict: Verdict, items: map<string, string>, codec: Codec, seed: TodoStore)
    requires !Truthy(Lookup(items, MigrationKey))
    requires Truthy(Lookup(items, LegacyTodosKey)) || Truthy(Lookup(items, LegacyCategoriesKey))
    requires Migrate(items - {ProbeKey}, codec, seed).0.None?
    requires verdict(items - {ProbeKey}, MigrationKey, "true") == Written
    ensures var after := Load(true, verdict, items, codec, seed).1;
      && Lookup(after, LegacyTodosKey) == Lookup(items, LegacyTodosKey)
      && Lookup(after, LegacyCategoriesKey) == Lookup(items, LegacyCategoriesKey)
      && Lookup(after, MigrationKey) == Some("true")
  {
    var items1 := items - {ProbeKey};
    assert Lookup(items1, LegacyTodosKey) == Lookup(items, LegacyTodosKey);
    assert Lookup(items1, LegacyCategoriesKey) == Lookup(items, LegacyCategoriesKey);
    assert Lookup(items1, MigrationKey) == Lookup(items, MigrationKey);
  }

  /** A migration whose save is rejected ends in the seed store. The legacy keys are already
      gone by then and the sentinel is not written, so the legacy data is not read again. */
  lemma FailedMigrationSaveLosesLegacyData(verdict: Verdict, items: map<string, string>, codec: Codec, seed: TodoStore)
    requires !Truthy(Lookup(items, MigrationKey))
    requires var m := Migrate(items - {ProbeKey}, codec, seed);
      m.0.Some? && Save(true, verdict, m.1, codec.stringify(m.0.value)).0.Fail?
    ensures var (r, after) := Load(true, verdict, items, codec, seed);
      && r == seed
      && LegacyTodosKey !in after && LegacyCategoriesKey !in after
      && Lookup(after, MigrationKey) == Lookup(items, MigrationKey)
  {
    var items1 := items - {ProbeKey};
    assert Lookup(items1, MigrationKey) == Lookup(items, MigrationKey);
  }

  /** Clearing keeps the sentinel: the next load returns the seed store and migrates nothing. */
  lemma ClearThenLoad(verdict: Verdict, items: map<string, string>, codec: Codec, seed: TodoStore)
    requires Truthy(Lookup(items, MigrationKey))
    ensures Lookup(Clear(true, items), MigrationKey) == Lookup(items, MigrationKey)
    ensures Load(true, verdict, Clear(true, items), codec, seed) == (seed, Clear(true, items))
  {
    var cleared := Clear(true, items);
    assert cleared - {ProbeKey} == cleared;
    assert Lookup(cleared, StoreKey).None?;
  }

  // ---------------------------------------------------------------------------------------
  // List operations

  /** The value an operation returns, and the store it hands to `saveStore` (`None`: no write). */
  datatype Change<R> = Change(result: R, saved: Option<TodoStore>)

  /** Runs a change against storage: the returned value, or the error `saveStore` threw. */
  function Commit<R>(available: bool, verdict: Verdict, items: map<string, string>, codec: Codec, c: Change<R>)
    : (r: (Result<R, PersistenceError>, map<string, string>))
    ensures c.saved.None? ==> r == (Success(c.result), items)
    ensures c.saved.Some? ==>
      var (o, after) := Save(available, verdict, items, codec.stringify(c.saved.value));
      r == (if o.Pass? then Success(c.result) else Failure(o.error), after)
  {
    match c.saved
    case None => (Success(c.result), items)
    case Some(s) =>
      var (o, after) := Save(available, verdict, items, codec.stringify(s));
      (if o.Pass? then Success(c.result) else Failure(o.error), after)
  }

  method CommitChange<R>(ls: Storage, codec: Codec, c: Change<R>) returns (r: Result<R, PersistenceError>)
    modifies ls
    ensures (r, ls.items) == Commit(ls.available, ls.verdict, old(ls.items), codec, c)
  {
    if c.saved.None? {
      return Success(c.result);
    }
    var o := SaveStore(ls, codec, c.saved.value);
    if o.Pass? {
      r := Success(c.result);
    } else {
      r := Failure(o.error);
    }
  }

  function TodoHasId(id: string): Todo -> bool {
    (t: Todo) => t.id == id
  }

  function TodoLacksId(id: string): Todo -> bool {
    (t: Todo) => t.id != id
  }

  function CategoryHasId(id: string): Category -> bool {
    (c: Category) => c.id == id
  }

  function CategoryLacksId(id: string): Category -> bool {
    (c: Category) => c.id != id
  }

  /** The todo a draft becomes, with its generated id and the current time. */
  function NewTodo(d: TodoDraft, id: string, now: string): Todo {
    Todo(id, d.title, d.description, d.priority, d.categoryId, d.dueDate, d.completed, now, now)
  }

  /** `{ ...t, ...p, updatedAt: now }`. */
  function MergeTodo(t: Todo, p: TodoPatch, now: string): Todo {
    Todo(t.id, p.title.GetOr(t.title), p.description.GetOr(t.description),
         p.priority.GetOr(t.priority), p.categoryId.GetOr(t.categoryId),
         p.dueDate.GetOr(t.dueDate), p.completed.GetOr(t.completed), t.createdAt, now)
  }

  /** A patch that sets only `completed`. */
  function CompletedPatch(completed: bool): TodoPatch {
    TodoPatch(None, None, None, None, None, Some(completed), None)
  }

  function NewCategory(d: CategoryDraft, id: string, now: string): Category {
    Category(id, d.name, d.color, now)
  }

  /** `{ ...c, ...p }`: a category update refreshes no timestamp. */
  function MergeCategory(c: Category, p: CategoryPatch): Category {
    Category(c.id, p.name.GetOr(c.name), p.color.GetOr(c.color), c.createdAt)
  }

  /** The todo with a reference to category `id` dropped, any other todo unchanged. */
  function ClearCategoryRef(id: string): Todo -> Todo {
    (t: Todo) => if t.categoryId == Some(id) then t.(categoryId := None) else t
  }

  /** `createTodo`. */
  function CreateTodoChange(store: TodoStore, d: TodoDraft, id: string, now: string): Change<Todo> {
    var todo := NewTodo(d, id, now);
    Change(todo, Some(store.(todos := store.todos + [todo])))
  }

  /** `updateTodo`: the first todo with the id is replaced by its merge with the patch. */
  function UpdateTodoChange(store: TodoStore, id: string, p: TodoPatch, now: string): Change<Option<Todo>> {
    match FindIndex(store.todos, TodoHasId(id))
    case None => Change(None, None)
    case Some(i) =>
      var updated := MergeTodo(store.todos[i], p, now);
      Change(Some(updated), Some(store.(todos := store.todos[i := updated])))
  }

  /** `deleteTodo`: every todo with the id goes. */
  function DeleteTodoChange(store: TodoStore, id: string): Change<bool> {
    if FindIndex(store.todos, TodoHasId(id)).None? then Change(false, None)
    else Change(true, Some(store.(todos := Filter(store.todos, TodoLacksId(id)))))
  }

  /** `toggleTodoCompletion`: an update that negates the first matching todo's `completed`. */
  function ToggleTodoChange(store: TodoStore, id: string, now: string): Change<Option<Todo>> {
    match FindIndex(store.todos, TodoHasId(id))
    case None => Change(None, None)
    case Some(i) => UpdateTodoChange(store, id, CompletedPatch(!store.todos[i].completed), now)
  }

  /** `createCategory`. */
  function CreateCategoryChange(store: TodoStore, d: CategoryDraft, id: string, now: string): Change<Category> {
    var category := NewCategory(d, id, now);
    Change(category, Some(store.(categories := store.categories + [category])))
  }

  /** `updateCategory`. */
  function UpdateCategoryChange(store: TodoStore, id: string, p: CategoryPatch): Change<Option<Category>> {
    match FindIndex(store.categories, CategoryHasId(id))
    case None => Change(None, None)
    case Some(i) =>
      var updated := MergeCategory(store.categories[i], p);
      Change(Some(updated), Some(store.(categories := store.categories[i := updated])))
  }

  /** `deleteCategory`: the category goes and, in the same write, every todo that referred to
      it becomes uncategorised. */
  function DeleteCategoryChange(store: TodoStore, id: string): Change<bool> {
    if FindIndex(store.categories, CategoryHasId(id)).None? then Change(false, None)
    else Change(true, Some(TodoStore(Map(store.todos, ClearCategoryRef(id)),
                                     Filter(store.categories, CategoryLacksId(id)))))
  }

  method CreateTodo(ls: Storage, codec: Codec, store: TodoStore, d: TodoDraft, id: string, now: string)
    returns (r: Result<Todo, PersistenceError>)
    modifies ls
    ensures (r, ls.items) == Commit(ls.available, ls.verdict, old(ls.items), codec, CreateTodoChange(store, d, id, now))
  {
    r := CommitChange(ls, codec, CreateTodoChange(store, d, id, now));
  }

  method UpdateTodo(ls: Storage, codec: Codec, store: TodoStore, id: string, p: TodoPatch, now: string)
    returns (r: Result<Option<Todo>, PersistenceError>)
    modifies ls
    ensures (r, ls.items) == Commit(ls.available, ls.verdict, old(ls.items), codec, UpdateTodoChange(store, id, p, now))
  {
    r := CommitChange(ls, codec, UpdateTodoChange(store, id, p, now));
  }

  method DeleteTodo(ls: Storage, codec: Codec, store: TodoStore, id: string)
    returns (r: Result<bool, PersistenceError>)
    modifies ls
    ensures (r, ls.items) == Commit(ls.available, ls.verdict, old(ls.items), codec, DeleteTodoChange(store, id))
  {
    r := CommitChange(ls, codec, DeleteTodoChange(store, id));
  }

  method ToggleTodoCompletion(ls: Storage, codec: Codec, store: TodoStore, id: string, now: string)
    returns (r: Result<Option<Todo>, PersistenceError>)
    modifies ls
    ensures (r, ls.items) == Commit(ls.available, ls.verdict, old(ls.items), codec, ToggleTodoChange(store, id, now))
  {
    r := CommitChange(ls, codec, ToggleTodoChange(store, id, now));
  }

  method CreateCategory(ls: Storage, codec: Codec, store: TodoStore, d: CategoryDraft, id: string, now: string)
    returns (r: Result<Category, PersistenceError>)
    modifies ls
    ensures (r, ls.items) == Commit(ls.available, ls.verdict, old(ls.items), codec, CreateCategoryChange(store, d, id, now))
  {
    r := CommitChange(ls, codec, CreateCategoryChange(store, d, id, now));
  }

  method UpdateCategory(ls: Storage, codec: Codec, store: TodoStore, id: string, p: CategoryPatch)
    returns (r: Result<Option<Category>, PersistenceError>)
    modifies ls
    ensures (r, ls.items) == Commit(ls.available, ls.verdict, old(ls.items), codec, UpdateCategoryChange(store, id, p))
  {
    r := CommitChange(ls, codec, UpdateCategoryChange(store, id, p));
  }

  method DeleteCategory(ls: Storage, codec: Codec, store: TodoStore, id: string)
    returns (r: Result<bool, PersistenceError>)
    modifies ls
    ensures (r, ls.items) == Commit(ls.available, ls.verdict, old(ls.items), codec, DeleteCategoryChange(store, id))
  {
    r := CommitChange(ls, codec, DeleteCategoryChange(store, id));
  }

  // ---------------------------------------------------------------------------------------
  // Properties of the list operations

  /** `createTodo` returns the draft with the fresh id and equal timestamps, and saves the
      todo list with exactly that todo appended; the categories are untouched. A fresh id keeps
      the ids unique. */
  lemma CreateTodoSpec(store: TodoStore, d: TodoDraft, id: string, now: string)
    ensures var c := CreateTodoChange(store, d, id, now); var t := c.result;
      && t.id == id && t.createdAt == now && t.updatedAt == now
      && t.title == d.title && t.description == d.description && t.priority == d.priority
      && t.categoryId == d.categoryId && t.dueDate == d.dueDate && t.completed == d.completed
      && c.saved == Some(TodoStore(store.todos + [t], store.categories))
    ensures UniqueTodoIds(store.todos) && id !in TodoIds(store.todos) ==>
      UniqueTodoIds(CreateTodoChange(store, d, id, now).saved.value.todos)
  {
    var todos := CreateTodoChange(store, d, id, now).saved.value.todos;
    if UniqueTodoIds(store.todos) && id !in TodoIds(store.todos) {
      forall i, j | 0 <= i < j < |todos| ensures todos[i].id != todos[j].id {
        if j == |store.todos| {
          assert store.todos[i].id in TodoIds(store.todos);
        }
      }
    }
  }

  /** Which todo a lookup by id finds: `None` exactly when no todo has the id, otherwise the
      first one that has it. */
  lemma FindTodo(todos: seq<Todo>, id: string)
    ensures FindIndex(todos, TodoHasId(id)).None? <==> id !in TodoIds(todos)
    ensures FindIndex(todos, TodoHasId(id)).Some? ==>
      var i := FindIndex(todos, TodoHasId(id)).value;
      i < |todos| && todos[i].id == id && forall j :: 0 <= j < i ==> todos[j].id != id
  {
    if FindIndex(todos, TodoHasId(id)).None? {
      forall i | 0 <= i < |todos| ensures todos[i].id != id {
        assert !TodoHasId(id)(todos[i]);
      }
    } else {
      var i := FindIndex(todos, TodoHasId(id)).value;
      assert TodoHasId(id)(todos[i]);
      assert todos[i].id in TodoIds(todos);
      forall j | 0 <= j < i ensures todos[j].id != id {
        assert !TodoHasId(id)(todos[j]);
      }
    }
  }

  /** Replacing the first match by another element with the property leaves it the first match. */
  lemma {:induction false} FindIndexAfterReplace<T>(xs: seq<T>, p: T -> bool, u: T)
    requires FindIndex(xs, p).Some? && p(u)
    ensures FindIndex(xs[FindIndex(xs, p).value := u], p) == FindIndex(xs, p)
  {
    var i := FindIndex(xs, p).value;
    if i > 0 {
      assert !p(xs[0]);
      assert xs[i := u][1..] == xs[1..][i - 1 := u];
      FindIndexAfterReplace(xs[1..], p, u);
    }
  }

  /** `updateTodo`: an absent id returns `None` and writes nothing; otherwise the first todo with
      the id is replaced by its merge with the patch, keeping its id and creation time and taking
      `now` as its update time, and every other position is left as it was. */
  lemma UpdateTodoSpec(store: TodoStore, id: string, p: TodoPatch, now: string)
    ensures var c := UpdateTodoChange(store, id, p, now);
      && (c.result.None? <==> id !in TodoIds(store.todos))
      && (c.result.None? ==> c.saved.None?)
      && (c.result.Some? ==>
            var i := FindIndex(store.todos, TodoHasId(id)).value;
            var old_ := store.todos[i];
            var u := c.result.value;
            && i < |store.todos| && old_.id == id
            && (forall j :: 0 <= j < i ==> store.todos[j].id != id)
            && u.id == id && u.createdAt == old_.createdAt && u.updatedAt == now
            && u.title == p.title.GetOr(old_.title)
            && u.description == p.description.GetOr(old_.description)
            && u.priority == p.priority.GetOr(old_.priority)
            && u.categoryId == p.categoryId.GetOr(old_.categoryId)
            && u.dueDate == p.dueDate.GetOr(old_.dueDate)
            && u.completed == p.completed.GetOr(old_.completed)
            && c.saved.Some?
            && c.saved.value.categories == store.categories
            && |c.saved.value.todos| == |store.todos|
            && c.saved.value.todos[i] == u
            && (forall j :: 0 <= j < |store.todos| && j != i ==> c.saved.value.todos[j] == store.todos[j]))
  {
    FindTodo(store.todos, id);
  }

  /** `deleteTodo`: `false` and no write exactly when the id is absent; otherwise every todo with
      the id is gone, all others stay in their order, and the categories are untouched. */
  lemma DeleteTodoSpec(store: TodoStore, id: string)
    ensures var c := DeleteTodoChange(store, id);
      && (c.result <==> id in TodoIds(store.todos))
      && (!c.result ==> c.saved.None?)
      && (c.result ==>
            && c.saved == Some(store.(todos := Filter(store.todos, TodoLacksId(id))))
            && id !in TodoIds(c.saved.value.todos)
            && (forall t :: t in c.saved.value.todos <==> t in store.todos && t.id != id)
            && |c.saved.value.todos| < |store.todos|)
  {
    FindTodo(store.todos, id);
    var c := DeleteTodoChange(store, id);
    if c.result {
      var kept := Filter(store.todos, TodoLacksId(id));
      forall i | 0 <= i < |kept| ensures kept[i].id != id {
        assert TodoLacksId(id)(kept[i]);
      }
      forall t ensures t in kept <==> t in store.todos && t.id != id {
        assert TodoLacksId(id)(t) == (t.id != id);
      }
      var i := FindIndex(store.todos, TodoHasId(id)).value;
      FilterDropsOne(store.todos, TodoLacksId(id), i);
    }
  }

  /** Deleting the same id twice: the second call finds nothing, returns `false` and writes nothing. */
  lemma DeleteTodoTwice(store: TodoStore, id: string)
    ensures var first := DeleteTodoChange(store, id);
      var after := if first.saved.Some? then first.saved.value else store;
      DeleteTodoChange(after, id) == Change(false, None)
  {
    DeleteTodoSpec(store, id);
    var first := DeleteTodoChange(store, id);
    var after := if first.saved.Some? then first.saved.value else store;
    DeleteTodoSpec(after, id);
  }

  /** `toggleTodoCompletion`: `None` for an unknown id; otherwise the first todo with the id comes
      back with `completed` negated and `updatedAt` refreshed, every other field unchanged. */
  lemma ToggleTodoSpec(store: TodoStore, id: string, now: string)
    ensures var c := ToggleTodoChange(store, id, now);
      && (c.result.None? <==> id !in TodoIds(store.todos))
      && (c.result.None? ==> c.saved.None?)
      && (c.result.Some? ==>
            var i := FindIndex(store.todos, TodoHasId(id)).value;
            var t := store.todos[i];
            && c.result.value == t.(completed := !t.completed, updatedAt := now)
            && c.saved == Some(store.(todos := store.todos[i := c.result.value])))
  {
    FindTodo(store.todos, id);
  }

  /** Toggling twice restores `completed`; only `updatedAt` differs from the original todo. */
  lemma ToggleTodoTwice(store: TodoStore, id: string, now1: string, now2: string)
    requires id in TodoIds(store.todos)
    ensures var first := ToggleTodoChange(store, id, now1);
      var second := ToggleTodoChange(first.saved.value, id, now2);
      var i := FindIndex(store.todos, TodoHasId(id)).value;
      && second.result == Some(store.todos[i].(updatedAt := now2))
      && second.saved == Some(store.(todos := store.todos[i := store.todos[i].(updatedAt := now2)]))
  {
    FindTodo(store.todos, id);
    var i := FindIndex(store.todos, TodoHasId(id)).value;
    var t := store.todos[i];
    var u := t.(completed := !t.completed, updatedAt := now1);
    assert TodoHasId(id)(u);
    FindIndexAfterReplace(store.todos, TodoHasId(id), u);
    assert store.todos[i := u][i := t.(updatedAt := now2)] == store.todos[i := t.(updatedAt := now2)];
  }

  /** `createCategory` appends the draft with its id and creation time; the todos are untouched. */
  lemma CreateCategorySpec(store: TodoStore, d: CategoryDraft, id: string, now: string)
    ensures var c := CreateCategoryChange(store, d, id, now); var k := c.result;
      && k == Category(id, d.name, d.color, now)
      && c.saved == Some(TodoStore(store.todos, store.categories + [k]))
  {
  }

  lemma FindCategory(categories: seq<Category>, id: string)
    ensures FindIndex(categories, CategoryHasId(id)).None? <==> id !in CategoryIds(categories)
    ensures FindIndex(categories, CategoryHasId(id)).Some? ==>
      var i := FindIndex(categories, CategoryHasId(id)).value;
      i < |categories| && categories[i].id == id
  {
    if FindIndex(categories, CategoryHasId(id)).None? {
      forall i | 0 <= i < |categories| ensures categories[i].id != id {
        assert !CategoryHasId(id)(categories[i]);
      }
    } else {
      var i := FindIndex(categories, CategoryHasId(id)).value;
      assert CategoryHasId(id)(categories[i]);
      assert categories[i].id in CategoryIds(categories);
    }
  }

  /** `updateCategory`: `None` and no write for an absent id; otherwise the first category with
      the id takes the patched name and colour, keeps id and creation time, and nothing else moves. */
  lemma UpdateCategorySpec(store: TodoStore, id: string, p: CategoryPatch)
    ensures var c := UpdateCategoryChange(store, id, p);
      && (c.result.None? <==> id !in CategoryIds(store.categories))
      && (c.result.None? ==> c.saved.None?)
      && (c.result.Some? ==>
            var i := FindIndex(store.categories, CategoryHasId(id)).value;
            var k := store.categories[i];
            var u := c.result.value;
            && u.id == id && u.createdAt == k.createdAt
            && u.name == p.name.GetOr(k.name) && u.color == p.color.GetOr(k.color)
            && c.saved == Some(store.(categories := store.categories[i := u])))
  {
    FindCategory(store.categories, id);
  }

  /** `deleteCategory`: `false` and no write when no category has the id. Otherwise one write
      removes every category with the id and makes exactly the todos that referred to it
      uncategorised: no saved todo refers to the id, and the todos keep their number, order and
      every other field. */
  lemma DeleteCategorySpec(store: TodoStore, id: string)
    ensures var c := DeleteCategoryChange(store, id);
      && (c.result <==> id in CategoryIds(store.categories))
      && (!c.result ==> c.saved.None?)
      && (c.result ==>
            var s := c.saved.value;
            && id !in CategoryIds(s.categories)
            && (forall k :: k in s.categories <==> k in store.categories && k.id != id)
            && |s.todos| == |store.todos|
            && (forall i :: 0 <= i < |s.todos| ==> s.todos[i].categoryId != Some(id))
            && (forall i :: 0 <= i < |s.todos| ==>
                  s.todos[i] == if store.todos[i].categoryId == Some(id)
                                then store.todos[i].(categoryId := None) else store.todos[i]))
  {
    FindCategory(store.categories, id);
    var c := DeleteCategoryChange(store, id);
    if c.result {
      var kept := Filter(store.categories, CategoryLacksId(id));
      forall i | 0 <= i < |kept| ensures kept[i].id != id {
        assert CategoryLacksId(id)(kept[i]);
      }
      forall k ensures k in kept <==> k in store.categories && k.id != id {
        assert CategoryLacksId(id)(k) == (k.id != id);
      }
    }
  }
}
