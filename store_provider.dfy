/** The store provider: an in-memory mirror of the persisted store that the pages read. Each
    operation first calls the matching persistence function, which writes its own new store,
    then applies a pure updater to the mirror; every change of the mirror is then saved again
    (the save-on-change effect). An operation whose persistence call throws stops there: the
    mirror is not updated and the effect does not run.

    The updaters are the `setStore` callbacks; the lemmas below relate what the mirror becomes
    to what persistence wrote. */
module StoreProvider {
  import opened Wrappers
  import opened Lists
  import opened TodoTypes
  import opened BrowserStorage
  import opened Persistence

  // ---------------------------------------------------------------------------------------
  // The mirror updaters

  /** `t.id === id ? result : t`. */
  function SwapTodo(id: string, result: Todo): Todo -> Todo {
    (t: Todo) => if t.id == id then result else t
  }

  function SwapCategory(id: string, result: Category): Category -> Category {
    (c: Category) => if c.id == id then result else c
  }

  /** The mirror after `addTodo`: the returned todo appended, the categories untouched. */
  function AppendTodo(prev: TodoStore, todo: Todo): (r: TodoStore)
    ensures r.todos == prev.todos + [todo] && r.categories == prev.categories
  {
    prev.(todos := prev.todos + [todo])
  }

  /** The mirror after `updateTodo` or `toggleTodoCompletion`: EVERY todo with the id is
      replaced by the persistence result, all others stay. */
  function ReplaceTodo(prev: TodoStore, id: string, result: Todo): (r: TodoStore)
    ensures r.categories == prev.categories && |r.todos| == |prev.todos|
    ensures forall i :: 0 <= i < |r.todos| ==>
      r.todos[i] == if prev.todos[i].id == id then result else prev.todos[i]
  {
    prev.(todos := Map(prev.todos, SwapTodo(id, result)))
  }

  /** The mirror after `removeTodo`. */
  function DropTodo(prev: TodoStore, id: string): (r: TodoStore)
    ensures r.categories == prev.categories
    ensures id !in TodoIds(r.todos)
    ensures forall t :: t in r.todos <==> t in prev.todos && t.id != id
  {
    var kept := Filter(prev.todos, TodoLacksId(id));
    assert forall i :: 0 <= i < |kept| ==> kept[i].id != id by {
      forall i | 0 <= i < |kept| ensures kept[i].id != id {
        assert TodoLacksId(id)(kept[i]);
      }
    }
    assert forall t :: TodoLacksId(id)(t) == (t.id != id);
    prev.(todos := kept)
  }

  function AppendCategory(prev: TodoStore, category: Category): (r: TodoStore)
    ensures r.categories == prev.categories + [category] && r.todos == prev.todos
  {
    prev.(categories := prev.categories + [category])
  }

  function ReplaceCategory(prev: TodoStore, id: string, result: Category): (r: TodoStore)
    ensures r.todos == prev.todos && |r.categories| == |prev.categories|
    ensures forall i :: 0 <= i < |r.categories| ==>
      r.categories[i] == if prev.categories[i].id == id then result else prev.categories[i]
  {
    prev.(categories := Map(prev.categories, SwapCategory(id, result)))
  }

  /** The mirror after `removeCategory`: no category with the id, and no todo referring to it. */
  function DropCategory(prev: TodoStore, id: string): (r: TodoStore)
    ensures id !in CategoryIds(r.categories)
    ensures forall i :: 0 <= i < |r.todos| ==> r.todos[i].categoryId != Some(id)
    ensures |r.todos| == |prev.todos|
    ensures forall c :: c in r.categories <==> c in prev.categories && c.id != id
    ensures forall i :: 0 <= i < |r.todos| ==>
      r.todos[i] == if prev.todos[i].categoryId == Some(id) then prev.todos[i].(categoryId := None) else prev.todos[i]
  {
    var kept := Filter(prev.categories, CategoryLacksId(id));
    assert forall i :: 0 <= i < |kept| ==> kept[i].id != id by {
      forall i | 0 <= i < |kept| ensures kept[i].id != id {
        assert CategoryLacksId(id)(kept[i]);
      }
    }
    assert forall c :: CategoryLacksId(id)(c) == (c.id != id);
    TodoStore(Map(prev.todos, ClearCategoryRef(id)), kept)
  }

  // ---------------------------------------------------------------------------------------
  // The provider

  class Provider {
    const ls: Storage
    const codec: Codec
    /** The `store` state cell. */
    var mirror: TodoStore
    /** The outcome of the latest run of the save-on-change effect (a failure is the error the
        effect throws). */
    var lastSave: Outcome<PersistenceError>

    /** Once the effect's save has succeeded, storage holds exactly the mirror. */
    ghost predicate Valid()
      reads this, ls
    {
      lastSave.Pass? ==> Lookup(ls.items, StoreKey) == Some(codec.stringify(mirror))
    }

    /** Mounting: the mirror is loaded once, then the first run of the effect after hydration
        saves it. */
    constructor (ls: Storage, codec: Codec, t: LoadTime)
      modifies ls
      ensures this.ls == ls && this.codec == codec
      ensures var (loaded, items1) := Load(ls.available, ls.verdict, old(ls.items), codec, SeedStore(t));
        && mirror == loaded
        && (lastSave, ls.items) == Save(ls.available, ls.verdict, items1, codec.stringify(loaded))
      ensures Valid()
    {
      var loaded := LoadStore(ls, codec, t);
      this.ls := ls;
      this.codec := codec;
      mirror := loaded;
      new;
      lastSave := SaveStore(ls, codec, loaded);
    }

    /** `setStore(next)` followed by the save-on-change effect. */
    method SetStore(next: TodoStore)
      modifies this, ls
      ensures mirror == next
      ensures (lastSave, ls.items) == Save(ls.available, ls.verdict, old(ls.items), codec.stringify(next))
      ensures Valid()
    {
      mirror := next;
      lastSave := SaveStore(ls, codec, next);
    }

    method AddTodo(d: TodoDraft, id: string, now: string) returns (r: Result<Todo, PersistenceError>)
      requires Valid()
      modifies this, ls
      ensures var (res, items1) := Commit(ls.available, ls.verdict, old(ls.items), codec,
                                          CreateTodoChange(old(mirror), d, id, now));
        && r == res
        && (res.Failure? ==> mirror == old(mirror) && lastSave == old(lastSave) && ls.items == items1)
        && (res.Success? ==>
              && mirror == AppendTodo(old(mirror), res.value)
              && (lastSave, ls.items) == Save(ls.available, ls.verdict, items1, codec.stringify(mirror)))
      ensures Valid()
    {
      r := CreateTodo(ls, codec, mirror, d, id, now);
      if r.Success? {
        SetStore(AppendTodo(mirror, r.value));
      }
    }

    method UpdateTodo(id: string, p: TodoPatch, now: string) returns (r: Result<Option<Todo>, PersistenceError>)
      requires Valid()
      modifies this, ls
      ensures var (res, items1) := Commit(ls.available, ls.verdict, old(ls.items), codec,
                                          UpdateTodoChange(old(mirror), id, p, now));
        && r == res
        && (!(res.Success? && res.value.Some?) ==>
              mirror == old(mirror) && lastSave == old(lastSave) && ls.items == items1)
        && (res.Success? && res.value.Some? ==>
              && mirror == ReplaceTodo(old(mirror), id, res.value.value)
              && (lastSave, ls.items) == Save(ls.available, ls.verdict, items1, codec.stringify(mirror)))
      ensures Valid()
    {
      r := Persistence.UpdateTodo(ls, codec, mirror, id, p, now);
      if r.Success? && r.value.Some? {
        SetStore(ReplaceTodo(mirror, id, r.value.value));
      }
    }

    method ToggleTodoCompletion(id: string, now: string) returns (r: Result<Option<Todo>, PersistenceError>)
      requires Valid()
      modifies this, ls
      ensures var (res, items1) := Commit(ls.available, ls.verdict, old(ls.items), codec,
                                          ToggleTodoChange(old(mirror), id, now));
        && r == res
        && (!(res.Success? && res.value.Some?) ==>
              mirror == old(mirror) && lastSave == old(lastSave) && ls.items == items1)
        && (res.Success? && res.value.Some? ==>
              && mirror == ReplaceTodo(old(mirror), id, res.value.value)
              && (lastSave, ls.items) == Save(ls.available, ls.verdict, items1, codec.stringify(mirror)))
      ensures Valid()
    {
      r := Persistence.ToggleTodoCompletion(ls, codec, mirror, id, now);
      if r.Success? && r.value.Some? {
        SetStore(ReplaceTodo(mirror, id, r.value.value));
      }
    }

    /** `deleteTodo`'s answer is ignored: unless it throws, the mirror is filtered and saved. */
    method RemoveTodo(id: string) returns (r: Outcome<PersistenceError>)
      requires Valid()
      modifies this, ls
      ensures var (res, items1) := Commit(ls.available, ls.verdict, old(ls.items), codec,
                                          DeleteTodoChange(old(mirror), id));
        && (r.Fail? <==> res.Failure?)
        && (res.Failure? ==> r.error == res.error)
        && (res.Failure? ==> mirror == old(mirror) && lastSave == old(lastSave) && ls.items == items1)
        && (res.Success? ==>
              && mirror == DropTodo(old(mirror), id)
              && (lastSave, ls.items) == Save(ls.available, ls.verdict, items1, codec.stringify(mirror)))
      ensures Valid()
    {
      var res := DeleteTodo(ls, codec, mirror, id);
      if res.Failure? {
        return Fail(res.error);
      }
      SetStore(DropTodo(mirror, id));
      r := Pass;
    }

    method AddCategory(d: CategoryDraft, id: string, now: string) returns (r: Result<Category, PersistenceError>)
      requires Valid()
      modifies this, ls
      ensures var (res, items1) := Commit(ls.available, ls.verdict, old(ls.items), codec,
                                          CreateCategoryChange(old(mirror), d, id, now));
        && r == res
        && (res.Failure? ==> mirror == old(mirror) && lastSave == old(lastSave) && ls.items == items1)
        && (res.Success? ==>
              && mirror == AppendCategory(old(mirror), res.value)
              && (lastSave, ls.items) == Save(ls.available, ls.verdict, items1, codec.stringify(mirror)))
      ensures Valid()
    {
      r := CreateCategory(ls, codec, mirror, d, id, now);
      if r.Success? {
        SetStore(AppendCategory(mirror, r.value));
      }
    }

    method UpdateCategory(id: string, p: CategoryPatch) returns (r: Result<Option<Category>, PersistenceError>)
      requires Valid()
      modifies this, ls
      ensures var (res, items1) := Commit(ls.available, ls.verdict, old(ls.items), codec,
                                          UpdateCategoryChange(old(mirror), id, p));
        && r == res
        && (!(res.Success? && res.value.Some?) ==>
              mirror == old(mirror) && lastSave == old(lastSave) && ls.items == items1)
        && (res.Success? && res.value.Some? ==>
              && mirror == ReplaceCategory(old(mirror), id, res.value.value)
              && (lastSave, ls.items) == Save(ls.available, ls.verdict, items1, codec.stringify(mirror)))
      ensures Valid()
    {
      r := Persistence.UpdateCategory(ls, codec, mirror, id, p);
      if r.Success? && r.value.Some? {
        SetStore(ReplaceCategory(mirror, id, r.value.value));
      }
    }

    /** Like `removeTodo`, the mirror is updated whatever `deleteCategory` answered. */
    method RemoveCategory(id: string) returns (r: Outcome<PersistenceError>)
      requires Valid()
      modifies this, ls
      ensures var (res, items1) := Commit(ls.available, ls.verdict, old(ls.items), codec,
                                          DeleteCategoryChange(old(mirror), id));
        && (r.Fail? <==> res.Failure?)
        && (res.Failure? ==> r.error == res.error)
        && (res.Failure? ==> mirror == old(mirror) && lastSave == old(lastSave) && ls.items == items1)
        && (res.Success? ==>
              && mirror == DropCategory(old(mirror), id)
              && (lastSave, ls.items) == Save(ls.available, ls.verdict, items1, codec.stringify(mirror)))
      ensures Valid()
      ensures r.Pass? ==>
        id !in CategoryIds(mirror.categories)
        && forall i :: 0 <= i < |mirror.todos| ==> mirror.todos[i].categoryId != Some(id)
    {
      var res := DeleteCategory(ls, codec, mirror, id);
      if res.Failure? {
        return Fail(res.error);
      }
      SetStore(DropCategory(mirror, id));
      r := Pass;
    }
  }

  // ---------------------------------------------------------------------------------------
  // Agreement between the mirror and what persistence wrote

  /** With ids unique, replacing every todo with the id is replacing the first one. */
  lemma SwapIsReplaceAt(todos: seq<Todo>, i: nat, u: Todo)
    requires UniqueTodoIds(todos) && i < |todos| && u.id == todos[i].id
    ensures Map(todos, SwapTodo(u.id, u)) == todos[i := u]
  {
    var m := Map(todos, SwapTodo(u.id, u));
    forall j | 0 <= j < |todos| ensures m[j] == todos[i := u][j] {
      if j != i {
        assert todos[j].id != todos[i].id;
      }
    }
  }

  lemma SwapCategoryIsReplaceAt(categories: seq<Category>, i: nat, u: Category)
    requires UniqueCategoryIds(categories) && i < |categories| && u.id == categories[i].id
    ensures Map(categories, SwapCategory(u.id, u)) == categories[i := u]
  {
    var m := Map(categories, SwapCategory(u.id, u));
    forall j | 0 <= j < |categories| ensures m[j] == categories[i := u][j] {
      if j != i {
        assert categories[j].id != categories[i].id;
      }
    }
  }

  /** `addTodo`: the mirror gains exactly the store persistence wrote. */
  lemma AddTodoAgrees(m: TodoStore, d: TodoDraft, id: string, now: string)
    ensures var c := CreateTodoChange(m, d, id, now);
      c.saved == Some(AppendTodo(m, c.result)) && c.result.id == id
  {
  }

  /** `updateTodo`: with unique todo ids, the mirror becomes the store persistence wrote. */
  lemma UpdateTodoAgrees(m: TodoStore, id: string, p: TodoPatch, now: string)
    requires UniqueTodoIds(m.todos)
    ensures var c := UpdateTodoChange(m, id, p, now);
      (c.result.Some? <==> c.saved.Some?)
      && (c.result.Some? ==> c.saved == Some(ReplaceTodo(m, id, c.result.value)))
  {
    UpdateTodoSpec(m, id, p, now);
    var c := UpdateTodoChange(m, id, p, now);
    if c.result.Some? {
      var i := FindIndex(m.todos, TodoHasId(id)).value;
      SwapIsReplaceAt(m.todos, i, c.result.value);
    }
  }

  /** `toggleTodoCompletion`: with unique todo ids, the mirror becomes the store persistence wrote. */
  lemma ToggleTodoAgrees(m: TodoStore, id: string, now: string)
    requires UniqueTodoIds(m.todos)
    ensures var c := ToggleTodoChange(m, id, now);
      (c.result.Some? <==> c.saved.Some?)
      && (c.result.Some? ==> c.saved == Some(ReplaceTodo(m, id, c.result.value)))
  {
    ToggleTodoSpec(m, id, now);
    var c := ToggleTodoChange(m, id, now);
    if c.result.Some? {
      var i := FindIndex(m.todos, TodoHasId(id)).value;
      SwapIsReplaceAt(m.todos, i, c.result.value);
    }
  }

  /** The two replacements disagree once two todos share an id: persistence replaces the first,
      the mirror both. */
  lemma DuplicateIdsDiverge()
    ensures var t := Todo("x", "a", "", Low, None, None, false, "t0", "t0");
      var m := TodoStore([t, t], []);
      var c := UpdateTodoChange(m, "x", CompletedPatch(true), "t1");
      c.result.Some? && c.saved.Some? && c.saved.value != ReplaceTodo(m, "x", c.result.value)
  {
    var t := Todo("x", "a", "", Low, None, None, false, "t0", "t0");
    var m := TodoStore([t, t], []);
    assert FindIndex(m.todos, TodoHasId("x")) == Some(0);
    var c := UpdateTodoChange(m, "x", CompletedPatch(true), "t1");
    assert c.saved.value.todos[1] == t;
    assert ReplaceTodo(m, "x", c.result.value).todos[1] != t;
  }

  /** `removeTodo`: when the id is present the mirror becomes the store persistence wrote; when it
      is absent persistence writes nothing and the mirror keeps its contents. */
  lemma RemoveTodoAgrees(m: TodoStore, id: string)
    ensures var c := DeleteTodoChange(m, id);
      && (c.result ==> c.saved == Some(DropTodo(m, id)))
      && (!c.result ==> c.saved.None? && DropTodo(m, id) == m)
  {
    DeleteTodoSpec(m, id);
    if !DeleteTodoChange(m, id).result {
      forall i | 0 <= i < |m.todos| ensures TodoLacksId(id)(m.todos[i]) {
        assert m.todos[i].id in TodoIds(m.todos);
      }
      FilterKeepsAll(m.todos, TodoLacksId(id));
    }
  }

  lemma AddCategoryAgrees(m: TodoStore, d: CategoryDraft, id: string, now: string)
    ensures var c := CreateCategoryChange(m, d, id, now);
      c.saved == Some(AppendCategory(m, c.result)) && c.result.id == id
  {
  }

  /** `updateCategory`: with unique category ids, the mirror becomes the store persistence wrote. */
  lemma UpdateCategoryAgrees(m: TodoStore, id: string, p: CategoryPatch)
    requires UniqueCategoryIds(m.categories)
    ensures var c := UpdateCategoryChange(m, id, p);
      (c.result.Some? <==> c.saved.Some?)
      && (c.result.Some? ==> c.saved == Some(ReplaceCategory(m, id, c.result.value)))
  {
    UpdateCategorySpec(m, id, p);
    var c := UpdateCategoryChange(m, id, p);
    if c.result.Some? {
      var i := FindIndex(m.categories, CategoryHasId(id)).value;
      SwapCategoryIsReplaceAt(m.categories, i, c.result.value);
    }
  }

  /** `removeCategory`: when the category exists the mirror becomes the store persistence wrote.
      When it does not, persistence writes nothing, the categories stay, and the mirror still
      drops every reference to the id. */
  lemma RemoveCategoryAgrees(m: TodoStore, id: string)
    ensures var c := DeleteCategoryChange(m, id);
      && (c.result ==> c.saved == Some(DropCategory(m, id)))
      && (!c.result ==> c.saved.None? && DropCategory(m, id).categories == m.categories)
  {
    DeleteCategorySpec(m, id);
    if !DeleteCategoryChange(m, id).result {
      forall i | 0 <= i < |m.categories| ensures CategoryLacksId(id)(m.categories[i]) {
        assert m.categories[i].id in CategoryIds(m.categories);
      }
      FilterKeepsAll(m.categories, CategoryLacksId(id));
    }
  }

  /** After a successful save of the mirror, and once the migration has run, the next load
      gives the mirror back. */
  lemma SavedMirrorReloads(verdict: Verdict, items: map<string, string>, codec: Codec, seed: TodoStore, m: TodoStore)
    requires codec.Lawful()
    requires Truthy(Lookup(items, MigrationKey))
    requires Lookup(items, StoreKey) == Some(codec.stringify(m))
    ensures Load(true, verdict, items, codec, seed).0 == m
  {
    assert Lookup(items - {ProbeKey}, MigrationKey) == Lookup(items, MigrationKey);
    assert Lookup(items - {ProbeKey}, StoreKey) == Lookup(items, StoreKey);
  }

  /** A fresh id keeps the todo ids unique through `addTodo`, and every other mirror update keeps
      them unique too. */
  lemma MirrorUpdatesKeepTodoIdsUnique(m: TodoStore, id: string, todo: Todo, result: Todo)
    requires UniqueTodoIds(m.todos)
    ensures todo.id !in TodoIds(m.todos) ==> UniqueTodoIds(AppendTodo(m, todo).todos)
    ensures (result.id == id || id !in TodoIds(m.todos)) ==> UniqueTodoIds(ReplaceTodo(m, id, result).todos)
    ensures UniqueTodoIds(DropCategory(m, id).todos)
  {
    var a := AppendTodo(m, todo).todos;
    if todo.id !in TodoIds(m.todos) {
      forall i, j | 0 <= i < j < |a| ensures a[i].id != a[j].id {
        if j == |m.todos| {
          assert m.todos[i].id in TodoIds(m.todos);
        }
      }
    }
    var r := ReplaceTodo(m, id, result).todos;
    if result.id == id || id !in TodoIds(m.todos) {
      forall i | 0 <= i < |r| ensures r[i].id == m.todos[i].id {
        if m.todos[i].id == id {
          assert m.todos[i].id in TodoIds(m.todos);
        }
      }
    }
    var c := DropCategory(m, id).todos;
    forall i | 0 <= i < |c| ensures c[i].id == m.todos[i].id {
    }
  }

  // ---------------------------------------------------------------------------------------
  // Reading the store from a component

  const OutsideProviderError := "useStore must be used within a StoreProvider"

  /** The todo `addTodo` of the server-side placeholder returns. */
  function BlankTodo(): (t: Todo)
    ensures t.id == "" && t.title == "" && t.description == "" && t.priority == Medium
    ensures t.categoryId.None? && t.dueDate.None? && !t.completed
    ensures t.createdAt == "" && t.updatedAt == ""
  {
    Todo("", "", "", Medium, None, None, false, "", "")
  }

  /** The category `addCategory` of the server-side placeholder returns. */
  function BlankCategory(): (c: Category)
    ensures c.id == "" && c.name == "" && c.color == "" && c.createdAt == ""
  {
    Category("", "", "", "")
  }

  /** The placeholder store for rendering on the server: empty lists. */
  function CreateEmptyStore(): (r: TodoStore)
    ensures r.todos == [] && r.categories == []
  {
    TodoStore([], [])
  }

  /** `useStore`: the provider's store; outside a provider, an error in a browser and the empty
      placeholder on the server. */
  function UseStore(context: Option<TodoStore>, isBrowser: bool): (r: Result<TodoStore, string>)
    ensures context.Some? ==> r == Success(context.value)
    ensures r.Failure? <==> context.None? && isBrowser
    ensures r.Failure? ==> r.error == OutsideProviderError
    ensures context.None? && !isBrowser ==> r.Success? && r.value.todos == [] && r.value.categories == []
  {
    if context.None? && isBrowser then Failure(OutsideProviderError)
    else Success(if context.Some? then context.value else CreateEmptyStore())
  }
}
