# TaskFlow core in Dafny

TaskFlow is a to-do application. Its state is one `TodoStore`: a list of todos and a list of
categories. The store is kept as one serialised blob under the `localStorage` key
`taskflow-store`. A one-time migration moves data from two older keys, and a sentinel key
records that it has run. Create, update, delete and toggle operations compute the new lists,
save them, and return what they made. A React provider keeps an in-memory mirror of the store
and saves it again after every change. Beside this core sit:

- a colour-theme provider (light, dark, or follow the system);
- the add/edit todo dialog's form normalisation;
- a newsletter form's validators and interest toggle;
- an editor extension ("Ralph Wiggum") that picks the next incomplete story from `prd.json`,
  builds a prompt for it and keeps a progress log.

Each source file is one module:

| module | file | source |
|---|---|---|
| `Wrappers` | wrappers.dfy | `Option`, `Result` and `Outcome` (success or an error) |
| `Lists` | lists.dfy | the JavaScript array methods used: `findIndex`, `filter`, `map` |
| `Text` | text.dfy | the string methods used: `trim`, `join`, `split`, `indexOf`, `replace`, `substring`, decimal rendering |
| `TodoTypes` | todo_types.dfy | `src/types/todo.ts` |
| `BrowserStorage` | browser_storage.dfy | the `localStorage` object, as a class with an `items` map |
| `Persistence` | persistence.dfy | `src/lib/persistence.ts` |
| `StoreProvider` | store_provider.dfy | `src/lib/store.tsx` |
| `Theme` | theme.dfy | `src/lib/theme.tsx` |
| `TodoModal` | todo_modal.dfy | `src/components/TodoModal.tsx` |
| `NewsletterForm` | newsletter_form.dfy | `src/components/NewsletterForm.tsx` |
| `RalphWiggum` | ralph_wiggum.dfy | `extensions/ralph-wiggum.ts` |

How the parts of the program outside Dafny are represented:

- **Storage.** `localStorage` is a `Storage` object whose `items` map the methods update in
  place.
  - Whether a write succeeds is decided by a `verdict` function given with the storage: written,
    rejected for quota, or refused for another reason.
  - A storage that `getStorage()` would not return is `available == false`.
- **JSON.** `JSON.stringify`/`JSON.parse` form a `Codec` of functions. `Codec.Lawful()` is the
  round-trip law that the load-after-save results assume.
- **Clock and ids.** The clock and `generateId` are inputs (`now`, `id`). The seed data take the
  instant they were built at as a `LoadTime`.
- **Persistence operations.** Each list operation is a pure function giving the result and the
  store to save (a `Change`). A method commits that change to the storage. Lemmas state what
  the change is.
- **Store provider.** The provider is a class whose `mirror` field is the React state. Each
  operation runs the persistence call, then the state update, then the save-on-change effect.
- **Extension.** The extension's files are a map from name to contents. What it shows is a log
  of effects.

## Model

| member | source | states |
|---|---|---|
| Lists.FindIndex | src/lib/persistence.ts:133-134 | `findIndex`: `None` exactly when no element matches; otherwise the first matching index |
| Lists.Filter | src/lib/persistence.ts:153 | `filter`: keeps exactly the matching elements, never grows, and keeps a sub-multiset |
| Lists.FilterAppend | src/lib/persistence.ts:153 | filtering distributes over concatenation |
| Lists.FilterKeepsAll | src/lib/store.tsx:124 | filtering a list whose elements all match returns it unchanged |
| Lists.FilterDropsOne | src/lib/persistence.ts:150-153 | filtering a list with a non-matching element makes it strictly shorter |
| Lists.Map | src/lib/persistence.ts:205-207 | `map`: same length, element-wise image |
| Text.Trim | src/components/TodoModal.tsx:43-44 | `trim()` leaves neither end whitespace |
| Text.TrimRemovesWhitespace | src/components/TodoModal.tsx:43-44 | the trimmed string is a slice of the input, and what is cut on either side is whitespace only |
| Text.TrimEmpty | src/components/TodoModal.tsx:43 | trimming gives `""` exactly when the input is all whitespace |
| Text.TrimIdempotent | src/components/TodoModal.tsx:43-44 | trimming twice is trimming once |
| Text.NatToString | extensions/ralph-wiggum.ts:117 | decimal rendering: non-empty digits with no leading zero, `"0"` only for 0 |
| Text.NatToStringRoundTrip | extensions/ralph-wiggum.ts:117 | reading the rendering back gives the number, so distinct numbers render differently |
| Text.IntToString | extensions/ralph-wiggum.ts:111 | an integer renders as its magnitude, preceded by `-` when negative |
| Text.IndexOf | src/components/TodoModal.tsx:183 | `None` exactly when the character is absent; otherwise its first position |
| Text.Split | src/components/TodoModal.tsx:183 | `split` on one character: at least one piece, none containing the separator |
| Text.SplitJoin | extensions/ralph-wiggum.ts:117 | splitting the `join` of separator-free lines gives the lines back |
| Text.ReplaceFirst | extensions/ralph-wiggum.ts:194 | `replace` with a string pattern changes only the first occurrence and keeps the length |
| Text.Prefix | extensions/ralph-wiggum.ts:194 | `substring(0, n)` keeps the first `min(n, length)` characters |
| TodoTypes.ParsePriority | src/types/todo.ts:1 | the `Priority` union's three literals as they appear in the stored JSON: a string reads back as a priority exactly when it is one of them, and then as the priority of that name |
| TodoTypes.PriorityNameRoundTrip | src/types/todo.ts:1 | every priority's name reads back as that priority |
| TodoTypes.PriorityColorsDistinct | src/types/todo.ts:27-31 | `PRIORITY_COLORS` gives each priority its own colour |
| TodoTypes.DefaultCategories | src/types/todo.ts:33-64 | five categories with distinct ids `work, personal, shopping, health, projects` in that order, created at load time |
| TodoTypes.SeedTodos | src/types/todo.ts:66-100 | three todos `todo-1..todo-3` with distinct ids, none completed, none categorised; only the first has a due date, the ISO rendering of load time plus 86400000 ms; created and updated at load time |
| BrowserStorage.Lookup | src/lib/persistence.ts:62 | `getItem`: present exactly when the key is stored, with its value |
| BrowserStorage.Store | src/lib/persistence.ts:97 | `setItem`: a written value replaces the key's value; a rejected write changes nothing |
| BrowserStorage.Storage.GetItem | src/lib/persistence.ts:62 | reads the current contents through `Lookup` |
| BrowserStorage.Storage.SetItem | src/lib/persistence.ts:97 | the outcome and new contents are those of `Store` |
| BrowserStorage.Storage.RemoveItem | src/lib/persistence.ts:216 | the key goes and nothing else changes |
| Persistence.WriteError | src/lib/persistence.ts:98-108 | a quota rejection gives `QUOTA_EXCEEDED`, any other failed write `STORAGE_UNAVAILABLE` |
| Persistence.Probe | src/lib/persistence.ts:24-34 | `getStorage`: usable exactly when available; the probe key is left behind in no case and no other key changes |
| Persistence.Save | src/lib/persistence.ts:90-110 | `saveStore`: fails with `STORAGE_UNAVAILABLE` without storage; succeeds exactly when the write is accepted; `QUOTA_EXCEEDED` exactly for a quota rejection; never `PARSE_ERROR`; on success the blob is stored, on failure the old value stays; no other key changes |
| Persistence.Clear | src/lib/persistence.ts:213-218 | `clearAllData`: removes `taskflow-store` when storage is usable, and no other application key |
| Persistence.GetStorage | src/lib/persistence.ts:24-34 | the method's result and new storage are those of `Probe` |
| Persistence.SaveStore | src/lib/persistence.ts:90-110 | the method's outcome and new storage are those of `Save` |
| Persistence.MigrateLegacyData | src/lib/persistence.ts:36-53 | the method's result and new storage are those of `Migrate` |
| Persistence.LoadStore | src/lib/persistence.ts:55-88 | the method's result and new storage are those of `Load` over the seed store |
| Persistence.ClearAllData | src/lib/persistence.ts:213-218 | the method's new storage is that of `Clear` |
| Persistence.SaveThenLoad | src/lib/persistence.ts:73-83 | once migrated, a store that was saved successfully is the store the next load returns |
| Persistence.LoadFallsBackToSeed | src/lib/persistence.ts:57-58 | without storage, or once migrated with a missing, empty or unreadable blob, loading returns the seed store |
| Persistence.MigrationMovesLegacyData | src/lib/persistence.ts:62-70 | a first load with legacy data returns the merged data, stores it under `taskflow-store`, sets the sentinel to `"true"`, removes both legacy keys, and the next load returns the same data |
| Persistence.MigrationFillsMissingHalf | src/lib/persistence.ts:40-47 | a missing legacy half is filled from the seed data; a present one is its parsed contents |
| Persistence.FirstLoadWithoutLegacyData | src/lib/persistence.ts:70-83 | a first load without legacy data only sets the sentinel and reads `taskflow-store` as usual |
| Persistence.MalformedLegacyDataStays | src/lib/persistence.ts:41-52 | when either legacy half does not parse, the migration is abandoned: both legacy keys stay in place, and the sentinel is still set |
| Persistence.FailedMigrationSaveLosesLegacyData | src/lib/persistence.ts:45-46 | when saving the migrated data fails, loading returns the seed store, the legacy keys are already gone, and the sentinel stays unset |
| Persistence.ClearThenLoad | src/lib/persistence.ts:213-218 | clearing keeps the sentinel, so the next load returns the seed store and migrates nothing |
| Persistence.Commit | src/lib/persistence.ts:124 | an operation that saves nothing succeeds with its result; otherwise its result is returned exactly when `saveStore` passes, and its error is `saveStore`'s |
| Persistence.CommitChange | src/lib/persistence.ts:124 | the method's result and new storage are those of `Commit` |
| Persistence.CreateTodo | src/lib/persistence.ts:112-126 | the method's result and new storage are those of committing `createTodo`'s change |
| Persistence.UpdateTodo | src/lib/persistence.ts:128-147 | the method's result and new storage are those of committing `updateTodo`'s change |
| Persistence.DeleteTodo | src/lib/persistence.ts:149-156 | the method's result and new storage are those of committing `deleteTodo`'s change |
| Persistence.ToggleTodoCompletion | src/lib/persistence.ts:158-166 | the method's result and new storage are those of committing `toggleTodoCompletion`'s change |
| Persistence.CreateCategory | src/lib/persistence.ts:168-181 | the method's result and new storage are those of committing `createCategory`'s change |
| Persistence.UpdateCategory | src/lib/persistence.ts:183-198 | the method's result and new storage are those of committing `updateCategory`'s change |
| Persistence.DeleteCategory | src/lib/persistence.ts:200-211 | the method's result and new storage are those of committing `deleteCategory`'s change |
| Persistence.CreateTodoSpec | src/lib/persistence.ts:112-126 | the new todo carries every draft field, the given id, and `createdAt == updatedAt == now`; the saved store is the todos with it appended and the categories unchanged; a fresh id keeps ids unique |
| Persistence.FindTodo | src/lib/persistence.ts:133-134 | the todo search fails exactly when no todo has the id, and otherwise finds the first todo with it |
| Persistence.UpdateTodoSpec | src/lib/persistence.ts:128-147 | an absent id gives `null` and saves nothing; otherwise the first todo with the id becomes its merge with the patch, with `id` and `createdAt` kept and `updatedAt` refreshed, and the saved list keeps its length and every other position |
| Persistence.DeleteTodoSpec | src/lib/persistence.ts:149-156 | the result is true exactly when the id is present; then the saved list is the filter without the id, no todo has it, exactly the other todos remain, and the list is shorter; otherwise nothing is saved |
| Persistence.DeleteTodoTwice | src/lib/persistence.ts:149-156 | deleting the same id again returns false and saves nothing |
| Persistence.ToggleTodoSpec | src/lib/persistence.ts:158-166 | an unknown id gives `null`; otherwise the result is the todo with `completed` negated and `updatedAt` refreshed, stored at its position |
| Persistence.ToggleTodoTwice | src/lib/persistence.ts:158-166 | toggling twice restores `completed` and every other field except `updatedAt` |
| Persistence.CreateCategorySpec | src/lib/persistence.ts:168-181 | the new category carries the draft's name and colour, the given id and `createdAt == now`, and is appended to the categories |
| Persistence.FindCategory | src/lib/persistence.ts:188-189 | the category search fails exactly when no category has the id |
| Persistence.UpdateCategorySpec | src/lib/persistence.ts:183-198 | an absent id gives `null`; otherwise the first category with the id is merged with the patch, keeping `id` and `createdAt`, and stored at its position |
| Persistence.DeleteCategorySpec | src/lib/persistence.ts:200-211 | the result is true exactly when the id is present; then no category has the id, exactly the other categories remain, the todo count is kept, no todo refers to the id, and each todo is either uncategorised or unchanged |
| StoreProvider.AppendTodo | src/lib/store.tsx:108 | the mirror update of `addTodo`: the todo appended, categories untouched |
| StoreProvider.ReplaceTodo | src/lib/store.tsx:100-103 | every todo with the id becomes the result, every other todo stays, categories untouched |
| StoreProvider.DropTodo | src/lib/store.tsx:122-125 | no todo with the id remains, exactly the others stay, categories untouched |
| StoreProvider.AppendCategory | src/lib/store.tsx:129-132 | the category appended, todos untouched |
| StoreProvider.ReplaceCategory | src/lib/store.tsx:138-141 | every category with the id becomes the result, todos untouched |
| StoreProvider.DropCategory | src/lib/store.tsx:146-152 | exactly the categories without the id remain; each todo keeps its position and loses only a reference to the id (its `categoryId` becomes null), other todos unchanged |
| StoreProvider.Provider.constructor | src/lib/store.tsx:82-93 | the mirror starts as what `loadStore` returns, and the first save effect writes it |
| StoreProvider.Provider.SetStore | src/lib/store.tsx:89-93 | the new mirror is saved, and a successful save leaves the stored blob equal to the mirror |
| StoreProvider.Provider.AddTodo | src/lib/store.tsx:106-110 | returns what `createTodo` returns; the mirror is unchanged if persistence fails, otherwise it has the todo appended and is saved again |
| StoreProvider.Provider.UpdateTodo | src/lib/store.tsx:111-119 | the mirror is unchanged when persistence fails or returns `null`; otherwise the todos with the id are replaced by the result and the mirror is saved |
| StoreProvider.Provider.ToggleTodoCompletion | src/lib/store.tsx:97-105 | as `UpdateTodo`, for the toggle |
| StoreProvider.Provider.RemoveTodo | src/lib/store.tsx:120-126 | unless persistence fails, the id is filtered out of the mirror even when `deleteTodo` found nothing |
| StoreProvider.Provider.AddCategory | src/lib/store.tsx:127-134 | returns what `createCategory` returns; the mirror gets it appended unless persistence fails |
| StoreProvider.Provider.UpdateCategory | src/lib/store.tsx:135-143 | the mirror is unchanged when persistence fails or returns `null`; otherwise the categories with the id are replaced |
| StoreProvider.Provider.RemoveCategory | src/lib/store.tsx:144-153 | unless persistence fails, the mirror has no category with the id and no todo referring to it |
| StoreProvider.SwapIsReplaceAt | src/lib/store.tsx:102 | with unique ids, mapping the swap over the todos replaces exactly one position |
| StoreProvider.SwapCategoryIsReplaceAt | src/lib/store.tsx:140 | with unique ids, mapping the swap over the categories replaces exactly one position |
| StoreProvider.AddTodoAgrees | src/lib/store.tsx:106-110 | the mirror after `addTodo` equals the store `createTodo` saved |
| StoreProvider.UpdateTodoAgrees | src/lib/store.tsx:111-119 | with unique ids, the mirror after `updateTodo` equals the store `updateTodo` saved |
| StoreProvider.ToggleTodoAgrees | src/lib/store.tsx:97-105 | with unique ids, the mirror after the toggle equals the store the toggle saved |
| StoreProvider.DuplicateIdsDiverge | src/lib/store.tsx:102 | with two todos sharing an id, the mirror (every match replaced) and the saved store (first match replaced) differ |
| StoreProvider.RemoveTodoAgrees | src/lib/store.tsx:120-126 | the mirror after `removeTodo` equals the saved store; when nothing was deleted the filter leaves the mirror unchanged |
| StoreProvider.AddCategoryAgrees | src/lib/store.tsx:127-134 | the mirror after `addCategory` equals the store `createCategory` saved |
| StoreProvider.UpdateCategoryAgrees | src/lib/store.tsx:135-143 | with unique ids, the mirror after `updateCategory` equals the saved store |
| StoreProvider.RemoveCategoryAgrees | src/lib/store.tsx:144-153 | the mirror after `removeCategory` equals the store `deleteCategory` saved; when nothing was deleted the categories are unchanged |
| StoreProvider.SavedMirrorReloads | src/lib/store.tsx:89-93 | once migrated, a mirror the effect saved is what the next `loadStore` returns |
| StoreProvider.MirrorUpdatesKeepTodoIdsUnique | src/lib/store.tsx:100-152 | appending a fresh id, replacing by id and dropping a category keep todo ids unique |
| StoreProvider.BlankTodo | src/lib/store.tsx:57-67 | the placeholder todo: empty strings, medium priority, no category or due date, not completed |
| StoreProvider.BlankCategory | src/lib/store.tsx:70-75 | the placeholder category: all fields empty |
| StoreProvider.CreateEmptyStore | src/lib/store.tsx:52-79 | the server-side store has no todos and no categories |
| StoreProvider.UseStore | src/lib/store.tsx:42-49 | inside a provider, its store; outside one, an error exactly in a browser, and the empty store on the server |
| Theme.DecodeTheme | src/lib/theme.tsx:40-42 | a stored value is accepted exactly when it is `light`, `dark` or `system`, as that theme |
| Theme.ThemeNameRoundTrip | src/lib/theme.tsx:68 | every theme written under `taskflow-theme` decodes to itself |
| Theme.InitialTheme | src/lib/theme.tsx:37-44 | dark on the server; in a browser the stored choice when it decodes, otherwise system |
| Theme.GetSystemTheme | src/lib/theme.tsx:29-34 | dark exactly when there is no window or the dark-scheme query matches |
| Theme.Resolve | src/lib/theme.tsx:46-59 | the theme shown is never system: the choice itself when light or dark, otherwise the system theme |
| Theme.ApplyClasses | src/lib/theme.tsx:64-66 | the root keeps exactly one of `light`/`dark`, the one shown, and every other class |
| Theme.RememberedChoiceIsRestored | src/lib/theme.tsx:37-44 | a choice the apply effect wrote is the theme the next mount starts with |
| Theme.ThemeProvider.constructor | src/lib/theme.tsx:37-69 | starts from the stored choice and resolves it; in a browser applies the class and writes the choice |
| Theme.ThemeProvider.ApplyEffect | src/lib/theme.tsx:61-69 | in a browser sets the root class to the theme shown and writes the choice, not the theme shown; on the server does nothing |
| Theme.ThemeProvider.SetTheme | src/lib/theme.tsx:53-59 | the choice becomes the argument and what is shown follows it; choosing the current theme changes nothing; on the server neither the root classes nor storage change |
| Theme.ThemeProvider.SystemPreferenceChanged | src/lib/theme.tsx:71-81 | a system change reaches the theme shown only while the choice is system |
| Theme.UseTheme | src/lib/theme.tsx:21-27 | the provider's value inside a provider, an error outside |
| TodoModal.EmptyToNone | src/components/TodoModal.tsx:46-47 | `value \|\| null`: null exactly for the empty string, otherwise the value |
| TodoModal.HandleSubmit | src/components/TodoModal.tsx:32-49 | title and description are the `trim()` of the form's, so neither end is whitespace; priority passed through; empty category and due date become null and others pass through |
| TodoModal.SubmitForm | src/components/TodoModal.tsx:32-104 | the `required` title blocks the submit exactly when it is empty; otherwise the record is `handleSubmit`'s |
| TodoModal.BlankTitleSubmitsEmpty | src/components/TodoModal.tsx:43-104 | `required` lets blanks through: a non-empty title of whitespace only is saved as `""`, and no other title is |
| TodoModal.SubmitIdempotent | src/components/TodoModal.tsx:42-48 | submitting the submitted values again gives the same record |
| TodoModal.Heading | src/components/TodoModal.tsx:79 | "Edit Task" exactly when a todo is given |
| TodoModal.DatePart | src/components/TodoModal.tsx:183 | the text before the first `T`: a prefix with no `T`, followed by `T` when shorter than the input |
| TodoModal.DatePartIsFirstPiece | src/components/TodoModal.tsx:183 | `split("T")[0]` is that prefix |
| TodoModal.DefaultValues | src/components/TodoModal.tsx:104-185 | the `defaultValue` props: without a todo every field is empty and the priority medium; with one its fields, and the date part of its due date |
| TodoModal.StripNewlines | src/components/TodoModal.tsx:99-104 | a text input's value holds no line feed or carriage return, and a value without them is kept as it is |
| TodoModal.NormalizeNewlines | src/components/TodoModal.tsx:117-123 | a textarea's value holds no carriage return, and a value without one is kept as it is |
| TodoModal.DateStringExamples | src/components/TodoModal.tsx:175-185 | a leap day is a date only in a leap year; the expanded year `+010000` is not a date string |
| TodoModal.ControlValues | src/components/TodoModal.tsx:99-185 | what the controls hold: title and description sanitised; the category kept exactly when it is `""` or an offered id, otherwise `""` (the first option); the due date kept exactly when empty or a valid date string, otherwise `""`; the priority kept |
| TodoModal.SaveUnchangedKeepsTodo | src/components/TodoModal.tsx:32-185 | opening a todo and saving at once, through the controls, keeps its text, priority and category, and its due date as a date, when the title is non-empty and free of line breaks, the category is offered and the day is a valid date string |
| TodoModal.SaveUnchangedDropsRejectedValues | src/components/TodoModal.tsx:32-185 | the same save blocks exactly when the title is only line breaks; otherwise the title is trimmed without its line breaks, a category not offered is saved as none, and so is a due date whose day is not a valid date string |
| NewsletterForm.NameError | src/components/NewsletterForm.tsx:50-51 | an error exactly for names shorter than two characters |
| NewsletterForm.EmailError | src/components/NewsletterForm.tsx:81-84 | an error exactly when the address does not have the shape below |
| NewsletterForm.EmailPatternIsShape | src/components/NewsletterForm.tsx:82 | `^[^\s@]+@[^\s@]+\.[^\s@]+$` matches exactly the strings with no whitespace, one `@` with something before it, and a `.` in the domain that is neither its first nor its last character |
| NewsletterForm.ToggleInterest | src/components/NewsletterForm.tsx:125-129 | a selected interest is removed everywhere; another is appended; other interests keep their membership |
| NewsletterForm.ToggleTwice | src/components/NewsletterForm.tsx:125-129 | toggling twice restores membership, and restores the list when the interest was not selected |
| NewsletterForm.ToggleKeepsDistinct | src/components/NewsletterForm.tsx:125-129 | a duplicate-free list stays duplicate-free |
| NewsletterForm.FilterKeepsDistinct | src/components/NewsletterForm.tsx:127 | filtering keeps a list duplicate-free |
| NewsletterForm.Submit | src/components/NewsletterForm.tsx:19-37 | blocked exactly when a validator fails; subscribed exactly for an ok response, which alone resets the form; a non-ok response reports "Subscription failed", a thrown error its message or "Unknown error" |
| NewsletterForm.SubmitDisabled | src/components/NewsletterForm.tsx:155 | enabled exactly when the form can submit and is not submitting |
| NewsletterForm.SubmitLabel | src/components/NewsletterForm.tsx:160 | the label while submitting and otherwise |
| RalphWiggum.Incomplete | extensions/ralph-wiggum.ts:73-74 | exactly the stories that do not pass, a sub-multiset of the stories |
| RalphWiggum.Insert | extensions/ralph-wiggum.ts:75 | insertion keeps the elements and keeps a sorted list sorted |
| RalphWiggum.SortByPriority | extensions/ralph-wiggum.ts:75 | the sort is a permutation, ordered by ascending priority |
| RalphWiggum.FirstMinimal | extensions/ralph-wiggum.ts:75 | the reference choice: a lowest priority, and every earlier story has a strictly higher one |
| RalphWiggum.SortHeadIsFirstMinimal | extensions/ralph-wiggum.ts:75 | the stable sort's head is the first story of lowest priority |
| RalphWiggum.NextStory | extensions/ralph-wiggum.ts:73-82 | a story is chosen exactly when one is incomplete |
| RalphWiggum.NextStoryIsFirstOfLowestPriority | extensions/ralph-wiggum.ts:73-82 | the chosen story does not pass, no incomplete story has a lower priority, and ties go to file order |
| RalphWiggum.CriteriaLines | extensions/ralph-wiggum.ts:117 | one line `"<n>. <text>"` per criterion, numbered from 1, in order |
| RalphWiggum.CriteriaBlockLines | extensions/ralph-wiggum.ts:117 | splitting the joined block at newlines gives the numbered lines back |
| RalphWiggum.ProgressSection | extensions/ralph-wiggum.ts:100-104 | the progress file's contents, or "No progress yet." when missing or empty |
| RalphWiggum.BuildRalphPrompt | extensions/ralph-wiggum.ts:98-157 | the prompt is, in order and with nothing else, the story section, the criteria block, the "## Progress So Far" section holding the progress text or its placeholder, and the fixed instructions |
| RalphWiggum.Timestamp | extensions/ralph-wiggum.ts:194 | at most 19 characters |
| RalphWiggum.TimestampOfIsoInstant | extensions/ralph-wiggum.ts:194 | for an ISO instant, the date, a space, and the time to the second |
| RalphWiggum.ProgressEntry | extensions/ralph-wiggum.ts:195 | exactly `[`, the timestamp, `] `, the text, and a newline |
| RalphWiggum.RunRalphEffects | extensions/ralph-wiggum.ts:62-66 | a missing `prd.json` stops `runRalph` with that error and nothing else |
| RalphWiggum.RunRalphPrompt | extensions/ralph-wiggum.ts:73-90 | when every story passes, only the completion message is shown and no prompt is built; otherwise the prompt opened is the one for the next story |
| RalphWiggum.AllPassing | extensions/ralph-wiggum.ts:77 | nothing is left exactly when every story passes |
| RalphWiggum.CheckCompletionEffects | extensions/ralph-wiggum.ts:205-209 | without a workspace or project path, `checkCompletion` shows nothing |
| RalphWiggum.CheckCompletionCount | extensions/ralph-wiggum.ts:216-222 | the completion message exactly when no story is incomplete; otherwise the count shown is the number of stories that do not pass and the story named is the one `runRalph` would start |
| RalphWiggum.IncompleteCount | extensions/ralph-wiggum.ts:216 | the filtered list has one entry per story that does not pass |
| RalphWiggum.ReportProgressEffects | extensions/ralph-wiggum.ts:176-202 | an entry is appended to `progress.txt` (created when missing) only for a non-empty answer, with the confirmation; no other file changes |
| RalphWiggum.Extension.constructor | extensions/ralph-wiggum.ts:31 | the extension starts with the given workspace and files and nothing shown |
| RalphWiggum.Extension.RunRalph | extensions/ralph-wiggum.ts:48-91 | leaves the files alone and appends exactly the effects `RunRalphEffects` lists |
| RalphWiggum.Extension.StartNextStory | extensions/ralph-wiggum.ts:93-96 | the same as `runRalph` |
| RalphWiggum.Extension.ReportProgress | extensions/ralph-wiggum.ts:176-202 | appends the effects and writes the files that `ReportProgressEffects` gives |
| RalphWiggum.Extension.CheckCompletion | extensions/ralph-wiggum.ts:204-224 | leaves the files alone and appends exactly the effects `CheckCompletionEffects` lists |

## Left out

- JSON encoding and decoding are the functions of a `Codec`, not a parser. The shape check
  `Array.isArray` on the two fields is part of what `parse` reports.
- Persistence.Migrate: a legacy value that parses to something other than an array (`"{}"`,
  `"null"`, `"5"`) is migrated as it is by the source: both keys are removed, and the value is
  saved and returned as part of the store. The legacy parses of the model give a list or fail,
  so this case is not modelled.
- The `DOMException` quota test is the storage's `verdict`. The probe write in `getStorage` is
  taken to succeed whenever storage is available.
- `generateId` and `new Date()` are inputs. Nothing guarantees fresh ids, so uniqueness of ids
  is a precondition of the lemmas that need it, not a property of the model.
- All seed timestamps share one load instant. The source evaluates `new Date()` once per field
  at module load.
- React scheduling: `useEffect` timing, `isHydrated` and batched functional `setStore` calls.
  Each provider operation runs its persistence call, its state update and its save effect in
  sequence. The first save after hydration is done by the constructor.
- Persistence errors thrown inside a provider operation are returned as a `Failure` value
  rather than thrown, and leave the mirror unchanged.
- `matchMedia` listener plumbing: the system preference is the `prefersDark` field, changed by
  `SystemPreferenceChanged`.
- StoreProvider.Provider.SetStore: in the source the save-on-change effect calls `saveStore`
  without a `try`, so a quota or unavailable-storage error is thrown out of the effect into
  React. The model records the error and keeps the updated mirror.
- Theme.InitialTheme: in the source a `getItem` that throws while a window exists stops the
  provider from mounting. The model always hands the initializer a stored value or none.
- Theme.ThemeProvider.ApplyEffect: a `setItem` that throws would escape the effect in the
  source; the model lets the storage refuse the write instead.
- String lengths count Unicode code points, where JavaScript counts UTF-16 code units. The name
  validator and `substring(0, 19)` differ only for characters outside the Basic Multilingual
  Plane.
- TodoModal.DefaultValues: `new Date(d).toISOString()` is a function given to the model. An
  invalid date, for which it throws, is not modelled.
- A patch field set to `undefined` explicitly overwrites the field in the source's spread. The
  model's patch fields are absent or present.
- Text.IntToString: `${n}` prints integers of magnitude 1e21 or more in exponent notation
  (`1e+21`), and integers beyond 2^53 are not exact in JavaScript. The model prints every digit
  of an unbounded integer.
- RalphWiggum.SortByPriority: stories have integer priorities. A non-numeric or `NaN` priority
  makes the source's comparator inconsistent.
- RalphWiggum.Extension.CheckCompletion: the source sorts `incomplete` in place. The model sorts
  a copy, which shows the same story.
- File system access, notifications, `openAIPanel` and `path.join` are the extension's file map
  and effect log. The panel's `setTimeout` and DOM access are not modelled.
- `MAX_ITERATIONS` is declared but never used.
- `prd.json` parsing is a function given to the extension; it fails where `JSON.parse` throws.
- The newsletter request body and TanStack Form's internals are not modelled. `canSubmit` and
  `isSubmitting` are inputs, and a submission is taken to run the validators first.
- The `Category` type has no `updatedAt` and `updateCategory` refreshes no timestamp. The model
  follows the code on both.
