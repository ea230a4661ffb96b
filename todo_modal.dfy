/** The add/edit todo dialog, reduced to its data: the values the form starts with, and how the
    submitted form becomes the record handed to `onSave`. Rendering is not modelled. */
module TodoModal {
  import opened Wrappers
  import opened Text
  import opened TodoTypes

  /** The raw strings of a submitted form (the priority comes from a fixed list of options). */
  datatype FormValues = FormValues(
    title: string,
    description: string,
    priority: Priority,
    categoryId: string,
    dueDate: string)

  /** The record passed to `onSave`: a todo without id, timestamps and completion flag. */
  datatype TodoInput = TodoInput(
    title: string,
    description: string,
    priority: Priority,
    categoryId: Option<string>,
    dueDate: Option<string>)

  /** `value || null` for a form string. */
  function EmptyToNone(s: string): (r: Option<string>)
    ensures r.None? <==> s == ""
    ensures r.Some? ==> r.value == s
  {
    if s == "" then None else Some(s)
  }

  /** `handleSubmit`: title and description trimmed, an empty category or due date dropped,
      the priority as chosen. It checks nothing itself: a title of blanks becomes "". */
  function HandleSubmit(f: FormValues): (r: TodoInput)
    ensures r.title == Trim(f.title) && r.description == Trim(f.description)
    ensures Trimmed(r.title) && Trimmed(r.description)
    ensures r.priority == f.priority
    ensures r.categoryId.None? <==> f.categoryId == ""
    ensures r.categoryId.Some? ==> r.categoryId.value == f.categoryId
    ensures r.dueDate.None? <==> f.dueDate == ""
    ensures r.dueDate.Some? ==> r.dueDate.value == f.dueDate
  {
    TodoInput(Trim(f.title), Trim(f.description), f.priority, EmptyToNone(f.categoryId), EmptyToNone(f.dueDate))
  }

  /** A submit: the title input is `required`, so the browser blocks the submit while the
      title is empty; otherwise `handleSubmit` hands its record to `onSave`. */
  function SubmitForm(f: FormValues): (r: Option<TodoInput>)
    ensures r.None? <==> f.title == ""
    ensures r.Some? ==> r.value == HandleSubmit(f)
  {
    if f.title == "" then None else Some(HandleSubmit(f))
  }

  /** `required` does not look at blanks: a non-empty title made only of whitespace is saved as
      the empty string, and no other title is. */
  lemma BlankTitleSubmitsEmpty(f: FormValues)
    ensures (SubmitForm(f).Some? && SubmitForm(f).value.title == []) <==> f.title != [] && AllWhitespace(f.title)
  {
    TrimEmpty(f.title);
  }

  /** The form a submitted record would fill in again. */
  function AsForm(r: TodoInput): FormValues {
    FormValues(r.title, r.description, r.priority, r.categoryId.GetOr(""), r.dueDate.GetOr(""))
  }

  /** Submitting is idempotent: the record a submission produces comes back unchanged when its
      values are submitted again. */
  lemma SubmitIdempotent(f: FormValues)
    ensures HandleSubmit(AsForm(HandleSubmit(f))) == HandleSubmit(f)
  {
    var r := HandleSubmit(f);
    var again := HandleSubmit(AsForm(r));
    assert again.title == r.title by {
      TrimIdempotent(f.title);
    }
    assert again.description == r.description by {
      TrimIdempotent(f.description);
    }
    EmptyToNoneAgain(f.categoryId);
    EmptyToNoneAgain(f.dueDate);
  }

  /** A field dropped as empty stays dropped, and a kept one stays kept. */
  lemma EmptyToNoneAgain(s: string)
    ensures EmptyToNone(EmptyToNone(s).GetOr("")) == EmptyToNone(s)
  {
  }

  /** The dialog edits exactly when it is given a todo. */
  function IsEditing(todo: Option<Todo>): bool {
    todo.Some?
  }

  function Heading(todo: Option<Todo>): (r: string)
    ensures r == (if IsEditing(todo) then "Edit Task" else "Add New Task")
  {
    if todo.Some? then "Edit Task" else "Add New Task"
  }

  /** The date part of an ISO-8601 timestamp: everything before the first 'T'. */
  function DatePart(iso: string): (r: string)
    ensures 'T' !in r
    ensures |r| <= |iso| && r == iso[..|r|]
    ensures |r| < |iso| ==> iso[|r|] == 'T'
  {
    match IndexOf(iso, 'T')
    case None => iso
    case Some(k) => iso[..k]
  }

  /** `Split(iso, 'T')[0]` is the date part. */
  lemma DatePartIsFirstPiece(iso: string)
    ensures Split(iso, 'T')[0] == DatePart(iso)
  {
  }

  /** The values the form starts with. `toIso` stands for `new Date(d).toISOString()`; a missing
      or empty due date starts empty. Without a todo, every field is empty and the priority is
      medium. */
  function DefaultValues(todo: Option<Todo>, toIso: string -> string): (r: FormValues)
    ensures todo.None? ==> r == FormValues("", "", Medium, "", "")
    ensures todo.Some? ==>
      && r.title == todo.value.title && r.description == todo.value.description
      && r.priority == todo.value.priority
      && r.categoryId == todo.value.categoryId.GetOr("")
    ensures todo.Some? && todo.value.dueDate.Some? && todo.value.dueDate.value != "" ==>
      r.dueDate == Split(toIso(todo.value.dueDate.value), 'T')[0]
    ensures todo.None? || todo.value.dueDate.None? || todo.value.dueDate.value == "" ==> r.dueDate == ""
  {
    match todo
    case None => FormValues("", "", Medium, "", "")
    case Some(t) =>
      var due := if t.dueDate.Some? && t.dueDate.value != "" then Split(toIso(t.dueDate.value), 'T')[0] else "";
      FormValues(t.title, t.description, t.priority, t.categoryId.GetOr(""), due)
  }

  // ---------------------------------------------------------------------------------------
  // What the browser makes of the default values

  /** The value of an `<input type="text">`: line feeds and carriage returns are stripped. */
  function StripNewlines(s: string): (r: string)
    ensures '\n' !in r && '\r' !in r
    ensures '\n' !in s && '\r' !in s ==> r == s
    ensures |r| <= |s|
  {
    if s == [] then []
    else (if s[0] == '\n' || s[0] == '\r' then [] else [s[0]]) + StripNewlines(s[1..])
  }

  /** The value of a `<textarea>`: each CR LF pair and each lone CR becomes LF. */
  function NormalizeNewlines(s: string): (r: string)
    ensures '\r' !in r
    ensures '\r' !in s ==> r == s
  {
    if s == [] then []
    else if s[0] == '\r' then "\n" + NormalizeNewlines(if |s| > 1 && s[1] == '\n' then s[2..] else s[1..])
    else [s[0]] + NormalizeNewlines(s[1..])
  }

  function DaysInMonth(year: nat, month: nat): nat
    requires 1 <= month <= 12
  {
    if month == 2 then (if year % 400 == 0 || (year % 4 == 0 && year % 100 != 0) then 29 else 28)
    else if month == 4 || month == 6 || month == 9 || month == 11 then 30
    else 31
  }

  /** A valid date string as `<input type="date">` accepts it: a year of four or more digits
      above zero, a two-digit month, and a two-digit day that exists in that month, separated
      by '-'. */
  predicate IsValidDateString(s: string) {
    && |s| >= 10 && s[|s| - 6] == '-' && s[|s| - 3] == '-'
    && IsDigits(s[..|s| - 6]) && IsDigits(s[|s| - 5..|s| - 3]) && IsDigits(s[|s| - 2..])
    && var year, month, day := ParseNat(s[..|s| - 6]), ParseNat(s[|s| - 5..|s| - 3]), ParseNat(s[|s| - 2..]);
       year > 0 && 1 <= month <= 12 && 1 <= day <= DaysInMonth(year, month)
  }

  /** A leap day is a date only in a leap year, and the expanded-year form `toISOString` gives
      for years past 9999 is not a date string at all. */
  lemma DateStringExamples()
    ensures IsValidDateString("2024-02-29")
    ensures !IsValidDateString("2023-02-29")
    ensures !IsValidDateString("+010000-01-01")
  {
    var leap, common := "2024-02-29", "2023-02-29";
    assert leap[..4] == "2024" && leap[5..7] == "02" && leap[8..] == "29";
    assert ParseNat("2024") == 2024 by {
      assert "2024"[..3] == "202" && "202"[..2] == "20" && "20"[..1] == "2" && "2"[..0] == "";
    }
    assert ParseNat("02") == 2 by {
      assert "02"[..1] == "0" && "0"[..0] == "";
    }
    assert ParseNat("29") == 29 by {
      assert "29"[..1] == "2" && "2"[..0] == "";
    }
    assert common[..4] == "2023" && common[5..7] == "02" && common[8..] == "29";
    assert ParseNat("2023") == 2023 by {
      assert "2023"[..3] == "202" && "202"[..2] == "20" && "20"[..1] == "2" && "2"[..0] == "";
    }
    var expanded := "+010000-01-01";
    assert expanded[..7][0] == '+';
  }

  /** What the controls hold once the browser has taken the default values: the title without
      line breaks, the description with its line breaks normalised, the category select on the
      matching option or else on its first option ("No category", value ""), and the date input
      emptied unless it holds a valid date string. The priority select always has a matching
      option. */
  function ControlValues(defaults: FormValues, categories: seq<Category>): (r: FormValues)
    ensures r.title == StripNewlines(defaults.title) && r.description == NormalizeNewlines(defaults.description)
    ensures r.priority == defaults.priority
    ensures r.categoryId == defaults.categoryId <==> defaults.categoryId == "" || defaults.categoryId in CategoryIds(categories)
    ensures r.categoryId != defaults.categoryId ==> r.categoryId == ""
    ensures r.dueDate == defaults.dueDate <==> defaults.dueDate == "" || IsValidDateString(defaults.dueDate)
    ensures r.dueDate != defaults.dueDate ==> r.dueDate == ""
  {
    FormValues(
      StripNewlines(defaults.title),
      NormalizeNewlines(defaults.description),
      defaults.priority,
      if defaults.categoryId in CategoryIds(categories) then defaults.categoryId else "",
      if IsValidDateString(defaults.dueDate) then defaults.dueDate else "")
  }

  /** Opening a todo for editing and saving at once keeps its text, priority and category, and
      keeps its due date as the day of that date, when the browser accepts each of them as the
      control's value. */
  lemma SaveUnchangedKeepsTodo(t: Todo, categories: seq<Category>, toIso: string -> string)
    requires t.title != "" && Trim(t.title) == t.title && Trim(t.description) == t.description
    requires '\n' !in t.title && '\r' !in t.title && '\r' !in t.description
    requires t.categoryId.None? || t.categoryId.value in CategoryIds(categories)
    requires t.categoryId != Some("")
    ensures var r := SubmitForm(ControlValues(DefaultValues(Some(t), toIso), categories));
      && r.Some?
      && r.value.title == t.title && r.value.description == t.description && r.value.priority == t.priority
      && r.value.categoryId == t.categoryId
      && (t.dueDate.None? || t.dueDate.value == "" ==> r.value.dueDate.None?)
      && (t.dueDate.Some? && t.dueDate.value != "" && IsValidDateString(DatePart(toIso(t.dueDate.value))) ==>
            r.value.dueDate == Some(DatePart(toIso(t.dueDate.value))))
  {
    if t.dueDate.Some? && t.dueDate.value != "" {
      DatePartIsFirstPiece(toIso(t.dueDate.value));
    }
  }

  /** What an unchanged save loses: a category that is not among the offered ones comes back
      as none, so does a due date whose day is not a valid date string, and the title loses its
      line breaks. A title made only of line breaks blocks the save. */
  lemma SaveUnchangedDropsRejectedValues(t: Todo, categories: seq<Category>, toIso: string -> string)
    ensures var r := SubmitForm(ControlValues(DefaultValues(Some(t), toIso), categories));
      && (r.None? <==> StripNewlines(t.title) == "")
      && (r.Some? ==> r.value.title == Trim(StripNewlines(t.title)))
      && (r.Some? && t.categoryId.Some? && t.categoryId.value !in CategoryIds(categories) ==> r.value.categoryId.None?)
      && (r.Some? && t.dueDate.Some? && t.dueDate.value != "" && !IsValidDateString(DatePart(toIso(t.dueDate.value))) ==>
            r.value.dueDate.None?)
  {
    if t.dueDate.Some? && t.dueDate.value != "" {
      DatePartIsFirstPiece(toIso(t.dueDate.value));
    }
  }
}
