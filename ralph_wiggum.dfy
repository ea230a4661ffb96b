/** The Ralph Wiggum editor extension: it reads a product requirements document (`prd.json`)
    of stories, picks the incomplete story with the lowest priority number, hands the agent a
    prompt for it, records progress lines in `progress.txt`, and reports how many stories remain.

    The project directory is a map from file name to contents, JSON parsing of `prd.json` is an
    oracle (`None`: the parse throws), and what the extension shows (notifications, the prompt
    placed in the assistant panel) is a log of effects. */
module RalphWiggum {
  import opened Wrappers
  import opened Lists
  import opened Text

  const PrdFile := "prd.json"
  const ProgressFile := "progress.txt"
  const CompleteMarker := "<promise>COMPLETE</promise>"

  datatype Story = Story(
    id: string,
    priority: int,
    title: string,
    description: string,
    passes: bool,
    status: string,
    acceptanceCriteria: seq<string>)

  datatype Prd = Prd(stories: seq<Story>, totalStories: int, completedStories: int)

  /** An open workspace; its root path may be empty. */
  datatype Workspace = Workspace(rootPath: string)

  datatype Notice = Info(message: string) | Error(message: string)

  /** What a command shows: a notification, or a prompt placed in the assistant panel. */
  datatype Effect = Notify(notice: Notice) | OpenPanel(prompt: string)

  // ---------------------------------------------------------------------------------------
  // Choosing the next story

  function NotPassing(): Story -> bool {
    (s: Story) => !s.passes
  }

  /** `stories.filter(s => !s.passes)`. */
  function Incomplete(stories: seq<Story>): (r: seq<Story>)
    ensures forall i :: 0 <= i < |r| ==> !r[i].passes
    ensures forall s :: s in r <==> s in stories && !s.passes
    ensures multiset(r) <= multiset(stories)
  {
    assert forall s :: NotPassing()(s) == !s.passes;
    Filter(stories, NotPassing())
  }

  predicate SortedByPriority(xs: seq<Story>) {
    forall i, j :: 0 <= i < j < |xs| ==> xs[i].priority <= xs[j].priority
  }

  /** Inserts `x` before the first story whose priority is not smaller, so that it stays ahead
      of the stories of equal priority that followed it. */
  function Insert(x: Story, ys: seq<Story>): (r: seq<Story>)
    ensures multiset(r) == multiset(ys) + multiset{x}
    ensures SortedByPriority(ys) ==> SortedByPriority(r)
  {
    if ys == [] || x.priority <= ys[0].priority then [x] + ys
    else
      var rest := Insert(x, ys[1..]);
      assert ys == [ys[0]] + ys[1..];
      if SortedByPriority(ys) then
        ConsSorted(ys[0], rest, x, ys[1..]);
        [ys[0]] + rest
      else [ys[0]] + rest
  }

  /** A story no later than everything in `ys` and than `x` can head `x` inserted into `ys`. */
  lemma ConsSorted(y: Story, rest: seq<Story>, x: Story, ys: seq<Story>)
    requires y.priority < x.priority
    requires forall i :: 0 <= i < |ys| ==> y.priority <= ys[i].priority
    requires multiset(rest) == multiset(ys) + multiset{x}
    requires SortedByPriority(rest)
    ensures SortedByPriority([y] + rest)
  {
    forall z | z in rest ensures y.priority <= z.priority {
      assert z in multiset(rest);
      if z != x {
        assert z in multiset(ys);
      }
    }
  }

  /** `sort((a, b) => a.priority - b.priority)`: a stable sort by ascending priority. */
  function SortByPriority(xs: seq<Story>): (r: seq<Story>)
    ensures multiset(r) == multiset(xs) && |r| == |xs|
    ensures SortedByPriority(r)
  {
    if xs == [] then []
    else
      assert xs == [xs[0]] + xs[1..];
      Insert(xs[0], SortByPriority(xs[1..]))
  }

  /** The reference for the choice: the first story (in file order) of lowest priority. */
  function FirstMinimal(xs: seq<Story>): (i: nat)
    requires |xs| > 0
    ensures i < |xs|
    ensures forall j :: 0 <= j < |xs| ==> xs[i].priority <= xs[j].priority
    ensures forall j :: 0 <= j < i ==> xs[j].priority > xs[i].priority
  {
    if |xs| == 1 then 0
    else
      var k := FirstMinimal(xs[1..]);
      if xs[0].priority <= xs[1..][k].priority then 0 else k + 1
  }

  /** The head of the sorted list is the first story of lowest priority. */
  lemma {:induction false} SortHeadIsFirstMinimal(xs: seq<Story>)
    requires |xs| > 0
    ensures SortByPriority(xs)[0] == xs[FirstMinimal(xs)]
  {
    if |xs| > 1 {
      SortHeadIsFirstMinimal(xs[1..]);
    }
  }

  /** The story worked on next, when any is incomplete. */
  function NextStory(stories: seq<Story>): (r: Option<Story>)
    ensures r.None? <==> Incomplete(stories) == []
  {
    var incomplete := Incomplete(stories);
    if incomplete == [] then None else Some(SortByPriority(incomplete)[0])
  }

  /** The chosen story is incomplete, no incomplete story has a lower priority, and every
      incomplete story ahead of it in the file has a strictly higher one: ties go to file order. */
  lemma NextStoryIsFirstOfLowestPriority(stories: seq<Story>)
    requires NextStory(stories).Some?
    ensures var s := NextStory(stories).value; var inc := Incomplete(stories);
      && s in stories && !s.passes
      && (forall t :: t in stories && !t.passes ==> s.priority <= t.priority)
      && s == inc[FirstMinimal(inc)]
      && (forall j :: 0 <= j < FirstMinimal(inc) ==> inc[j].priority > s.priority)
  {
    var inc := Incomplete(stories);
    SortHeadIsFirstMinimal(inc);
    forall t | t in stories && !t.passes ensures inc[FirstMinimal(inc)].priority <= t.priority {
      assert t in inc;
      var j :| 0 <= j < |inc| && inc[j] == t;
    }
  }

  // ---------------------------------------------------------------------------------------
  // The prompt

  /** The acceptance criteria as numbered lines "1. …", "2. …", in their order. */
  function CriteriaLines(criteria: seq<string>): (r: seq<string>)
    ensures |r| == |criteria|
    ensures forall i :: 0 <= i < |r| ==> r[i] == NatToString(i + 1) + ". " + criteria[i]
  {
    seq(|criteria|, i requires 0 <= i < |criteria| => NatToString(i + 1) + ". " + criteria[i])
  }

  function CriteriaBlock(criteria: seq<string>): string {
    Join(CriteriaLines(criteria), "\n")
  }

  /** Reading the criteria block line by line gives back the numbered criteria, provided no
      criterion spans several lines. */
  lemma CriteriaBlockLines(criteria: seq<string>)
    requires |criteria| > 0
    requires forall i :: 0 <= i < |criteria| ==> '\n' !in criteria[i]
    ensures Split(CriteriaBlock(criteria), '\n') == CriteriaLines(criteria)
  {
    var lines := CriteriaLines(criteria);
    SplitJoin(lines, '\n');
  }

  /** The contents of the progress file, or a placeholder when it is missing or empty. */
  function ProgressSection(progress: Option<string>): (r: string)
    ensures progress.Some? && progress.value != "" ==> r == progress.value
    ensures progress.None? || progress.value == "" ==> r == "No progress yet."
  {
    if progress.Some? && progress.value != "" then progress.value else "No progress yet."
  }

  const Instructions :=
    "## Your Task\n\n"
    + "1. **Work on this story ONLY** - Do not start other stories\n"
    + "2. **Scope it small** - Break it into the smallest testable chunk\n"
    + "3. **Keep CI green** - Run these commands after each change:\n"
    + "   ```bash\n   bun run check\n   bun run test\n   bun run lint\n   ```\n"
    + "4. **Commit your work** - Use clear commit messages\n"
    + "5. **Track progress** - Append to progress.txt\n\n"
    + "## When Complete\n\n"
    + "When this story's acceptance criteria are ALL met AND all checks pass:\n\n"
    + "Reply with ONLY:\n`" + CompleteMarker + "`\n\n"
    + "If you make partial progress but need to stop:\n"
    + "```\n[PROGRESS]\n- What you accomplished\n- What remains to be done\n[/PROGRESS]\n```\n\n"
    + "## Remember\n- One story at a time\n- Keep CI green\n- Commit often\n- Document progress\n\n"
    + "Begin working on this story now."

  /** The story's header: id, title, priority and description. */
  function StorySection(story: Story): string {
    "# Ralph Wiggum - Current Task\n\n## Current Story\n"
    + "**ID:** " + story.id + "\n"
    + "**Title:** " + story.title + "\n"
    + "**Priority:** " + IntToString(story.priority) + "\n\n"
    + "**Description:**\n" + story.description + "\n\n"
  }

  /** `buildRalphPrompt`: the story, its numbered criteria, the progress so far, then the fixed
      instructions. */
  function BuildRalphPrompt(story: Story, progress: Option<string>): (r: string)
    ensures var head := StorySection(story) + "**Acceptance Criteria:**\n";
      && |head| + |CriteriaBlock(story.acceptanceCriteria)| <= |r| && r[..|head|] == head
      && r[|head|..|head| + |CriteriaBlock(story.acceptanceCriteria)|] == CriteriaBlock(story.acceptanceCriteria)
    ensures var head := StorySection(story) + "**Acceptance Criteria:**\n";
      var start := |head| + |CriteriaBlock(story.acceptanceCriteria)|;
      && start + |Instructions| <= |r|
      && r[start..|r| - |Instructions|] == "\n\n## Progress So Far\n" + ProgressSection(progress) + "\n\n"
    ensures |Instructions| <= |r| && r[|r| - |Instructions|..] == Instructions
  {
    var head := StorySection(story) + "**Acceptance Criteria:**\n";
    var block := CriteriaBlock(story.acceptanceCriteria);
    var middle := "\n\n## Progress So Far\n" + ProgressSection(progress) + "\n\n";
    ThreeParts(head, block, middle + Instructions);
    ThreeParts(head + block, middle, Instructions);
    head + block + (middle + Instructions)
  }

  /** Where the parts of a concatenation sit. */
  lemma ThreeParts(a: string, b: string, c: string)
    ensures (a + b + c)[..|a|] == a
    ensures (a + b + c)[|a|..|a| + |b|] == b
    ensures (a + b + c)[|a| + |b|..] == c
    ensures a + b + c == a + (b + c)
  {
  }

  // ---------------------------------------------------------------------------------------
  // Progress entries

  /** An ISO-8601 instant as `toISOString` writes it: 24 characters, the date and the time
      separated by the first 'T'. */
  predicate IsIsoInstant(iso: string) {
    |iso| == 24 && iso[10] == 'T' && 'T' !in iso[..10]
  }

  /** `toISOString().replace("T", " ").substring(0, 19)`. */
  function Timestamp(iso: string): (r: string)
    ensures |r| == if |iso| < 19 then |iso| else 19
  {
    Prefix(ReplaceFirst(iso, 'T', ' '), 19)
  }

  /** For a well-formed instant the timestamp is the date, a space, and the time to the second. */
  lemma TimestampOfIsoInstant(iso: string)
    requires IsIsoInstant(iso)
    ensures Timestamp(iso) == iso[..10] + " " + iso[11..19]
  {
    assert IndexOf(iso, 'T') == Some(10);
  }

  /** One line of `progress.txt`: "[<timestamp>] <text>" and a newline. */
  function ProgressEntry(iso: string, text: string): (r: string)
    ensures |r| == |Timestamp(iso)| + |text| + 4
    ensures r[0] == '[' && r[|r| - 1] == '\n'
    ensures r[1..1 + |Timestamp(iso)|] == Timestamp(iso)
    ensures r[1 + |Timestamp(iso)|..|Timestamp(iso)| + 3] == "] "
    ensures r[|Timestamp(iso)| + 3..|r| - 1] == text
  {
    var t := Timestamp(iso);
    var r := "[" + t + "] " + text + "\n";
    assert r[1..1 + |t|] == t;
    assert r[1 + |t|..|t| + 3] == "] ";
    assert r[|t| + 3..|r| - 1] == text;
    r
  }

  // ---------------------------------------------------------------------------------------
  // The commands, as specifications

  const NoWorkspace := Notify(Error("No workspace open"))
  const NoProjectPath := Notify(Error("No project path found"))
  const AllDone := Notify(Info("\U{1F389} All stories completed! Ralph Wiggum is done."))
  const AllComplete := Notify(Info("\U{1F389} ALL STORIES COMPLETE! Great work!"))
  const ProgressRecorded := Notify(Info("Progress recorded \U{2705}"))

  /** `runRalph`: the effects it shows, and whether it throws (a `prd.json` that does not parse). */
  function RunRalphEffects(workspace: Option<Workspace>, files: map<string, string>, parsePrd: string -> Option<Prd>)
    : (r: (seq<Effect>, bool))
    ensures workspace.Some? && workspace.value.rootPath != "" && PrdFile !in files ==>
      r == ([Notify(Error("PRD file not found: " + PrdFile))], false)
  {
    if workspace.None? then ([NoWorkspace], false)
    else if workspace.value.rootPath == "" then ([NoProjectPath], false)
    else if PrdFile !in files then ([Notify(Error("PRD file not found: " + PrdFile))], false)
    else match parsePrd(files[PrdFile])
      case None => ([], true)
      case Some(prd) =>
        match NextStory(prd.stories)
        case None => ([AllDone], false)
        case Some(story) =>
          var progress := if ProgressFile in files then Some(files[ProgressFile]) else None;
          ([OpenPanel(BuildRalphPrompt(story, progress)),
            Notify(Info("Started work on: " + story.title + " (" + story.id + ")"))], false)
  }

  /** With every story passing, `runRalph` reports completion and builds no prompt; otherwise the
      prompt it opens is the one for the next story. */
  lemma RunRalphPrompt(workspace: Workspace, files: map<string, string>, parsePrd: string -> Option<Prd>)
    requires workspace.rootPath != "" && PrdFile in files && parsePrd(files[PrdFile]).Some?
    ensures var stories := parsePrd(files[PrdFile]).value.stories;
      var (effects, threw) := RunRalphEffects(Some(workspace), files, parsePrd);
      && !threw
      && ((forall s :: s in stories ==> s.passes) <==> effects == [AllDone])
      && ((forall s :: s in stories ==> s.passes) ==> forall e :: e in effects ==> !e.OpenPanel?)
      && (NextStory(stories).Some? ==>
            effects[0] == OpenPanel(BuildRalphPrompt(NextStory(stories).value,
                                     if ProgressFile in files then Some(files[ProgressFile]) else None)))
  {
    var stories := parsePrd(files[PrdFile]).value.stories;
    AllPassing(stories);
    var progress := if ProgressFile in files then Some(files[ProgressFile]) else None;
    var effects := RunRalphEffects(Some(workspace), files, parsePrd).0;
    match NextStory(stories)
    case None =>
      assert effects == [AllDone];
    case Some(story) =>
      assert effects == [OpenPanel(BuildRalphPrompt(story, progress)),
                         Notify(Info("Started work on: " + story.title + " (" + story.id + ")"))];
  }

  /** Nothing is left to do exactly when every story passes. */
  lemma AllPassing(stories: seq<Story>)
    ensures Incomplete(stories) == [] <==> forall s :: s in stories ==> s.passes
  {
    var inc := Incomplete(stories);
    if inc != [] {
      assert inc[0] in inc;
    }
    if exists s :: s in stories && !s.passes {
      var s :| s in stories && !s.passes;
      assert s in Incomplete(stories);
    }
  }

  /** `checkCompletion`: the effects it shows, and whether it throws (no or unparsable `prd.json`). */
  function CheckCompletionEffects(workspace: Option<Workspace>, files: map<string, string>, parsePrd: string -> Option<Prd>)
    : (r: (seq<Effect>, bool))
    ensures workspace.None? || workspace.value.rootPath == "" ==> r == ([], false)
  {
    if workspace.None? || workspace.value.rootPath == "" then ([], false)
    else if PrdFile !in files then ([], true)
    else match parsePrd(files[PrdFile])
      case None => ([], true)
      case Some(prd) =>
        var incomplete := Incomplete(prd.stories);
        if incomplete == [] then ([AllComplete], false)
        else
          var current := SortByPriority(incomplete)[0];
          ([Notify(Info("Still working on: " + current.title + " (" + NatToString(|incomplete|) + " remaining)"))], false)
  }

  /** The count `checkCompletion` reports is the number of stories that do not pass, and the
      story it names is the one `runRalph` would start. */
  lemma CheckCompletionCount(workspace: Workspace, files: map<string, string>, parsePrd: string -> Option<Prd>)
    requires workspace.rootPath != "" && PrdFile in files && parsePrd(files[PrdFile]).Some?
    ensures var stories := parsePrd(files[PrdFile]).value.stories;
      var (effects, threw) := CheckCompletionEffects(Some(workspace), files, parsePrd);
      var remaining := CountIncomplete(stories);
      && !threw
      && (remaining == 0 <==> effects == [AllComplete])
      && (remaining > 0 ==>
            effects == [Notify(Info("Still working on: " + NextStory(stories).value.title
                                    + " (" + NatToString(remaining) + " remaining)"))])
  {
    var stories := parsePrd(files[PrdFile]).value.stories;
    var inc := Incomplete(stories);
    IncompleteCount(stories);
    if inc != [] {
      var m := "Still working on: " + SortByPriority(inc)[0].title + " (" + NatToString(|inc|) + " remaining)";
      assert m[0] == 'S' != AllComplete.notice.message[0];
    }
    assert CheckCompletionEffects(Some(workspace), files, parsePrd).0 ==
      if inc == [] then [AllComplete]
      else [Notify(Info("Still working on: " + SortByPriority(inc)[0].title
                        + " (" + NatToString(|inc|) + " remaining)"))];
  }

  /** The number of stories that do not pass. */
  function CountIncomplete(stories: seq<Story>): nat {
    if stories == [] then 0 else (if stories[0].passes then 0 else 1) + CountIncomplete(stories[1..])
  }

  /** The filtered list has one entry per story that does not pass. */
  lemma {:induction false} IncompleteCount(stories: seq<Story>)
    ensures |Incomplete(stories)| == CountIncomplete(stories)
  {
    if stories != [] {
      IncompleteCount(stories[1..]);
    }
  }

  /** `reportProgress`: the effects shown and the new contents of the progress file. An entry is
      appended only for a non-empty answer. */
  function ReportProgressEffects(workspace: Option<Workspace>, files: map<string, string>, answer: Option<string>, iso: string)
    : (r: (seq<Effect>, map<string, string>))
    ensures answer.None? || answer.value == "" || workspace.None? || workspace.value.rootPath == "" ==> r.1 == files
    ensures workspace.Some? && workspace.value.rootPath != "" && answer.Some? && answer.value != "" ==>
      && r.0 == [ProgressRecorded]
      && ProgressFile in r.1
      && r.1[ProgressFile] == (if ProgressFile in files then files[ProgressFile] else "") + ProgressEntry(iso, answer.value)
      && forall f :: f != ProgressFile ==> (f in r.1 <==> f in files) && (f in files ==> r.1[f] == files[f])
  {
    if workspace.None? then ([NoWorkspace], files)
    else if workspace.value.rootPath == "" then ([], files)
    else if answer.None? || answer.value == "" then ([], files)
    else
      var old_ := if ProgressFile in files then files[ProgressFile] else "";
      ([ProgressRecorded], files[ProgressFile := old_ + ProgressEntry(iso, answer.value)])
  }

  // ---------------------------------------------------------------------------------------
  // The extension

  class Extension {
    const workspace: Option<Workspace>
    const parsePrd: string -> Option<Prd>
    /** The project directory: file name to contents. */
    var files: map<string, string>
    /** Everything shown so far, oldest first. */
    var shown: seq<Effect>

    constructor (workspace: Option<Workspace>, parsePrd: string -> Option<Prd>, files: map<string, string>)
      ensures this.workspace == workspace && this.parsePrd == parsePrd
      ensures this.files == files && shown == []
    {
      this.workspace := workspace;
      this.parsePrd := parsePrd;
      this.files := files;
      shown := [];
    }

    /** `runRalph`; `threw` reports the exception an unparsable `prd.json` raises. */
    method RunRalph() returns (threw: bool)
      modifies this
      ensures files == old(files)
      ensures |old(shown)| <= |shown| && shown[..|old(shown)|] == old(shown)
      ensures (shown[|old(shown)|..], threw) == RunRalphEffects(workspace, files, parsePrd)
    {
      var out: seq<Effect> := [];
      threw := false;
      if workspace.None? {
        out := [NoWorkspace];
      } else if workspace.value.rootPath == "" {
        out := [NoProjectPath];
      } else if PrdFile !in files {
        out := [Notify(Error("PRD file not found: " + PrdFile))];
      } else {
        var prd := parsePrd(files[PrdFile]);
        if prd.None? {
          threw := true;
        } else {
          var next := NextStory(prd.value.stories);
          if next.None? {
            out := [AllDone];
          } else {
            var progress := if ProgressFile in files then Some(files[ProgressFile]) else None;
            out := [OpenPanel(BuildRalphPrompt(next.value, progress)),
                    Notify(Info("Started work on: " + next.value.title + " (" + next.value.id + ")"))];
          }
        }
      }
      shown := shown + out;
      assert shown[|old(shown)|..] == out;
    }

    /** The quick command: the same as `runRalph`. */
    method StartNextStory() returns (threw: bool)
      modifies this
      ensures files == old(files)
      ensures |old(shown)| <= |shown| && shown[..|old(shown)|] == old(shown)
      ensures (shown[|old(shown)|..], threw) == RunRalphEffects(workspace, files, parsePrd)
    {
      threw := RunRalph();
    }

    /** `reportProgress`, with the answer to its question given (`None`: dismissed). */
    method ReportProgress(answer: Option<string>, iso: string)
      modifies this
      ensures |old(shown)| <= |shown| && shown[..|old(shown)|] == old(shown)
      ensures (shown[|old(shown)|..], files) == ReportProgressEffects(workspace, old(files), answer, iso)
    {
      assert shown[|shown|..] == [];
      if workspace.None? {
        shown := shown + [NoWorkspace];
        return;
      }
      if workspace.value.rootPath == "" {
        return;
      }
      if answer.Some? && answer.value != "" {
        var entry := ProgressEntry(iso, answer.value);
        var before := if ProgressFile in files then files[ProgressFile] else "";
        files := files[ProgressFile := before + entry];
        shown := shown + [ProgressRecorded];
      }
    }

    /** `checkCompletion`; `threw` reports a missing or unparsable `prd.json`. */
    method CheckCompletion() returns (threw: bool)
      modifies this
      ensures files == old(files)
      ensures |old(shown)| <= |shown| && shown[..|old(shown)|] == old(shown)
      ensures (shown[|old(shown)|..], threw) == CheckCompletionEffects(workspace, files, parsePrd)
    {
      assert shown[|shown|..] == [];
      if workspace.None? || workspace.value.rootPath == "" {
        return false;
      }
      if PrdFile !in files {
        return true;
      }
      var prd := parsePrd(files[PrdFile]);
      if prd.None? {
        return true;
      }
      var incomplete := Incomplete(prd.value.stories);
      if |incomplete| == 0 {
        shown := shown + [AllComplete];
      } else {
        var current := SortByPriority(incomplete)[0];
        shown := shown + [Notify(Info("Still working on: " + current.title + " ("
                                      + NatToString(|incomplete|) + " remaining)"))];
      }
      return false;
    }
  }
}
