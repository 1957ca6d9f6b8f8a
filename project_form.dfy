/** The admin project form: the draft it edits, the slug it derives from the
    project name, its platform and goal lists, and what it submits to the
    project routes. */
module ProjectForm {
  import opened Wrappers
  import opened Json
  import opened Tables
  import opened Schema
  import opened SchemaLaws
  import opened FormText

  /* ------------------------------------------------------------------ */
  /* Slugs                                                                */

  /** `toLowerCase` on the letters A to Z. */
  function LowerChar(c: char): (d: char)
    ensures 'A' <= c <= 'Z' ==> d as int == c as int + 32
    ensures !('A' <= c <= 'Z') ==> d == c
  {
    if 'A' <= c <= 'Z' then (c as int + 32) as char else c
  }

  function Lower(s: string): (r: string)
    ensures |r| == |s| && forall i :: 0 <= i < |s| ==> r[i] == LowerChar(s[i])
  {
    seq(|s|, i requires 0 <= i < |s| => LowerChar(s[i]))
  }

  /** The characters `[a-z0-9]` the slug keeps. */
  predicate IsSlugChar(c: char) {
    ('a' <= c <= 'z') || ('0' <= c <= '9')
  }

  /** `s` after the run of characters outside `[a-z0-9]` it starts with. */
  function SkipRun(s: string): (r: string)
    ensures r == [] || IsSlugChar(r[0])
    ensures |r| <= |s|
  {
    if s != [] && !IsSlugChar(s[0]) then SkipRun(s[1..]) else s
  }

  /** `.replace(/[^a-z0-9]+/g, '-')`: every run of other characters becomes
      one dash. */
  function Dashes(s: string): (r: string)
    ensures forall i :: 0 <= i < |r| ==> IsSlugChar(r[i]) || r[i] == '-'
    ensures NoDoubleDash(r)
    ensures r == [] <==> s == []
    ensures r != [] ==> (r[0] == '-' <==> !IsSlugChar(s[0]))
    decreases |s|
  {
    if s == [] then []
    else if IsSlugChar(s[0]) then
      var rest := Dashes(s[1..]);
      assert forall i :: 0 < i < |rest| + 1 ==> ([s[0]] + rest)[i] == rest[i - 1];
      [s[0]] + rest
    else
      var rest := Dashes(SkipRun(s[1..]));
      assert forall i :: 0 < i < |rest| + 1 ==> ("-" + rest)[i] == rest[i - 1];
      "-" + rest
  }

  predicate NoDoubleDash(t: string) {
    forall i :: 0 <= i < |t| - 1 ==> !(t[i] == '-' && t[i + 1] == '-')
  }

  /** `.replace(/(^-|-$)/g, '')`: one leading and one trailing dash go. */
  function TrimDashes(t: string): (r: string)
    ensures NoDoubleDash(t) ==> r == [] || (r[0] != '-' && r[|r| - 1] != '-')
  {
    var u := if t != [] && t[0] == '-' then t[1..] else t;
    if u != [] && u[|u| - 1] == '-' then u[..|u| - 1] else u
  }

  /** What the name field writes into the slug field: whatever the name, a
      well-formed slug. */
  function Slugify(name: string): (r: string)
    ensures WellFormedSlug(r)
  {
    var d := Dashes(Lower(name));
    var u := if d != [] && d[0] == '-' then d[1..] else d;
    assert forall i :: 0 <= i < |u| ==> IsSlugChar(u[i]) || u[i] == '-';
    assert NoDoubleDash(u);
    TrimDashes(d)
  }

  /** A slug as the form derives it: lower-case letters and digits, single
      dashes between them, none at either end. */
  predicate WellFormedSlug(t: string) {
    && (forall i :: 0 <= i < |t| ==> IsSlugChar(t[i]) || t[i] == '-')
    && NoDoubleDash(t)
    && (t == [] || (t[0] != '-' && t[|t| - 1] != '-'))
  }

  lemma {:induction false} DashesKeeps(t: string)
    requires forall i :: 0 <= i < |t| ==> IsSlugChar(t[i]) || t[i] == '-'
    requires NoDoubleDash(t)
    ensures Dashes(t) == t
    decreases |t|
  {
    if t != [] {
      var tail := t[1..];
      assert forall i :: 0 <= i < |tail| ==> IsSlugChar(tail[i]) || tail[i] == '-';
      assert NoDoubleDash(tail);
      if IsSlugChar(t[0]) {
        DashesKeeps(tail);
      } else {
        assert tail == [] || IsSlugChar(tail[0]);
        assert SkipRun(tail) == tail;
        DashesKeeps(tail);
      }
      assert t == [t[0]] + tail;
    }
  }

  /** A well-formed slug typed into the name field comes back unchanged, so
      deriving a slug twice is deriving it once. */
  lemma SlugifyKeepsWellFormed(t: string)
    requires WellFormedSlug(t)
    ensures Slugify(t) == t
  {
    assert Lower(t) == t;
    DashesKeeps(t);
  }

  lemma SlugifyIdempotent(name: string)
    ensures Slugify(Slugify(name)) == Slugify(name)
  {
    SlugifyKeepsWellFormed(Slugify(name));
  }

  /** The letters and digits of a string, in order. */
  function Alnum(s: string): string {
    if s == [] then [] else (if IsSlugChar(s[0]) then [s[0]] else []) + Alnum(s[1..])
  }

  lemma {:induction false} AlnumSkipRun(s: string)
    ensures Alnum(SkipRun(s)) == Alnum(s)
  {
    if s != [] && !IsSlugChar(s[0]) {
      AlnumSkipRun(s[1..]);
    }
  }

  lemma {:induction false} AlnumDashes(s: string)
    ensures Alnum(Dashes(s)) == Alnum(s)
    decreases |s|
  {
    if s != [] {
      if IsSlugChar(s[0]) {
        AlnumDashes(s[1..]);
        assert ([s[0]] + Dashes(s[1..]))[1..] == Dashes(s[1..]);
      } else {
        AlnumDashes(SkipRun(s[1..]));
        AlnumSkipRun(s[1..]);
        assert ("-" + Dashes(SkipRun(s[1..])))[1..] == Dashes(SkipRun(s[1..]));
      }
    }
  }

  lemma {:induction false} AlnumDropDash(u: string)
    requires u != [] && u[|u| - 1] == '-'
    ensures Alnum(u[..|u| - 1]) == Alnum(u)
  {
    if |u| > 1 {
      assert u[..|u| - 1][1..] == u[1..][..|u[1..]| - 1];
      AlnumDropDash(u[1..]);
    }
  }

  /** The slug keeps every letter and digit of the lower-cased name, in
      order, and drops everything else. */
  lemma SlugifyKeepsAlnum(name: string)
    ensures Alnum(Slugify(name)) == Alnum(Lower(name))
  {
    var d := Dashes(Lower(name));
    AlnumDashes(Lower(name));
    var u := if d != [] && d[0] == '-' then d[1..] else d;
    assert Alnum(u) == Alnum(d);
    if u != [] && u[|u| - 1] == '-' {
      AlnumDropDash(u);
    }
  }

  /* ------------------------------------------------------------------ */
  /* The draft                                                            */

  /** The form's `InsertProject` state: every nullable column holds a value. */
  datatype ProjectDraft = ProjectDraft(
    name: string, slug: string, problem: string, organization: string, timeframe: string,
    platforms: seq<string>, status: string, goals: seq<string>, testStrategy: seq<string>,
    performanceTargets: Json, isPublished: bool, displayOrder: int)

  /** The initial state, and the state `resetForm` restores. */
  function EmptyDraft(): (d: ProjectDraft)
    ensures d.status == "available" && d.isPublished && d.displayOrder == 0
    ensures d.platforms == [] && d.goals == [] && d.testStrategy == []
    ensures d.performanceTargets == JObj(map[])
  {
    ProjectDraft("", "", "", "", "", [], "available", [], [], JObj(map[]), true, 0)
  }

  /** `handleEdit`: a stored project loaded into the draft, nulls replaced. */
  function EditDraft(p: Project): (d: ProjectDraft)
    ensures d.name == p.name && d.slug == p.slug && d.platforms == p.platforms
    ensures d.goals == OrEmpty(p.goals) && d.testStrategy == OrEmpty(p.testStrategy)
    ensures d.performanceTargets == OrEmptyObject(p.performanceTargets)
    ensures d.isPublished == OrElse(p.isPublished, true) && d.displayOrder == OrZero(p.displayOrder)
    ensures JsonTruthy(d.performanceTargets)
  {
    ProjectDraft(p.name, p.slug, p.problem, p.organization, p.timeframe, p.platforms, p.status,
                 OrEmpty(p.goals), OrEmpty(p.testStrategy), OrEmptyObject(p.performanceTargets),
                 OrElse(p.isPublished, true), OrZero(p.displayOrder))
  }

  /** The request body the draft is serialised into: every key present. */
  function DraftPayload(d: ProjectDraft): NewProject {
    NewProject(d.name, d.slug, d.problem, d.organization, d.timeframe, d.platforms, d.status,
               Given(Some(d.goals)), Given(Some(d.testStrategy)), Given(Some(d.performanceTargets)),
               Given(Some(d.isPublished)), Given(Some(d.displayOrder)))
  }

  /** The project routes accept what the form sends, as it was sent: the
      create route's validator and the update route's partial validator. */
  lemma DraftAccepted(d: ProjectDraft)
    requires d.performanceTargets != JNull
    ensures ParseProject(ProjectJson(DraftPayload(d))) == Some(DraftPayload(d))
    ensures ParseProjectPatch(ProjectJson(DraftPayload(d))) == Some(ProjectAsPatch(DraftPayload(d)))
  {
    ProjectRoundTrip(DraftPayload(d));
    ProjectPartialAcceptsFull(ProjectJson(DraftPayload(d)));
  }

  /** A project created from a draft loads back into the same draft. */
  lemma EditCreatedRestoresDraft(d: ProjectDraft, now: int)
    requires JsonTruthy(d.performanceTargets)
    ensures EditDraft(InsertedProject(DraftPayload(d), now)) == d
  {
  }

  /** A stored project, loaded and saved unchanged, keeps its columns except
      that nulls (and a falsy `performanceTargets`) come back as the values
      the form shows; the timestamps are left to the storage layer. */
  lemma EditThenSaveKeeps(x: Project)
    ensures var y := PatchedProject(x, ProjectAsPatch(DraftPayload(EditDraft(x))));
            && y.name == x.name && y.slug == x.slug && y.problem == x.problem
            && y.organization == x.organization && y.timeframe == x.timeframe
            && y.platforms == x.platforms && y.status == x.status
            && y.createdAt == x.createdAt && y.updatedAt == x.updatedAt
            && y.goals == Some(OrEmpty(x.goals)) && y.testStrategy == Some(OrEmpty(x.testStrategy))
            && y.performanceTargets == Some(OrEmptyObject(x.performanceTargets))
            && y.isPublished == Some(OrElse(x.isPublished, true))
            && y.displayOrder == Some(OrZero(x.displayOrder))
            && (x.goals.Some? ==> y.goals == x.goals)
            && (x.testStrategy.Some? ==> y.testStrategy == x.testStrategy)
            && (x.isPublished.Some? ==> y.isPublished == x.isPublished)
            && (x.displayOrder.Some? ==> y.displayOrder == x.displayOrder)
  {
  }

  /* ------------------------------------------------------------------ */
  /* The form                                                             */

  class ProjectEditor {
    var formData: ProjectDraft
    var editingId: Option<Id>
    var showForm: bool
    var platformInput: string
    var goalInput: string

    /** The draft's performance targets are never null: the form starts
        from `{}` and `handleEdit` replaces a falsy value with `{}`. */
    ghost predicate Valid()
      reads this
    {
      JsonTruthy(formData.performanceTargets)
    }

    constructor()
      ensures Valid()
      ensures formData == EmptyDraft() && editingId == None && !showForm
      ensures platformInput == "" && goalInput == ""
    {
      formData := EmptyDraft();
      editingId := None;
      showForm := false;
      platformInput := "";
      goalInput := "";
    }

    /** The name field: sets the name and derives the slug from it. */
    method SetName(name: string)
      requires Valid()
      modifies this`formData
      ensures Valid()
      ensures formData == old(formData).(name := name, slug := Slugify(name))
      ensures WellFormedSlug(formData.slug)
    {
      formData := formData.(name := name, slug := Slugify(name));
    }

    /** The slug field: sets only the slug, so a hand-written slug stays
        until the name is typed again. */
    method SetSlug(slug: string)
      requires Valid()
      modifies this`formData
      ensures Valid()
      ensures formData == old(formData).(slug := slug)
    {
      formData := formData.(slug := slug);
    }

    method SetPlatformInput(text: string)
      modifies this`platformInput
      ensures platformInput == text
    {
      platformInput := text;
    }

    method SetGoalInput(text: string)
      modifies this`goalInput
      ensures goalInput == text
    {
      goalInput := text;
    }

    /** `addPlatform`: the trimmed input joins the list unless it is blank or
        listed already; only then is the input cleared. */
    method AddPlatform()
      requires Valid()
      modifies this`formData, this`platformInput
      ensures Valid()
      ensures formData == old(formData).(platforms := AddDistinct(old(formData.platforms), old(platformInput)))
      ensures platformInput == if Appends(old(formData.platforms), old(platformInput)) then "" else old(platformInput)
    {
      var t := Trim(platformInput);
      if t != "" && t !in formData.platforms {
        formData := formData.(platforms := formData.platforms + [t]);
        platformInput := "";
      }
    }

    /** `removePlatform`: every copy of the value leaves the list. */
    method RemovePlatform(platform: string)
      requires Valid()
      modifies this`formData
      ensures Valid()
      ensures formData == old(formData).(platforms := RemoveAll(old(formData.platforms), platform))
    {
      formData := formData.(platforms := RemoveAll(formData.platforms, platform));
    }

    /** `addGoal`: as `addPlatform`, on the goals. */
    method AddGoal()
      requires Valid()
      modifies this`formData, this`goalInput
      ensures Valid()
      ensures formData == old(formData).(goals := AddDistinct(old(formData.goals), old(goalInput)))
      ensures goalInput == if Appends(old(formData.goals), old(goalInput)) then "" else old(goalInput)
    {
      var t := Trim(goalInput);
      if t != "" && t !in formData.goals {
        formData := formData.(goals := formData.goals + [t]);
        goalInput := "";
      }
    }

    /** `removeGoal`. */
    method RemoveGoal(goal: string)
      requires Valid()
      modifies this`formData
      ensures Valid()
      ensures formData == old(formData).(goals := RemoveAll(old(formData.goals), goal))
    {
      formData := formData.(goals := RemoveAll(formData.goals, goal));
    }

    /** `resetForm`, run after a successful save and by the cancel button. */
    method ResetForm()
      modifies this
      ensures Valid()
      ensures formData == EmptyDraft() && editingId == None && !showForm
      ensures platformInput == "" && goalInput == ""
    {
      formData := EmptyDraft();
      editingId := None;
      showForm := false;
      platformInput := "";
      goalInput := "";
    }

    /** `handleEdit`: loads a stored project and opens the form on it; the
        list inputs keep what was typed. */
    method HandleEdit(project: Row<Project>)
      modifies this`formData, this`editingId, this`showForm
      ensures Valid()
      ensures formData == EditDraft(project.data)
      ensures editingId == Some(project.id) && showForm
    {
      formData := EditDraft(project.data);
      editingId := Some(project.id);
      showForm := true;
    }

    /** `handleSubmit`: an update of the project being edited, otherwise a
        create; either way the body is one the route's validator accepts and
        reads back as the draft. */
    method HandleSubmit() returns (s: Submission<ProjectDraft>)
      requires Valid()
      ensures s.Update? <==> editingId.Some?
      ensures s.Update? ==> s.id == editingId.value
      ensures s.data == formData
      ensures ParseProject(ProjectJson(DraftPayload(s.data))) == Some(DraftPayload(formData))
      ensures ParseProjectPatch(ProjectJson(DraftPayload(s.data))) == Some(ProjectAsPatch(DraftPayload(formData)))
    {
      s := Submit(editingId, formData);
      DraftAccepted(formData);
    }
  }
}
