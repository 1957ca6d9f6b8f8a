/** The content store: one table per kind of content, the queries the site
    reads them with and the writes the admin makes. */
module Storage {
  import opened Wrappers
  import opened Tables
  import opened Schema

  /** The outcome of a write on a table with a unique column: the stored row,
      or the database's refusal naming the column. */
  datatype Written<T> = Written(value: T) | UniqueViolation(column: string)

  function Username(r: Row<AdminUser>): string { r.data.username }

  function Slug(r: Row<Project>): string { r.data.slug }

  predicate UsernameTaken(rows: seq<Row<AdminUser>>, username: string) {
    exists i :: 0 <= i < |rows| && rows[i].data.username == username
  }

  predicate SlugTaken(rows: seq<Row<Project>>, slug: string) {
    exists i :: 0 <= i < |rows| && rows[i].data.slug == slug
  }

  /** A row other than the one keyed `id` already holds `slug`. */
  predicate SlugTakenByOther(rows: seq<Row<Project>>, slug: string, id: Id) {
    exists i :: 0 <= i < |rows| && rows[i].data.slug == slug && rows[i].id != id
  }

  /* Visibility flags (`where flag = true`: a null flag hides the row) and sort keys. */

  predicate SkillShown(r: Row<Skill>) { r.data.isActive == Some(true) }
  function SkillOrder(r: Row<Skill>): Option<int> { r.data.displayOrder }

  predicate ProjectShown(r: Row<Project>) { r.data.isPublished == Some(true) }
  function ProjectOrder(r: Row<Project>): Option<int> { r.data.displayOrder }

  predicate ExperienceShown(r: Row<Experience>) { r.data.isActive == Some(true) }
  function ExperienceOrder(r: Row<Experience>): Option<int> { r.data.displayOrder }

  predicate EducationShown(r: Row<Education>) { r.data.isActive == Some(true) }
  function EducationOrder(r: Row<Education>): Option<int> { r.data.displayOrder }

  predicate ResumeAttachmentShown(r: Row<ResumeAttachment>) { r.data.isActive == Some(true) }
  /** `orderBy(desc(uploadedAt))`: ascending on the negated time. */
  function NewestUpload(r: Row<ResumeAttachment>): Option<int> { Some(-r.data.uploadedAt) }

  /** `orderBy(desc(updatedAt))` for the singleton tables. */
  function NewestAboutContent(r: Row<AboutContent>): Option<int> { Some(-r.data.updatedAt) }
  function NewestSiteSettings(r: Row<SiteSettings>): Option<int> { Some(-r.data.updatedAt) }

  /* ------------------------------------------------------------------ */
  /* Singleton upserts as functions of the table                          */

  /** `upsertProfile`: merge the payload into the row `getProfile` returns
      (the first, in the model) if there is one, otherwise insert a row under
      `id`. */
  function UpsertedProfile(rows: seq<Row<Profile>>, p: NewProfile, now: int, id: Id): (r: seq<Row<Profile>>)
    ensures rows == [] ==> r == [Row(id, InsertedProfile(p, now))]
    ensures rows != [] && UniqueIds(rows) ==> r == rows[0 := Row(rows[0].id, MergedProfile(rows[0].data, p, now))]
  {
    match First(rows)
    case None => rows + [Row(id, InsertedProfile(p, now))]
    case Some(e) =>
      var r := Update(rows, e.id, (x: Profile) => MergedProfile(x, p, now));
      assert UniqueIds(rows) ==> r == rows[0 := Row(rows[0].id, MergedProfile(rows[0].data, p, now))] by {
        if UniqueIds(rows) {
          assert forall i :: 0 < i < |rows| ==> rows[i].id != rows[0].id;
        }
      }
      r
  }

  /** A row of the table with the greatest `updatedAt`. */
  ghost predicate LatestAbout(rows: seq<Row<AboutContent>>, k: int) {
    0 <= k < |rows| && forall i :: 0 <= i < |rows| ==> rows[i].data.updatedAt <= rows[k].data.updatedAt
  }

  ghost predicate LatestSettings(rows: seq<Row<SiteSettings>>, k: int) {
    0 <= k < |rows| && forall i :: 0 <= i < |rows| ==> rows[i].data.updatedAt <= rows[k].data.updatedAt
  }

  /** `upsertAboutContent`: merge the payload into the most recently updated
      row if there is one, otherwise insert a row under `id`. */
  function UpsertedAboutContent(rows: seq<Row<AboutContent>>, p: NewAboutContent, now: int, id: Id): (r: seq<Row<AboutContent>>)
    ensures rows == [] ==> r == [Row(id, InsertedAboutContent(p, now))]
    ensures rows != [] && UniqueIds(rows) ==>
              exists k :: LatestAbout(rows, k) && r == rows[k := Row(rows[k].id, MergedAboutContent(rows[k].data, p, now))]
  {
    match Least(rows, NewestAboutContent)
    case None => rows + [Row(id, InsertedAboutContent(p, now))]
    case Some(e) =>
      var f := (x: AboutContent) => MergedAboutContent(x, p, now);
      var r := Update(rows, e.id, f);
      assert UniqueIds(rows) ==>
          exists k :: LatestAbout(rows, k) && r == rows[k := Row(rows[k].id, MergedAboutContent(rows[k].data, p, now))] by {
        if UniqueIds(rows) {
          var k :| 0 <= k < |rows| && rows[k] == e;
          assert LatestAbout(rows, k);
          UpdateAt(rows, k, f);
        }
      }
      r
  }

  /** `upsertSiteSettings`, the same shape as `upsertAboutContent`. */
  function UpsertedSiteSettings(rows: seq<Row<SiteSettings>>, p: NewSiteSettings, now: int, id: Id): (r: seq<Row<SiteSettings>>)
    ensures rows == [] ==> r == [Row(id, InsertedSiteSettings(p, now))]
    ensures rows != [] && UniqueIds(rows) ==>
              exists k :: LatestSettings(rows, k) && r == rows[k := Row(rows[k].id, MergedSiteSettings(rows[k].data, p, now))]
  {
    match Least(rows, NewestSiteSettings)
    case None => rows + [Row(id, InsertedSiteSettings(p, now))]
    case Some(e) =>
      var f := (x: SiteSettings) => MergedSiteSettings(x, p, now);
      var r := Update(rows, e.id, f);
      assert UniqueIds(rows) ==>
          exists k :: LatestSettings(rows, k) && r == rows[k := Row(rows[k].id, MergedSiteSettings(rows[k].data, p, now))] by {
        if UniqueIds(rows) {
          var k :| 0 <= k < |rows| && rows[k] == e;
          assert LatestSettings(rows, k);
          UpdateAt(rows, k, f);
        }
      }
      r
  }

  /* ------------------------------------------------------------------ */
  /* Partial updates as functions of the table                            */

  /** `update ... set(patch) where id`: the row with that key takes the
      columns the patch gives; every other row and column stays. */
  function SkillRowsPatched(rows: seq<Row<Skill>>, id: Id, patch: SkillPatch): (r: seq<Row<Skill>>)
    ensures |r| == |rows|
    ensures forall i :: 0 <= i < |rows| ==>
              r[i] == if rows[i].id == id then Row(id, PatchedSkill(rows[i].data, patch)) else rows[i]
  {
    Update(rows, id, (x: Skill) => PatchedSkill(x, patch))
  }

  /** `update ... set(patch) where id`: the row with that key takes the
      columns the patch gives; every other row and column stays. */
  function ExperienceRowsPatched(rows: seq<Row<Experience>>, id: Id, patch: ExperiencePatch): (r: seq<Row<Experience>>)
    ensures |r| == |rows|
    ensures forall i :: 0 <= i < |rows| ==>
              r[i] == if rows[i].id == id then Row(id, PatchedExperience(rows[i].data, patch)) else rows[i]
  {
    Update(rows, id, (x: Experience) => PatchedExperience(x, patch))
  }

  /** `update ... set(patch) where id`: the row with that key takes the
      columns the patch gives; every other row and column stays. */
  function EducationRowsPatched(rows: seq<Row<Education>>, id: Id, patch: EducationPatch): (r: seq<Row<Education>>)
    ensures |r| == |rows|
    ensures forall i :: 0 <= i < |rows| ==>
              r[i] == if rows[i].id == id then Row(id, PatchedEducation(rows[i].data, patch)) else rows[i]
  {
    Update(rows, id, (x: Education) => PatchedEducation(x, patch))
  }

  /** `update ... set(patch) where id`: the row with that key takes the
      columns the patch gives; every other row and column stays. */
  function ResumeAttachmentRowsPatched(rows: seq<Row<ResumeAttachment>>, id: Id, patch: ResumeAttachmentPatch): (r: seq<Row<ResumeAttachment>>)
    ensures |r| == |rows|
    ensures forall i :: 0 <= i < |rows| ==>
              r[i] == if rows[i].id == id then Row(id, PatchedResumeAttachment(rows[i].data, patch)) else rows[i]
  {
    Update(rows, id, (x: ResumeAttachment) => PatchedResumeAttachment(x, patch))
  }

  /** `updateProject`: like the other updates, and `updatedAt` becomes `now`. */
  function ProjectRowsPatched(rows: seq<Row<Project>>, id: Id, patch: ProjectPatch, now: int): (r: seq<Row<Project>>)
    ensures |r| == |rows|
    ensures forall i :: 0 <= i < |rows| ==>
              r[i] == if rows[i].id == id then Row(id, RestampedProject(rows[i].data, patch, now)) else rows[i]
  {
    Update(rows, id, (x: Project) => RestampedProject(x, patch, now))
  }

  /* ------------------------------------------------------------------ */
  /* The store                                                            */

  class DatabaseStorage {
    var adminUsers: seq<Row<AdminUser>>
    var profile: seq<Row<Profile>>
    var skills: seq<Row<Skill>>
    var projects: seq<Row<Project>>
    var about: seq<Row<AboutContent>>
    var experiences: seq<Row<Experience>>
    var educations: seq<Row<Education>>
    var settings: seq<Row<SiteSettings>>
    var attachments: seq<Row<ResumeAttachment>>
    /** The next key `gen_random_uuid()` hands out. */
    var nextId: Id

    /** Primary keys are unique and already drawn, `username` and `slug` are
        unique. */
    ghost predicate Valid()
      reads this
    {
      && TableValid(adminUsers, nextId) && DistinctBy(adminUsers, Username)
      && TableValid(profile, nextId)
      && TableValid(skills, nextId)
      && TableValid(projects, nextId) && DistinctBy(projects, Slug)
      && TableValid(about, nextId)
      && TableValid(experiences, nextId)
      && TableValid(educations, nextId)
      && TableValid(settings, nextId)
      && TableValid(attachments, nextId)
    }

    constructor()
      ensures Valid()
      ensures adminUsers == [] && profile == [] && skills == [] && projects == [] && about == []
      ensures experiences == [] && educations == [] && settings == [] && attachments == []
    {
      adminUsers, profile, skills, projects, about := [], [], [], [], [];
      experiences, educations, settings, attachments := [], [], [], [];
      nextId := 0;
    }

    /* admin_users */

    function GetAdminUser(id: Id): (r: Option<Row<AdminUser>>)
      reads this
      ensures r.None? <==> !HasId(adminUsers, id)
      ensures r.Some? ==> r.value in adminUsers && r.value.id == id
    {
      Find(adminUsers, (u: Row<AdminUser>) => u.id == id)
    }

    function GetAdminUserByUsername(username: string): (r: Option<Row<AdminUser>>)
      reads this
      ensures r.None? <==> !UsernameTaken(adminUsers, username)
      ensures r.Some? ==> r.value in adminUsers && r.value.data.username == username
    {
      Find(adminUsers, (u: Row<AdminUser>) => u.data.username == username)
    }

    /** Inserts the admin under a fresh key, unless the username is taken. */
    method CreateAdminUser(data: NewAdminUser, now: int) returns (r: Written<Row<AdminUser>>)
      requires Valid()
      modifies this`adminUsers, this`nextId
      ensures Valid()
      ensures UsernameTaken(old(adminUsers), data.username) ==>
                r == UniqueViolation("username") && adminUsers == old(adminUsers) && nextId == old(nextId)
      ensures !UsernameTaken(old(adminUsers), data.username) ==>
                && r == Written(Row(old(nextId), InsertedAdminUser(data, now)))
                && adminUsers == old(adminUsers) + [r.value] && nextId == old(nextId) + 1
    {
      if GetAdminUserByUsername(data.username).Some? {
        return UniqueViolation("username");
      }
      var row := Row(nextId, InsertedAdminUser(data, now));
      adminUsers := adminUsers + [row];
      nextId := nextId + 1;
      r := Written(row);
    }

    /* profile */

    /** `limit(1)` with no ordering. The database may return any row; the
        model takes the first, which is the only one while the table holds
        at most one (`UpsertsKeepOneProfile`). */
    function GetProfile(): (r: Option<Row<Profile>>)
      reads this
      ensures r.None? <==> profile == []
      ensures r.Some? ==> r.value == profile[0]
    {
      First(profile)
    }

    method UpsertProfile(data: NewProfile, now: int) returns (row: Row<Profile>)
      requires Valid()
      modifies this`profile, this`nextId
      ensures Valid()
      ensures profile == UpsertedProfile(old(profile), data, now, old(nextId))
      ensures nextId == if old(profile) == [] then old(nextId) + 1 else old(nextId)
      ensures row in profile && ProfileHolds(row.data, data) && row.data.updatedAt == now
    {
      match GetProfile()
      case None =>
        row := Row(nextId, InsertedProfile(data, now));
        profile := profile + [row];
        nextId := nextId + 1;
      case Some(existing) =>
        var merge := (x: Profile) => MergedProfile(x, data, now);
        UpdateKeepsValid(profile, existing.id, merge, nextId);
        profile := Update(profile, existing.id, merge);
        row := profile[0];
    }

    /* skills */

    function GetSkills(): (r: seq<Row<Skill>>)
      reads this
      ensures forall x :: x in r <==> x in skills && x.data.isActive == Some(true)
      ensures SortedBy(r, SkillOrder)
      ensures UniqueIds(skills) ==> UniqueIds(r)
    {
      var shown := Filter(skills, SkillShown);
      SortByMembers(shown, SkillOrder);
      assert UniqueIds(skills) ==> UniqueIds(SortBy(shown, SkillOrder)) by {
        if UniqueIds(skills) {
          SortByUnique(shown, SkillOrder);
        }
      }
      SortBy(shown, SkillOrder)
    }

    /** Inserts one row under a fresh key, with the column defaults filled in. */
    method CreateSkill(data: NewSkill) returns (row: Row<Skill>)
      requires Valid()
      modifies this`skills, this`nextId
      ensures Valid()
      ensures row == Row(old(nextId), InsertedSkill(data)) && !HasId(old(skills), row.id)
      ensures skills == old(skills) + [row] && nextId == old(nextId) + 1
    {
      row := Row(nextId, InsertedSkill(data));
      skills := skills + [row];
      nextId := nextId + 1;
    }

    /** Sets the columns the patch gives on the row with that key. An absent
        key changes nothing and yields no row. */
    method UpdateSkill(id: Id, patch: SkillPatch) returns (r: Option<Row<Skill>>)
      requires Valid()
      modifies this`skills
      ensures Valid()
      ensures skills == SkillRowsPatched(old(skills), id, patch)
      ensures r.None? <==> !HasId(old(skills), id)
      ensures r.Some? ==> r.value in skills && r.value.id == id
    {
      skills := SkillRowsPatched(skills, id, patch);
      r := Find(skills, (x: Row<Skill>) => x.id == id);
    }

    /** Removes the row with that key and keeps the others in order; an absent
        key is a no-op. */
    method DeleteSkill(id: Id)
      requires Valid()
      modifies this`skills
      ensures Valid()
      ensures forall x :: x in skills <==> x in old(skills) && x.id != id
      ensures skills == Delete(old(skills), id)
      ensures !HasId(old(skills), id) ==> skills == old(skills)
      ensures HasId(old(skills), id) ==>
                exists k :: 0 <= k < |old(skills)| && old(skills)[k].id == id && skills == old(skills)[..k] + old(skills)[k + 1..]
    {
      DeleteKeepsValid(skills, id, nextId);
      if HasId(skills, id) {
        var k :| 0 <= k < |skills| && skills[k].id == id;
        DeleteAt(skills, id, k);
      } else {
        DeleteAbsent(skills, id);
      }
      skills := Delete(skills, id);
    }

    /* projects */

    function GetProjects(): (r: seq<Row<Project>>)
      reads this
      ensures forall x :: x in r <==> x in projects && x.data.isPublished == Some(true)
      ensures SortedBy(r, ProjectOrder)
      ensures UniqueIds(projects) ==> UniqueIds(r)
    {
      var shown := Filter(projects, ProjectShown);
      SortByMembers(shown, ProjectOrder);
      assert UniqueIds(projects) ==> UniqueIds(SortBy(shown, ProjectOrder)) by {
        if UniqueIds(projects) {
          SortByUnique(shown, ProjectOrder);
        }
      }
      SortBy(shown, ProjectOrder)
    }

    /** The project with that slug, published or not. */
    function GetProject(slug: string): (r: Option<Row<Project>>)
      reads this
      ensures r.None? <==> !SlugTaken(projects, slug)
      ensures r.Some? ==> r.value in projects && r.value.data.slug == slug
    {
      Find(projects, (x: Row<Project>) => x.data.slug == slug)
    }

    /** Inserts the project under a fresh key, unless the slug is taken. */
    method CreateProject(data: NewProject, now: int) returns (r: Written<Row<Project>>)
      requires Valid()
      modifies this`projects, this`nextId
      ensures Valid()
      ensures SlugTaken(old(projects), data.slug) ==>
                r == UniqueViolation("slug") && projects == old(projects) && nextId == old(nextId)
      ensures !SlugTaken(old(projects), data.slug) ==>
                && r == Written(Row(old(nextId), InsertedProject(data, now)))
                && projects == old(projects) + [r.value] && nextId == old(nextId) + 1
    {
      if GetProject(data.slug).Some? {
        return UniqueViolation("slug");
      }
      var row := Row(nextId, InsertedProject(data, now));
      projects := projects + [row];
      nextId := nextId + 1;
      r := Written(row);
    }

    /** Like the other updates, and also stamps `updatedAt`; refused when the
        patch gives a slug another project holds. */
    method UpdateProject(id: Id, patch: ProjectPatch, now: int) returns (r: Written<Option<Row<Project>>>)
      requires Valid()
      modifies this`projects
      ensures Valid()
      ensures r.UniqueViolation? <==>
                HasId(old(projects), id) && patch.slug.Given? && SlugTakenByOther(old(projects), patch.slug.value, id)
      ensures r.UniqueViolation? ==> r.column == "slug" && projects == old(projects)
      ensures r.Written? ==> projects == ProjectRowsPatched(old(projects), id, patch, now)
      ensures r.Written? ==> (r.value.None? <==> !HasId(old(projects), id))
      ensures r.Written? && r.value.Some? ==> r.value.value in projects && r.value.value.id == id
    {
      if HasId(projects, id) && patch.slug.Given? && SlugTakenByOther(projects, patch.slug.value, id) {
        return UniqueViolation("slug");
      }
      PatchKeepsSlugsDistinct(projects, id, patch, now);
      PatchKeepsProjectIds(projects, id, patch, now, nextId);
      projects := ProjectRowsPatched(projects, id, patch, now);
      r := Written(Find(projects, (x: Row<Project>) => x.id == id));
    }

    /** Removes the row with that key and keeps the others in order; an absent
        key is a no-op. */
    method DeleteProject(id: Id)
      requires Valid()
      modifies this`projects
      ensures Valid()
      ensures forall x :: x in projects <==> x in old(projects) && x.id != id
      ensures projects == Delete(old(projects), id)
      ensures !HasId(old(projects), id) ==> projects == old(projects)
      ensures HasId(old(projects), id) ==>
                exists k :: 0 <= k < |old(projects)| && old(projects)[k].id == id && projects == old(projects)[..k] + old(projects)[k + 1..]
    {
      DeleteKeepsValid(projects, id, nextId);
      DeleteKeepsDistinct(projects, id, Slug);
      if HasId(projects, id) {
        var k :| 0 <= k < |projects| && projects[k].id == id;
        DeleteAt(projects, id, k);
      } else {
        DeleteAbsent(projects, id);
      }
      projects := Delete(projects, id);
    }

    /* about_content */

    /** `orderBy(desc(updatedAt)).limit(1)`: the most recently updated row. */
    function GetAboutContent(): (r: Option<Row<AboutContent>>)
      reads this
      ensures r.None? <==> about == []
      ensures r.Some? ==> r.value in about && forall i :: 0 <= i < |about| ==> about[i].data.updatedAt <= r.value.data.updatedAt
    {
      Least(about, NewestAboutContent)
    }

    method UpsertAboutContent(data: NewAboutContent, now: int) returns (row: Row<AboutContent>)
      requires Valid()
      modifies this`about, this`nextId
      ensures Valid()
      ensures about == UpsertedAboutContent(old(about), data, now, old(nextId))
      ensures nextId == if old(about) == [] then old(nextId) + 1 else old(nextId)
      ensures row in about && row.data == AboutContent(data.content, now)
    {
      match GetAboutContent()
      case None =>
        row := Row(nextId, InsertedAboutContent(data, now));
        about := about + [row];
        nextId := nextId + 1;
      case Some(existing) =>
        var merge := (x: AboutContent) => MergedAboutContent(x, data, now);
        UpdateKeepsValid(about, existing.id, merge, nextId);
        var k :| 0 <= k < |about| && about[k] == existing;
        about := Update(about, existing.id, merge);
        row := about[k];
    }

    /* experience */

    function GetExperiences(): (r: seq<Row<Experience>>)
      reads this
      ensures forall x :: x in r <==> x in experiences && x.data.isActive == Some(true)
      ensures SortedBy(r, ExperienceOrder)
      ensures UniqueIds(experiences) ==> UniqueIds(r)
    {
      var shown := Filter(experiences, ExperienceShown);
      SortByMembers(shown, ExperienceOrder);
      assert UniqueIds(experiences) ==> UniqueIds(SortBy(shown, ExperienceOrder)) by {
        if UniqueIds(experiences) {
          SortByUnique(shown, ExperienceOrder);
        }
      }
      SortBy(shown, ExperienceOrder)
    }

    /** Inserts one row under a fresh key, with the column defaults filled in. */
    method CreateExperience(data: NewExperience, now: int) returns (row: Row<Experience>)
      requires Valid()
      modifies this`experiences, this`nextId
      ensures Valid()
      ensures row == Row(old(nextId), InsertedExperience(data, now)) && !HasId(old(experiences), row.id)
      ensures experiences == old(experiences) + [row] && nextId == old(nextId) + 1
    {
      row := Row(nextId, InsertedExperience(data, now));
      experiences := experiences + [row];
      nextId := nextId + 1;
    }

    /** Sets the columns the patch gives on the row with that key. An absent
        key changes nothing and yields no row. */
    method UpdateExperience(id: Id, patch: ExperiencePatch) returns (r: Option<Row<Experience>>)
      requires Valid()
      modifies this`experiences
      ensures Valid()
      ensures experiences == ExperienceRowsPatched(old(experiences), id, patch)
      ensures r.None? <==> !HasId(old(experiences), id)
      ensures r.Some? ==> r.value in experiences && r.value.id == id
    {
      experiences := ExperienceRowsPatched(experiences, id, patch);
      r := Find(experiences, (x: Row<Experience>) => x.id == id);
    }

    /** Removes the row with that key and keeps the others in order; an absent
        key is a no-op. */
    method DeleteExperience(id: Id)
      requires Valid()
      modifies this`experiences
      ensures Valid()
      ensures forall x :: x in experiences <==> x in old(experiences) && x.id != id
      ensures experiences == Delete(old(experiences), id)
      ensures !HasId(old(experiences), id) ==> experiences == old(experiences)
      ensures HasId(old(experiences), id) ==>
                exists k :: 0 <= k < |old(experiences)| && old(experiences)[k].id == id && experiences == old(experiences)[..k] + old(experiences)[k + 1..]
    {
      DeleteKeepsValid(experiences, id, nextId);
      if HasId(experiences, id) {
        var k :| 0 <= k < |experiences| && experiences[k].id == id;
        DeleteAt(experiences, id, k);
      } else {
        DeleteAbsent(experiences, id);
      }
      experiences := Delete(experiences, id);
    }

    /* education */

    function GetEducation(): (r: seq<Row<Education>>)
      reads this
      ensures forall x :: x in r <==> x in educations && x.data.isActive == Some(true)
      ensures SortedBy(r, EducationOrder)
      ensures UniqueIds(educations) ==> UniqueIds(r)
    {
      var shown := Filter(educations, EducationShown);
      SortByMembers(shown, EducationOrder);
      assert UniqueIds(educations) ==> UniqueIds(SortBy(shown, EducationOrder)) by {
        if UniqueIds(educations) {
          SortByUnique(shown, EducationOrder);
        }
      }
      SortBy(shown, EducationOrder)
    }

    /** Inserts one row under a fresh key, with the column defaults filled in. */
    method CreateEducation(data: NewEducation, now: int) returns (row: Row<Education>)
      requires Valid()
      modifies this`educations, this`nextId
      ensures Valid()
      ensures row == Row(old(nextId), InsertedEducation(data, now)) && !HasId(old(educations), row.id)
      ensures educations == old(educations) + [row] && nextId == old(nextId) + 1
    {
      row := Row(nextId, InsertedEducation(data, now));
      educations := educations + [row];
      nextId := nextId + 1;
    }

    /** Sets the columns the patch gives on the row with that key. An absent
        key changes nothing and yields no row. */
    method UpdateEducation(id: Id, patch: EducationPatch) returns (r: Option<Row<Education>>)
      requires Valid()
      modifies this`educations
      ensures Valid()
      ensures educations == EducationRowsPatched(old(educations), id, patch)
      ensures r.None? <==> !HasId(old(educations), id)
      ensures r.Some? ==> r.value in educations && r.value.id == id
    {
      educations := EducationRowsPatched(educations, id, patch);
      r := Find(educations, (x: Row<Education>) => x.id == id);
    }

    /** Removes the row with that key and keeps the others in order; an absent
        key is a no-op. */
    method DeleteEducation(id: Id)
      requires Valid()
      modifies this`educations
      ensures Valid()
      ensures forall x :: x in educations <==> x in old(educations) && x.id != id
      ensures educations == Delete(old(educations), id)
      ensures !HasId(old(educations), id) ==> educations == old(educations)
      ensures HasId(old(educations), id) ==>
                exists k :: 0 <= k < |old(educations)| && old(educations)[k].id == id && educations == old(educations)[..k] + old(educations)[k + 1..]
    {
      DeleteKeepsValid(educations, id, nextId);
      if HasId(educations, id) {
        var k :| 0 <= k < |educations| && educations[k].id == id;
        DeleteAt(educations, id, k);
      } else {
        DeleteAbsent(educations, id);
      }
      educations := Delete(educations, id);
    }

    /* site_settings */

    /** `orderBy(desc(updatedAt)).limit(1)`: the most recently updated row. */
    function GetSiteSettings(): (r: Option<Row<SiteSettings>>)
      reads this
      ensures r.None? <==> settings == []
      ensures r.Some? ==> r.value in settings && forall i :: 0 <= i < |settings| ==> settings[i].data.updatedAt <= r.value.data.updatedAt
    {
      Least(settings, NewestSiteSettings)
    }

    method UpsertSiteSettings(data: NewSiteSettings, now: int) returns (row: Row<SiteSettings>)
      requires Valid()
      modifies this`settings, this`nextId
      ensures Valid()
      ensures settings == UpsertedSiteSettings(old(settings), data, now, old(nextId))
      ensures nextId == if old(settings) == [] then old(nextId) + 1 else old(nextId)
      ensures row in settings && SiteSettingsHolds(row.data, data) && row.data.updatedAt == now
    {
      match GetSiteSettings()
      case None =>
        row := Row(nextId, InsertedSiteSettings(data, now));
        settings := settings + [row];
        nextId := nextId + 1;
      case Some(existing) =>
        var merge := (x: SiteSettings) => MergedSiteSettings(x, data, now);
        UpdateKeepsValid(settings, existing.id, merge, nextId);
        var k :| 0 <= k < |settings| && settings[k] == existing;
        settings := Update(settings, existing.id, merge);
        row := settings[k];
    }

    /* resume_attachments */

    /** The active attachments, newest upload first. */
    function GetResumeAttachments(): (r: seq<Row<ResumeAttachment>>)
      reads this
      ensures forall x :: x in r <==> x in attachments && x.data.isActive == Some(true)
      ensures forall i, j :: 0 <= i < j < |r| ==> r[j].data.uploadedAt <= r[i].data.uploadedAt
      ensures UniqueIds(attachments) ==> UniqueIds(r)
    {
      var shown := Filter(attachments, ResumeAttachmentShown);
      SortByMembers(shown, NewestUpload);
      assert UniqueIds(attachments) ==> UniqueIds(SortBy(shown, NewestUpload)) by {
        if UniqueIds(attachments) {
          SortByUnique(shown, NewestUpload);
        }
      }
      var r := SortBy(shown, NewestUpload);
      assert forall i, j :: 0 <= i < j < |r| ==> KeyLe(NewestUpload(r[i]), NewestUpload(r[j]));
      r
    }

    /** The attachment with that key, active or not. */
    function GetResumeAttachment(id: Id): (r: Option<Row<ResumeAttachment>>)
      reads this
      ensures r.None? <==> !HasId(attachments, id)
      ensures r.Some? ==> r.value in attachments && r.value.id == id
    {
      Find(attachments, (x: Row<ResumeAttachment>) => x.id == id)
    }

    /** Inserts one row under a fresh key, with the column defaults filled in. */
    method CreateResumeAttachment(data: NewResumeAttachment, now: int) returns (row: Row<ResumeAttachment>)
      requires Valid()
      modifies this`attachments, this`nextId
      ensures Valid()
      ensures row == Row(old(nextId), InsertedResumeAttachment(data, now)) && !HasId(old(attachments), row.id)
      ensures attachments == old(attachments) + [row] && nextId == old(nextId) + 1
    {
      row := Row(nextId, InsertedResumeAttachment(data, now));
      attachments := attachments + [row];
      nextId := nextId + 1;
    }

    /** Sets the columns the patch gives on the row with that key. An absent
        key changes nothing and yields no row. */
    method UpdateResumeAttachment(id: Id, patch: ResumeAttachmentPatch) returns (r: Option<Row<ResumeAttachment>>)
      requires Valid()
      modifies this`attachments
      ensures Valid()
      ensures attachments == ResumeAttachmentRowsPatched(old(attachments), id, patch)
      ensures r.None? <==> !HasId(old(attachments), id)
      ensures r.Some? ==> r.value in attachments && r.value.id == id
    {
      attachments := ResumeAttachmentRowsPatched(attachments, id, patch);
      r := Find(attachments, (x: Row<ResumeAttachment>) => x.id == id);
    }

    /** Removes the row with that key and keeps the others in order; an absent
        key is a no-op. */
    method DeleteResumeAttachment(id: Id)
      requires Valid()
      modifies this`attachments
      ensures Valid()
      ensures forall x :: x in attachments <==> x in old(attachments) && x.id != id
      ensures attachments == Delete(old(attachments), id)
      ensures !HasId(old(attachments), id) ==> attachments == old(attachments)
      ensures HasId(old(attachments), id) ==>
                exists k :: 0 <= k < |old(attachments)| && old(attachments)[k].id == id && attachments == old(attachments)[..k] + old(attachments)[k + 1..]
    {
      DeleteKeepsValid(attachments, id, nextId);
      if HasId(attachments, id) {
        var k :| 0 <= k < |attachments| && attachments[k].id == id;
        DeleteAt(attachments, id, k);
      } else {
        DeleteAbsent(attachments, id);
      }
      attachments := Delete(attachments, id);
    }
  }

  /** The data a project update writes: the patch, and a fresh `updatedAt`. */
  function RestampedProject(x: Project, p: ProjectPatch, now: int): (y: Project)
    ensures y.updatedAt == now && y.createdAt == x.createdAt
    ensures y.slug == Apply(p.slug, x.slug)
  {
    PatchedProject(x, p).(updatedAt := now)
  }

  /** A project update keeps slugs unique unless it gives a slug held by
      another row. */
  lemma PatchKeepsSlugsDistinct(rows: seq<Row<Project>>, id: Id, patch: ProjectPatch, now: int)
    requires UniqueIds(rows) && DistinctBy(rows, Slug)
    requires !(HasId(rows, id) && patch.slug.Given? && SlugTakenByOther(rows, patch.slug.value, id))
    ensures DistinctBy(ProjectRowsPatched(rows, id, patch, now), Slug)
  {
    var r := ProjectRowsPatched(rows, id, patch, now);
    forall i, j | 0 <= i < j < |r| ensures Slug(r[i]) != Slug(r[j]) {
      if rows[i].id == id && patch.slug.Given? {
        assert rows[j].id != id;
      } else if rows[j].id == id && patch.slug.Given? {
        assert rows[i].id != id;
      }
    }
  }

  /** A project update keeps every key where it was. */
  lemma PatchKeepsProjectIds(rows: seq<Row<Project>>, id: Id, patch: ProjectPatch, now: int, bound: Id)
    requires TableValid(rows, bound)
    ensures TableValid(ProjectRowsPatched(rows, id, patch, now), bound)
    ensures HasId(ProjectRowsPatched(rows, id, patch, now), id) <==> HasId(rows, id)
  {
    var r := ProjectRowsPatched(rows, id, patch, now);
    assert forall i :: 0 <= i < |rows| ==> r[i].id == rows[i].id;
  }

  /* ------------------------------------------------------------------ */
  /* Repeated upserts                                                     */

  /** The table after a series of `upsertProfile` calls, each given by its
      payload, the clock reading and the key an insert would draw. */
  function ProfileAfter(rows: seq<Row<Profile>>, calls: seq<(NewProfile, int, Id)>): seq<Row<Profile>>
    decreases |calls|
  {
    if calls == [] then rows
    else ProfileAfter(UpsertedProfile(rows, calls[0].0, calls[0].1, calls[0].2), calls[1..])
  }

  /** From a table of at most one row (an empty one included), upserts never
      make a second row, and the row holds what the last payload gives. */
  lemma {:induction false} UpsertsKeepOneProfile(rows: seq<Row<Profile>>, calls: seq<(NewProfile, int, Id)>)
    requires |rows| <= 1
    ensures |ProfileAfter(rows, calls)| <= 1
    decreases |calls|
    ensures calls != [] ==> |ProfileAfter(rows, calls)| == 1
    ensures calls != [] ==> ProfileHolds(ProfileAfter(rows, calls)[0].data, calls[|calls| - 1].0)
  {
    if calls != [] {
      var c, rest := calls[0], calls[1..];
      var next := UpsertedProfile(rows, c.0, c.1, c.2);
      assert |next| == 1 && ProfileHolds(next[0].data, c.0);
      assert ProfileAfter(rows, calls) == ProfileAfter(next, rest);
      UpsertsKeepOneProfile(next, rest);
      if rest != [] {
        assert rest[|rest| - 1] == calls[|calls| - 1];
      }
    }
  }

  /** One upsert on a table of at most one row leaves exactly one row, holding
      the payload. */
  lemma UpsertAboutContentStep(rows: seq<Row<AboutContent>>, p: NewAboutContent, now: int, id: Id)
    requires |rows| <= 1
    ensures var r := UpsertedAboutContent(rows, p, now, id); |r| == 1 && r[0].data.content == p.content
  {
    if rows != [] {
      assert UniqueIds(rows);
      var r := UpsertedAboutContent(rows, p, now, id);
      var k :| LatestAbout(rows, k) && r == rows[k := Row(rows[k].id, MergedAboutContent(rows[k].data, p, now))];
      assert k == 0;
    }
  }

  lemma UpsertSiteSettingsStep(rows: seq<Row<SiteSettings>>, p: NewSiteSettings, now: int, id: Id)
    requires |rows| <= 1
    ensures var r := UpsertedSiteSettings(rows, p, now, id); |r| == 1 && SiteSettingsHolds(r[0].data, p)
  {
    if rows != [] {
      assert UniqueIds(rows);
      var r := UpsertedSiteSettings(rows, p, now, id);
      var k :| LatestSettings(rows, k) && r == rows[k := Row(rows[k].id, MergedSiteSettings(rows[k].data, p, now))];
      assert k == 0;
    }
  }

  function AboutContentAfter(rows: seq<Row<AboutContent>>, calls: seq<(NewAboutContent, int, Id)>): seq<Row<AboutContent>>
    decreases |calls|
  {
    if calls == [] then rows
    else AboutContentAfter(UpsertedAboutContent(rows, calls[0].0, calls[0].1, calls[0].2), calls[1..])
  }

  lemma {:induction false} UpsertsKeepOneAboutContent(rows: seq<Row<AboutContent>>, calls: seq<(NewAboutContent, int, Id)>)
    requires |rows| <= 1
    ensures |AboutContentAfter(rows, calls)| <= 1
    decreases |calls|
    ensures calls != [] ==> |AboutContentAfter(rows, calls)| == 1
    ensures calls != [] ==> AboutContentAfter(rows, calls)[0].data.content == calls[|calls| - 1].0.content
  {
    if calls != [] {
      var c, rest := calls[0], calls[1..];
      var next := UpsertedAboutContent(rows, c.0, c.1, c.2);
      UpsertAboutContentStep(rows, c.0, c.1, c.2);
      assert AboutContentAfter(rows, calls) == AboutContentAfter(next, rest);
      UpsertsKeepOneAboutContent(next, rest);
      if rest != [] {
        assert rest[|rest| - 1] == calls[|calls| - 1];
      }
    }
  }

  function SiteSettingsAfter(rows: seq<Row<SiteSettings>>, calls: seq<(NewSiteSettings, int, Id)>): seq<Row<SiteSettings>>
    decreases |calls|
  {
    if calls == [] then rows
    else SiteSettingsAfter(UpsertedSiteSettings(rows, calls[0].0, calls[0].1, calls[0].2), calls[1..])
  }

  lemma {:induction false} UpsertsKeepOneSiteSettings(rows: seq<Row<SiteSettings>>, calls: seq<(NewSiteSettings, int, Id)>)
    requires |rows| <= 1
    ensures |SiteSettingsAfter(rows, calls)| <= 1
    decreases |calls|
    ensures calls != [] ==> |SiteSettingsAfter(rows, calls)| == 1
    ensures calls != [] ==> SiteSettingsHolds(SiteSettingsAfter(rows, calls)[0].data, calls[|calls| - 1].0)
  {
    if calls != [] {
      var c, rest := calls[0], calls[1..];
      var next := UpsertedSiteSettings(rows, c.0, c.1, c.2);
      UpsertSiteSettingsStep(rows, c.0, c.1, c.2);
      assert SiteSettingsAfter(rows, calls) == SiteSettingsAfter(next, rest);
      UpsertsKeepOneSiteSettings(next, rest);
      if rest != [] {
        assert rest[|rest| - 1] == calls[|calls| - 1];
      }
    }
  }
}
