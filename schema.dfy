/** The content tables: for each table, the stored row, the insert payload its
    generated insert schema accepts (server-assigned id and timestamp columns
    omitted), the `.partial()` patch, the row the database builds from a
    payload (column defaults applied), and the validator that turns a JSON
    request body into a payload or refuses it.

    Column rules the validator follows: a `notNull` column without default is a
    required key of its own type; a nullable column is an optional key that may
    also be null; `.partial()` makes every key optional. Keys outside the
    schema are dropped. */
module Schema {
  import opened Wrappers
  import opened Json
  import opened Tables

  function StrJson(s: string): Json { JStr(s) }
  function IntJson(n: int): Json { JNum(n) }
  function BoolJson(b: bool): Json { JBool(b) }
  function AnyJson(j: Json): Json { j }

  /* ------------------------------------------------------------------ */
  /* admin_users                                                         */

  /** `username` is unique and not null, `password` (the stored hash) is not null. */
  datatype AdminUser = AdminUser(username: string, password: string, createdAt: int)

  /** The admin insert payload picks only `username` and `password`. */
  datatype NewAdminUser = NewAdminUser(username: string, password: string)

  function InsertedAdminUser(p: NewAdminUser, now: int): (u: AdminUser)
  {
    AdminUser(p.username, p.password, now)
  }

  /* ------------------------------------------------------------------ */
  /* profile (singleton)                                                 */

  datatype Profile = Profile(
    name: string, title: string, location: string, email: string, phone: string,
    linkedin: Option<string>, experienceYears: int, availability: string,
    responsePromise: Option<string>, updatedAt: int)

  datatype NewProfile = NewProfile(
    name: string, title: string, location: string, email: string, phone: string,
    linkedin: Field<Option<string>>, experienceYears: int, availability: string,
    responsePromise: Field<Option<string>>)

  /** `insert(profile).values(p)`: absent nullable keys are stored as null. */
  function InsertedProfile(p: NewProfile, now: int): Profile {
    Profile(p.name, p.title, p.location, p.email, p.phone, Apply(p.linkedin, None),
            p.experienceYears, p.availability, Apply(p.responsePromise, None), now)
  }

  /** `update(profile).set({...p, updatedAt})`: absent keys keep their value. */
  function MergedProfile(x: Profile, p: NewProfile, now: int): Profile {
    Profile(p.name, p.title, p.location, p.email, p.phone, Apply(p.linkedin, x.linkedin),
            p.experienceYears, p.availability, Apply(p.responsePromise, x.responsePromise), now)
  }

  /** The stored profile holds every value the payload gives. */
  predicate ProfileHolds(x: Profile, p: NewProfile) {
    && x.name == p.name && x.title == p.title && x.location == p.location
    && x.email == p.email && x.phone == p.phone && x.experienceYears == p.experienceYears
    && x.availability == p.availability
    && (p.linkedin.Given? ==> x.linkedin == p.linkedin.value)
    && (p.responsePromise.Given? ==> x.responsePromise == p.responsePromise.value)
  }

  function ParseProfile(body: Json): Option<NewProfile> {
    if !body.JObj? then None else
    var m := body.fields;
    var name := Required(m, "name", AsString);
    var title := Required(m, "title", AsString);
    var location := Required(m, "location", AsString);
    var email := Required(m, "email", AsString);
    var phone := Required(m, "phone", AsString);
    var linkedin := Nullable(m, "linkedin", AsString);
    var experienceYears := Required(m, "experienceYears", AsInt);
    var availability := Required(m, "availability", AsString);
    var responsePromise := Nullable(m, "responsePromise", AsString);
    if name.Some? && title.Some? && location.Some? && email.Some? && phone.Some? && linkedin.Some? && experienceYears.Some? && availability.Some? && responsePromise.Some? then
      Some(NewProfile(name.value, title.value, location.value, email.value, phone.value, linkedin.value, experienceYears.value, availability.value, responsePromise.value))
    else
      None
  }

  function ProfileJson(p: NewProfile): Json {
    JObj(Compact(map[
      "name" := RequiredValue(p.name, StrJson),
      "title" := RequiredValue(p.title, StrJson),
      "location" := RequiredValue(p.location, StrJson),
      "email" := RequiredValue(p.email, StrJson),
      "phone" := RequiredValue(p.phone, StrJson),
      "linkedin" := NullableValue(p.linkedin, StrJson),
      "experienceYears" := RequiredValue(p.experienceYears, IntJson),
      "availability" := RequiredValue(p.availability, StrJson),
      "responsePromise" := NullableValue(p.responsePromise, StrJson)]))
  }

  /* ------------------------------------------------------------------ */
  /* skills                                                              */

  /** `level` is free text and `percentage` any integer: the allowed values
      ("Advanced", "Intermediate", "Beginner"; 0 to 100) are not checked. */
  datatype Skill = Skill(
    name: string, level: string, percentage: int, category: Option<string>,
    displayOrder: Option<int>, isActive: Option<bool>)

  datatype NewSkill = NewSkill(
    name: string, level: string, percentage: int, category: Field<Option<string>>,
    displayOrder: Field<Option<int>>, isActive: Field<Option<bool>>)

  datatype SkillPatch = SkillPatch(
    name: Field<string>, level: Field<string>, percentage: Field<int>, category: Field<Option<string>>,
    displayOrder: Field<Option<int>>, isActive: Field<Option<bool>>)

  /** Column defaults: `displayOrder` 0, `isActive` true. */
  function InsertedSkill(p: NewSkill): Skill {
    Skill(p.name, p.level, p.percentage, Apply(p.category, None),
          Apply(p.displayOrder, Some(0)), Apply(p.isActive, Some(true)))
  }

  function PatchedSkill(x: Skill, p: SkillPatch): Skill {
    Skill(Apply(p.name, x.name), Apply(p.level, x.level), Apply(p.percentage, x.percentage),
          Apply(p.category, x.category), Apply(p.displayOrder, x.displayOrder), Apply(p.isActive, x.isActive))
  }

  function SkillAsPatch(p: NewSkill): SkillPatch {
    SkillPatch(Given(p.name), Given(p.level), Given(p.percentage), p.category, p.displayOrder, p.isActive)
  }

  function ParseSkill(body: Json): Option<NewSkill> {
    if !body.JObj? then None else
    var m := body.fields;
    var name := Required(m, "name", AsString);
    var level := Required(m, "level", AsString);
    var percentage := Required(m, "percentage", AsInt);
    var category := Nullable(m, "category", AsString);
    var displayOrder := Nullable(m, "displayOrder", AsInt);
    var isActive := Nullable(m, "isActive", AsBool);
    if name.Some? && level.Some? && percentage.Some? && category.Some? && displayOrder.Some? && isActive.Some? then
      Some(NewSkill(name.value, level.value, percentage.value, category.value, displayOrder.value, isActive.value))
    else
      None
  }

  function ParseSkillPatch(body: Json): Option<SkillPatch> {
    if !body.JObj? then None else
    var m := body.fields;
    var name := Optional(m, "name", AsString);
    var level := Optional(m, "level", AsString);
    var percentage := Optional(m, "percentage", AsInt);
    var category := Nullable(m, "category", AsString);
    var displayOrder := Nullable(m, "displayOrder", AsInt);
    var isActive := Nullable(m, "isActive", AsBool);
    if name.Some? && level.Some? && percentage.Some? && category.Some? && displayOrder.Some? && isActive.Some? then
      Some(SkillPatch(name.value, level.value, percentage.value, category.value, displayOrder.value, isActive.value))
    else
      None
  }

  function SkillJson(p: NewSkill): Json {
    JObj(Compact(map[
      "name" := RequiredValue(p.name, StrJson),
      "level" := RequiredValue(p.level, StrJson),
      "percentage" := RequiredValue(p.percentage, IntJson),
      "category" := NullableValue(p.category, StrJson),
      "displayOrder" := NullableValue(p.displayOrder, IntJson),
      "isActive" := NullableValue(p.isActive, BoolJson)]))
  }

  function SkillPatchJson(p: SkillPatch): Json {
    JObj(Compact(map[
      "name" := OptionalValue(p.name, StrJson),
      "level" := OptionalValue(p.level, StrJson),
      "percentage" := OptionalValue(p.percentage, IntJson),
      "category" := NullableValue(p.category, StrJson),
      "displayOrder" := NullableValue(p.displayOrder, IntJson),
      "isActive" := NullableValue(p.isActive, BoolJson)]))
  }

  /* ------------------------------------------------------------------ */
  /* projects                                                            */

  /** `slug` is unique and not null; `platforms` is a required list while
      `goals` and `testStrategy` may be null; `status` is free text. */
  datatype Project = Project(
    name: string, slug: string, problem: string, organization: string, timeframe: string,
    platforms: seq<string>, status: string, goals: Option<seq<string>>,
    testStrategy: Option<seq<string>>, performanceTargets: Option<Json>,
    isPublished: Option<bool>, displayOrder: Option<int>, createdAt: int, updatedAt: int)

  datatype NewProject = NewProject(
    name: string, slug: string, problem: string, organization: string, timeframe: string,
    platforms: seq<string>, status: string, goals: Field<Option<seq<string>>>,
    testStrategy: Field<Option<seq<string>>>, performanceTargets: Field<Option<Json>>,
    isPublished: Field<Option<bool>>, displayOrder: Field<Option<int>>)

  datatype ProjectPatch = ProjectPatch(
    name: Field<string>, slug: Field<string>, problem: Field<string>, organization: Field<string>,
    timeframe: Field<string>, platforms: Field<seq<string>>, status: Field<string>,
    goals: Field<Option<seq<string>>>, testStrategy: Field<Option<seq<string>>>,
    performanceTargets: Field<Option<Json>>, isPublished: Field<Option<bool>>,
    displayOrder: Field<Option<int>>)

  /** Column defaults: `isPublished` true, `displayOrder` 0; both timestamps now. */
  function InsertedProject(p: NewProject, now: int): Project {
    Project(p.name, p.slug, p.problem, p.organization, p.timeframe, p.platforms, p.status,
            Apply(p.goals, None), Apply(p.testStrategy, None), Apply(p.performanceTargets, None),
            Apply(p.isPublished, Some(true)), Apply(p.displayOrder, Some(0)), now, now)
  }

  /** The columns a patch sets; timestamps are left to the caller. */
  function PatchedProject(x: Project, p: ProjectPatch): Project {
    Project(Apply(p.name, x.name), Apply(p.slug, x.slug), Apply(p.problem, x.problem),
            Apply(p.organization, x.organization), Apply(p.timeframe, x.timeframe),
            Apply(p.platforms, x.platforms), Apply(p.status, x.status), Apply(p.goals, x.goals),
            Apply(p.testStrategy, x.testStrategy), Apply(p.performanceTargets, x.performanceTargets),
            Apply(p.isPublished, x.isPublished), Apply(p.displayOrder, x.displayOrder),
            x.createdAt, x.updatedAt)
  }

  function ProjectAsPatch(p: NewProject): ProjectPatch {
    ProjectPatch(Given(p.name), Given(p.slug), Given(p.problem), Given(p.organization), Given(p.timeframe),
                 Given(p.platforms), Given(p.status), p.goals, p.testStrategy, p.performanceTargets,
                 p.isPublished, p.displayOrder)
  }

  function ParseProject(body: Json): Option<NewProject> {
    if !body.JObj? then None else
    var m := body.fields;
    var name := Required(m, "name", AsString);
    var slug := Required(m, "slug", AsString);
    var problem := Required(m, "problem", AsString);
    var organization := Required(m, "organization", AsString);
    var timeframe := Required(m, "timeframe", AsString);
    var platforms := Required(m, "platforms", AsStrings);
    var status := Required(m, "status", AsString);
    var goals := Nullable(m, "goals", AsStrings);
    var testStrategy := Nullable(m, "testStrategy", AsStrings);
    var performanceTargets := Nullable(m, "performanceTargets", AsAny);
    var isPublished := Nullable(m, "isPublished", AsBool);
    var displayOrder := Nullable(m, "displayOrder", AsInt);
    if name.Some? && slug.Some? && problem.Some? && organization.Some? && timeframe.Some? && platforms.Some? && status.Some? && goals.Some? && testStrategy.Some? && performanceTargets.Some? && isPublished.Some? && displayOrder.Some? then
      Some(NewProject(name.value, slug.value, problem.value, organization.value, timeframe.value, platforms.value, status.value, goals.value, testStrategy.value, performanceTargets.value, isPublished.value, displayOrder.value))
    else
      None
  }

  function ParseProjectPatch(body: Json): Option<ProjectPatch> {
    if !body.JObj? then None else
    var m := body.fields;
    var name := Optional(m, "name", AsString);
    var slug := Optional(m, "slug", AsString);
    var problem := Optional(m, "problem", AsString);
    var organization := Optional(m, "organization", AsString);
    var timeframe := Optional(m, "timeframe", AsString);
    var platforms := Optional(m, "platforms", AsStrings);
    var status := Optional(m, "status", AsString);
    var goals := Nullable(m, "goals", AsStrings);
    var testStrategy := Nullable(m, "testStrategy", AsStrings);
    var performanceTargets := Nullable(m, "performanceTargets", AsAny);
    var isPublished := Nullable(m, "isPublished", AsBool);
    var displayOrder := Nullable(m, "displayOrder", AsInt);
    if name.Some? && slug.Some? && problem.Some? && organization.Some? && timeframe.Some? && platforms.Some? && status.Some? && goals.Some? && testStrategy.Some? && performanceTargets.Some? && isPublished.Some? && displayOrder.Some? then
      Some(ProjectPatch(name.value, slug.value, problem.value, organization.value, timeframe.value, platforms.value, status.value, goals.value, testStrategy.value, performanceTargets.value, isPublished.value, displayOrder.value))
    else
      None
  }

  function ProjectJson(p: NewProject): Json {
    JObj(Compact(map[
      "name" := RequiredValue(p.name, StrJson),
      "slug" := RequiredValue(p.slug, StrJson),
      "problem" := RequiredValue(p.problem, StrJson),
      "organization" := RequiredValue(p.organization, StrJson),
      "timeframe" := RequiredValue(p.timeframe, StrJson),
      "platforms" := RequiredValue(p.platforms, StringsJson),
      "status" := RequiredValue(p.status, StrJson),
      "goals" := NullableValue(p.goals, StringsJson),
      "testStrategy" := NullableValue(p.testStrategy, StringsJson),
      "performanceTargets" := NullableValue(p.performanceTargets, AnyJson),
      "isPublished" := NullableValue(p.isPublished, BoolJson),
      "displayOrder" := NullableValue(p.displayOrder, IntJson)]))
  }

  function ProjectPatchJson(p: ProjectPatch): Json {
    JObj(Compact(map[
      "name" := OptionalValue(p.name, StrJson),
      "slug" := OptionalValue(p.slug, StrJson),
      "problem" := OptionalValue(p.problem, StrJson),
      "organization" := OptionalValue(p.organization, StrJson),
      "timeframe" := OptionalValue(p.timeframe, StrJson),
      "platforms" := OptionalValue(p.platforms, StringsJson),
      "status" := OptionalValue(p.status, StrJson),
      "goals" := NullableValue(p.goals, StringsJson),
      "testStrategy" := NullableValue(p.testStrategy, StringsJson),
      "performanceTargets" := NullableValue(p.performanceTargets, AnyJson),
      "isPublished" := NullableValue(p.isPublished, BoolJson),
      "displayOrder" := NullableValue(p.displayOrder, IntJson)]))
  }

  /* ------------------------------------------------------------------ */
  /* about_content (singleton)                                           */

  datatype AboutContent = AboutContent(content: string, updatedAt: int)

  datatype NewAboutContent = NewAboutContent(content: string)

  function InsertedAboutContent(p: NewAboutContent, now: int): AboutContent {
    AboutContent(p.content, now)
  }

  function MergedAboutContent(x: AboutContent, p: NewAboutContent, now: int): AboutContent {
    AboutContent(p.content, now)
  }

  function ParseAboutContent(body: Json): Option<NewAboutContent> {
    if !body.JObj? then None else
    var content := Required(body.fields, "content", AsString);
    if content.Some? then
      Some(NewAboutContent(content.value))
    else
      None
  }

  function AboutContentJson(p: NewAboutContent): Json {
    JObj(Compact(map[
      "content" := RequiredValue(p.content, StrJson)]))
  }

  /* ------------------------------------------------------------------ */
  /* experience                                                          */

  /** `achievements` may be null; `isCurrent` defaults to false. */
  datatype Experience = Experience(
    jobTitle: string, company: string, startDate: string, endDate: Option<string>,
    isCurrent: Option<bool>, description: Option<string>, achievements: Option<seq<string>>,
    displayOrder: Option<int>, isActive: Option<bool>, createdAt: int)

  datatype NewExperience = NewExperience(
    jobTitle: string, company: string, startDate: string, endDate: Field<Option<string>>,
    isCurrent: Field<Option<bool>>, description: Field<Option<string>>,
    achievements: Field<Option<seq<string>>>, displayOrder: Field<Option<int>>,
    isActive: Field<Option<bool>>)

  datatype ExperiencePatch = ExperiencePatch(
    jobTitle: Field<string>, company: Field<string>, startDate: Field<string>,
    endDate: Field<Option<string>>, isCurrent: Field<Option<bool>>, description: Field<Option<string>>,
    achievements: Field<Option<seq<string>>>, displayOrder: Field<Option<int>>,
    isActive: Field<Option<bool>>)

  /** Column defaults: `isCurrent` false, `displayOrder` 0, `isActive` true. */
  function InsertedExperience(p: NewExperience, now: int): Experience {
    Experience(p.jobTitle, p.company, p.startDate, Apply(p.endDate, None), Apply(p.isCurrent, Some(false)),
               Apply(p.description, None), Apply(p.achievements, None),
               Apply(p.displayOrder, Some(0)), Apply(p.isActive, Some(true)), now)
  }

  function PatchedExperience(x: Experience, p: ExperiencePatch): Experience {
    Experience(Apply(p.jobTitle, x.jobTitle), Apply(p.company, x.company), Apply(p.startDate, x.startDate),
               Apply(p.endDate, x.endDate), Apply(p.isCurrent, x.isCurrent), Apply(p.description, x.description),
               Apply(p.achievements, x.achievements), Apply(p.displayOrder, x.displayOrder),
               Apply(p.isActive, x.isActive), x.createdAt)
  }

  function ExperienceAsPatch(p: NewExperience): ExperiencePatch {
    ExperiencePatch(Given(p.jobTitle), Given(p.company), Given(p.startDate), p.endDate, p.isCurrent,
                    p.description, p.achievements, p.displayOrder, p.isActive)
  }

  function ParseExperience(body: Json): Option<NewExperience> {
    if !body.JObj? then None else
    var m := body.fields;
    var jobTitle := Required(m, "jobTitle", AsString);
    var company := Required(m, "company", AsString);
    var startDate := Required(m, "startDate", AsString);
    var endDate := Nullable(m, "endDate", AsString);
    var isCurrent := Nullable(m, "isCurrent", AsBool);
    var description := Nullable(m, "description", AsString);
    var achievements := Nullable(m, "achievements", AsStrings);
    var displayOrder := Nullable(m, "displayOrder", AsInt);
    var isActive := Nullable(m, "isActive", AsBool);
    if jobTitle.Some? && company.Some? && startDate.Some? && endDate.Some? && isCurrent.Some? && description.Some? && achievements.Some? && displayOrder.Some? && isActive.Some? then
      Some(NewExperience(jobTitle.value, company.value, startDate.value, endDate.value, isCurrent.value, description.value, achievements.value, displayOrder.value, isActive.value))
    else
      None
  }

  function ParseExperiencePatch(body: Json): Option<ExperiencePatch> {
    if !body.JObj? then None else
    var m := body.fields;
    var jobTitle := Optional(m, "jobTitle", AsString);
    var company := Optional(m, "company", AsString);
    var startDate := Optional(m, "startDate", AsString);
    var endDate := Nullable(m, "endDate", AsString);
    var isCurrent := Nullable(m, "isCurrent", AsBool);
    var description := Nullable(m, "description", AsString);
    var achievements := Nullable(m, "achievements", AsStrings);
    var displayOrder := Nullable(m, "displayOrder", AsInt);
    var isActive := Nullable(m, "isActive", AsBool);
    if jobTitle.Some? && company.Some? && startDate.Some? && endDate.Some? && isCurrent.Some? && description.Some? && achievements.Some? && displayOrder.Some? && isActive.Some? then
      Some(ExperiencePatch(jobTitle.value, company.value, startDate.value, endDate.value, isCurrent.value, description.value, achievements.value, displayOrder.value, isActive.value))
    else
      None
  }

  function ExperienceJson(p: NewExperience): Json {
    JObj(Compact(map[
      "jobTitle" := RequiredValue(p.jobTitle, StrJson),
      "company" := RequiredValue(p.company, StrJson),
      "startDate" := RequiredValue(p.startDate, StrJson),
      "endDate" := NullableValue(p.endDate, StrJson),
      "isCurrent" := NullableValue(p.isCurrent, BoolJson),
      "description" := NullableValue(p.description, StrJson),
      "achievements" := NullableValue(p.achievements, StringsJson),
      "displayOrder" := NullableValue(p.displayOrder, IntJson),
      "isActive" := NullableValue(p.isActive, BoolJson)]))
  }

  function ExperiencePatchJson(p: ExperiencePatch): Json {
    JObj(Compact(map[
      "jobTitle" := OptionalValue(p.jobTitle, StrJson),
      "company" := OptionalValue(p.company, StrJson),
      "startDate" := OptionalValue(p.startDate, StrJson),
      "endDate" := NullableValue(p.endDate, StrJson),
      "isCurrent" := NullableValue(p.isCurrent, BoolJson),
      "description" := NullableValue(p.description, StrJson),
      "achievements" := NullableValue(p.achievements, StringsJson),
      "displayOrder" := NullableValue(p.displayOrder, IntJson),
      "isActive" := NullableValue(p.isActive, BoolJson)]))
  }

  /* ------------------------------------------------------------------ */
  /* education                                                           */

  datatype Education = Education(
    degree: string, institution: string, startDate: string, endDate: Option<string>,
    isCurrent: Option<bool>, description: Option<string>, displayOrder: Option<int>,
    isActive: Option<bool>, createdAt: int)

  datatype NewEducation = NewEducation(
    degree: string, institution: string, startDate: string, endDate: Field<Option<string>>,
    isCurrent: Field<Option<bool>>, description: Field<Option<string>>,
    displayOrder: Field<Option<int>>, isActive: Field<Option<bool>>)

  datatype EducationPatch = EducationPatch(
    degree: Field<string>, institution: Field<string>, startDate: Field<string>,
    endDate: Field<Option<string>>, isCurrent: Field<Option<bool>>, description: Field<Option<string>>,
    displayOrder: Field<Option<int>>, isActive: Field<Option<bool>>)

  /** Column defaults: `isCurrent` false, `displayOrder` 0, `isActive` true. */
  function InsertedEducation(p: NewEducation, now: int): Education {
    Education(p.degree, p.institution, p.startDate, Apply(p.endDate, None), Apply(p.isCurrent, Some(false)),
              Apply(p.description, None), Apply(p.displayOrder, Some(0)), Apply(p.isActive, Some(true)), now)
  }

  function PatchedEducation(x: Education, p: EducationPatch): Education {
    Education(Apply(p.degree, x.degree), Apply(p.institution, x.institution), Apply(p.startDate, x.startDate),
              Apply(p.endDate, x.endDate), Apply(p.isCurrent, x.isCurrent), Apply(p.description, x.description),
              Apply(p.displayOrder, x.displayOrder), Apply(p.isActive, x.isActive), x.createdAt)
  }

  function EducationAsPatch(p: NewEducation): EducationPatch {
    EducationPatch(Given(p.degree), Given(p.institution), Given(p.startDate), p.endDate, p.isCurrent,
                   p.description, p.displayOrder, p.isActive)
  }

  function ParseEducation(body: Json): Option<NewEducation> {
    if !body.JObj? then None else
    var m := body.fields;
    var degree := Required(m, "degree", AsString);
    var institution := Required(m, "institution", AsString);
    var startDate := Required(m, "startDate", AsString);
    var endDate := Nullable(m, "endDate", AsString);
    var isCurrent := Nullable(m, "isCurrent", AsBool);
    var description := Nullable(m, "description", AsString);
    var displayOrder := Nullable(m, "displayOrder", AsInt);
    var isActive := Nullable(m, "isActive", AsBool);
    if degree.Some? && institution.Some? && startDate.Some? && endDate.Some? && isCurrent.Some? && description.Some? && displayOrder.Some? && isActive.Some? then
      Some(NewEducation(degree.value, institution.value, startDate.value, endDate.value, isCurrent.value, description.value, displayOrder.value, isActive.value))
    else
      None
  }

  function ParseEducationPatch(body: Json): Option<EducationPatch> {
    if !body.JObj? then None else
    var m := body.fields;
    var degree := Optional(m, "degree", AsString);
    var institution := Optional(m, "institution", AsString);
    var startDate := Optional(m, "startDate", AsString);
    var endDate := Nullable(m, "endDate", AsString);
    var isCurrent := Nullable(m, "isCurrent", AsBool);
    var description := Nullable(m, "description", AsString);
    var displayOrder := Nullable(m, "displayOrder", AsInt);
    var isActive := Nullable(m, "isActive", AsBool);
    if degree.Some? && institution.Some? && startDate.Some? && endDate.Some? && isCurrent.Some? && description.Some? && displayOrder.Some? && isActive.Some? then
      Some(EducationPatch(degree.value, institution.value, startDate.value, endDate.value, isCurrent.value, description.value, displayOrder.value, isActive.value))
    else
      None
  }

  function EducationJson(p: NewEducation): Json {
    JObj(Compact(map[
      "degree" := RequiredValue(p.degree, StrJson),
      "institution" := RequiredValue(p.institution, StrJson),
      "startDate" := RequiredValue(p.startDate, StrJson),
      "endDate" := NullableValue(p.endDate, StrJson),
      "isCurrent" := NullableValue(p.isCurrent, BoolJson),
      "description" := NullableValue(p.description, StrJson),
      "displayOrder" := NullableValue(p.displayOrder, IntJson),
      "isActive" := NullableValue(p.isActive, BoolJson)]))
  }

  function EducationPatchJson(p: EducationPatch): Json {
    JObj(Compact(map[
      "degree" := OptionalValue(p.degree, StrJson),
      "institution" := OptionalValue(p.institution, StrJson),
      "startDate" := OptionalValue(p.startDate, StrJson),
      "endDate" := NullableValue(p.endDate, StrJson),
      "isCurrent" := NullableValue(p.isCurrent, BoolJson),
      "description" := NullableValue(p.description, StrJson),
      "displayOrder" := NullableValue(p.displayOrder, IntJson),
      "isActive" := NullableValue(p.isActive, BoolJson)]))
  }

  /* ------------------------------------------------------------------ */
  /* site_settings (singleton)                                           */

  datatype SiteSettings = SiteSettings(
    heroTitle: string, heroSubtitle: string, calendlyUrl: Option<string>, resumeUrl: Option<string>,
    metaTitle: Option<string>, metaDescription: Option<string>, updatedAt: int)

  datatype NewSiteSettings = NewSiteSettings(
    heroTitle: string, heroSubtitle: string, calendlyUrl: Field<Option<string>>,
    resumeUrl: Field<Option<string>>, metaTitle: Field<Option<string>>,
    metaDescription: Field<Option<string>>)

  function InsertedSiteSettings(p: NewSiteSettings, now: int): SiteSettings {
    SiteSettings(p.heroTitle, p.heroSubtitle, Apply(p.calendlyUrl, None), Apply(p.resumeUrl, None),
                 Apply(p.metaTitle, None), Apply(p.metaDescription, None), now)
  }

  function MergedSiteSettings(x: SiteSettings, p: NewSiteSettings, now: int): SiteSettings {
    SiteSettings(p.heroTitle, p.heroSubtitle, Apply(p.calendlyUrl, x.calendlyUrl), Apply(p.resumeUrl, x.resumeUrl),
                 Apply(p.metaTitle, x.metaTitle), Apply(p.metaDescription, x.metaDescription), now)
  }

  predicate SiteSettingsHolds(x: SiteSettings, p: NewSiteSettings) {
    && x.heroTitle == p.heroTitle && x.heroSubtitle == p.heroSubtitle
    && (p.calendlyUrl.Given? ==> x.calendlyUrl == p.calendlyUrl.value)
    && (p.resumeUrl.Given? ==> x.resumeUrl == p.resumeUrl.value)
    && (p.metaTitle.Given? ==> x.metaTitle == p.metaTitle.value)
    && (p.metaDescription.Given? ==> x.metaDescription == p.metaDescription.value)
  }

  function ParseSiteSettings(body: Json): Option<NewSiteSettings> {
    if !body.JObj? then None else
    var m := body.fields;
    var heroTitle := Required(m, "heroTitle", AsString);
    var heroSubtitle := Required(m, "heroSubtitle", AsString);
    var calendlyUrl := Nullable(m, "calendlyUrl", AsString);
    var resumeUrl := Nullable(m, "resumeUrl", AsString);
    var metaTitle := Nullable(m, "metaTitle", AsString);
    var metaDescription := Nullable(m, "metaDescription", AsString);
    if heroTitle.Some? && heroSubtitle.Some? && calendlyUrl.Some? && resumeUrl.Some? && metaTitle.Some? && metaDescription.Some? then
      Some(NewSiteSettings(heroTitle.value, heroSubtitle.value, calendlyUrl.value, resumeUrl.value, metaTitle.value, metaDescription.value))
    else
      None
  }

  function SiteSettingsJson(p: NewSiteSettings): Json {
    JObj(Compact(map[
      "heroTitle" := RequiredValue(p.heroTitle, StrJson),
      "heroSubtitle" := RequiredValue(p.heroSubtitle, StrJson),
      "calendlyUrl" := NullableValue(p.calendlyUrl, StrJson),
      "resumeUrl" := NullableValue(p.resumeUrl, StrJson),
      "metaTitle" := NullableValue(p.metaTitle, StrJson),
      "metaDescription" := NullableValue(p.metaDescription, StrJson)]))
  }

  /* ------------------------------------------------------------------ */
  /* resume_attachments                                                  */

  datatype ResumeAttachment = ResumeAttachment(
    fileName: string, fileUrl: string, fileSize: Option<int>, fileType: Option<string>,
    isActive: Option<bool>, uploadedAt: int, description: Option<string>)

  datatype NewResumeAttachment = NewResumeAttachment(
    fileName: string, fileUrl: string, fileSize: Field<Option<int>>, fileType: Field<Option<string>>,
    isActive: Field<Option<bool>>, description: Field<Option<string>>)

  datatype ResumeAttachmentPatch = ResumeAttachmentPatch(
    fileName: Field<string>, fileUrl: Field<string>, fileSize: Field<Option<int>>,
    fileType: Field<Option<string>>, isActive: Field<Option<bool>>, description: Field<Option<string>>)

  /** Column default: `isActive` true; `uploadedAt` is the insertion time. */
  function InsertedResumeAttachment(p: NewResumeAttachment, now: int): ResumeAttachment {
    ResumeAttachment(p.fileName, p.fileUrl, Apply(p.fileSize, None), Apply(p.fileType, None),
                     Apply(p.isActive, Some(true)), now, Apply(p.description, None))
  }

  function PatchedResumeAttachment(x: ResumeAttachment, p: ResumeAttachmentPatch): ResumeAttachment {
    ResumeAttachment(Apply(p.fileName, x.fileName), Apply(p.fileUrl, x.fileUrl), Apply(p.fileSize, x.fileSize),
                     Apply(p.fileType, x.fileType), Apply(p.isActive, x.isActive), x.uploadedAt,
                     Apply(p.description, x.description))
  }

  function ResumeAttachmentAsPatch(p: NewResumeAttachment): ResumeAttachmentPatch {
    ResumeAttachmentPatch(Given(p.fileName), Given(p.fileUrl), p.fileSize, p.fileType, p.isActive, p.description)
  }

  function ParseResumeAttachment(body: Json): Option<NewResumeAttachment> {
    if !body.JObj? then None else
    var m := body.fields;
    var fileName := Required(m, "fileName", AsString);
    var fileUrl := Required(m, "fileUrl", AsString);
    var fileSize := Nullable(m, "fileSize", AsInt);
    var fileType := Nullable(m, "fileType", AsString);
    var isActive := Nullable(m, "isActive", AsBool);
    var description := Nullable(m, "description", AsString);
    if fileName.Some? && fileUrl.Some? && fileSize.Some? && fileType.Some? && isActive.Some? && description.Some? then
      Some(NewResumeAttachment(fileName.value, fileUrl.value, fileSize.value, fileType.value, isActive.value, description.value))
    else
      None
  }

  function ParseResumeAttachmentPatch(body: Json): Option<ResumeAttachmentPatch> {
    if !body.JObj? then None else
    var m := body.fields;
    var fileName := Optional(m, "fileName", AsString);
    var fileUrl := Optional(m, "fileUrl", AsString);
    var fileSize := Nullable(m, "fileSize", AsInt);
    var fileType := Nullable(m, "fileType", AsString);
    var isActive := Nullable(m, "isActive", AsBool);
    var description := Nullable(m, "description", AsString);
    if fileName.Some? && fileUrl.Some? && fileSize.Some? && fileType.Some? && isActive.Some? && description.Some? then
      Some(ResumeAttachmentPatch(fileName.value, fileUrl.value, fileSize.value, fileType.value, isActive.value, description.value))
    else
      None
  }

  function ResumeAttachmentJson(p: NewResumeAttachment): Json {
    JObj(Compact(map[
      "fileName" := RequiredValue(p.fileName, StrJson),
      "fileUrl" := RequiredValue(p.fileUrl, StrJson),
      "fileSize" := NullableValue(p.fileSize, IntJson),
      "fileType" := NullableValue(p.fileType, StrJson),
      "isActive" := NullableValue(p.isActive, BoolJson),
      "description" := NullableValue(p.description, StrJson)]))
  }

  function ResumeAttachmentPatchJson(p: ResumeAttachmentPatch): Json {
    JObj(Compact(map[
      "fileName" := OptionalValue(p.fileName, StrJson),
      "fileUrl" := OptionalValue(p.fileUrl, StrJson),
      "fileSize" := NullableValue(p.fileSize, IntJson),
      "fileType" := NullableValue(p.fileType, StrJson),
      "isActive" := NullableValue(p.isActive, BoolJson),
      "description" := NullableValue(p.description, StrJson)]))
  }
}
