/** What the validators and the column defaults promise, proved for every
    content table: a payload the client serialises is read back unchanged,
    a body the insert schema accepts is also a valid partial update, keys the
    server assigns are ignored, and a body with only the required keys is
    stored with the column defaults. */
module SchemaLaws {
  import opened Wrappers
  import opened Json
  import opened Schema

  /* ---- what the validators accept, key by key ---- */

  lemma ParseProfileReads(m: map<string, Json>, p: NewProfile)
    ensures ParseProfile(JObj(m)) == Some(p) <==>
            Required(m, "name", AsString) == Some(p.name)
            && Required(m, "title", AsString) == Some(p.title)
            && Required(m, "location", AsString) == Some(p.location)
            && Required(m, "email", AsString) == Some(p.email)
            && Required(m, "phone", AsString) == Some(p.phone)
            && Nullable(m, "linkedin", AsString) == Some(p.linkedin)
            && Required(m, "experienceYears", AsInt) == Some(p.experienceYears)
            && Required(m, "availability", AsString) == Some(p.availability)
            && Nullable(m, "responsePromise", AsString) == Some(p.responsePromise)
  {
  }

  lemma ParseSkillReads(m: map<string, Json>, p: NewSkill)
    ensures ParseSkill(JObj(m)) == Some(p) <==>
            Required(m, "name", AsString) == Some(p.name)
            && Required(m, "level", AsString) == Some(p.level)
            && Required(m, "percentage", AsInt) == Some(p.percentage)
            && Nullable(m, "category", AsString) == Some(p.category)
            && Nullable(m, "displayOrder", AsInt) == Some(p.displayOrder)
            && Nullable(m, "isActive", AsBool) == Some(p.isActive)
  {
  }

  lemma ParseSkillPatchReads(m: map<string, Json>, p: SkillPatch)
    ensures ParseSkillPatch(JObj(m)) == Some(p) <==>
            Optional(m, "name", AsString) == Some(p.name)
            && Optional(m, "level", AsString) == Some(p.level)
            && Optional(m, "percentage", AsInt) == Some(p.percentage)
            && Nullable(m, "category", AsString) == Some(p.category)
            && Nullable(m, "displayOrder", AsInt) == Some(p.displayOrder)
            && Nullable(m, "isActive", AsBool) == Some(p.isActive)
  {
  }

  lemma ParseProjectReads(m: map<string, Json>, p: NewProject)
    ensures ParseProject(JObj(m)) == Some(p) <==>
            Required(m, "name", AsString) == Some(p.name)
            && Required(m, "slug", AsString) == Some(p.slug)
            && Required(m, "problem", AsString) == Some(p.problem)
            && Required(m, "organization", AsString) == Some(p.organization)
            && Required(m, "timeframe", AsString) == Some(p.timeframe)
            && Required(m, "platforms", AsStrings) == Some(p.platforms)
            && Required(m, "status", AsString) == Some(p.status)
            && Nullable(m, "goals", AsStrings) == Some(p.goals)
            && Nullable(m, "testStrategy", AsStrings) == Some(p.testStrategy)
            && Nullable(m, "performanceTargets", AsAny) == Some(p.performanceTargets)
            && Nullable(m, "isPublished", AsBool) == Some(p.isPublished)
            && Nullable(m, "displayOrder", AsInt) == Some(p.displayOrder)
  {
  }

  lemma ParseProjectPatchReads(m: map<string, Json>, p: ProjectPatch)
    ensures ParseProjectPatch(JObj(m)) == Some(p) <==>
            Optional(m, "name", AsString) == Some(p.name)
            && Optional(m, "slug", AsString) == Some(p.slug)
            && Optional(m, "problem", AsString) == Some(p.problem)
            && Optional(m, "organization", AsString) == Some(p.organization)
            && Optional(m, "timeframe", AsString) == Some(p.timeframe)
            && Optional(m, "platforms", AsStrings) == Some(p.platforms)
            && Optional(m, "status", AsString) == Some(p.status)
            && Nullable(m, "goals", AsStrings) == Some(p.goals)
            && Nullable(m, "testStrategy", AsStrings) == Some(p.testStrategy)
            && Nullable(m, "performanceTargets", AsAny) == Some(p.performanceTargets)
            && Nullable(m, "isPublished", AsBool) == Some(p.isPublished)
            && Nullable(m, "displayOrder", AsInt) == Some(p.displayOrder)
  {
  }

  lemma ParseAboutContentReads(m: map<string, Json>, p: NewAboutContent)
    ensures ParseAboutContent(JObj(m)) == Some(p) <==>
            Required(m, "content", AsString) == Some(p.content)
  {
  }

  lemma ParseExperienceReads(m: map<string, Json>, p: NewExperience)
    ensures ParseExperience(JObj(m)) == Some(p) <==>
            Required(m, "jobTitle", AsString) == Some(p.jobTitle)
            && Required(m, "company", AsString) == Some(p.company)
            && Required(m, "startDate", AsString) == Some(p.startDate)
            && Nullable(m, "endDate", AsString) == Some(p.endDate)
            && Nullable(m, "isCurrent", AsBool) == Some(p.isCurrent)
            && Nullable(m, "description", AsString) == Some(p.description)
            && Nullable(m, "achievements", AsStrings) == Some(p.achievements)
            && Nullable(m, "displayOrder", AsInt) == Some(p.displayOrder)
            && Nullable(m, "isActive", AsBool) == Some(p.isActive)
  {
  }

  lemma ParseExperiencePatchReads(m: map<string, Json>, p: ExperiencePatch)
    ensures ParseExperiencePatch(JObj(m)) == Some(p) <==>
            Optional(m, "jobTitle", AsString) == Some(p.jobTitle)
            && Optional(m, "company", AsString) == Some(p.company)
            && Optional(m, "startDate", AsString) == Some(p.startDate)
            && Nullable(m, "endDate", AsString) == Some(p.endDate)
            && Nullable(m, "isCurrent", AsBool) == Some(p.isCurrent)
            && Nullable(m, "description", AsString) == Some(p.description)
            && Nullable(m, "achievements", AsStrings) == Some(p.achievements)
            && Nullable(m, "displayOrder", AsInt) == Some(p.displayOrder)
            && Nullable(m, "isActive", AsBool) == Some(p.isActive)
  {
  }

  lemma ParseEducationReads(m: map<string, Json>, p: NewEducation)
    ensures ParseEducation(JObj(m)) == Some(p) <==>
            Required(m, "degree", AsString) == Some(p.degree)
            && Required(m, "institution", AsString) == Some(p.institution)
            && Required(m, "startDate", AsString) == Some(p.startDate)
            && Nullable(m, "endDate", AsString) == Some(p.endDate)
            && Nullable(m, "isCurrent", AsBool) == Some(p.isCurrent)
            && Nullable(m, "description", AsString) == Some(p.description)
            && Nullable(m, "displayOrder", AsInt) == Some(p.displayOrder)
            && Nullable(m, "isActive", AsBool) == Some(p.isActive)
  {
  }

  lemma ParseEducationPatchReads(m: map<string, Json>, p: EducationPatch)
    ensures ParseEducationPatch(JObj(m)) == Some(p) <==>
            Optional(m, "degree", AsString) == Some(p.degree)
            && Optional(m, "institution", AsString) == Some(p.institution)
            && Optional(m, "startDate", AsString) == Some(p.startDate)
            && Nullable(m, "endDate", AsString) == Some(p.endDate)
            && Nullable(m, "isCurrent", AsBool) == Some(p.isCurrent)
            && Nullable(m, "description", AsString) == Some(p.description)
            && Nullable(m, "displayOrder", AsInt) == Some(p.displayOrder)
            && Nullable(m, "isActive", AsBool) == Some(p.isActive)
  {
  }

  lemma ParseSiteSettingsReads(m: map<string, Json>, p: NewSiteSettings)
    ensures ParseSiteSettings(JObj(m)) == Some(p) <==>
            Required(m, "heroTitle", AsString) == Some(p.heroTitle)
            && Required(m, "heroSubtitle", AsString) == Some(p.heroSubtitle)
            && Nullable(m, "calendlyUrl", AsString) == Some(p.calendlyUrl)
            && Nullable(m, "resumeUrl", AsString) == Some(p.resumeUrl)
            && Nullable(m, "metaTitle", AsString) == Some(p.metaTitle)
            && Nullable(m, "metaDescription", AsString) == Some(p.metaDescription)
  {
  }

  lemma ParseResumeAttachmentReads(m: map<string, Json>, p: NewResumeAttachment)
    ensures ParseResumeAttachment(JObj(m)) == Some(p) <==>
            Required(m, "fileName", AsString) == Some(p.fileName)
            && Required(m, "fileUrl", AsString) == Some(p.fileUrl)
            && Nullable(m, "fileSize", AsInt) == Some(p.fileSize)
            && Nullable(m, "fileType", AsString) == Some(p.fileType)
            && Nullable(m, "isActive", AsBool) == Some(p.isActive)
            && Nullable(m, "description", AsString) == Some(p.description)
  {
  }

  lemma ParseResumeAttachmentPatchReads(m: map<string, Json>, p: ResumeAttachmentPatch)
    ensures ParseResumeAttachmentPatch(JObj(m)) == Some(p) <==>
            Optional(m, "fileName", AsString) == Some(p.fileName)
            && Optional(m, "fileUrl", AsString) == Some(p.fileUrl)
            && Nullable(m, "fileSize", AsInt) == Some(p.fileSize)
            && Nullable(m, "fileType", AsString) == Some(p.fileType)
            && Nullable(m, "isActive", AsBool) == Some(p.isActive)
            && Nullable(m, "description", AsString) == Some(p.description)
  {
  }

  /* ---- serialise, then validate: the same payload ---- */

  lemma ProfileRoundTrip(p: NewProfile)
    ensures ParseProfile(ProfileJson(p)) == Some(p)
  {
    var m := map[
      "name" := RequiredValue(p.name, StrJson),
      "title" := RequiredValue(p.title, StrJson),
      "location" := RequiredValue(p.location, StrJson),
      "email" := RequiredValue(p.email, StrJson),
      "phone" := RequiredValue(p.phone, StrJson),
      "linkedin" := NullableValue(p.linkedin, StrJson),
      "experienceYears" := RequiredValue(p.experienceYears, IntJson),
      "availability" := RequiredValue(p.availability, StrJson),
      "responsePromise" := NullableValue(p.responsePromise, StrJson)];
    assert ProfileJson(p).fields == Compact(m);
    ReadRequired(m, "name", p.name, StrJson, AsString);
    ReadRequired(m, "title", p.title, StrJson, AsString);
    ReadRequired(m, "location", p.location, StrJson, AsString);
    ReadRequired(m, "email", p.email, StrJson, AsString);
    ReadRequired(m, "phone", p.phone, StrJson, AsString);
    ReadNullable(m, "linkedin", p.linkedin, StrJson, AsString);
    ReadRequired(m, "experienceYears", p.experienceYears, IntJson, AsInt);
    ReadRequired(m, "availability", p.availability, StrJson, AsString);
    ReadNullable(m, "responsePromise", p.responsePromise, StrJson, AsString);
    ParseProfileReads(Compact(m), p);
  }

  lemma SkillRoundTrip(p: NewSkill)
    ensures ParseSkill(SkillJson(p)) == Some(p)
  {
    var m := map[
      "name" := RequiredValue(p.name, StrJson),
      "level" := RequiredValue(p.level, StrJson),
      "percentage" := RequiredValue(p.percentage, IntJson),
      "category" := NullableValue(p.category, StrJson),
      "displayOrder" := NullableValue(p.displayOrder, IntJson),
      "isActive" := NullableValue(p.isActive, BoolJson)];
    assert SkillJson(p).fields == Compact(m);
    ReadRequired(m, "name", p.name, StrJson, AsString);
    ReadRequired(m, "level", p.level, StrJson, AsString);
    ReadRequired(m, "percentage", p.percentage, IntJson, AsInt);
    ReadNullable(m, "category", p.category, StrJson, AsString);
    ReadNullable(m, "displayOrder", p.displayOrder, IntJson, AsInt);
    ReadNullable(m, "isActive", p.isActive, BoolJson, AsBool);
    ParseSkillReads(Compact(m), p);
  }

  lemma SkillPatchRoundTrip(p: SkillPatch)
    ensures ParseSkillPatch(SkillPatchJson(p)) == Some(p)
  {
    var m := map[
      "name" := OptionalValue(p.name, StrJson),
      "level" := OptionalValue(p.level, StrJson),
      "percentage" := OptionalValue(p.percentage, IntJson),
      "category" := NullableValue(p.category, StrJson),
      "displayOrder" := NullableValue(p.displayOrder, IntJson),
      "isActive" := NullableValue(p.isActive, BoolJson)];
    assert SkillPatchJson(p).fields == Compact(m);
    ReadOptional(m, "name", p.name, StrJson, AsString);
    ReadOptional(m, "level", p.level, StrJson, AsString);
    ReadOptional(m, "percentage", p.percentage, IntJson, AsInt);
    ReadNullable(m, "category", p.category, StrJson, AsString);
    ReadNullable(m, "displayOrder", p.displayOrder, IntJson, AsInt);
    ReadNullable(m, "isActive", p.isActive, BoolJson, AsBool);
    ParseSkillPatchReads(Compact(m), p);
  }

  /** The keys the client writes for a project, before `None`s are dropped. */
  function ProjectFields(p: NewProject): map<string, Option<Json>> {
    map[
      "name" := RequiredValue(p.name, StrJson),
      "slug" := RequiredValue(p.slug, StrJson),
      "problem" := RequiredValue(p.problem, StrJson),
      "organization" := RequiredValue(p.organization, StrJson),
      "timeframe" := RequiredValue(p.timeframe, StrJson),
      "platforms" := RequiredValue(p.platforms, StringsJson),
      "status" := RequiredValue(p.status, StrJson),
      "goals" := NullableValue(p.goals, StringsJson),
      "testStrategy" := NullableValue(p.testStrategy, StringsJson),
      "performanceTargets" := NullableValue(p.performanceTargets, AnyJson),
      "isPublished" := NullableValue(p.isPublished, BoolJson),
      "displayOrder" := NullableValue(p.displayOrder, IntJson)]
  }

  lemma ProjectRequiredRead(p: NewProject)
    ensures var m := Compact(ProjectFields(p));
            && Required(m, "name", AsString) == Some(p.name)
            && Required(m, "slug", AsString) == Some(p.slug)
            && Required(m, "problem", AsString) == Some(p.problem)
            && Required(m, "organization", AsString) == Some(p.organization)
            && Required(m, "timeframe", AsString) == Some(p.timeframe)
            && Required(m, "platforms", AsStrings) == Some(p.platforms)
            && Required(m, "status", AsString) == Some(p.status)
  {
    var m := ProjectFields(p);
    ReadRequired(m, "name", p.name, StrJson, AsString);
    ReadRequired(m, "slug", p.slug, StrJson, AsString);
    ReadRequired(m, "problem", p.problem, StrJson, AsString);
    ReadRequired(m, "organization", p.organization, StrJson, AsString);
    ReadRequired(m, "timeframe", p.timeframe, StrJson, AsString);
    StringsRoundTrip(p.platforms);
    ReadRequired(m, "platforms", p.platforms, StringsJson, AsStrings);
    ReadRequired(m, "status", p.status, StrJson, AsString);
  }

  lemma ProjectNullableRead(p: NewProject)
    requires p.performanceTargets != Given(Some(JNull))
    ensures var m := Compact(ProjectFields(p));
            && Nullable(m, "goals", AsStrings) == Some(p.goals)
            && Nullable(m, "testStrategy", AsStrings) == Some(p.testStrategy)
            && Nullable(m, "performanceTargets", AsAny) == Some(p.performanceTargets)
            && Nullable(m, "isPublished", AsBool) == Some(p.isPublished)
            && Nullable(m, "displayOrder", AsInt) == Some(p.displayOrder)
  {
    var m := ProjectFields(p);
    if p.goals.Given? && p.goals.value.Some? { StringsRoundTrip(p.goals.value.value); }
    ReadNullable(m, "goals", p.goals, StringsJson, AsStrings);
    if p.testStrategy.Given? && p.testStrategy.value.Some? { StringsRoundTrip(p.testStrategy.value.value); }
    ReadNullable(m, "testStrategy", p.testStrategy, StringsJson, AsStrings);
    ReadNullable(m, "performanceTargets", p.performanceTargets, AnyJson, AsAny);
    ReadNullable(m, "isPublished", p.isPublished, BoolJson, AsBool);
    ReadNullable(m, "displayOrder", p.displayOrder, IntJson, AsInt);
  }

  /** JSON has a single null, so an untyped `performanceTargets` holding JSON
      null cannot be told apart from a null column. */
  lemma ProjectRoundTrip(p: NewProject)
    requires p.performanceTargets != Given(Some(JNull))
    ensures ParseProject(ProjectJson(p)) == Some(p)
  {
    assert ProjectJson(p).fields == Compact(ProjectFields(p));
    ProjectRequiredRead(p);
    ProjectNullableRead(p);
    ParseProjectReads(Compact(ProjectFields(p)), p);
  }

  /** The keys the client writes for a partial project update. */
  function ProjectPatchFields(p: ProjectPatch): map<string, Option<Json>> {
    map[
      "name" := OptionalValue(p.name, StrJson),
      "slug" := OptionalValue(p.slug, StrJson),
      "problem" := OptionalValue(p.problem, StrJson),
      "organization" := OptionalValue(p.organization, StrJson),
      "timeframe" := OptionalValue(p.timeframe, StrJson),
      "platforms" := OptionalValue(p.platforms, StringsJson),
      "status" := OptionalValue(p.status, StrJson),
      "goals" := NullableValue(p.goals, StringsJson),
      "testStrategy" := NullableValue(p.testStrategy, StringsJson),
      "performanceTargets" := NullableValue(p.performanceTargets, AnyJson),
      "isPublished" := NullableValue(p.isPublished, BoolJson),
      "displayOrder" := NullableValue(p.displayOrder, IntJson)]
  }

  lemma ProjectPatchOptionalRead(p: ProjectPatch)
    ensures var m := Compact(ProjectPatchFields(p));
            && Optional(m, "name", AsString) == Some(p.name)
            && Optional(m, "slug", AsString) == Some(p.slug)
            && Optional(m, "problem", AsString) == Some(p.problem)
            && Optional(m, "organization", AsString) == Some(p.organization)
            && Optional(m, "timeframe", AsString) == Some(p.timeframe)
            && Optional(m, "platforms", AsStrings) == Some(p.platforms)
            && Optional(m, "status", AsString) == Some(p.status)
  {
    var m := ProjectPatchFields(p);
    ReadOptional(m, "name", p.name, StrJson, AsString);
    ReadOptional(m, "slug", p.slug, StrJson, AsString);
    ReadOptional(m, "problem", p.problem, StrJson, AsString);
    ReadOptional(m, "organization", p.organization, StrJson, AsString);
    ReadOptional(m, "timeframe", p.timeframe, StrJson, AsString);
    if p.platforms.Given? { StringsRoundTrip(p.platforms.value); }
    ReadOptional(m, "platforms", p.platforms, StringsJson, AsStrings);
    ReadOptional(m, "status", p.status, StrJson, AsString);
  }

  lemma ProjectPatchNullableRead(p: ProjectPatch)
    requires p.performanceTargets != Given(Some(JNull))
    ensures var m := Compact(ProjectPatchFields(p));
            && Nullable(m, "goals", AsStrings) == Some(p.goals)
            && Nullable(m, "testStrategy", AsStrings) == Some(p.testStrategy)
            && Nullable(m, "performanceTargets", AsAny) == Some(p.performanceTargets)
            && Nullable(m, "isPublished", AsBool) == Some(p.isPublished)
            && Nullable(m, "displayOrder", AsInt) == Some(p.displayOrder)
  {
    var m := ProjectPatchFields(p);
    if p.goals.Given? && p.goals.value.Some? { StringsRoundTrip(p.goals.value.value); }
    ReadNullable(m, "goals", p.goals, StringsJson, AsStrings);
    if p.testStrategy.Given? && p.testStrategy.value.Some? { StringsRoundTrip(p.testStrategy.value.value); }
    ReadNullable(m, "testStrategy", p.testStrategy, StringsJson, AsStrings);
    ReadNullable(m, "performanceTargets", p.performanceTargets, AnyJson, AsAny);
    ReadNullable(m, "isPublished", p.isPublished, BoolJson, AsBool);
    ReadNullable(m, "displayOrder", p.displayOrder, IntJson, AsInt);
  }

  lemma ProjectPatchRoundTrip(p: ProjectPatch)
    requires p.performanceTargets != Given(Some(JNull))
    ensures ParseProjectPatch(ProjectPatchJson(p)) == Some(p)
  {
    assert ProjectPatchJson(p).fields == Compact(ProjectPatchFields(p));
    ProjectPatchOptionalRead(p);
    ProjectPatchNullableRead(p);
    ParseProjectPatchReads(Compact(ProjectPatchFields(p)), p);
  }

  lemma AboutContentRoundTrip(p: NewAboutContent)
    ensures ParseAboutContent(AboutContentJson(p)) == Some(p)
  {
    var m := map[
      "content" := RequiredValue(p.content, StrJson)];
    assert AboutContentJson(p).fields == Compact(m);
    ReadRequired(m, "content", p.content, StrJson, AsString);
    ParseAboutContentReads(Compact(m), p);
  }

  lemma ExperienceRoundTrip(p: NewExperience)
    ensures ParseExperience(ExperienceJson(p)) == Some(p)
  {
    var m := map[
      "jobTitle" := RequiredValue(p.jobTitle, StrJson),
      "company" := RequiredValue(p.company, StrJson),
      "startDate" := RequiredValue(p.startDate, StrJson),
      "endDate" := NullableValue(p.endDate, StrJson),
      "isCurrent" := NullableValue(p.isCurrent, BoolJson),
      "description" := NullableValue(p.description, StrJson),
      "achievements" := NullableValue(p.achievements, StringsJson),
      "displayOrder" := NullableValue(p.displayOrder, IntJson),
      "isActive" := NullableValue(p.isActive, BoolJson)];
    assert ExperienceJson(p).fields == Compact(m);
    ReadRequired(m, "jobTitle", p.jobTitle, StrJson, AsString);
    ReadRequired(m, "company", p.company, StrJson, AsString);
    ReadRequired(m, "startDate", p.startDate, StrJson, AsString);
    ReadNullable(m, "endDate", p.endDate, StrJson, AsString);
    ReadNullable(m, "isCurrent", p.isCurrent, BoolJson, AsBool);
    ReadNullable(m, "description", p.description, StrJson, AsString);
    assert Nullable(Compact(m), "achievements", AsStrings) == Some(p.achievements) by {
      if p.achievements.Given? && p.achievements.value.Some? { StringsRoundTrip(p.achievements.value.value); }
      ReadNullable(m, "achievements", p.achievements, StringsJson, AsStrings);
    }
    ReadNullable(m, "displayOrder", p.displayOrder, IntJson, AsInt);
    ReadNullable(m, "isActive", p.isActive, BoolJson, AsBool);
    ParseExperienceReads(Compact(m), p);
  }

  lemma ExperiencePatchRoundTrip(p: ExperiencePatch)
    ensures ParseExperiencePatch(ExperiencePatchJson(p)) == Some(p)
  {
    var m := map[
      "jobTitle" := OptionalValue(p.jobTitle, StrJson),
      "company" := OptionalValue(p.company, StrJson),
      "startDate" := OptionalValue(p.startDate, StrJson),
      "endDate" := NullableValue(p.endDate, StrJson),
      "isCurrent" := NullableValue(p.isCurrent, BoolJson),
      "description" := NullableValue(p.description, StrJson),
      "achievements" := NullableValue(p.achievements, StringsJson),
      "displayOrder" := NullableValue(p.displayOrder, IntJson),
      "isActive" := NullableValue(p.isActive, BoolJson)];
    assert ExperiencePatchJson(p).fields == Compact(m);
    ReadOptional(m, "jobTitle", p.jobTitle, StrJson, AsString);
    ReadOptional(m, "company", p.company, StrJson, AsString);
    ReadOptional(m, "startDate", p.startDate, StrJson, AsString);
    ReadNullable(m, "endDate", p.endDate, StrJson, AsString);
    ReadNullable(m, "isCurrent", p.isCurrent, BoolJson, AsBool);
    ReadNullable(m, "description", p.description, StrJson, AsString);
    assert Nullable(Compact(m), "achievements", AsStrings) == Some(p.achievements) by {
      if p.achievements.Given? && p.achievements.value.Some? { StringsRoundTrip(p.achievements.value.value); }
      ReadNullable(m, "achievements", p.achievements, StringsJson, AsStrings);
    }
    ReadNullable(m, "displayOrder", p.displayOrder, IntJson, AsInt);
    ReadNullable(m, "isActive", p.isActive, BoolJson, AsBool);
    ParseExperiencePatchReads(Compact(m), p);
  }

  lemma EducationRoundTrip(p: NewEducation)
    ensures ParseEducation(EducationJson(p)) == Some(p)
  {
    var m := map[
      "degree" := RequiredValue(p.degree, StrJson),
      "institution" := RequiredValue(p.institution, StrJson),
      "startDate" := RequiredValue(p.startDate, StrJson),
      "endDate" := NullableValue(p.endDate, StrJson),
      "isCurrent" := NullableValue(p.isCurrent, BoolJson),
      "description" := NullableValue(p.description, StrJson),
      "displayOrder" := NullableValue(p.displayOrder, IntJson),
      "isActive" := NullableValue(p.isActive, BoolJson)];
    assert EducationJson(p).fields == Compact(m);
    ReadRequired(m, "degree", p.degree, StrJson, AsString);
    ReadRequired(m, "institution", p.institution, StrJson, AsString);
    ReadRequired(m, "startDate", p.startDate, StrJson, AsString);
    ReadNullable(m, "endDate", p.endDate, StrJson, AsString);
    ReadNullable(m, "isCurrent", p.isCurrent, BoolJson, AsBool);
    ReadNullable(m, "description", p.description, StrJson, AsString);
    ReadNullable(m, "displayOrder", p.displayOrder, IntJson, AsInt);
    ReadNullable(m, "isActive", p.isActive, BoolJson, AsBool);
    ParseEducationReads(Compact(m), p);
  }

  lemma EducationPatchRoundTrip(p: EducationPatch)
    ensures ParseEducationPatch(EducationPatchJson(p)) == Some(p)
  {
    var m := map[
      "degree" := OptionalValue(p.degree, StrJson),
      "institution" := OptionalValue(p.institution, StrJson),
      "startDate" := OptionalValue(p.startDate, StrJson),
      "endDate" := NullableValue(p.endDate, StrJson),
      "isCurrent" := NullableValue(p.isCurrent, BoolJson),
      "description" := NullableValue(p.description, StrJson),
      "displayOrder" := NullableValue(p.displayOrder, IntJson),
      "isActive" := NullableValue(p.isActive, BoolJson)];
    assert EducationPatchJson(p).fields == Compact(m);
    ReadOptional(m, "degree", p.degree, StrJson, AsString);
    ReadOptional(m, "institution", p.institution, StrJson, AsString);
    ReadOptional(m, "startDate", p.startDate, StrJson, AsString);
    ReadNullable(m, "endDate", p.endDate, StrJson, AsString);
    ReadNullable(m, "isCurrent", p.isCurrent, BoolJson, AsBool);
    ReadNullable(m, "description", p.description, StrJson, AsString);
    ReadNullable(m, "displayOrder", p.displayOrder, IntJson, AsInt);
    ReadNullable(m, "isActive", p.isActive, BoolJson, AsBool);
    ParseEducationPatchReads(Compact(m), p);
  }

  lemma SiteSettingsRoundTrip(p: NewSiteSettings)
    ensures ParseSiteSettings(SiteSettingsJson(p)) == Some(p)
  {
    var m := map[
      "heroTitle" := RequiredValue(p.heroTitle, StrJson),
      "heroSubtitle" := RequiredValue(p.heroSubtitle, StrJson),
      "calendlyUrl" := NullableValue(p.calendlyUrl, StrJson),
      "resumeUrl" := NullableValue(p.resumeUrl, StrJson),
      "metaTitle" := NullableValue(p.metaTitle, StrJson),
      "metaDescription" := NullableValue(p.metaDescription, StrJson)];
    assert SiteSettingsJson(p).fields == Compact(m);
    ReadRequired(m, "heroTitle", p.heroTitle, StrJson, AsString);
    ReadRequired(m, "heroSubtitle", p.heroSubtitle, StrJson, AsString);
    ReadNullable(m, "calendlyUrl", p.calendlyUrl, StrJson, AsString);
    ReadNullable(m, "resumeUrl", p.resumeUrl, StrJson, AsString);
    ReadNullable(m, "metaTitle", p.metaTitle, StrJson, AsString);
    ReadNullable(m, "metaDescription", p.metaDescription, StrJson, AsString);
    ParseSiteSettingsReads(Compact(m), p);
  }

  lemma ResumeAttachmentRoundTrip(p: NewResumeAttachment)
    ensures ParseResumeAttachment(ResumeAttachmentJson(p)) == Some(p)
  {
    var m := map[
      "fileName" := RequiredValue(p.fileName, StrJson),
      "fileUrl" := RequiredValue(p.fileUrl, StrJson),
      "fileSize" := NullableValue(p.fileSize, IntJson),
      "fileType" := NullableValue(p.fileType, StrJson),
      "isActive" := NullableValue(p.isActive, BoolJson),
      "description" := NullableValue(p.description, StrJson)];
    assert ResumeAttachmentJson(p).fields == Compact(m);
    ReadRequired(m, "fileName", p.fileName, StrJson, AsString);
    ReadRequired(m, "fileUrl", p.fileUrl, StrJson, AsString);
    ReadNullable(m, "fileSize", p.fileSize, IntJson, AsInt);
    ReadNullable(m, "fileType", p.fileType, StrJson, AsString);
    ReadNullable(m, "isActive", p.isActive, BoolJson, AsBool);
    ReadNullable(m, "description", p.description, StrJson, AsString);
    ParseResumeAttachmentReads(Compact(m), p);
  }

  lemma ResumeAttachmentPatchRoundTrip(p: ResumeAttachmentPatch)
    ensures ParseResumeAttachmentPatch(ResumeAttachmentPatchJson(p)) == Some(p)
  {
    var m := map[
      "fileName" := OptionalValue(p.fileName, StrJson),
      "fileUrl" := OptionalValue(p.fileUrl, StrJson),
      "fileSize" := NullableValue(p.fileSize, IntJson),
      "fileType" := NullableValue(p.fileType, StrJson),
      "isActive" := NullableValue(p.isActive, BoolJson),
      "description" := NullableValue(p.description, StrJson)];
    assert ResumeAttachmentPatchJson(p).fields == Compact(m);
    ReadOptional(m, "fileName", p.fileName, StrJson, AsString);
    ReadOptional(m, "fileUrl", p.fileUrl, StrJson, AsString);
    ReadNullable(m, "fileSize", p.fileSize, IntJson, AsInt);
    ReadNullable(m, "fileType", p.fileType, StrJson, AsString);
    ReadNullable(m, "isActive", p.isActive, BoolJson, AsBool);
    ReadNullable(m, "description", p.description, StrJson, AsString);
    ParseResumeAttachmentPatchReads(Compact(m), p);
  }

  /* ---- a body valid for insert is a valid partial update ---- */

  lemma SkillPartialAcceptsFull(body: Json)
    requires ParseSkill(body).Some?
    ensures ParseSkillPatch(body) == Some(SkillAsPatch(ParseSkill(body).value))
  {
  }

  lemma ProjectPartialAcceptsFull(body: Json)
    requires ParseProject(body).Some?
    ensures ParseProjectPatch(body) == Some(ProjectAsPatch(ParseProject(body).value))
  {
  }

  lemma ExperiencePartialAcceptsFull(body: Json)
    requires ParseExperience(body).Some?
    ensures ParseExperiencePatch(body) == Some(ExperienceAsPatch(ParseExperience(body).value))
  {
  }

  lemma EducationPartialAcceptsFull(body: Json)
    requires ParseEducation(body).Some?
    ensures ParseEducationPatch(body) == Some(EducationAsPatch(ParseEducation(body).value))
  {
  }

  lemma ResumeAttachmentPartialAcceptsFull(body: Json)
    requires ParseResumeAttachment(body).Some?
    ensures ParseResumeAttachmentPatch(body) == Some(ResumeAttachmentAsPatch(ParseResumeAttachment(body).value))
  {
  }

  /* ---- keys outside the table's columns are dropped ---- */

  /** The columns a Profile body may set; the server-assigned `id`, `updatedAt` are not among them. */
  const ProfileKeys: set<string> := {"name", "title", "location", "email", "phone", "linkedin", "experienceYears", "availability", "responsePromise"}

  /** The columns a Skill body may set; the server-assigned `id` is not among them. */
  const SkillKeys: set<string> := {"name", "level", "percentage", "category", "displayOrder", "isActive"}

  /** The columns a Project body may set; the server-assigned `id`, `createdAt`, `updatedAt` are not among them. */
  const ProjectKeys: set<string> := {"name", "slug", "problem", "organization", "timeframe", "platforms", "status", "goals", "testStrategy", "performanceTargets", "isPublished", "displayOrder"}

  /** The columns an AboutContent body may set; the server-assigned `id`, `updatedAt` are not among them. */
  const AboutContentKeys: set<string> := {"content"}

  /** The columns an Experience body may set; the server-assigned `id`, `createdAt` are not among them. */
  const ExperienceKeys: set<string> := {"jobTitle", "company", "startDate", "endDate", "isCurrent", "description", "achievements", "displayOrder", "isActive"}

  /** The columns an Education body may set; the server-assigned `id`, `createdAt` are not among them. */
  const EducationKeys: set<string> := {"degree", "institution", "startDate", "endDate", "isCurrent", "description", "displayOrder", "isActive"}

  /** The columns a SiteSettings body may set; the server-assigned `id`, `updatedAt` are not among them. */
  const SiteSettingsKeys: set<string> := {"heroTitle", "heroSubtitle", "calendlyUrl", "resumeUrl", "metaTitle", "metaDescription"}

  /** The columns a ResumeAttachment body may set; the server-assigned `id`, `uploadedAt` are not among them. */
  const ResumeAttachmentKeys: set<string> := {"fileName", "fileUrl", "fileSize", "fileType", "isActive", "description"}

  lemma ProfileIgnoresOtherKeys(m: map<string, Json>, k: string, v: Json)
    requires k !in ProfileKeys
    ensures ParseProfile(JObj(m[k := v])) == ParseProfile(JObj(m))
  {
    var m' := m[k := v];
    assert Required(m', "name", AsString) == Required(m, "name", AsString);
    assert Required(m', "title", AsString) == Required(m, "title", AsString);
    assert Required(m', "location", AsString) == Required(m, "location", AsString);
    assert Required(m', "email", AsString) == Required(m, "email", AsString);
    assert Required(m', "phone", AsString) == Required(m, "phone", AsString);
    assert Nullable(m', "linkedin", AsString) == Nullable(m, "linkedin", AsString);
    assert Required(m', "experienceYears", AsInt) == Required(m, "experienceYears", AsInt);
    assert Required(m', "availability", AsString) == Required(m, "availability", AsString);
    assert Nullable(m', "responsePromise", AsString) == Nullable(m, "responsePromise", AsString);
  }

  lemma SkillIgnoresOtherKeys(m: map<string, Json>, k: string, v: Json)
    requires k !in SkillKeys
    ensures ParseSkill(JObj(m[k := v])) == ParseSkill(JObj(m))
    ensures ParseSkillPatch(JObj(m[k := v])) == ParseSkillPatch(JObj(m))
  {
    var m' := m[k := v];
    assert Required(m', "name", AsString) == Required(m, "name", AsString);
    assert Optional(m', "name", AsString) == Optional(m, "name", AsString);
    assert Required(m', "level", AsString) == Required(m, "level", AsString);
    assert Optional(m', "level", AsString) == Optional(m, "level", AsString);
    assert Required(m', "percentage", AsInt) == Required(m, "percentage", AsInt);
    assert Optional(m', "percentage", AsInt) == Optional(m, "percentage", AsInt);
    assert Nullable(m', "category", AsString) == Nullable(m, "category", AsString);
    assert Nullable(m', "displayOrder", AsInt) == Nullable(m, "displayOrder", AsInt);
    assert Nullable(m', "isActive", AsBool) == Nullable(m, "isActive", AsBool);
  }

  lemma ProjectIgnoresOtherKeys(m: map<string, Json>, k: string, v: Json)
    requires k !in ProjectKeys
    ensures ParseProject(JObj(m[k := v])) == ParseProject(JObj(m))
    ensures ParseProjectPatch(JObj(m[k := v])) == ParseProjectPatch(JObj(m))
  {
    var m' := m[k := v];
    assert Required(m', "name", AsString) == Required(m, "name", AsString);
    assert Optional(m', "name", AsString) == Optional(m, "name", AsString);
    assert Required(m', "slug", AsString) == Required(m, "slug", AsString);
    assert Optional(m', "slug", AsString) == Optional(m, "slug", AsString);
    assert Required(m', "problem", AsString) == Required(m, "problem", AsString);
    assert Optional(m', "problem", AsString) == Optional(m, "problem", AsString);
    assert Required(m', "organization", AsString) == Required(m, "organization", AsString);
    assert Optional(m', "organization", AsString) == Optional(m, "organization", AsString);
    assert Required(m', "timeframe", AsString) == Required(m, "timeframe", AsString);
    assert Optional(m', "timeframe", AsString) == Optional(m, "timeframe", AsString);
    assert Required(m', "platforms", AsStrings) == Required(m, "platforms", AsStrings);
    assert Optional(m', "platforms", AsStrings) == Optional(m, "platforms", AsStrings);
    assert Required(m', "status", AsString) == Required(m, "status", AsString);
    assert Optional(m', "status", AsString) == Optional(m, "status", AsString);
    assert Nullable(m', "goals", AsStrings) == Nullable(m, "goals", AsStrings);
    assert Nullable(m', "testStrategy", AsStrings) == Nullable(m, "testStrategy", AsStrings);
    assert Nullable(m', "performanceTargets", AsAny) == Nullable(m, "performanceTargets", AsAny);
    assert Nullable(m', "isPublished", AsBool) == Nullable(m, "isPublished", AsBool);
    assert Nullable(m', "displayOrder", AsInt) == Nullable(m, "displayOrder", AsInt);
  }

  lemma AboutContentIgnoresOtherKeys(m: map<string, Json>, k: string, v: Json)
    requires k !in AboutContentKeys
    ensures ParseAboutContent(JObj(m[k := v])) == ParseAboutContent(JObj(m))
  {
    var m' := m[k := v];
    assert Required(m', "content", AsString) == Required(m, "content", AsString);
  }

  lemma ExperienceIgnoresOtherKeys(m: map<string, Json>, k: string, v: Json)
    requires k !in ExperienceKeys
    ensures ParseExperience(JObj(m[k := v])) == ParseExperience(JObj(m))
    ensures ParseExperiencePatch(JObj(m[k := v])) == ParseExperiencePatch(JObj(m))
  {
    var m' := m[k := v];
    assert Required(m', "jobTitle", AsString) == Required(m, "jobTitle", AsString);
    assert Optional(m', "jobTitle", AsString) == Optional(m, "jobTitle", AsString);
    assert Required(m', "company", AsString) == Required(m, "company", AsString);
    assert Optional(m', "company", AsString) == Optional(m, "company", AsString);
    assert Required(m', "startDate", AsString) == Required(m, "startDate", AsString);
    assert Optional(m', "startDate", AsString) == Optional(m, "startDate", AsString);
    assert Nullable(m', "endDate", AsString) == Nullable(m, "endDate", AsString);
    assert Nullable(m', "isCurrent", AsBool) == Nullable(m, "isCurrent", AsBool);
    assert Nullable(m', "description", AsString) == Nullable(m, "description", AsString);
    assert Nullable(m', "achievements", AsStrings) == Nullable(m, "achievements", AsStrings);
    assert Nullable(m', "displayOrder", AsInt) == Nullable(m, "displayOrder", AsInt);
    assert Nullable(m', "isActive", AsBool) == Nullable(m, "isActive", AsBool);
  }

  lemma EducationIgnoresOtherKeys(m: map<string, Json>, k: string, v: Json)
    requires k !in EducationKeys
    ensures ParseEducation(JObj(m[k := v])) == ParseEducation(JObj(m))
    ensures ParseEducationPatch(JObj(m[k := v])) == ParseEducationPatch(JObj(m))
  {
    var m' := m[k := v];
    assert Required(m', "degree", AsString) == Required(m, "degree", AsString);
    assert Optional(m', "degree", AsString) == Optional(m, "degree", AsString);
    assert Required(m', "institution", AsString) == Required(m, "institution", AsString);
    assert Optional(m', "institution", AsString) == Optional(m, "institution", AsString);
    assert Required(m', "startDate", AsString) == Required(m, "startDate", AsString);
    assert Optional(m', "startDate", AsString) == Optional(m, "startDate", AsString);
    assert Nullable(m', "endDate", AsString) == Nullable(m, "endDate", AsString);
    assert Nullable(m', "isCurrent", AsBool) == Nullable(m, "isCurrent", AsBool);
    assert Nullable(m', "description", AsString) == Nullable(m, "description", AsString);
    assert Nullable(m', "displayOrder", AsInt) == Nullable(m, "displayOrder", AsInt);
    assert Nullable(m', "isActive", AsBool) == Nullable(m, "isActive", AsBool);
  }

  lemma SiteSettingsIgnoresOtherKeys(m: map<string, Json>, k: string, v: Json)
    requires k !in SiteSettingsKeys
    ensures ParseSiteSettings(JObj(m[k := v])) == ParseSiteSettings(JObj(m))
  {
    var m' := m[k := v];
    assert Required(m', "heroTitle", AsString) == Required(m, "heroTitle", AsString);
    assert Required(m', "heroSubtitle", AsString) == Required(m, "heroSubtitle", AsString);
    assert Nullable(m', "calendlyUrl", AsString) == Nullable(m, "calendlyUrl", AsString);
    assert Nullable(m', "resumeUrl", AsString) == Nullable(m, "resumeUrl", AsString);
    assert Nullable(m', "metaTitle", AsString) == Nullable(m, "metaTitle", AsString);
    assert Nullable(m', "metaDescription", AsString) == Nullable(m, "metaDescription", AsString);
  }

  lemma ResumeAttachmentIgnoresOtherKeys(m: map<string, Json>, k: string, v: Json)
    requires k !in ResumeAttachmentKeys
    ensures ParseResumeAttachment(JObj(m[k := v])) == ParseResumeAttachment(JObj(m))
    ensures ParseResumeAttachmentPatch(JObj(m[k := v])) == ParseResumeAttachmentPatch(JObj(m))
  {
    var m' := m[k := v];
    assert Required(m', "fileName", AsString) == Required(m, "fileName", AsString);
    assert Optional(m', "fileName", AsString) == Optional(m, "fileName", AsString);
    assert Required(m', "fileUrl", AsString) == Required(m, "fileUrl", AsString);
    assert Optional(m', "fileUrl", AsString) == Optional(m, "fileUrl", AsString);
    assert Nullable(m', "fileSize", AsInt) == Nullable(m, "fileSize", AsInt);
    assert Nullable(m', "fileType", AsString) == Nullable(m, "fileType", AsString);
    assert Nullable(m', "isActive", AsBool) == Nullable(m, "isActive", AsBool);
    assert Nullable(m', "description", AsString) == Nullable(m, "description", AsString);
  }

  /* ---- a body with only the required keys gets the column defaults ---- */

  /** Any level text and any integer percentage are accepted; the skill is
      stored active, at position 0, without a category. */
  lemma SkillDefaults(name: string, level: string, percentage: int)
    ensures var p := ParseSkill(JObj(map["name" := JStr(name), "level" := JStr(level), "percentage" := JNum(percentage)]));
            && p.Some?
            && InsertedSkill(p.value) == Skill(name, level, percentage, None, Some(0), Some(true))
  {
  }

  lemma ProjectDefaults(p: NewProject, now: int)
    requires p.goals.Missing? && p.testStrategy.Missing? && p.performanceTargets.Missing?
    requires p.isPublished.Missing? && p.displayOrder.Missing?
    ensures var x := InsertedProject(p, now);
            && x.isPublished == Some(true) && x.displayOrder == Some(0)
            && x.goals.None? && x.testStrategy.None? && x.performanceTargets.None?
            && x.createdAt == now && x.updatedAt == now
  {
  }

  lemma ExperienceDefaults(jobTitle: string, company: string, startDate: string, now: int)
    ensures var p := ParseExperience(JObj(map["jobTitle" := JStr(jobTitle), "company" := JStr(company), "startDate" := JStr(startDate)]));
            && p.Some?
            && InsertedExperience(p.value, now) == Experience(jobTitle, company, startDate, None, Some(false), None, None, Some(0), Some(true), now)
  {
  }

  lemma EducationDefaults(degree: string, institution: string, startDate: string, now: int)
    ensures var p := ParseEducation(JObj(map["degree" := JStr(degree), "institution" := JStr(institution), "startDate" := JStr(startDate)]));
            && p.Some?
            && InsertedEducation(p.value, now) == Education(degree, institution, startDate, None, Some(false), None, Some(0), Some(true), now)
  {
  }

  lemma ResumeAttachmentDefaults(fileName: string, fileUrl: string, now: int)
    ensures var p := ParseResumeAttachment(JObj(map["fileName" := JStr(fileName), "fileUrl" := JStr(fileUrl)]));
            && p.Some?
            && InsertedResumeAttachment(p.value, now) == ResumeAttachment(fileName, fileUrl, None, None, Some(true), now, None)
  {
  }

  /** `platforms` is required while `goals` may be left out or null. */
  lemma ProjectListColumns(m: map<string, Json>)
    ensures "platforms" !in m ==> ParseProject(JObj(m)).None?
    ensures ParseProject(JObj(m)).Some? && "goals" in m && m["goals"] == JNull ==> ParseProject(JObj(m)).value.goals == Given(None)
  {
  }

  /* ---- partial updates ---- */

  /** An empty patch changes nothing, and applying the same patch twice is
      the same as applying it once. */
  lemma SkillPatchLaws(x: Skill, p: SkillPatch)
    ensures PatchedSkill(x, SkillPatch(Missing, Missing, Missing, Missing, Missing, Missing)) == x
    ensures PatchedSkill(PatchedSkill(x, p), p) == PatchedSkill(x, p)
  {
  }

  lemma ProjectPatchLaws(x: Project, p: ProjectPatch)
    ensures PatchedProject(x, ProjectPatch(Missing, Missing, Missing, Missing, Missing, Missing, Missing, Missing, Missing, Missing, Missing, Missing)) == x
    ensures PatchedProject(PatchedProject(x, p), p) == PatchedProject(x, p)
  {
  }

  lemma ExperiencePatchLaws(x: Experience, p: ExperiencePatch)
    ensures PatchedExperience(x, ExperiencePatch(Missing, Missing, Missing, Missing, Missing, Missing, Missing, Missing, Missing)) == x
    ensures PatchedExperience(PatchedExperience(x, p), p) == PatchedExperience(x, p)
  {
  }

  lemma EducationPatchLaws(x: Education, p: EducationPatch)
    ensures PatchedEducation(x, EducationPatch(Missing, Missing, Missing, Missing, Missing, Missing, Missing, Missing)) == x
    ensures PatchedEducation(PatchedEducation(x, p), p) == PatchedEducation(x, p)
  {
  }

  lemma ResumeAttachmentPatchLaws(x: ResumeAttachment, p: ResumeAttachmentPatch)
    ensures PatchedResumeAttachment(x, ResumeAttachmentPatch(Missing, Missing, Missing, Missing, Missing, Missing)) == x
    ensures PatchedResumeAttachment(PatchedResumeAttachment(x, p), p) == PatchedResumeAttachment(x, p)
  {
  }

  /** A payload applied to the stored singleton through the update path
      leaves every value it gives in the row. */
  lemma ProfileMergeHolds(x: Profile, p: NewProfile, now: int)
    ensures ProfileHolds(MergedProfile(x, p, now), p)
    ensures ProfileHolds(InsertedProfile(p, now), p)
  {
  }

  lemma SiteSettingsMergeHolds(x: SiteSettings, p: NewSiteSettings, now: int)
    ensures SiteSettingsHolds(MergedSiteSettings(x, p, now), p)
    ensures SiteSettingsHolds(InsertedSiteSettings(p, now), p)
  {
  }
}
