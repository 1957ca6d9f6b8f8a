# Portfolio content store, admin gate and admin forms

This project models the core of a portfolio web site whose content an administrator edits. The model has five parts, one per source file or group of files.

- **Content store.** `server/storage.ts` keeps nine tables: admin users, the profile, skills, projects, the about text, experience, education, the site settings and résumé attachments. Three of them are singletons written by upsert. The others are collections with create, partial update, hard delete and a filtered, ordered listing.
- **Request contract.** `server/routes.ts` has the session gate `requireAdmin`, the login, logout, me and setup handlers, the admin routes that validate a body before they write, and the public read routes.
- **Entity shapes.** `shared/schema.ts` gives each table's columns, its defaults and its unique columns. Each `insert*Schema` validator says which keys a request body may set.
- **Admin forms.** The project, experience and education forms hold the slug derivation, the platform, goal and achievement lists, the end-date switch, the empty-to-null text fields, the display-order parse and the edit, reset and submit state.
- **Bootstrap script.** `server/setup-admin.ts` seeds the default administrator.

The files:

- `wrappers.dfy` defines `Option` and `Field`. A `Field` is a key of a request body that is either absent or given.
- `json.dfy` defines the JSON value of a request body, its decoders and the way a client serialises a payload.
- `tables.dfy` gives the table operations the store uses:
  - `where` filtering;
  - `orderBy`, ascending with NULL last, as a stable insertion sort;
  - `limit(1)`;
  - `update` and `delete` by key.
- `schema.dfy` has one datatype per row, insert payload and patch. It also holds the validators, with `.partial()` as a separate patch validator.
- `schema_laws.dfy` holds the laws of the validators:
  - exactly what each accepts;
  - round trips from a client payload;
  - ignored keys;
  - column defaults;
  - the laws of patching.
- `storage.dfy` is the class `DatabaseStorage`, with one `seq` field per table and a key counter.
- `auth.dfy` stands in for bcrypt.
- `routes.dfy` is the class `Server`, with the session store and one method per route.
- `setup_admin.dfy` is the bootstrap script.
- `form_text.dfy` holds the JavaScript string and list idioms the forms share: `trim`, `filter`, `|| null`, `parseInt(...) || 0` and `|| 'Present'`.
- `project_form.dfy`, `experience_form.dfy` and `education_form.dfy` are the three forms. Each is a class holding the form's state; the pure field updates are functions beside it.

Keys are natural numbers drawn from one counter, which stands in for `gen_random_uuid()`. Key columns are `varchar`, so a path parameter that matches no row behaves exactly like an absent key, which the model covers. Clock readings are an integer `now` that the caller passes in.

A response is a value:

- `Ok`, `BadRequest`, `Unauthorized`, `NotFound` or `ServerError`;
- carrying the body or the message the route sends.

In a few places the code does less than a description of the system might suggest. The model follows the code:

- The admin list routes call the same filtered getters as the public ones, so an administrator does not see hidden skills or unpublished projects.
- Updating an absent key answers 200 with no body; it does not answer 404.
- Setup does not validate its body. It refuses an existing username only when that username is given.
- `level` and `status` are free text and `percentage` an integer with no range check of its own; the allowed values appear only in comments.

## Model

| member | source | states |
|---|---|---|
| Wrappers.Apply | server/storage.ts:133-140 | A given key writes its value, null included. An absent key keeps the stored value on update and takes the column default on insert. |
| Json.AsString | shared/schema.ts:17 | A text column accepts exactly the JSON strings and reads back the string. |
| Json.AsStrings | shared/schema.ts:56 | A string-list column is read as an array whose items are all strings, item by item; any other JSON value is refused (admitted under Left out). |
| Json.Optional | shared/schema.ts:142-146 | Under `.partial()` a required key may be absent; when present it must have the column's type, and null is refused. |
| Json.Nullable | shared/schema.ts:56-62 | A nullable key may be absent, null, or a value of the column's type; anything else is refused. |
| Json.Compact | client/src/components/admin/project-form.tsx:144-151 | Serialising drops exactly the keys without a value and keeps the others. |
| Json.StringsRoundTrip | shared/schema.ts:55 | A list of strings serialised by the client is read back unchanged. |
| Json.ReadNullable | shared/schema.ts:56-62 | A nullable key is read back as written, as long as a present value does not serialise to null. |
| Tables.Find | server/storage.ts:86-94 | A lookup by key or username finds nothing exactly when no row matches, and otherwise a matching row of the table; on the unique `id` and `username` columns that row is the only match (several matches are admitted under Left out). |
| Tables.First | server/storage.ts:102-105 | `limit(1)` without ordering returns nothing exactly for an empty table, and otherwise a row of it; the model picks the first, where the database may pick any (admitted under Left out). |
| Tables.Filter | server/storage.ts:124-126 | The `where` clause keeps exactly the rows that satisfy it and no others, and keeps keys unique; with `Tables.FilterConcat` it keeps them in table order. |
| Tables.FilterConcat | server/storage.ts:124-126 | Filtering a table made of two parts gives the kept rows of the first part followed by those of the second, so `where` keeps table order; proved by induction. |
| Tables.FilterOne | server/storage.ts:124-126 | A single row is kept exactly when it satisfies the clause. |
| Tables.KeyLe | server/storage.ts:124-126 | Ascending order with NULL after every value, as Postgres sorts `orderBy(column)`; `Tables.KeyLeTotal` shows it compares every two keys. |
| Tables.InsertSorted | server/storage.ts:124-126 | Inserting a row into a sorted table keeps it sorted and adds exactly that row. |
| Tables.KeyLeTotal | server/storage.ts:124-126 | Ascending order with NULL last compares every two sort keys. |
| Tables.SortBy | server/storage.ts:124-126 | `orderBy` returns a sorted permutation of its input. |
| Tables.SortByMembers | server/storage.ts:124-126 | Sorting neither adds nor loses rows. |
| Tables.SortByUnique | server/storage.ts:124-126 | Sorting keeps primary keys unique; proved by induction. |
| Tables.Least | server/storage.ts:176-179 | The first row of an ordered `limit(1)` is a row of the table whose key is least, and there is none only for an empty table. |
| Tables.Update | server/storage.ts:133-140 | `update ... where id` rewrites exactly the rows with that key and keeps the rest and the order. |
| Tables.UpdateAt | server/storage.ts:181-195 | With unique keys, updating one row's key rewrites that row alone. |
| Tables.Delete | server/storage.ts:142-144 | After `delete ... where id`, a row is in the table exactly when it was before and has another key, so a delete never adds or alters a row. |
| Tables.DeleteConcat | server/storage.ts:142-144 | Deleting from a table made of two parts deletes from each part, keeping their order; proved by induction. |
| Tables.DeleteAbsent | server/storage.ts:142-144 | Deleting an absent key changes nothing. |
| Tables.DeleteAt | server/storage.ts:142-144 | With unique keys, deleting the key of row `k` removes that row and keeps the others in order. |
| Tables.DeleteKeepsValid | server/storage.ts:142-144 | A delete keeps keys unique and below the key counter. |
| Tables.DeleteKeepsDistinct | server/storage.ts:171-173 | A delete keeps a unique column unique. |
| Tables.UpdateKeepsValid | server/storage.ts:133-140 | An update keeps keys unique and below the key counter. |
| Storage.UpsertedProfile | server/storage.ts:107-121 | Upserting the profile inserts the first row into an empty table, and otherwise merges the payload into the row `getProfile` returns, which the model takes to be the first (admitted under Left out). |
| Storage.UpsertedAboutContent | server/storage.ts:181-195 | Upserting the about text inserts into an empty table, and otherwise merges into a row with the greatest `updatedAt`. |
| Storage.UpsertedSiteSettings | server/storage.ts:249-263 | Upserting the site settings inserts into an empty table, and otherwise merges into a row with the greatest `updatedAt`. |
| Storage.SkillRowsPatched | server/storage.ts:133-140 | Updating a skill applies the patch to the row with that key and leaves every other row as it was. |
| Storage.ProjectRowsPatched | server/storage.ts:161-169 | Updating a project patches the row with that key, restamps its `updatedAt` and leaves the other rows alone. |
| Storage.ExperienceRowsPatched | server/storage.ts:207-214 | Updating an experience entry patches only the row with that key. |
| Storage.EducationRowsPatched | server/storage.ts:230-237 | Updating an education entry patches only the row with that key. |
| Storage.ResumeAttachmentRowsPatched | server/storage.ts:280-287 | Updating a resume attachment patches only the row with that key. |
| Storage.RestampedProject | server/storage.ts:161-169 | A project update sets `updatedAt` to now, keeps `createdAt`, and takes the slug from the patch when given. |
| Storage.DatabaseStorage.constructor | server/storage.ts:84 | The store starts with every table empty and its invariant established. |
| Storage.DatabaseStorage.GetAdminUser | server/storage.ts:86-89 | Returns the admin with that key, or nothing exactly when no admin has it. |
| Storage.DatabaseStorage.GetAdminUserByUsername | server/storage.ts:91-94 | Returns an admin with that username, or nothing exactly when the username is free. |
| Storage.DatabaseStorage.CreateAdminUser | server/storage.ts:96-99 | Appends the admin under a fresh key, or refuses a taken username with a unique violation and changes nothing. |
| Storage.DatabaseStorage.GetProfile | server/storage.ts:102-105 | Returns nothing exactly for an empty table, and otherwise a profile row: the first in the model, any row in the database (admitted under Left out). |
| Storage.DatabaseStorage.UpsertProfile | server/storage.ts:107-121 | Writes the profile as the upsert specifies; the returned row holds the payload and is stamped now, and a key is drawn only on insert. |
| Storage.DatabaseStorage.GetSkills | server/storage.ts:124-126 | Lists exactly the active skills, ordered by display order with nulls last, with unique keys. |
| Storage.DatabaseStorage.CreateSkill | server/storage.ts:128-131 | Appends the skill with the column defaults under a fresh key. |
| Storage.DatabaseStorage.UpdateSkill | server/storage.ts:133-140 | Patches the skill with that key; returns it, or nothing exactly when the key is absent. |
| Storage.DatabaseStorage.DeleteSkill | server/storage.ts:142-144 | Removes the row with that key and keeps the others in order; an absent key changes nothing. |
| Storage.DatabaseStorage.GetProjects | server/storage.ts:147-149 | Lists exactly the published projects, ordered by display order, with unique keys. |
| Storage.DatabaseStorage.GetProject | server/storage.ts:151-154 | Finds a project by slug whether or not it is published, and nothing exactly when the slug is free. |
| Storage.DatabaseStorage.CreateProject | server/storage.ts:156-159 | Appends the project stamped now, or refuses a taken slug and changes nothing. |
| Storage.DatabaseStorage.UpdateProject | server/storage.ts:161-169 | Refuses a slug held by another row and changes nothing; otherwise patches and restamps the row and keeps slugs unique. |
| Storage.DatabaseStorage.DeleteProject | server/storage.ts:171-173 | Removes the project with that key and keeps slugs unique. |
| Storage.DatabaseStorage.GetAboutContent | server/storage.ts:176-179 | Returns a row with the greatest `updatedAt`, or nothing for an empty table. |
| Storage.DatabaseStorage.UpsertAboutContent | server/storage.ts:181-195 | Writes the about text as the upsert specifies; the returned row holds the content stamped now. |
| Storage.DatabaseStorage.GetExperiences | server/storage.ts:198-200 | Lists exactly the active experience entries in display order. |
| Storage.DatabaseStorage.CreateExperience | server/storage.ts:202-205 | Appends the entry with its defaults, stamped now, under a fresh key. |
| Storage.DatabaseStorage.UpdateExperience | server/storage.ts:207-214 | Patches the entry with that key; returns nothing exactly when the key is absent. |
| Storage.DatabaseStorage.DeleteExperience | server/storage.ts:216-218 | Removes the entry with that key and keeps the others in order. |
| Storage.DatabaseStorage.GetEducation | server/storage.ts:221-223 | Lists exactly the active education entries in display order. |
| Storage.DatabaseStorage.CreateEducation | server/storage.ts:225-228 | Appends the entry with its defaults, stamped now, under a fresh key. |
| Storage.DatabaseStorage.UpdateEducation | server/storage.ts:230-237 | Patches the entry with that key; returns nothing exactly when the key is absent. |
| Storage.DatabaseStorage.DeleteEducation | server/storage.ts:239-241 | Removes the entry with that key and keeps the others in order. |
| Storage.DatabaseStorage.GetSiteSettings | server/storage.ts:244-247 | Returns a settings row with the greatest `updatedAt`, or nothing for an empty table. |
| Storage.DatabaseStorage.UpsertSiteSettings | server/storage.ts:249-263 | Writes the settings as the upsert specifies; the returned row holds the payload stamped now. |
| Storage.DatabaseStorage.GetResumeAttachments | server/storage.ts:266-268 | Lists exactly the active attachments, newest upload first. |
| Storage.DatabaseStorage.GetResumeAttachment | server/storage.ts:270-273 | Finds an attachment by key whether or not it is active. |
| Storage.DatabaseStorage.CreateResumeAttachment | server/storage.ts:275-278 | Appends the attachment stamped now under a fresh key. |
| Storage.DatabaseStorage.UpdateResumeAttachment | server/storage.ts:280-287 | Patches the attachment with that key; returns nothing exactly when the key is absent. |
| Storage.DatabaseStorage.DeleteResumeAttachment | server/storage.ts:289-291 | Removes the attachment with that key and keeps the others in order. |
| Storage.PatchKeepsSlugsDistinct | server/storage.ts:161-169 | A project update keeps slugs unique unless it gives a slug another row holds. |
| Storage.PatchKeepsProjectIds | server/storage.ts:161-169 | A project update keeps every key where it was. |
| Storage.UpsertsKeepOneProfile | server/storage.ts:107-121 | From at most one row, any series of profile upserts leaves exactly one row, holding the last payload; proved by induction. |
| Storage.ProfileAfter | server/storage.ts:107-121 | The profile table after a series of upserts, one call after another; `Storage.UpsertsKeepOneProfile` shows it keeps one row holding the last payload. |
| Storage.UpsertAboutContentStep | server/storage.ts:181-195 | One about-text upsert on at most one row leaves exactly one row, holding the new content. |
| Storage.UpsertSiteSettingsStep | server/storage.ts:249-263 | One settings upsert on at most one row leaves exactly one row, holding the payload. |
| Storage.UpsertsKeepOneAboutContent | server/storage.ts:181-195 | Any series of about-text upserts keeps the table at one row, holding the last content. |
| Storage.AboutContentAfter | server/storage.ts:181-195 | The about table after a series of upserts; `Storage.UpsertsKeepOneAboutContent` shows it keeps one row. |
| Storage.UpsertsKeepOneSiteSettings | server/storage.ts:249-263 | Any series of settings upserts keeps the table at one row, holding the last payload. |
| Storage.SiteSettingsAfter | server/storage.ts:249-263 | The settings table after a series of upserts; `Storage.UpsertsKeepOneSiteSettings` shows it keeps one row. |
| Schema.InsertedAdminUser | server/storage.ts:96-99 | An inserted admin holds the given username and password hash and is stamped now. |
| Schema.ParseProfile | shared/schema.ts:133-136 | The profile validator reads back every payload the client encodes (`SchemaLaws.ProfileRoundTrip`) and ignores keys outside the columns, `id` and `updatedAt` included (`SchemaLaws.ProfileIgnoresOtherKeys`). |
| Schema.InsertedProfile | server/storage.ts:117-118 | The insert branch of the profile upsert stores the payload, with absent nullable keys as null, stamped now; `SchemaLaws.ProfileMergeHolds` shows the row holds the payload. |
| Schema.MergedProfile | server/storage.ts:110-116 | The update branch of the profile upsert writes the given keys over the stored row, keeps the others and restamps `updatedAt`; see `SchemaLaws.ProfileMergeHolds`. |
| Schema.ParseSkill | shared/schema.ts:138-140 | The skill validator reads back every payload (`SchemaLaws.SkillRoundTrip`), ignores other keys (`SchemaLaws.SkillIgnoresOtherKeys`) and leaves absent defaulted keys to the column defaults (`SchemaLaws.SkillDefaults`). |
| Schema.ParseSkillPatch | server/routes.ts:151 | `.partial()` of the skill schema reads back every patch (`SchemaLaws.SkillPatchRoundTrip`) and accepts every full body (`SchemaLaws.SkillPartialAcceptsFull`). |
| Schema.InsertedSkill | server/storage.ts:128-131 | An inserted skill takes display order 0 and active when those keys are absent (`SchemaLaws.SkillDefaults`). |
| Schema.PatchedSkill | server/storage.ts:133-140 | `.set(patch)` writes the given keys and keeps the others; the empty patch changes nothing and patching twice is patching once (`SchemaLaws.SkillPatchLaws`). |
| Schema.ParseProject | shared/schema.ts:142-146 | The project validator reads back every payload (`SchemaLaws.ProjectRoundTrip`), ignores other keys (`SchemaLaws.ProjectIgnoresOtherKeys`), requires `platforms` and lets `goals` be null (`SchemaLaws.ProjectListColumns`). |
| Schema.ParseProjectPatch | server/routes.ts:196 | `.partial()` of the project schema reads back every patch (`SchemaLaws.ProjectPatchRoundTrip`) and accepts every full body (`SchemaLaws.ProjectPartialAcceptsFull`). |
| Schema.InsertedProject | server/storage.ts:156-159 | An inserted project is published, at display order 0, when those keys are absent, with both timestamps now (`SchemaLaws.ProjectDefaults`). |
| Schema.PatchedProject | server/storage.ts:161-169 | A project patch writes the given keys and keeps the others (`SchemaLaws.ProjectPatchLaws`); `Storage.RestampedProject` adds the new `updatedAt`. |
| Schema.ParseAboutContent | shared/schema.ts:148-151 | The about validator reads back every payload (`SchemaLaws.AboutContentRoundTrip`) and ignores keys other than `content` (`SchemaLaws.AboutContentIgnoresOtherKeys`). |
| Schema.InsertedAboutContent | server/storage.ts:192 | The insert branch of the about upsert stores the content stamped now; `Storage.UpsertAboutContentStep` shows the table then holds it. |
| Schema.MergedAboutContent | server/storage.ts:185-189 | The update branch of the about upsert writes the content and restamps the row; `Storage.UpsertAboutContentStep` shows the one row then holds it. |
| Schema.ParseExperience | shared/schema.ts:153-156 | The experience validator reads back every payload (`SchemaLaws.ExperienceRoundTrip`), ignores other keys (`SchemaLaws.ExperienceIgnoresOtherKeys`) and leaves absent defaulted keys to the defaults (`SchemaLaws.ExperienceDefaults`). |
| Schema.ParseExperiencePatch | server/routes.ts:263 | `.partial()` of the experience schema reads back every patch (`SchemaLaws.ExperiencePatchRoundTrip`) and accepts every full body (`SchemaLaws.ExperiencePartialAcceptsFull`). |
| Schema.InsertedExperience | server/storage.ts:202-205 | An inserted entry is not current, at order 0 and active when those keys are absent (`SchemaLaws.ExperienceDefaults`). |
| Schema.PatchedExperience | server/storage.ts:207-214 | An experience patch writes the given keys and keeps the others (`SchemaLaws.ExperiencePatchLaws`). |
| Schema.ParseEducation | shared/schema.ts:158-161 | The education validator reads back every payload (`SchemaLaws.EducationRoundTrip`), ignores other keys (`SchemaLaws.EducationIgnoresOtherKeys`) and leaves absent defaulted keys to the defaults (`SchemaLaws.EducationDefaults`). |
| Schema.ParseEducationPatch | server/routes.ts:308 | `.partial()` of the education schema reads back every patch (`SchemaLaws.EducationPatchRoundTrip`) and accepts every full body (`SchemaLaws.EducationPartialAcceptsFull`). |
| Schema.InsertedEducation | server/storage.ts:225-228 | An inserted entry is not current, at order 0 and active when those keys are absent (`SchemaLaws.EducationDefaults`). |
| Schema.PatchedEducation | server/storage.ts:230-237 | An education patch writes the given keys and keeps the others (`SchemaLaws.EducationPatchLaws`). |
| Schema.ParseSiteSettings | shared/schema.ts:163-166 | The settings validator reads back every payload (`SchemaLaws.SiteSettingsRoundTrip`) and ignores other keys (`SchemaLaws.SiteSettingsIgnoresOtherKeys`). |
| Schema.InsertedSiteSettings | server/storage.ts:260 | The insert branch of the settings upsert stores the payload stamped now; `SchemaLaws.SiteSettingsMergeHolds` shows the row holds it. |
| Schema.MergedSiteSettings | server/storage.ts:253-257 | The update branch of the settings upsert writes the given keys over the row and restamps it (`SchemaLaws.SiteSettingsMergeHolds`). |
| Schema.ParseResumeAttachment | shared/schema.ts:168-171 | The attachment validator reads back every payload (`SchemaLaws.ResumeAttachmentRoundTrip`), ignores other keys (`SchemaLaws.ResumeAttachmentIgnoresOtherKeys`) and leaves absent defaulted keys to the defaults (`SchemaLaws.ResumeAttachmentDefaults`). |
| Schema.ParseResumeAttachmentPatch | server/routes.ts:389 | `.partial()` of the attachment schema reads back every patch (`SchemaLaws.ResumeAttachmentPatchRoundTrip`) and accepts every full body (`SchemaLaws.ResumeAttachmentPartialAcceptsFull`). |
| Schema.InsertedResumeAttachment | server/storage.ts:275-278 | An inserted attachment is active when that key is absent and stamped now (`SchemaLaws.ResumeAttachmentDefaults`). |
| Schema.PatchedResumeAttachment | server/storage.ts:280-287 | An attachment patch writes the given keys and keeps the others (`SchemaLaws.ResumeAttachmentPatchLaws`). |
| SchemaLaws.ProfileRoundTrip | shared/schema.ts:133-136 | A profile payload as the client serialises it is read back unchanged. |
| SchemaLaws.SkillRoundTrip | shared/schema.ts:138-140 | A skill payload is read back unchanged. |
| SchemaLaws.SkillPatchRoundTrip | shared/schema.ts:138-140 | A partial skill payload is read back unchanged. |
| SchemaLaws.ProjectRequiredRead | shared/schema.ts:49-58 | Each required project key is read back as the client wrote it. |
| SchemaLaws.ProjectNullableRead | shared/schema.ts:59-62 | Each nullable project key is read back as written, unless `performanceTargets` holds JSON null. |
| SchemaLaws.ProjectRoundTrip | shared/schema.ts:142-146 | A project payload is read back unchanged, unless `performanceTargets` holds JSON null, which JSON cannot tell from a null column. |
| SchemaLaws.ProjectPatchOptionalRead | shared/schema.ts:142-146 | Each key of a partial project payload is read back as written. |
| SchemaLaws.ProjectPatchNullableRead | shared/schema.ts:142-146 | Each nullable key of a partial project payload is read back as written. |
| SchemaLaws.ProjectPatchRoundTrip | shared/schema.ts:142-146 | A partial project payload is read back unchanged, with the same exception. |
| SchemaLaws.AboutContentRoundTrip | shared/schema.ts:148-151 | An about payload is read back unchanged. |
| SchemaLaws.ExperienceRoundTrip | shared/schema.ts:153-156 | An experience payload is read back unchanged. |
| SchemaLaws.ExperiencePatchRoundTrip | shared/schema.ts:153-156 | A partial experience payload is read back unchanged. |
| SchemaLaws.EducationRoundTrip | shared/schema.ts:158-161 | An education payload is read back unchanged. |
| SchemaLaws.EducationPatchRoundTrip | shared/schema.ts:158-161 | A partial education payload is read back unchanged. |
| SchemaLaws.SiteSettingsRoundTrip | shared/schema.ts:163-166 | A settings payload is read back unchanged. |
| SchemaLaws.ResumeAttachmentRoundTrip | shared/schema.ts:168-171 | An attachment payload is read back unchanged. |
| SchemaLaws.ResumeAttachmentPatchRoundTrip | shared/schema.ts:168-171 | A partial attachment payload is read back unchanged. |
| SchemaLaws.SkillPartialAcceptsFull | shared/schema.ts:138-140 | A body the skill insert schema accepts is a valid partial update that sets every key. |
| SchemaLaws.ProjectPartialAcceptsFull | shared/schema.ts:142-146 | A body the project insert schema accepts is a valid partial update that sets every key. |
| SchemaLaws.ExperiencePartialAcceptsFull | shared/schema.ts:153-156 | The same for experience entries. |
| SchemaLaws.EducationPartialAcceptsFull | shared/schema.ts:158-161 | The same for education entries. |
| SchemaLaws.ResumeAttachmentPartialAcceptsFull | shared/schema.ts:168-171 | The same for resume attachments. |
| SchemaLaws.ProfileIgnoresOtherKeys | shared/schema.ts:133-136 | Keys outside the profile columns, the server-assigned `id` and `updatedAt` included, do not change what the validator returns. |
| SchemaLaws.SkillIgnoresOtherKeys | shared/schema.ts:138-140 | Keys outside the skill columns do not change what either skill validator returns. |
| SchemaLaws.ProjectIgnoresOtherKeys | shared/schema.ts:142-146 | Keys outside the project columns, `id`, `createdAt` and `updatedAt` included, are ignored. |
| SchemaLaws.AboutContentIgnoresOtherKeys | shared/schema.ts:148-151 | Keys other than `content` are ignored. |
| SchemaLaws.ExperienceIgnoresOtherKeys | shared/schema.ts:153-156 | Keys outside the experience columns are ignored. |
| SchemaLaws.EducationIgnoresOtherKeys | shared/schema.ts:158-161 | Keys outside the education columns are ignored. |
| SchemaLaws.SiteSettingsIgnoresOtherKeys | shared/schema.ts:163-166 | Keys outside the settings columns are ignored. |
| SchemaLaws.ResumeAttachmentIgnoresOtherKeys | shared/schema.ts:168-171 | Keys outside the attachment columns are ignored. |
| SchemaLaws.SkillDefaults | shared/schema.ts:38-46 | A skill sent with only its required keys is stored with display order 0 and active. |
| SchemaLaws.ProjectDefaults | shared/schema.ts:49-65 | A project without its defaulted keys is stored published, at display order 0, with both timestamps now. |
| SchemaLaws.ExperienceDefaults | shared/schema.ts:75-87 | An experience entry sent with only its required keys is stored not current, at order 0, active. |
| SchemaLaws.EducationDefaults | shared/schema.ts:90-101 | An education entry sent with only its required keys is stored not current, at order 0, active. |
| SchemaLaws.ResumeAttachmentDefaults | shared/schema.ts:116-125 | An attachment sent with only file name and URL is stored active and stamped now. |
| SchemaLaws.ProjectListColumns | shared/schema.ts:55-57 | A project without `platforms` is refused, and a null `goals` is stored as null. |
| SchemaLaws.SkillPatchLaws | server/storage.ts:133-140 | An empty skill patch changes nothing, and applying a patch twice is applying it once. |
| SchemaLaws.ProjectPatchLaws | server/storage.ts:161-169 | The same laws for project patches. |
| SchemaLaws.ExperiencePatchLaws | server/storage.ts:207-214 | The same laws for experience patches. |
| SchemaLaws.EducationPatchLaws | server/storage.ts:230-237 | The same laws for education patches. |
| SchemaLaws.ResumeAttachmentPatchLaws | server/storage.ts:280-287 | The same laws for attachment patches. |
| SchemaLaws.ProfileMergeHolds | server/storage.ts:107-121 | Both branches of the profile upsert leave a row holding every payload field. |
| SchemaLaws.SiteSettingsMergeHolds | server/storage.ts:249-263 | Both branches of the settings upsert leave a row holding every payload field. |
| Auth.Hash | server/routes.ts:90 | A stored hash is never the plaintext password. |
| Auth.HashInjective | server/routes.ts:90 | Two different passwords never share a hash. |
| Auth.CompareExactly | server/routes.ts:53-56 | A stored hash accepts exactly the password it was made from. |
| Routes.Server.constructor | server/routes.ts:18-22 | The server starts with an empty session store over a valid database. |
| Routes.Truthy | server/routes.ts:45 | A login field passes the `!username || !password` test exactly when it is a non-empty string; `Routes.Server.Login` answers 400 otherwise. |
| Routes.Server.GatedSessions | server/routes.ts:29-32 | The session store after the gate: only a session naming a missing admin changes, and it loses its admin id. |
| Routes.Server.Denial | server/routes.ts:24-37 | The gate passes exactly when the session names an existing admin. Without an admin id it answers "Admin authentication required", and for an unknown one "Invalid admin session". |
| Routes.Server.RequireAdmin | server/routes.ts:24-37 | Returns the named admin when the gate passes; a session naming a missing admin loses its admin id. |
| Routes.Server.Login | server/routes.ts:41-65 | A missing or empty username or password gives 400. An unknown user and a wrong password give the same 401. Only a correct password sets the session's admin id. |
| Routes.Server.Logout | server/routes.ts:67-74 | A store error gives 500 and keeps the session; otherwise the session is gone and the gate then refuses the token. |
| Routes.Server.Me | server/routes.ts:76-78 | Behind the gate, answers with the id and username of the session's admin and never the hash. |
| Routes.Server.Setup | server/routes.ts:81-102 | Needs no session. A taken username gives 400. A missing password or username gives 500 and writes nothing. Otherwise it stores the hash of the password under a fresh key. |
| Routes.Server.AdminGetProfile | server/routes.ts:105-113 | Behind the gate, answers with the stored profile. |
| Routes.Server.AdminSaveProfile | server/routes.ts:115-124 | An invalid body gives 400 "Invalid profile data" and writes nothing; a valid one is upserted. |
| Routes.Server.AdminListSkills | server/routes.ts:127-135 | Behind the gate, answers with the public skill list. |
| Routes.Server.AdminCreateSkill | server/routes.ts:137-146 | An invalid body gives 400 and writes nothing; a valid one is inserted. |
| Routes.Server.AdminUpdateSkill | server/routes.ts:148-158 | The partial validator guards the update. An absent key answers 200 with no row. |
| Routes.Server.AdminDeleteSkill | server/routes.ts:160-169 | Deletes the key, present or not, and answers "Skill deleted". |
| Routes.Server.AdminListProjects | server/routes.ts:172-180 | Behind the gate, answers with the published projects only. |
| Routes.Server.AdminCreateProject | server/routes.ts:182-191 | An invalid body or a taken slug gives 400 "Invalid project data" and writes nothing. |
| Routes.Server.AdminUpdateProject | server/routes.ts:193-203 | An invalid body or a slug held by another project gives 400 and writes nothing; otherwise the row is patched. |
| Routes.Server.AdminDeleteProject | server/routes.ts:205-214 | Deletes the key and answers "Project deleted". |
| Routes.Server.AdminGetAboutContent | server/routes.ts:217-225 | Behind the gate, answers with the latest about text. |
| Routes.Server.AdminSaveAboutContent | server/routes.ts:227-236 | An invalid body gives 400 "Invalid about content"; a valid one is upserted. |
| Routes.Server.AdminListExperiences | server/routes.ts:239-247 | Behind the gate, answers with the active entries. |
| Routes.Server.AdminCreateExperience | server/routes.ts:249-258 | An invalid body gives 400 and writes nothing; a valid one is inserted. |
| Routes.Server.AdminUpdateExperience | server/routes.ts:260-270 | The partial validator guards the update; an absent key answers 200 with no row. |
| Routes.Server.AdminDeleteExperience | server/routes.ts:272-281 | Deletes the key and answers "Experience deleted". |
| Routes.Server.AdminListEducation | server/routes.ts:284-292 | Behind the gate, answers with the active entries. |
| Routes.Server.AdminCreateEducation | server/routes.ts:294-303 | An invalid body gives 400 and writes nothing; a valid one is inserted. |
| Routes.Server.AdminUpdateEducation | server/routes.ts:305-315 | The partial validator guards the update; an absent key answers 200 with no row. |
| Routes.Server.AdminDeleteEducation | server/routes.ts:317-326 | Deletes the key and answers "Education deleted". |
| Routes.Server.AdminGetSiteSettings | server/routes.ts:329-337 | Behind the gate, answers with the latest settings. |
| Routes.Server.AdminSaveSiteSettings | server/routes.ts:339-348 | An invalid body gives 400 "Invalid settings data"; a valid one is upserted. |
| Routes.Server.AdminListResumeAttachments | server/routes.ts:351-359 | Behind the gate, answers with the active attachments, newest first. |
| Routes.Server.AdminGetResumeAttachment | server/routes.ts:361-373 | Answers with the attachment, active or not, or 404 "Resume attachment not found". |
| Routes.Server.AdminCreateResumeAttachment | server/routes.ts:375-384 | An invalid body gives 400 and writes nothing; a valid one is inserted. |
| Routes.Server.AdminUpdateResumeAttachment | server/routes.ts:386-396 | The partial validator guards the update; an absent key answers 200 with no row. |
| Routes.Server.AdminDeleteResumeAttachment | server/routes.ts:398-407 | Deletes the key and answers "Resume attachment deleted". |
| Routes.Server.PublicProfile | server/routes.ts:410-418 | Needs no session and changes nothing: answers with the stored profile. |
| Routes.Server.PublicSkills | server/routes.ts:420-428 | Answers with the active skills in display order. |
| Routes.Server.PublicProjects | server/routes.ts:430-438 | Answers with the published projects in display order. |
| Routes.Server.PublicAboutContent | server/routes.ts:440-448 | Answers with the latest about text. |
| Routes.Server.PublicExperiences | server/routes.ts:450-458 | Answers with the active experience entries. |
| Routes.Server.PublicEducation | server/routes.ts:460-468 | Answers with the active education entries. |
| Routes.Server.PublicSiteSettings | server/routes.ts:470-478 | Answers with the latest settings. |
| Routes.Server.PublicResumeAttachments | server/routes.ts:480-488 | Answers with the active attachments, newest first. |
| SetupAdmin.UsersNamed | server/setup-admin.ts:7-8 | Counts the admins with a username; the count is zero exactly when the name is free. |
| SetupAdmin.DistinctAtMostOne | server/setup-admin.ts:7-11 | With unique usernames, at most one admin has a given name; proved by induction. |
| SetupAdmin.CreateDefaultAdmin | server/setup-admin.ts:4-28 | Creates "admin" with the hash of "admin123" exactly when that username is free, and otherwise changes nothing; afterwards exactly one admin is called "admin". |
| SetupAdmin.DefaultAdminLogsIn | server/setup-admin.ts:14-19 | The seeded account accepts "admin123" and no other password. |
| FormText.Trim | client/src/components/admin/project-form.tsx:154 | `trim` leaves no white space at either end. |
| FormText.TrimStart | client/src/components/admin/project-form.tsx:154 | Drops the leading white space and nothing else: the result is a suffix whose first character is not white space. |
| FormText.TrimEnd | client/src/components/admin/project-form.tsx:154 | Drops the trailing white space and nothing else: the result is a prefix whose last character is not white space. |
| FormText.TrimSlice | client/src/components/admin/project-form.tsx:154 | `trim` removes white space from the two ends and nothing else. |
| FormText.TrimIdempotent | client/src/components/admin/project-form.tsx:154 | Trimming twice is trimming once. |
| FormText.TrimBlank | client/src/components/admin/experience-form.tsx:134 | An input is blank after trimming exactly when it is all white space. |
| FormText.AddDistinct | client/src/components/admin/project-form.tsx:153-161 | Adding to the platform or goal list appends the trimmed input only when it is non-blank and new. The existing entries stay in place and a list without repeats stays without repeats. |
| FormText.RemoveAll | client/src/components/admin/project-form.tsx:163-168 | Removing a platform or goal drops exactly the entries equal to it. |
| FormText.RemoveAllConcat | client/src/components/admin/project-form.tsx:163-168 | Removal works piece by piece, so the order of what remains is kept; proved by induction. |
| FormText.RemoveAllAbsent | client/src/components/admin/project-form.tsx:163-168 | Removing an absent value changes nothing. |
| FormText.AddThenRemove | client/src/components/admin/project-form.tsx:153-168 | Removing the entry just added restores the list. |
| FormText.AddTrimmed | client/src/components/admin/experience-form.tsx:133-141 | Adding an achievement appends the trimmed input when it is non-blank, repeats allowed. |
| FormText.RemoveAt | client/src/components/admin/experience-form.tsx:143-148 | Removing an achievement drops exactly the entry at that index, and nothing for an index out of range. |
| FormText.AddThenRemoveAt | client/src/components/admin/experience-form.tsx:133-148 | Removing the achievement just added restores the list. |
| FormText.EmptyToNull | client/src/components/admin/experience-form.tsx:208 | An emptied text field stores null; any other text is stored as typed. |
| FormText.TypedTextShown | client/src/components/admin/experience-form.tsx:207-208 | The field shows back exactly what was typed. |
| FormText.ShownTextStored | client/src/components/admin/experience-form.tsx:230-231 | A stored value survives being shown and typed back, except "", which comes back as null. |
| FormText.EndDateLabel | client/src/components/admin/experience-form.tsx:322 | A null or empty end date reads "Present". |
| FormText.OrEmptyObject | client/src/components/admin/project-form.tsx:136 | A falsy `performanceTargets` becomes `{}`, so the draft never holds a falsy value. |
| FormText.OrZero | client/src/components/admin/project-form.tsx:138 | `displayOrder || 0`: a null order loads as 0; `ProjectForm.EditCreatedRestoresDraft` shows a created project loads back unchanged. |
| FormText.OrElse | client/src/components/admin/project-form.tsx:137 | `?? true` and `?? false`: a null flag loads as the form default, a set flag as itself. |
| FormText.OrEmpty | client/src/components/admin/project-form.tsx:134-135 | `|| []`: a null list loads as the empty list, any other list as itself. |
| FormText.DigitPrefix | client/src/components/admin/experience-form.tsx:277 | `parseInt` reads the longest run of leading digits. |
| FormText.Digits | client/src/components/admin/experience-form.tsx:276 | The decimal digits of a number have that number as their value. |
| FormText.ParseDecimalString | client/src/components/admin/experience-form.tsx:276-277 | Reading back the text a number input shows gives the same integer. |
| FormText.ParseNonNumeric | client/src/components/admin/experience-form.tsx:277 | Text without digits after the spaces and the sign gives 0. |
| FormText.ParseIntOrZero | client/src/components/admin/experience-form.tsx:277 | `parseInt(text) || 0`: a negative result needs a leading minus after the white space, and a non-zero one needs a digit in the text. `FormText.ParseDecimalString` and `FormText.ParseNonNumeric` are its partners. |
| FormText.DigitsValue | client/src/components/admin/experience-form.tsx:277 | The decimal value of a run of digits; `FormText.Digits` is its inverse. |
| FormText.DecimalString | client/src/components/admin/experience-form.tsx:275 | The text a number input shows for an integer; `FormText.ParseDecimalString` reads it back. |
| FormText.Submit | client/src/components/admin/project-form.tsx:144-151 | Submitting updates the row being edited, and creates a row otherwise. |
| ProjectForm.Dashes | client/src/components/admin/project-form.tsx:207 | Replacing runs outside `[a-z0-9]` gives only letters, digits and single dashes, with a leading dash exactly when the input starts outside the class. |
| ProjectForm.TrimDashes | client/src/components/admin/project-form.tsx:207 | Stripping the edge dashes leaves none at either end. |
| ProjectForm.Slugify | client/src/components/admin/project-form.tsx:204-208 | The slug derived from any name is well formed: lower-case letters and digits joined by single dashes, with no dash at either end. |
| ProjectForm.DashesKeeps | client/src/components/admin/project-form.tsx:207 | Text already made of slug characters and single dashes passes the replacement unchanged; proved by induction. |
| ProjectForm.SlugifyKeepsWellFormed | client/src/components/admin/project-form.tsx:204-208 | A well-formed slug typed as a name comes back unchanged. |
| ProjectForm.SlugifyIdempotent | client/src/components/admin/project-form.tsx:204-208 | Deriving a slug twice is deriving it once. |
| ProjectForm.AlnumDashes | client/src/components/admin/project-form.tsx:207 | The replacement keeps every letter and digit in order; proved by induction. |
| ProjectForm.SlugifyKeepsAlnum | client/src/components/admin/project-form.tsx:204-208 | The slug holds exactly the letters and digits of the lower-cased name, in order. |
| ProjectForm.EmptyDraft | client/src/components/admin/project-form.tsx:19-32 | The empty draft has status "available", is published, has display order 0, empty lists and `{}` targets. |
| ProjectForm.EditDraft | client/src/components/admin/project-form.tsx:125-142 | Loading a project replaces null lists with [], a falsy target with `{}`, a null publish flag with true and a null order with 0. |
| ProjectForm.DraftPayload | client/src/components/admin/project-form.tsx:144-151 | The body the form sends, with every key given; `ProjectForm.DraftAccepted` shows both project validators read it back as the draft. |
| ProjectForm.DraftAccepted | client/src/components/admin/project-form.tsx:144-151 | The create route's validator reads back what the form sends, and so does the update route's partial validator. |
| ProjectForm.EditCreatedRestoresDraft | client/src/components/admin/project-form.tsx:125-151 | A project created from a draft loads back into the same draft. |
| ProjectForm.EditThenSaveKeeps | client/src/components/admin/project-form.tsx:125-151 | Opening a project and saving it unchanged keeps every text and list column and both timestamps; each nullable column comes back as the value the form showed (`[]`, `{}` for a falsy target, `true`, `0` for a null), so a non-null list, flag or order is kept. |
| ProjectForm.ProjectEditor.constructor | client/src/components/admin/project-form.tsx:19-37 | The form starts closed, editing nothing, on the empty draft. |
| ProjectForm.ProjectEditor.SetName | client/src/components/admin/project-form.tsx:204-208 | Typing a name also sets the slug to the one derived from it, which is well formed. |
| ProjectForm.ProjectEditor.SetSlug | client/src/components/admin/project-form.tsx:219 | Typing a slug sets only the slug. |
| ProjectForm.ProjectEditor.AddPlatform | client/src/components/admin/project-form.tsx:153-161 | Adds to the platform list as `AddDistinct` specifies, and clears the input only when something was added. |
| ProjectForm.ProjectEditor.RemovePlatform | client/src/components/admin/project-form.tsx:163-168 | Removes the platform as `RemoveAll` specifies. |
| ProjectForm.ProjectEditor.AddGoal | client/src/components/admin/project-form.tsx:170-178 | Adds to the goal list as `AddDistinct` specifies, and clears the input only when something was added. |
| ProjectForm.ProjectEditor.RemoveGoal | client/src/components/admin/project-form.tsx:180-185 | Removes the goal as `RemoveAll` specifies. |
| ProjectForm.ProjectEditor.ResetForm | client/src/components/admin/project-form.tsx:104-123 | Restores the empty draft, closes the form and clears both inputs. |
| ProjectForm.ProjectEditor.HandleEdit | client/src/components/admin/project-form.tsx:125-142 | Loads the project, records its key and opens the form; the typed inputs stay. |
| ProjectForm.ProjectEditor.HandleSubmit | client/src/components/admin/project-form.tsx:144-151 | Updates the project being edited, or creates one, with a body the route reads back as the draft. |
| ExperienceForm.EmptyDraft | client/src/components/admin/experience-form.tsx:19-29 | The empty draft has no end date, is not current, has no achievements, order 0, and is active. |
| ExperienceForm.EditDraft | client/src/components/admin/experience-form.tsx:117-131 | Loading an entry keeps its end date and description. Null flags become false and true, null achievements become [], and a null order becomes 0. |
| ExperienceForm.DraftPayload | client/src/components/admin/experience-form.tsx:150-157 | The body the form sends, with every key given; `ExperienceForm.DraftAccepted` shows both validators read it back as the draft. |
| ExperienceForm.DraftAccepted | client/src/components/admin/experience-form.tsx:150-157 | Both experience validators read back what the form sends. |
| ExperienceForm.EditCreatedRestoresDraft | client/src/components/admin/experience-form.tsx:117-157 | An entry created from a draft loads back into the same draft. |
| ExperienceForm.ExperienceEditor.constructor | client/src/components/admin/experience-form.tsx:19-33 | The form starts closed, editing nothing, on the empty draft. |
| ExperienceForm.ExperienceEditor.SetEndDate | client/src/components/admin/experience-form.tsx:205-210 | The end date field, usable only while the switch is off, stores null when emptied and shows back what was typed. |
| ExperienceForm.ExperienceEditor.SetCurrent | client/src/components/admin/experience-form.tsx:220 | Turning the switch on clears the end date, so the entry reads "Present". Turning it off keeps whatever end date there is. |
| ExperienceForm.ExperienceEditor.SetDescription | client/src/components/admin/experience-form.tsx:230-231 | Clearing the description stores null. |
| ExperienceForm.ExperienceEditor.SetDisplayOrder | client/src/components/admin/experience-form.tsx:276-277 | The display order is the typed text read by `parseInt`, or 0. |
| ExperienceForm.ExperienceEditor.AddAchievement | client/src/components/admin/experience-form.tsx:133-141 | Adds as `AddTrimmed` specifies and clears the input only when something was added. |
| ExperienceForm.ExperienceEditor.RemoveAchievement | client/src/components/admin/experience-form.tsx:143-148 | Drops the achievement at that index only. |
| ExperienceForm.ExperienceEditor.ResetForm | client/src/components/admin/experience-form.tsx:100-115 | Restores the empty draft, closes the form and clears the input. |
| ExperienceForm.ExperienceEditor.HandleEdit | client/src/components/admin/experience-form.tsx:117-131 | Loads the entry, records its key and opens the form. |
| ExperienceForm.ExperienceEditor.HandleSubmit | client/src/components/admin/experience-form.tsx:150-157 | Updates the entry being edited, or creates one, with a body both validators read back as the draft. |
| EducationForm.EmptyDraft | client/src/components/admin/education-form.tsx:19-28 | The empty draft has no end date, is not current, has order 0, and is active. |
| EducationForm.EditDraft | client/src/components/admin/education-form.tsx:113-126 | Loading an entry keeps its end date and description; null flags and order take the form's defaults. |
| EducationForm.DraftPayload | client/src/components/admin/education-form.tsx:128-135 | The body the form sends, with every key given; `EducationForm.DraftAccepted` shows both validators read it back as the draft. |
| EducationForm.DraftAccepted | client/src/components/admin/education-form.tsx:128-135 | Both education validators read back what the form sends. |
| EducationForm.EditCreatedRestoresDraft | client/src/components/admin/education-form.tsx:113-135 | An entry created from a draft loads back into the same draft. |
| EducationForm.EducationEditor.constructor | client/src/components/admin/education-form.tsx:19-31 | The form starts closed, editing nothing, on the empty draft. |
| EducationForm.EducationEditor.SetEndDate | client/src/components/admin/education-form.tsx:184-189 | The end date field, usable only while the switch is off, stores null when emptied. |
| EducationForm.EducationEditor.SetCurrent | client/src/components/admin/education-form.tsx:198 | Turning the switch on clears the end date; turning it off keeps it. |
| EducationForm.EducationEditor.SetDescription | client/src/components/admin/education-form.tsx:209 | Clearing the description stores null. |
| EducationForm.EducationEditor.SetDisplayOrder | client/src/components/admin/education-form.tsx:221 | The display order is the typed text read by `parseInt`, or 0. |
| EducationForm.EducationEditor.ResetForm | client/src/components/admin/education-form.tsx:98-111 | Restores the empty draft and closes the form. |
| EducationForm.EducationEditor.HandleEdit | client/src/components/admin/education-form.tsx:113-126 | Loads the entry, records its key and opens the form. |
| EducationForm.EducationEditor.HandleSubmit | client/src/components/admin/education-form.tsx:128-135 | Updates the entry being edited, or creates one, with a body both validators read back as the draft. |
| Json.AsInt | shared/schema.ts:44 | An integer column accepts exactly JSON numbers and reads back the number; the 32-bit width is admitted under Left out. |
| Json.AsBool | shared/schema.ts:45 | A boolean column accepts exactly JSON booleans and reads back the flag. |
| Json.AsAny | shared/schema.ts:60 | A `json` column typed `any` accepts every JSON value, null included, and stores it as sent. |
| Json.StringsJson | client/src/components/admin/project-form.tsx:144-151 | The client sends a list of strings as an array of the same length; `Json.StringsRoundTrip` reads it back unchanged. |
| Json.Required | shared/schema.ts:17-18 | A required key must be present and have the column's type. |
| Json.ReadRequired | shared/schema.ts:128-171 | A required key the client wrote is read back as written. |
| Json.ReadOptional | shared/schema.ts:142-146 | A key of a partial payload is read back as written, or as absent when it was not sent. |
| ProjectForm.Lower | client/src/components/admin/project-form.tsx:207 | `toLowerCase` maps the ASCII capitals to small letters and keeps every other character. |
| ProjectForm.ProjectEditor.SetPlatformInput | client/src/components/admin/project-form.tsx:283 | Typing in the platform input changes only that input. |
| ProjectForm.ProjectEditor.SetGoalInput | client/src/components/admin/project-form.tsx:307 | Typing in the goal input changes only that input. |
| ExperienceForm.ExperienceEditor.SetAchievementInput | client/src/components/admin/experience-form.tsx:242 | Typing in the achievement input changes only that input. |

## Left out

- Database errors other than a unique violation are not modelled: connection failures, and the error drizzle raises for an update whose patch sets no column. Inside a route's `try` such an error becomes the same 400 or 500 answer as the modelled failures. The admin gate is the exception: `requireAdmin` (server/routes.ts:24-37) awaits `getAdminUser` outside any `try`, so a database error there is an unhandled promise rejection and no response is sent. The same holds for `/api/admin/me` (server/routes.ts:76-78), which is only the gate. `Routes.Server.RequireAdmin` and `Routes.Server.Me` have no such failure path.
- Login and setup inputs that are not strings (numbers, objects) are not modelled. The handlers take an optional string, and login checks it for truthiness.
- Auth.Hash: bcrypt is a foreign library. The stand-in is injective, and a hash differs from its password. The salt, the one-wayness and bcrypt's 72-byte truncation are not modelled, so `Auth.CompareExactly` is stronger than bcrypt for passwords longer than 72 bytes.
- The express-session store, cookies and `session.save` are not modelled. The store is a map from token to session. A store failure on logout is a parameter of `Routes.Server.Logout`.
- The HTTP server, JSON response encoding and console logging are not modelled. The `catch` blocks of the setup script only log, and the model of it has no failing step: its one insert cannot meet a unique violation after the lookup.
- SetupAdmin.CreateDefaultAdmin: the script also passes an `email` key, which the insert schema does not know and drizzle drops. The model leaves it out.
- Concurrency is not modelled: two simultaneous upserts of a singleton can both insert. The model runs calls one after another.
- Postgres keeps no row order for ties. `Tables.SortBy` is a stable sort, so rows with equal keys keep their insertion order in the model; the database promises no order for them.
- Storage.DatabaseStorage.GetProfile: `limit(1)` with no ordering returns an unspecified row when the profile table holds several; the model, `Tables.First` and `Storage.UpsertedProfile` take the first. `Storage.UpsertsKeepOneProfile` shows the table never holds two rows while calls run one after another, so the gap arises only through the concurrency admitted above.
- Tables.Find: when several rows match, the database promises no particular one and the model returns the first in table order. Every lookup in the model is on a unique column (`id`, `username`, `slug`), where at most one row matches.
- `Storage.DatabaseStorage.GetAboutContent` and `Storage.DatabaseStorage.GetSiteSettings` return some row with the greatest `updatedAt` when several share it. The database makes the same promise and no more.
- The React views, React Query caching, toasts and `apiRequest` are left out: only the form state and its handlers are modelled.
- The skill, profile, about, settings and résumé forms are left out. They hold only the same edit, reset and submit plumbing, and the résumé form's `formatFileSize` uses floating point.
- Plain text inputs that copy `e.target.value` into one field are left out: the project's problem, organization, timeframe and status, the experience job title and company, and the education degree and institution. Their handlers are the same record update as `ProjectForm.ProjectEditor.SetSlug`.
- ProjectForm.Lower: `toLowerCase` is modelled for ASCII capitals only. Other characters pass unchanged, whereas JavaScript would lower-case them.
- FormText.ParseIntOrZero: models `parseInt(text) || 0` for decimal text. It does not model the `0x` prefix, which `parseInt` with no radix reads as hex; a number input does not yield such text. It also does not model the loss of precision above 2^53.
- JSON numbers are integers in the model. Fractional numbers in a body are not modelled, and neither is zod's check that an integer column receives a whole number.
- SchemaLaws.ProjectRoundTrip: a project whose `performanceTargets` holds JSON `null` is excluded. On the wire it cannot be told apart from a null column.
- Json.AsStrings: the list columns `platforms`, `goals`, `testStrategy` and `achievements` are `json` columns whose `$type<string[]>()` exists only for the compiler, so the source validator accepts and stores any JSON value there. The model reads them as arrays of strings and refuses anything else with 400, because the forms that edit these columns work on string lists.
- Json.AsInt: the integer columns (`experienceYears`, `percentage`, `displayOrder`, `fileSize`) are 32-bit in Postgres, and a value outside that range makes the insert or update fail, which the routes answer with 400. The model reads any integer and stores it.
