/** The HTTP API of the content store: the admin session gate, the login,
    logout, me and setup routes, the admin routes that validate a body before
    they touch storage, and the public read routes. Requests and responses
    are values; a session is found by the token its cookie carries. */
module Routes {
  import opened Wrappers
  import opened Json
  import opened Tables
  import opened Schema
  import opened Storage
  import opened Auth

  /** The session cookie: which entry of the session store a request uses. */
  type Token = nat

  /** The session data the routes use. */
  datatype Session = Session(adminId: Option<Id>)

  /** What a response tells about an admin: the key and the username, never
      the stored hash. */
  datatype AdminView = AdminView(id: Id, username: string)

  /** `{ message, admin }`, the body of a successful login or setup. */
  datatype Welcome = Welcome(message: string, admin: AdminView)

  /** The status of a response and its JSON body; every failure carries
      `{ message }`. */
  datatype Response<T> =
    | Ok(body: T)
    | BadRequest(message: string)
    | Unauthorized(message: string)
    | NotFound(message: string)
    | ServerError(message: string)

  function View(u: Row<AdminUser>): AdminView {
    AdminView(u.id, u.data.username)
  }

  /** The JavaScript truthiness of a body field that should be a string:
      absent, null and "" are falsy. */
  predicate Truthy(s: Option<string>) {
    s.Some? && s.value != ""
  }

  class Server {
    const storage: DatabaseStorage
    /** The session store. A token without an entry stands for a fresh,
        empty session. */
    var sessions: map<Token, Session>

    ghost predicate Valid()
      reads storage
    {
      storage.Valid()
    }

    constructor(storage: DatabaseStorage)
      requires storage.Valid()
      ensures this.storage == storage && sessions == map[]
      ensures Valid()
    {
      this.storage := storage;
      sessions := map[];
    }

    function AdminIdOf(token: Token): Option<Id>
      reads this`sessions
    {
      if token in sessions then sessions[token].adminId else None
    }

    /** The 401 message `requireAdmin` answers with, or nothing when the
        session names an admin that exists. */
    function Denial(token: Token): (r: Option<string>)
      reads this`sessions, storage
      ensures r.None? <==> AdminIdOf(token).Some? && HasId(storage.adminUsers, AdminIdOf(token).value)
      ensures AdminIdOf(token).None? ==> r == Some("Admin authentication required")
      ensures AdminIdOf(token).Some? && !HasId(storage.adminUsers, AdminIdOf(token).value) ==>
                r == Some("Invalid admin session")
    {
      match AdminIdOf(token)
      case None => Some("Admin authentication required")
      case Some(id) =>
        if storage.GetAdminUser(id).None? then Some("Invalid admin session") else None
    }

    /** The session store after `requireAdmin`: a session naming a missing
        admin loses its `adminId`. */
    function GatedSessions(token: Token): map<Token, Session>
      reads this`sessions, storage
    {
      if AdminIdOf(token).Some? && !HasId(storage.adminUsers, AdminIdOf(token).value)
      then sessions[token := Session(None)]
      else sessions
    }

    /** `requireAdmin`: the admin the session names, or nothing when the
        handler must not run. */
    method RequireAdmin(token: Token) returns (admin: Option<Row<AdminUser>>)
      modifies this`sessions
      ensures admin.None? <==> old(Denial(token)).Some?
      ensures admin.Some? ==> admin.value in storage.adminUsers && AdminIdOf(token) == Some(admin.value.id)
      ensures sessions == old(GatedSessions(token))
    {
      var id := AdminIdOf(token);
      if id.None? {
        return None;
      }
      admin := storage.GetAdminUser(id.value);
      if admin.None? {
        sessions := sessions[token := Session(None)];
      }
    }

    /** `POST /api/admin/login`. An unknown username and a wrong password get
        the same answer; only a success touches the session. */
    method Login(token: Token, username: Option<string>, password: Option<string>) returns (resp: Response<Welcome>)
      modifies this`sessions
      ensures !Truthy(username) || !Truthy(password) ==>
                resp == BadRequest("Username and password required") && sessions == old(sessions)
      ensures Truthy(username) && Truthy(password) ==>
                var user := storage.GetAdminUserByUsername(username.value);
                if user.Some? && Compare(password.value, user.value.data.password)
                then && resp == Ok(Welcome("Login successful", View(user.value)))
                     && sessions == old(sessions)[token := Session(Some(user.value.id))]
                else resp == Unauthorized("Invalid credentials") && sessions == old(sessions)
    {
      if !Truthy(username) || !Truthy(password) {
        return BadRequest("Username and password required");
      }
      var user := storage.GetAdminUserByUsername(username.value);
      if user.None? {
        return Unauthorized("Invalid credentials");
      }
      if !Compare(password.value, user.value.data.password) {
        return Unauthorized("Invalid credentials");
      }
      sessions := sessions[token := Session(Some(user.value.id))];
      resp := Ok(Welcome("Login successful", View(user.value)));
    }

    /** `POST /api/admin/logout`: destroys the session, after which the gate
        refuses the token. `storeFails` stands for the session store reporting
        an error. */
    method Logout(token: Token, storeFails: bool) returns (resp: Response<string>)
      modifies this`sessions
      ensures storeFails ==> resp == ServerError("Could not log out") && sessions == old(sessions)
      ensures !storeFails ==> resp == Ok("Logout successful") && sessions == old(sessions) - {token}
      ensures !storeFails ==> Denial(token) == Some("Admin authentication required")
    {
      if storeFails {
        return ServerError("Could not log out");
      }
      sessions := sessions - {token};
      resp := Ok("Logout successful");
    }

    /** `GET /api/admin/me`: the admin the session names. */
    method Me(token: Token) returns (resp: Response<AdminView>)
      modifies this`sessions
      ensures sessions == old(GatedSessions(token))
      ensures old(Denial(token)).Some? ==> resp == Unauthorized(old(Denial(token)).value)
      ensures old(Denial(token)).None? ==>
                exists u :: u in storage.adminUsers && AdminIdOf(token) == Some(u.id) && resp == Ok(View(u))
    {
      var denial := Denial(token);
      var admin := RequireAdmin(token);
      if admin.None? {
        return Unauthorized(denial.value);
      }
      resp := Ok(View(admin.value));
    }

    /** `POST /api/admin/setup`: no session needed, and the body is not
        validated. A taken username is refused; a missing password makes the
        hashing throw and a missing username makes the insert throw, both
        answered with 500. Otherwise the hash of the password is stored. */
    method Setup(username: Option<string>, password: Option<string>, now: int) returns (resp: Response<Welcome>)
      requires Valid()
      modifies storage`adminUsers, storage`nextId
      ensures Valid()
      ensures username.Some? && UsernameTaken(old(storage.adminUsers), username.value) ==>
                && resp == BadRequest("Admin user already exists")
                && storage.adminUsers == old(storage.adminUsers) && storage.nextId == old(storage.nextId)
      ensures !(username.Some? && UsernameTaken(old(storage.adminUsers), username.value)) && (username.None? || password.None?) ==>
                && resp == ServerError("Internal server error")
                && storage.adminUsers == old(storage.adminUsers) && storage.nextId == old(storage.nextId)
      ensures username.Some? && password.Some? && !UsernameTaken(old(storage.adminUsers), username.value) ==>
                && storage.adminUsers == old(storage.adminUsers) + [Row(old(storage.nextId), AdminUser(username.value, Hash(password.value), now))]
                && storage.nextId == old(storage.nextId) + 1
                && resp == Ok(Welcome("Admin user created", AdminView(old(storage.nextId), username.value)))
    {
      if username.Some? && storage.GetAdminUserByUsername(username.value).Some? {
        return BadRequest("Admin user already exists");
      }
      if password.None? {
        return ServerError("Internal server error");
      }
      var hashed := Hash(password.value);
      if username.None? {
        return ServerError("Internal server error");
      }
      var written := storage.CreateAdminUser(NewAdminUser(username.value, hashed), now);
      assert written.Written?;
      resp := Ok(Welcome("Admin user created", View(written.value)));
    }

    /* Admin routes: profile */

    method AdminGetProfile(token: Token) returns (resp: Response<Option<Row<Profile>>>)
      requires Valid()
      modifies this`sessions
      ensures Valid()
      ensures sessions == old(GatedSessions(token))
      ensures old(Denial(token)).Some? ==> resp == Unauthorized(old(Denial(token)).value)
      ensures old(Denial(token)).None? ==> resp == Ok(storage.GetProfile())
    {
      var denial := Denial(token);
      var admin := RequireAdmin(token);
      if admin.None? {
        return Unauthorized(denial.value);
      }
      resp := Ok(storage.GetProfile());
    }

    /** `POST /api/admin/profile`: validate the whole body, then upsert. */
    method AdminSaveProfile(token: Token, body: Json, now: int) returns (resp: Response<Row<Profile>>)
      requires Valid()
      modifies this`sessions, storage`profile, storage`nextId
      ensures Valid()
      ensures sessions == old(GatedSessions(token))
      ensures old(Denial(token)).Some? ==> resp == Unauthorized(old(Denial(token)).value)
      ensures old(Denial(token)).Some? || ParseProfile(body).None? ==> storage.profile == old(storage.profile) && storage.nextId == old(storage.nextId)
      ensures old(Denial(token)).None? && ParseProfile(body).None? ==> resp == BadRequest("Invalid profile data")
      ensures old(Denial(token)).None? && ParseProfile(body).Some? ==>
                && storage.profile == UpsertedProfile(old(storage.profile), ParseProfile(body).value, now, old(storage.nextId))
                && resp.Ok? && resp.body in storage.profile && ProfileHolds(resp.body.data, ParseProfile(body).value)
    {
      var denial := Denial(token);
      var admin := RequireAdmin(token);
      if admin.None? {
        return Unauthorized(denial.value);
      }
      var data := ParseProfile(body);
      if data.None? {
        return BadRequest("Invalid profile data");
      }
      var row := storage.UpsertProfile(data.value, now);
      resp := Ok(row);
    }

    /* Admin routes: skills */

    /** `GET /api/admin/skills`: the same getter as the public route. */
    method AdminListSkills(token: Token) returns (resp: Response<seq<Row<Skill>>>)
      requires Valid()
      modifies this`sessions
      ensures Valid()
      ensures sessions == old(GatedSessions(token))
      ensures old(Denial(token)).Some? ==> resp == Unauthorized(old(Denial(token)).value)
      ensures old(Denial(token)).None? ==> resp == Ok(storage.GetSkills())
    {
      var denial := Denial(token);
      var admin := RequireAdmin(token);
      if admin.None? {
        return Unauthorized(denial.value);
      }
      resp := Ok(storage.GetSkills());
    }

    /** `POST /api/admin/skills`: validate the whole body, then insert. */
    method AdminCreateSkill(token: Token, body: Json) returns (resp: Response<Row<Skill>>)
      requires Valid()
      modifies this`sessions, storage`skills, storage`nextId
      ensures Valid()
      ensures sessions == old(GatedSessions(token))
      ensures old(Denial(token)).Some? ==> resp == Unauthorized(old(Denial(token)).value)
      ensures old(Denial(token)).Some? || ParseSkill(body).None? ==> storage.skills == old(storage.skills) && storage.nextId == old(storage.nextId)
      ensures old(Denial(token)).None? && ParseSkill(body).None? ==> resp == BadRequest("Invalid skill data")
      ensures old(Denial(token)).None? && ParseSkill(body).Some? ==>
                && resp == Ok(Row(old(storage.nextId), InsertedSkill(ParseSkill(body).value)))
                && storage.skills == old(storage.skills) + [resp.body]
                && storage.nextId == old(storage.nextId) + 1
    {
      var denial := Denial(token);
      var admin := RequireAdmin(token);
      if admin.None? {
        return Unauthorized(denial.value);
      }
      var data := ParseSkill(body);
      if data.None? {
        return BadRequest("Invalid skill data");
      }
      var row := storage.CreateSkill(data.value);
      resp := Ok(row);
    }

    /** `PUT /api/admin/skills/:id`: validate the body as a partial row, then
        update; an unknown key answers 200 with no row. */
    method AdminUpdateSkill(token: Token, id: Id, body: Json) returns (resp: Response<Option<Row<Skill>>>)
      requires Valid()
      modifies this`sessions, storage`skills
      ensures Valid()
      ensures sessions == old(GatedSessions(token))
      ensures old(Denial(token)).Some? ==> resp == Unauthorized(old(Denial(token)).value)
      ensures old(Denial(token)).Some? || ParseSkillPatch(body).None? ==> storage.skills == old(storage.skills)
      ensures old(Denial(token)).None? && ParseSkillPatch(body).None? ==> resp == BadRequest("Invalid skill data")
      ensures old(Denial(token)).None? && ParseSkillPatch(body).Some? ==>
                && storage.skills == SkillRowsPatched(old(storage.skills), id, ParseSkillPatch(body).value)
                && resp.Ok? && (resp.body.None? <==> !HasId(old(storage.skills), id))
                && (resp.body.Some? ==> resp.body.value in storage.skills && resp.body.value.id == id)
    {
      var denial := Denial(token);
      var admin := RequireAdmin(token);
      if admin.None? {
        return Unauthorized(denial.value);
      }
      var patch := ParseSkillPatch(body);
      if patch.None? {
        return BadRequest("Invalid skill data");
      }
      var row := storage.UpdateSkill(id, patch.value);
      resp := Ok(row);
    }

    /** `DELETE /api/admin/skills/:id`: answers success whether or not the key
        was there. */
    method AdminDeleteSkill(token: Token, id: Id) returns (resp: Response<string>)
      requires Valid()
      modifies this`sessions, storage`skills
      ensures Valid()
      ensures sessions == old(GatedSessions(token))
      ensures old(Denial(token)).Some? ==> resp == Unauthorized(old(Denial(token)).value)
      ensures old(Denial(token)).Some? ==> storage.skills == old(storage.skills)
      ensures old(Denial(token)).None? ==> resp == Ok("Skill deleted") && storage.skills == Delete(old(storage.skills), id)
    {
      var denial := Denial(token);
      var admin := RequireAdmin(token);
      if admin.None? {
        return Unauthorized(denial.value);
      }
      storage.DeleteSkill(id);
      resp := Ok("Skill deleted");
    }

    /* Admin routes: projects */

    /** `GET /api/admin/projects`: the same getter as the public route. */
    method AdminListProjects(token: Token) returns (resp: Response<seq<Row<Project>>>)
      requires Valid()
      modifies this`sessions
      ensures Valid()
      ensures sessions == old(GatedSessions(token))
      ensures old(Denial(token)).Some? ==> resp == Unauthorized(old(Denial(token)).value)
      ensures old(Denial(token)).None? ==> resp == Ok(storage.GetProjects())
    {
      var denial := Denial(token);
      var admin := RequireAdmin(token);
      if admin.None? {
        return Unauthorized(denial.value);
      }
      resp := Ok(storage.GetProjects());
    }

    /** `POST /api/admin/projects`: validate, then insert; a taken slug is
        refused by the database and reported like invalid data. */
    method AdminCreateProject(token: Token, body: Json, now: int) returns (resp: Response<Row<Project>>)
      requires Valid()
      modifies this`sessions, storage`projects, storage`nextId
      ensures Valid()
      ensures sessions == old(GatedSessions(token))
      ensures old(Denial(token)).Some? ==> resp == Unauthorized(old(Denial(token)).value)
      ensures old(Denial(token)).Some? || ParseProject(body).None? || SlugTaken(old(storage.projects), ParseProject(body).value.slug) ==>
                storage.projects == old(storage.projects) && storage.nextId == old(storage.nextId)
      ensures old(Denial(token)).None? && ParseProject(body).None? ==> resp == BadRequest("Invalid project data")
      ensures old(Denial(token)).None? && ParseProject(body).Some? && SlugTaken(old(storage.projects), ParseProject(body).value.slug) ==>
                resp == BadRequest("Invalid project data")
      ensures old(Denial(token)).None? && ParseProject(body).Some? && !SlugTaken(old(storage.projects), ParseProject(body).value.slug) ==>
                && resp == Ok(Row(old(storage.nextId), InsertedProject(ParseProject(body).value, now)))
                && storage.projects == old(storage.projects) + [resp.body]
                && storage.nextId == old(storage.nextId) + 1
    {
      var denial := Denial(token);
      var admin := RequireAdmin(token);
      if admin.None? {
        return Unauthorized(denial.value);
      }
      var data := ParseProject(body);
      if data.None? {
        return BadRequest("Invalid project data");
      }
      var written := storage.CreateProject(data.value, now);
      match written
      case UniqueViolation(_) => resp := BadRequest("Invalid project data");
      case Written(row) => resp := Ok(row);
    }

    /** `PUT /api/admin/projects/:id`: validate the body as a partial project,
        then update; a slug held by another project is refused. */
    method AdminUpdateProject(token: Token, id: Id, body: Json, now: int) returns (resp: Response<Option<Row<Project>>>)
      requires Valid()
      modifies this`sessions, storage`projects
      ensures Valid()
      ensures sessions == old(GatedSessions(token))
      ensures old(Denial(token)).Some? ==> resp == Unauthorized(old(Denial(token)).value)
      ensures old(Denial(token)).Some? || ParseProjectPatch(body).None? ==> storage.projects == old(storage.projects)
      ensures old(Denial(token)).None? && ParseProjectPatch(body).None? ==> resp == BadRequest("Invalid project data")
      ensures old(Denial(token)).None? && ParseProjectPatch(body).Some? ==>
                var patch := ParseProjectPatch(body).value;
                if HasId(old(storage.projects), id) && patch.slug.Given? && SlugTakenByOther(old(storage.projects), patch.slug.value, id)
                then resp == BadRequest("Invalid project data") && storage.projects == old(storage.projects)
                else && storage.projects == ProjectRowsPatched(old(storage.projects), id, patch, now)
                     && resp.Ok? && (resp.body.None? <==> !HasId(old(storage.projects), id))
                     && (resp.body.Some? ==> resp.body.value in storage.projects && resp.body.value.id == id)
    {
      var denial := Denial(token);
      var admin := RequireAdmin(token);
      if admin.None? {
        return Unauthorized(denial.value);
      }
      var patch := ParseProjectPatch(body);
      if patch.None? {
        return BadRequest("Invalid project data");
      }
      var written := storage.UpdateProject(id, patch.value, now);
      match written
      case UniqueViolation(_) => resp := BadRequest("Invalid project data");
      case Written(row) => resp := Ok(row);
    }

    /** `DELETE /api/admin/projects/:id`: answers success whether or not the key
        was there. */
    method AdminDeleteProject(token: Token, id: Id) returns (resp: Response<string>)
      requires Valid()
      modifies this`sessions, storage`projects
      ensures Valid()
      ensures sessions == old(GatedSessions(token))
      ensures old(Denial(token)).Some? ==> resp == Unauthorized(old(Denial(token)).value)
      ensures old(Denial(token)).Some? ==> storage.projects == old(storage.projects)
      ensures old(Denial(token)).None? ==> resp == Ok("Project deleted") && storage.projects == Delete(old(storage.projects), id)
    {
      var denial := Denial(token);
      var admin := RequireAdmin(token);
      if admin.None? {
        return Unauthorized(denial.value);
      }
      storage.DeleteProject(id);
      resp := Ok("Project deleted");
    }

    /* Admin routes: about content */

    method AdminGetAboutContent(token: Token) returns (resp: Response<Option<Row<AboutContent>>>)
      requires Valid()
      modifies this`sessions
      ensures Valid()
      ensures sessions == old(GatedSessions(token))
      ensures old(Denial(token)).Some? ==> resp == Unauthorized(old(Denial(token)).value)
      ensures old(Denial(token)).None? ==> resp == Ok(storage.GetAboutContent())
    {
      var denial := Denial(token);
      var admin := RequireAdmin(token);
      if admin.None? {
        return Unauthorized(denial.value);
      }
      resp := Ok(storage.GetAboutContent());
    }

    /** `POST /api/admin/about`: validate the whole body, then upsert. */
    method AdminSaveAboutContent(token: Token, body: Json, now: int) returns (resp: Response<Row<AboutContent>>)
      requires Valid()
      modifies this`sessions, storage`about, storage`nextId
      ensures Valid()
      ensures sessions == old(GatedSessions(token))
      ensures old(Denial(token)).Some? ==> resp == Unauthorized(old(Denial(token)).value)
      ensures old(Denial(token)).Some? || ParseAboutContent(body).None? ==> storage.about == old(storage.about) && storage.nextId == old(storage.nextId)
      ensures old(Denial(token)).None? && ParseAboutContent(body).None? ==> resp == BadRequest("Invalid about content")
      ensures old(Denial(token)).None? && ParseAboutContent(body).Some? ==>
                && storage.about == UpsertedAboutContent(old(storage.about), ParseAboutContent(body).value, now, old(storage.nextId))
                && resp.Ok? && resp.body in storage.about && resp.body.data == AboutContent(ParseAboutContent(body).value.content, now)
    {
      var denial := Denial(token);
      var admin := RequireAdmin(token);
      if admin.None? {
        return Unauthorized(denial.value);
      }
      var data := ParseAboutContent(body);
      if data.None? {
        return BadRequest("Invalid about content");
      }
      var row := storage.UpsertAboutContent(data.value, now);
      resp := Ok(row);
    }

    /* Admin routes: experience */

    /** `GET /api/admin/experience`: the same getter as the public route. */
    method AdminListExperiences(token: Token) returns (resp: Response<seq<Row<Experience>>>)
      requires Valid()
      modifies this`sessions
      ensures Valid()
      ensures sessions == old(GatedSessions(token))
      ensures old(Denial(token)).Some? ==> resp == Unauthorized(old(Denial(token)).value)
      ensures old(Denial(token)).None? ==> resp == Ok(storage.GetExperiences())
    {
      var denial := Denial(token);
      var admin := RequireAdmin(token);
      if admin.None? {
        return Unauthorized(denial.value);
      }
      resp := Ok(storage.GetExperiences());
    }

    /** `POST /api/admin/experience`: validate the whole body, then insert. */
    method AdminCreateExperience(token: Token, body: Json, now: int) returns (resp: Response<Row<Experience>>)
      requires Valid()
      modifies this`sessions, storage`experiences, storage`nextId
      ensures Valid()
      ensures sessions == old(GatedSessions(token))
      ensures old(Denial(token)).Some? ==> resp == Unauthorized(old(Denial(token)).value)
      ensures old(Denial(token)).Some? || ParseExperience(body).None? ==> storage.experiences == old(storage.experiences) && storage.nextId == old(storage.nextId)
      ensures old(Denial(token)).None? && ParseExperience(body).None? ==> resp == BadRequest("Invalid experience data")
      ensures old(Denial(token)).None? && ParseExperience(body).Some? ==>
                && resp == Ok(Row(old(storage.nextId), InsertedExperience(ParseExperience(body).value, now)))
                && storage.experiences == old(storage.experiences) + [resp.body]
                && storage.nextId == old(storage.nextId) + 1
    {
      var denial := Denial(token);
      var admin := RequireAdmin(token);
      if admin.None? {
        return Unauthorized(denial.value);
      }
      var data := ParseExperience(body);
      if data.None? {
        return BadRequest("Invalid experience data");
      }
      var row := storage.CreateExperience(data.value, now);
      resp := Ok(row);
    }

    /** `PUT /api/admin/experience/:id`: validate the body as a partial row, then
        update; an unknown key answers 200 with no row. */
    method AdminUpdateExperience(token: Token, id: Id, body: Json) returns (resp: Response<Option<Row<Experience>>>)
      requires Valid()
      modifies this`sessions, storage`experiences
      ensures Valid()
      ensures sessions == old(GatedSessions(token))
      ensures old(Denial(token)).Some? ==> resp == Unauthorized(old(Denial(token)).value)
      ensures old(Denial(token)).Some? || ParseExperiencePatch(body).None? ==> storage.experiences == old(storage.experiences)
      ensures old(Denial(token)).None? && ParseExperiencePatch(body).None? ==> resp == BadRequest("Invalid experience data")
      ensures old(Denial(token)).None? && ParseExperiencePatch(body).Some? ==>
                && storage.experiences == ExperienceRowsPatched(old(storage.experiences), id, ParseExperiencePatch(body).value)
                && resp.Ok? && (resp.body.None? <==> !HasId(old(storage.experiences), id))
                && (resp.body.Some? ==> resp.body.value in storage.experiences && resp.body.value.id == id)
    {
      var denial := Denial(token);
      var admin := RequireAdmin(token);
      if admin.None? {
        return Unauthorized(denial.value);
      }
      var patch := ParseExperiencePatch(body);
      if patch.None? {
        return BadRequest("Invalid experience data");
      }
      var row := storage.UpdateExperience(id, patch.value);
      resp := Ok(row);
    }

    /** `DELETE /api/admin/experience/:id`: answers success whether or not the key
        was there. */
    method AdminDeleteExperience(token: Token, id: Id) returns (resp: Response<string>)
      requires Valid()
      modifies this`sessions, storage`experiences
      ensures Valid()
      ensures sessions == old(GatedSessions(token))
      ensures old(Denial(token)).Some? ==> resp == Unauthorized(old(Denial(token)).value)
      ensures old(Denial(token)).Some? ==> storage.experiences == old(storage.experiences)
      ensures old(Denial(token)).None? ==> resp == Ok("Experience deleted") && storage.experiences == Delete(old(storage.experiences), id)
    {
      var denial := Denial(token);
      var admin := RequireAdmin(token);
      if admin.None? {
        return Unauthorized(denial.value);
      }
      storage.DeleteExperience(id);
      resp := Ok("Experience deleted");
    }

    /* Admin routes: education */

    /** `GET /api/admin/education`: the same getter as the public route. */
    method AdminListEducation(token: Token) returns (resp: Response<seq<Row<Education>>>)
      requires Valid()
      modifies this`sessions
      ensures Valid()
      ensures sessions == old(GatedSessions(token))
      ensures old(Denial(token)).Some? ==> resp == Unauthorized(old(Denial(token)).value)
      ensures old(Denial(token)).None? ==> resp == Ok(storage.GetEducation())
    {
      var denial := Denial(token);
      var admin := RequireAdmin(token);
      if admin.None? {
        return Unauthorized(denial.value);
      }
      resp := Ok(storage.GetEducation());
    }

    /** `POST /api/admin/education`: validate the whole body, then insert. */
    method AdminCreateEducation(token: Token, body: Json, now: int) returns (resp: Response<Row<Education>>)
      requires Valid()
      modifies this`sessions, storage`educations, storage`nextId
      ensures Valid()
      ensures sessions == old(GatedSessions(token))
      ensures old(Denial(token)).Some? ==> resp == Unauthorized(old(Denial(token)).value)
      ensures old(Denial(token)).Some? || ParseEducation(body).None? ==> storage.educations == old(storage.educations) && storage.nextId == old(storage.nextId)
      ensures old(Denial(token)).None? && ParseEducation(body).None? ==> resp == BadRequest("Invalid education data")
      ensures old(Denial(token)).None? && ParseEducation(body).Some? ==>
                && resp == Ok(Row(old(storage.nextId), InsertedEducation(ParseEducation(body).value, now)))
                && storage.educations == old(storage.educations) + [resp.body]
                && storage.nextId == old(storage.nextId) + 1
    {
      var denial := Denial(token);
      var admin := RequireAdmin(token);
      if admin.None? {
        return Unauthorized(denial.value);
      }
      var data := ParseEducation(body);
      if data.None? {
        return BadRequest("Invalid education data");
      }
      var row := storage.CreateEducation(data.value, now);
      resp := Ok(row);
    }

    /** `PUT /api/admin/education/:id`: validate the body as a partial row, then
        update; an unknown key answers 200 with no row. */
    method AdminUpdateEducation(token: Token, id: Id, body: Json) returns (resp: Response<Option<Row<Education>>>)
      requires Valid()
      modifies this`sessions, storage`educations
      ensures Valid()
      ensures sessions == old(GatedSessions(token))
      ensures old(Denial(token)).Some? ==> resp == Unauthorized(old(Denial(token)).value)
      ensures old(Denial(token)).Some? || ParseEducationPatch(body).None? ==> storage.educations == old(storage.educations)
      ensures old(Denial(token)).None? && ParseEducationPatch(body).None? ==> resp == BadRequest("Invalid education data")
      ensures old(Denial(token)).None? && ParseEducationPatch(body).Some? ==>
                && storage.educations == EducationRowsPatched(old(storage.educations), id, ParseEducationPatch(body).value)
                && resp.Ok? && (resp.body.None? <==> !HasId(old(storage.educations), id))
                && (resp.body.Some? ==> resp.body.value in storage.educations && resp.body.value.id == id)
    {
      var denial := Denial(token);
      var admin := RequireAdmin(token);
      if admin.None? {
        return Unauthorized(denial.value);
      }
      var patch := ParseEducationPatch(body);
      if patch.None? {
        return BadRequest("Invalid education data");
      }
      var row := storage.UpdateEducation(id, patch.value);
      resp := Ok(row);
    }

    /** `DELETE /api/admin/education/:id`: answers success whether or not the key
        was there. */
    method AdminDeleteEducation(token: Token, id: Id) returns (resp: Response<string>)
      requires Valid()
      modifies this`sessions, storage`educations
      ensures Valid()
      ensures sessions == old(GatedSessions(token))
      ensures old(Denial(token)).Some? ==> resp == Unauthorized(old(Denial(token)).value)
      ensures old(Denial(token)).Some? ==> storage.educations == old(storage.educations)
      ensures old(Denial(token)).None? ==> resp == Ok("Education deleted") && storage.educations == Delete(old(storage.educations), id)
    {
      var denial := Denial(token);
      var admin := RequireAdmin(token);
      if admin.None? {
        return Unauthorized(denial.value);
      }
      storage.DeleteEducation(id);
      resp := Ok("Education deleted");
    }

    /* Admin routes: site settings */

    method AdminGetSiteSettings(token: Token) returns (resp: Response<Option<Row<SiteSettings>>>)
      requires Valid()
      modifies this`sessions
      ensures Valid()
      ensures sessions == old(GatedSessions(token))
      ensures old(Denial(token)).Some? ==> resp == Unauthorized(old(Denial(token)).value)
      ensures old(Denial(token)).None? ==> resp == Ok(storage.GetSiteSettings())
    {
      var denial := Denial(token);
      var admin := RequireAdmin(token);
      if admin.None? {
        return Unauthorized(denial.value);
      }
      resp := Ok(storage.GetSiteSettings());
    }

    /** `POST /api/admin/settings`: validate the whole body, then upsert. */
    method AdminSaveSiteSettings(token: Token, body: Json, now: int) returns (resp: Response<Row<SiteSettings>>)
      requires Valid()
      modifies this`sessions, storage`settings, storage`nextId
      ensures Valid()
      ensures sessions == old(GatedSessions(token))
      ensures old(Denial(token)).Some? ==> resp == Unauthorized(old(Denial(token)).value)
      ensures old(Denial(token)).Some? || ParseSiteSettings(body).None? ==> storage.settings == old(storage.settings) && storage.nextId == old(storage.nextId)
      ensures old(Denial(token)).None? && ParseSiteSettings(body).None? ==> resp == BadRequest("Invalid settings data")
      ensures old(Denial(token)).None? && ParseSiteSettings(body).Some? ==>
                && storage.settings == UpsertedSiteSettings(old(storage.settings), ParseSiteSettings(body).value, now, old(storage.nextId))
                && resp.Ok? && resp.body in storage.settings && SiteSettingsHolds(resp.body.data, ParseSiteSettings(body).value)
    {
      var denial := Denial(token);
      var admin := RequireAdmin(token);
      if admin.None? {
        return Unauthorized(denial.value);
      }
      var data := ParseSiteSettings(body);
      if data.None? {
        return BadRequest("Invalid settings data");
      }
      var row := storage.UpsertSiteSettings(data.value, now);
      resp := Ok(row);
    }

    /* Admin routes: resume attachments */

    /** `GET /api/admin/resume-attachments`: the same getter as the public route. */
    method AdminListResumeAttachments(token: Token) returns (resp: Response<seq<Row<ResumeAttachment>>>)
      requires Valid()
      modifies this`sessions
      ensures Valid()
      ensures sessions == old(GatedSessions(token))
      ensures old(Denial(token)).Some? ==> resp == Unauthorized(old(Denial(token)).value)
      ensures old(Denial(token)).None? ==> resp == Ok(storage.GetResumeAttachments())
    {
      var denial := Denial(token);
      var admin := RequireAdmin(token);
      if admin.None? {
        return Unauthorized(denial.value);
      }
      resp := Ok(storage.GetResumeAttachments());
    }

    /** `GET /api/admin/resume-attachments/:id`: the attachment, active or
        not, or 404. */
    method AdminGetResumeAttachment(token: Token, id: Id) returns (resp: Response<Row<ResumeAttachment>>)
      requires Valid()
      modifies this`sessions
      ensures Valid()
      ensures sessions == old(GatedSessions(token))
      ensures old(Denial(token)).Some? ==> resp == Unauthorized(old(Denial(token)).value)
      ensures old(Denial(token)).None? && !HasId(storage.attachments, id) ==> resp == NotFound("Resume attachment not found")
      ensures old(Denial(token)).None? && HasId(storage.attachments, id) ==>
                resp.Ok? && resp.body in storage.attachments && resp.body.id == id
    {
      var denial := Denial(token);
      var admin := RequireAdmin(token);
      if admin.None? {
        return Unauthorized(denial.value);
      }
      var attachment := storage.GetResumeAttachment(id);
      if attachment.None? {
        return NotFound("Resume attachment not found");
      }
      resp := Ok(attachment.value);
    }

    /** `POST /api/admin/resume-attachments`: validate the whole body, then insert. */
    method AdminCreateResumeAttachment(token: Token, body: Json, now: int) returns (resp: Response<Row<ResumeAttachment>>)
      requires Valid()
      modifies this`sessions, storage`attachments, storage`nextId
      ensures Valid()
      ensures sessions == old(GatedSessions(token))
      ensures old(Denial(token)).Some? ==> resp == Unauthorized(old(Denial(token)).value)
      ensures old(Denial(token)).Some? || ParseResumeAttachment(body).None? ==> storage.attachments == old(storage.attachments) && storage.nextId == old(storage.nextId)
      ensures old(Denial(token)).None? && ParseResumeAttachment(body).None? ==> resp == BadRequest("Invalid resume attachment data")
      ensures old(Denial(token)).None? && ParseResumeAttachment(body).Some? ==>
                && resp == Ok(Row(old(storage.nextId), InsertedResumeAttachment(ParseResumeAttachment(body).value, now)))
                && storage.attachments == old(storage.attachments) + [resp.body]
                && storage.nextId == old(storage.nextId) + 1
    {
      var denial := Denial(token);
      var admin := RequireAdmin(token);
      if admin.None? {
        return Unauthorized(denial.value);
      }
      var data := ParseResumeAttachment(body);
      if data.None? {
        return BadRequest("Invalid resume attachment data");
      }
      var row := storage.CreateResumeAttachment(data.value, now);
      resp := Ok(row);
    }

    /** `PUT /api/admin/resume-attachments/:id`: validate the body as a partial row, then
        update; an unknown key answers 200 with no row. */
    method AdminUpdateResumeAttachment(token: Token, id: Id, body: Json) returns (resp: Response<Option<Row<ResumeAttachment>>>)
      requires Valid()
      modifies this`sessions, storage`attachments
      ensures Valid()
      ensures sessions == old(GatedSessions(token))
      ensures old(Denial(token)).Some? ==> resp == Unauthorized(old(Denial(token)).value)
      ensures old(Denial(token)).Some? || ParseResumeAttachmentPatch(body).None? ==> storage.attachments == old(storage.attachments)
      ensures old(Denial(token)).None? && ParseResumeAttachmentPatch(body).None? ==> resp == BadRequest("Invalid resume attachment data")
      ensures old(Denial(token)).None? && ParseResumeAttachmentPatch(body).Some? ==>
                && storage.attachments == ResumeAttachmentRowsPatched(old(storage.attachments), id, ParseResumeAttachmentPatch(body).value)
                && resp.Ok? && (resp.body.None? <==> !HasId(old(storage.attachments), id))
                && (resp.body.Some? ==> resp.body.value in storage.attachments && resp.body.value.id == id)
    {
      var denial := Denial(token);
      var admin := RequireAdmin(token);
      if admin.None? {
        return Unauthorized(denial.value);
      }
      var patch := ParseResumeAttachmentPatch(body);
      if patch.None? {
        return BadRequest("Invalid resume attachment data");
      }
      var row := storage.UpdateResumeAttachment(id, patch.value);
      resp := Ok(row);
    }

    /** `DELETE /api/admin/resume-attachments/:id`: answers success whether or not the key
        was there. */
    method AdminDeleteResumeAttachment(token: Token, id: Id) returns (resp: Response<string>)
      requires Valid()
      modifies this`sessions, storage`attachments
      ensures Valid()
      ensures sessions == old(GatedSessions(token))
      ensures old(Denial(token)).Some? ==> resp == Unauthorized(old(Denial(token)).value)
      ensures old(Denial(token)).Some? ==> storage.attachments == old(storage.attachments)
      ensures old(Denial(token)).None? ==> resp == Ok("Resume attachment deleted") && storage.attachments == Delete(old(storage.attachments), id)
    {
      var denial := Denial(token);
      var admin := RequireAdmin(token);
      if admin.None? {
        return Unauthorized(denial.value);
      }
      storage.DeleteResumeAttachment(id);
      resp := Ok("Resume attachment deleted");
    }

    /* Public routes: no session needed. */

    method PublicProfile() returns (resp: Response<Option<Row<Profile>>>)
      ensures resp == Ok(storage.GetProfile())
    {
      resp := Ok(storage.GetProfile());
    }

    method PublicSkills() returns (resp: Response<seq<Row<Skill>>>)
      ensures resp == Ok(storage.GetSkills())
    {
      resp := Ok(storage.GetSkills());
    }

    method PublicProjects() returns (resp: Response<seq<Row<Project>>>)
      ensures resp == Ok(storage.GetProjects())
    {
      resp := Ok(storage.GetProjects());
    }

    method PublicAboutContent() returns (resp: Response<Option<Row<AboutContent>>>)
      ensures resp == Ok(storage.GetAboutContent())
    {
      resp := Ok(storage.GetAboutContent());
    }

    method PublicExperiences() returns (resp: Response<seq<Row<Experience>>>)
      ensures resp == Ok(storage.GetExperiences())
    {
      resp := Ok(storage.GetExperiences());
    }

    method PublicEducation() returns (resp: Response<seq<Row<Education>>>)
      ensures resp == Ok(storage.GetEducation())
    {
      resp := Ok(storage.GetEducation());
    }

    method PublicSiteSettings() returns (resp: Response<Option<Row<SiteSettings>>>)
      ensures resp == Ok(storage.GetSiteSettings())
    {
      resp := Ok(storage.GetSiteSettings());
    }

    method PublicResumeAttachments() returns (resp: Response<seq<Row<ResumeAttachment>>>)
      ensures resp == Ok(storage.GetResumeAttachments())
    {
      resp := Ok(storage.GetResumeAttachments());
    }
  }
}
