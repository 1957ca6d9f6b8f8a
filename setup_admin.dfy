/** The one-off script that seeds the default administrator account. Its
    log lines are left out; the extra `email` key it passes is one the
    insert does not know, so the row holds only username and password. */
module SetupAdmin {
  import opened Wrappers
  import opened Tables
  import opened Schema
  import opened Storage
  import opened Auth

  const DefaultUsername: string := "admin"
  const DefaultPassword: string := "admin123"

  /** How many admin rows carry `name`. */
  function UsersNamed(rows: seq<Row<AdminUser>>, name: string): (n: nat)
    ensures n <= |rows|
    ensures n == 0 <==> !UsernameTaken(rows, name)
  {
    if rows == [] then 0
    else
      var init := rows[..|rows| - 1];
      assert forall i :: 0 <= i < |init| ==> init[i] == rows[i];
      UsersNamed(init, name) + (if rows[|rows| - 1].data.username == name then 1 else 0)
  }

  /** With usernames unique, at most one row carries a given name. */
  lemma {:induction false} DistinctAtMostOne(rows: seq<Row<AdminUser>>, name: string)
    requires DistinctBy(rows, Username)
    ensures UsersNamed(rows, name) <= 1
  {
    if rows != [] {
      var init := rows[..|rows| - 1];
      assert DistinctBy(init, Username) by {
        forall i, j | 0 <= i < j < |init| ensures Username(init[i]) != Username(init[j]) {
          assert init[i] == rows[i] && init[j] == rows[j];
        }
      }
      DistinctAtMostOne(init, name);
      if rows[|rows| - 1].data.username == name {
        forall i | 0 <= i < |init| ensures init[i].data.username != name {
          assert Username(rows[i]) != Username(rows[|rows| - 1]);
        }
      }
    }
  }

  /** `createDefaultAdmin`: when no admin is called "admin", one is created
      with the bcrypt hash of "admin123"; otherwise nothing changes. Either
      way exactly one admin is called "admin" afterwards, so a second run
      creates nothing. */
  method CreateDefaultAdmin(storage: DatabaseStorage, now: int) returns (created: bool)
    requires storage.Valid()
    modifies storage`adminUsers, storage`nextId
    ensures storage.Valid()
    ensures created <==> !UsernameTaken(old(storage.adminUsers), DefaultUsername)
    ensures !created ==> storage.adminUsers == old(storage.adminUsers) && storage.nextId == old(storage.nextId)
    ensures created ==>
              && storage.adminUsers == old(storage.adminUsers) + [Row(old(storage.nextId), AdminUser(DefaultUsername, Hash(DefaultPassword), now))]
              && storage.nextId == old(storage.nextId) + 1
    ensures UsersNamed(storage.adminUsers, DefaultUsername) == 1
  {
    var existing := storage.GetAdminUserByUsername(DefaultUsername);
    if existing.Some? {
      DistinctAtMostOne(storage.adminUsers, DefaultUsername);
      return false;
    }
    var hashed := Hash(DefaultPassword);
    var written := storage.CreateAdminUser(NewAdminUser(DefaultUsername, hashed), now);
    assert storage.adminUsers[..|storage.adminUsers| - 1] == old(storage.adminUsers);
    created := true;
  }

  /** The account the script creates accepts "admin123" and no other
      password. */
  lemma DefaultAdminLogsIn(attempt: string, now: int)
    ensures var admin := AdminUser(DefaultUsername, Hash(DefaultPassword), now);
            Compare(attempt, admin.password) <==> attempt == DefaultPassword
  {
    CompareExactly(DefaultPassword, attempt);
  }
}
