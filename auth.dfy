/**
 * The auth service (services/auth/main.py): the role table and its default
 * seeding, registration and login guards with the claims they sign, the
 * admin-only role endpoints, and the wholesale replacement of a user's roles.
 * Password hashing and token signing are foreign: a stored hash is taken as
 * given and checked with a supplied predicate, and a signed token is
 * represented by the claims it carries.
 */
module Auth {
  import opened Wrappers
  import opened Dependencies

  datatype Role = Role(id: int, name: string, description: Option<string>)

  /** A user row; `roles` holds the names of the user's roles. */
  datatype User = User(id: int, username: string, email: string, fullName: string, passwordHash: string,
                       isActive: bool, roles: seq<string>)

  /** The claims create_access_token signs: sub, username, roles. */
  datatype Claims = Claims(sub: int, username: string, roles: seq<string>)

  /** A UserCreate body; `roleName` already holds the default "customer" when it was omitted. */
  datatype Registration = Registration(username: string, email: string, fullName: string, roleName: Option<string>)

  /** The four roles init_default_roles seeds, in order. */
  const DEFAULT_ROLES: seq<Role> := [
    Role(0, "admin", Some("Quản trị viên - Toàn quyền")),
    Role(0, "manager", Some("Quản lý - Quản lý hệ thống")),
    Role(0, "receptionist", Some("Lễ tân - Tiếp nhận và xử lý đặt phòng")),
    Role(0, "customer", Some("Khách hàng - Người dùng thông thường"))
  ]

  predicate HasRole(roles: seq<Role>, name: string)
  {
    exists i :: 0 <= i < |roles| && roles[i].name == name
  }

  /** No element appears twice. */
  predicate NoDup(s: seq<string>)
  {
    forall i, j :: 0 <= i < j < |s| ==> s[i] != s[j]
  }

  function RoleNames(roles: seq<Role>): (r: seq<string>)
    ensures |r| == |roles| && forall i :: 0 <= i < |roles| ==> r[i] == roles[i].name
  {
    if roles == [] then [] else [roles[0].name] + RoleNames(roles[1..])
  }

  /**
   * The role registration assigns: the requested one when it exists, else
   * "customer" when that exists, else none (the user is created without a role).
   */
  function RoleFor(roles: seq<Role>, requested: Option<string>): (r: Option<string>)
    ensures requested.Some? && HasRole(roles, requested.value) ==> r == requested
    ensures !(requested.Some? && HasRole(roles, requested.value)) && HasRole(roles, "customer") ==> r == Some("customer")
    ensures r.Some? ==> HasRole(roles, r.value)
  {
    if requested.Some? && HasRole(roles, requested.value) then requested
    else if HasRole(roles, "customer") then Some("customer")
    else None
  }

  /** The user `login` finds: the first whose username or e-mail equals the text given. */
  function LoginMatch(users: seq<User>, login: string): (r: Option<nat>)
    ensures r.None? <==> forall i :: 0 <= i < |users| ==> users[i].username != login && users[i].email != login
    ensures r.Some? ==>
      && r.value < |users| && (users[r.value].username == login || users[r.value].email == login)
      && forall i :: 0 <= i < r.value ==> users[i].username != login && users[i].email != login
  {
    if users == [] then None
    else if users[0].username == login || users[0].email == login then Some(0)
    else match LoginMatch(users[1..], login)
      case None => None
      case Some(k) => Some(k + 1)
  }

  /**
   * login: 401 for an unknown user or a password the stored hash rejects,
   * then 403 for a disabled account (so the password is checked first);
   * otherwise the claims of the matched user.
   */
  function Login(users: seq<User>, login: string, password: string, checkPassword: (string, string) -> bool)
    : (r: Result<Claims>)
    ensures LoginMatch(users, login).None? ==> r == Fail(401, "Incorrect username or password")
    ensures LoginMatch(users, login).Some? ==>
      var u := users[LoginMatch(users, login).value];
      && (!checkPassword(password, u.passwordHash) ==> r == Fail(401, "Incorrect username or password"))
      && (checkPassword(password, u.passwordHash) && !u.isActive ==> r == Fail(403, "User account is disabled"))
      && (checkPassword(password, u.passwordHash) && u.isActive ==> r == Ok(Claims(u.id, u.username, u.roles)))
  {
    match LoginMatch(users, login)
    case None => Fail(401, "Incorrect username or password")
    case Some(k) =>
      var u := users[k];
      if !checkPassword(password, u.passwordHash) then Fail(401, "Incorrect username or password")
      else if !u.isActive then Fail(403, "User account is disabled")
      else Ok(Claims(u.id, u.username, u.roles))
  }

  /** A wrong password never reveals whether the account is disabled: both give the same 401. */
  lemma WrongPasswordHidesDisabled(users: seq<User>, login: string, password: string,
                                   checkPassword: (string, string) -> bool)
    requires LoginMatch(users, login).Some?
    requires !checkPassword(password, users[LoginMatch(users, login).value].passwordHash)
    ensures Login(users, login, password, checkPassword) == Fail(401, "Incorrect username or password")
    ensures var u := users[LoginMatch(users, login).value];
      Login(users[LoginMatch(users, login).value := u.(isActive := !u.isActive)], login, password, checkPassword)
        == Login(users, login, password, checkPassword)
  {
    var k := LoginMatch(users, login).value;
    var u := users[k];
    var users' := users[k := u.(isActive := !u.isActive)];
    assert forall i :: 0 <= i < |users| ==> users'[i].username == users[i].username && users'[i].email == users[i].email;
    LoginMatchSameKeys(users, users', login);
  }

  lemma {:induction false} LoginMatchSameKeys(a: seq<User>, b: seq<User>, login: string)
    requires |a| == |b|
    requires forall i :: 0 <= i < |a| ==> a[i].username == b[i].username && a[i].email == b[i].email
    ensures LoginMatch(a, login) == LoginMatch(b, login)
  {
    if a != [] {
      LoginMatchSameKeys(a[1..], b[1..], login);
    }
  }

  /** The admin gate of the user and role endpoints: the exact role "admin"; manager is not enough. */
  function AdminGate(user: Payload, detail: string): (r: Result<()>)
    ensures r.Ok? <==> "admin" in user.roles
    ensures r.Err? ==> r == Fail(403, detail)
  {
    if "admin" !in user.roles then Fail(403, detail) else Ok(())
  }

  /** A manager or receptionist without "admin" is refused, though they pass the elevated-role test elsewhere. */
  lemma ElevatedIsNotAdmin(user: Payload)
    requires user.roles == ["manager", "receptionist"]
    ensures IsElevated(user.roles) && AdminGate(user, "Only admin can create roles").Err?
  {
  }

  /**
   * `Role.name.in_(role_names)` over the role table, in table order: the
   * roles whose name is one of those given.
   */
  function FoundRoles(roles: seq<Role>, names: seq<string>): (r: seq<string>)
    ensures |r| <= |roles|
    ensures forall x :: x in r <==> x in names && x in RoleNames(roles)
  {
    if roles == [] then []
    else
      var rest := FoundRoles(roles[1..], names);
      assert RoleNames(roles) == [roles[0].name] + RoleNames(roles[1..]);
      if roles[0].name in names then [roles[0].name] + rest else rest
  }

  /** The set of the elements of a sequence. */
  function Elems(s: seq<string>): (r: set<string>)
    ensures forall x :: x in r <==> x in s
  {
    if s == [] then {} else {s[0]} + Elems(s[1..])
  }

  /** A sequence whose head recurs in its tail has a duplicate. */
  lemma DupHead(s: seq<string>)
    requires s != [] && s[0] in s[1..]
    ensures !NoDup(s)
  {
    var j :| 0 <= j < |s[1..]| && s[1..][j] == s[0];
    assert s[0] == s[j + 1];
  }

  /** A head that does not recur adds no duplicate. */
  lemma NoDupCons(s: seq<string>)
    requires s != [] && s[0] !in s[1..]
    ensures NoDup(s) <==> NoDup(s[1..])
  {
    if NoDup(s[1..]) {
      forall i, j | 0 <= i < j < |s|
        ensures s[i] != s[j]
      {
        if i > 0 {
          assert s[i] == s[1..][i - 1] && s[j] == s[1..][j - 1];
        } else {
          assert s[j] in s[1..];
        }
      }
    }
    if NoDup(s) {
      forall i, j | 0 <= i < j < |s[1..]|
        ensures s[1..][i] != s[1..][j]
      {
        assert s[1..][i] == s[i + 1] && s[1..][j] == s[j + 1];
      }
    }
  }

  /** A sequence has at least as many entries as distinct elements, exactly as many when none repeats. */
  lemma {:induction false} ElemsCard(s: seq<string>)
    ensures |Elems(s)| <= |s|
    ensures |Elems(s)| == |s| <==> NoDup(s)
  {
    if s != [] {
      ElemsCard(s[1..]);
      if s[0] in s[1..] {
        assert Elems(s) == Elems(s[1..]);
        DupHead(s);
      } else {
        assert Elems(s) == {s[0]} + Elems(s[1..]);
        NoDupCons(s);
      }
    }
  }

  /** With unique role names, the found names do not repeat. */
  lemma {:induction false} FoundRolesNoDup(roles: seq<Role>, names: seq<string>)
    requires NoDup(RoleNames(roles))
    ensures NoDup(FoundRoles(roles, names))
  {
    if roles != [] {
      var tail := RoleNames(roles[1..]);
      assert RoleNames(roles) == [roles[0].name] + tail;
      assert NoDup(tail) by {
        forall i, j | 0 <= i < j < |tail|
          ensures tail[i] != tail[j]
        {
          assert tail[i] == RoleNames(roles)[i + 1] && tail[j] == RoleNames(roles)[j + 1];
        }
      }
      FoundRolesNoDup(roles[1..], names);
      var rest := FoundRoles(roles[1..], names);
      if roles[0].name in names {
        assert roles[0].name !in tail by {
          forall j | 0 <= j < |tail|
            ensures tail[j] != roles[0].name
          {
            assert tail[j] == RoleNames(roles)[j + 1] && roles[0].name == RoleNames(roles)[0];
          }
        }
        assert roles[0].name !in rest;
        var r := [roles[0].name] + rest;
        forall i, j | 0 <= i < j < |r|
          ensures r[i] != r[j]
        {
          if i > 0 {
            assert r[i] == rest[i - 1] && r[j] == rest[j - 1];
          } else {
            assert r[j] in rest;
          }
        }
      }
    }
  }

  /**
   * update_user_roles accepts a list exactly when it finds as many roles as
   * names were given: when every name exists and none is repeated. A
   * repeated name is refused even though each role exists.
   */
  lemma RoleListAccepted(roles: seq<Role>, names: seq<string>)
    requires NoDup(RoleNames(roles))
    ensures |FoundRoles(roles, names)| == |names| <==> NoDup(names) && forall x :: x in names ==> x in RoleNames(roles)
  {
    var found := FoundRoles(roles, names);
    FoundRolesNoDup(roles, names);
    ElemsCard(found);
    ElemsCard(names);
    var a := Elems(names);
    var t := Elems(RoleNames(roles));
    assert Elems(found) == a * t;
    assert |a * t| == |a| - |a - t|;
    if forall x :: x in names ==> x in RoleNames(roles) {
      assert a - t == {};
    } else {
      var x :| x in names && x !in RoleNames(roles);
      assert x in a - t;
    }
  }

  /** Role names are unique and role ids lie below the next id. */
  predicate RolesValid(roles: seq<Role>, nextRoleId: int)
  {
    NoDup(RoleNames(roles)) && forall i :: 0 <= i < |roles| ==> 0 < roles[i].id < nextRoleId
  }

  /** User ids increase along the table and lie below the next id; usernames and e-mails are each unique. */
  predicate UsersValid(users: seq<User>, nextUserId: int)
  {
    && (forall i :: 0 <= i < |users| ==> 0 < users[i].id < nextUserId)
    && (forall i, j :: 0 <= i < j < |users| ==> users[i].id < users[j].id)
    && (forall i, j :: 0 <= i < j < |users| ==> users[i].username != users[j].username)
    && (forall i, j :: 0 <= i < j < |users| ==> users[i].email != users[j].email)
  }

  /** A user's roles are names of existing roles. */
  predicate UsersRolesExist(users: seq<User>, roles: seq<Role>)
  {
    forall i, r :: 0 <= i < |users| && r in users[i].roles ==> r in RoleNames(roles)
  }

  /** Appending a user with a fresh id, username and e-mail, holding existing roles, keeps the user table valid. */
  lemma AddUserKeepsValid(users: seq<User>, roles: seq<Role>, u: User, nextUserId: int)
    requires UsersValid(users, nextUserId) && UsersRolesExist(users, roles) && 0 < nextUserId
    requires u.id == nextUserId
    requires forall i :: 0 <= i < |users| ==> users[i].username != u.username && users[i].email != u.email
    requires forall x :: x in u.roles ==> x in RoleNames(roles)
    ensures UsersValid(users + [u], nextUserId + 1) && UsersRolesExist(users + [u], roles)
  {
    var us := users + [u];
    assert forall i :: 0 <= i < |users| ==> us[i] == users[i];
    assert us[|users|] == u;
  }

  /** Replacing one user's roles by existing role names keeps the user table valid. */
  lemma ReplaceRolesKeepsValid(users: seq<User>, roles: seq<Role>, i: int, found: seq<string>, nextUserId: int)
    requires UsersValid(users, nextUserId) && UsersRolesExist(users, roles)
    requires 0 <= i < |users|
    requires forall x :: x in found ==> x in RoleNames(roles)
    ensures UsersValid(users[i := users[i].(roles := found)], nextUserId)
    ensures UsersRolesExist(users[i := users[i].(roles := found)], roles)
  {
    var us := users[i := users[i].(roles := found)];
    assert forall k :: 0 <= k < |users| ==>
      (us[k].id == users[k].id && us[k].username == users[k].username && us[k].email == users[k].email);
  }

  /**
   * The role table after seeding `defaults` in order: each default whose
   * name is missing is appended with the next free id.
   */
  function Seed(roles: seq<Role>, defaults: seq<Role>, nextId: int): (r: seq<Role>)
  {
    if defaults == [] then roles
    else
      var prev := Seed(roles, defaults[..|defaults| - 1], nextId);
      var d := defaults[|defaults| - 1];
      if HasRole(prev, d.name) then prev
      else prev + [Role(nextId + |prev| - |roles|, d.name, d.description)]
  }

  /** Seeding only appends to the table. */
  lemma {:induction false} SeedPrefix(roles: seq<Role>, defaults: seq<Role>, nextId: int)
    ensures var r := Seed(roles, defaults, nextId);
      |roles| <= |r| && r[..|roles|] == roles
  {
    if defaults != [] {
      var init := defaults[..|defaults| - 1];
      SeedPrefix(roles, init, nextId);
      var prev := Seed(roles, init, nextId);
      var r := Seed(roles, defaults, nextId);
      if r != prev {
        assert r[..|roles|] == prev[..|roles|];
      }
    }
  }

  /** After seeding, every default role name is present. */
  lemma {:induction false} SeedCovers(roles: seq<Role>, defaults: seq<Role>, nextId: int)
    ensures forall i :: 0 <= i < |defaults| ==> HasRole(Seed(roles, defaults, nextId), defaults[i].name)
  {
    if defaults != [] {
      var init := defaults[..|defaults| - 1];
      var d := defaults[|defaults| - 1];
      SeedCovers(roles, init, nextId);
      var prev := Seed(roles, init, nextId);
      var r := Seed(roles, defaults, nextId);
      forall i | 0 <= i < |defaults|
        ensures HasRole(r, defaults[i].name)
      {
        if i < |init| {
          assert defaults[i] == init[i];
          var j :| 0 <= j < |prev| && prev[j].name == init[i].name;
          assert r[j] == prev[j];
        } else if r != prev {
          assert r[|prev|].name == d.name;
        }
      }
    }
  }

  /** What seeding appends is a default that was missing, under consecutive ids. */
  lemma {:induction false} SeedAppendsMissing(roles: seq<Role>, defaults: seq<Role>, nextId: int)
    ensures var r := Seed(roles, defaults, nextId);
      forall j :: |roles| <= j < |r| ==>
        !HasRole(roles, r[j].name) && r[j].name in RoleNames(defaults) && r[j].id == nextId + j - |roles|
  {
    if defaults != [] {
      var init := defaults[..|defaults| - 1];
      var d := defaults[|defaults| - 1];
      SeedAppendsMissing(roles, init, nextId);
      SeedPrefix(roles, init, nextId);
      var prev := Seed(roles, init, nextId);
      var r := Seed(roles, defaults, nextId);
      forall j | |roles| <= j < |r|
        ensures !HasRole(roles, r[j].name) && r[j].name in RoleNames(defaults) && r[j].id == nextId + j - |roles|
      {
        if j < |prev| {
          assert r[j] == prev[j];
          var k :| 0 <= k < |init| && RoleNames(init)[k] == prev[j].name;
          assert RoleNames(defaults)[k] == init[k].name;
        } else {
          assert r[j] == Role(nextId + |prev| - |roles|, d.name, d.description);
          assert RoleNames(defaults)[|defaults| - 1] == d.name;
          assert !HasRole(roles, d.name) by {
            forall k | 0 <= k < |roles|
              ensures roles[k].name != d.name
            {
              assert prev[k] == roles[k];
            }
          }
        }
      }
    }
  }

  /** Seeding keeps role names unique and ids below the advanced next id. */
  lemma SeedKeepsValid(roles: seq<Role>, defaults: seq<Role>, nextId: int)
    requires 0 < nextId && RolesValid(roles, nextId)
    ensures var r := Seed(roles, defaults, nextId);
      RolesValid(r, nextId + |r| - |roles|)
  {
    SeedPrefix(roles, defaults, nextId);
    SeedAppendsMissing(roles, defaults, nextId);
    var r := Seed(roles, defaults, nextId);
    forall i | 0 <= i < |r|
      ensures 0 < r[i].id < nextId + |r| - |roles|
    {
      if i < |roles| {
        assert r[i] == roles[i];
      }
    }
    var n := RoleNames(r);
    forall i, j | 0 <= i < j < |n|
      ensures n[i] != n[j]
    {
      if j >= |roles| {
        if i < |roles| {
          assert r[i] == roles[i];
        } else {
          SeedNamesDistinct(roles, defaults, nextId, i, j);
        }
      } else {
        assert r[i] == roles[i] && r[j] == roles[j];
        assert RoleNames(roles)[i] == n[i] && RoleNames(roles)[j] == n[j];
      }
    }
  }

  /** Two appended roles never share a name. */
  lemma {:induction false} SeedNamesDistinct(roles: seq<Role>, defaults: seq<Role>, nextId: int, i: int, j: int)
    requires |roles| <= i < j < |Seed(roles, defaults, nextId)|
    ensures Seed(roles, defaults, nextId)[i].name != Seed(roles, defaults, nextId)[j].name
  {
    var init := defaults[..|defaults| - 1];
    var d := defaults[|defaults| - 1];
    var prev := Seed(roles, init, nextId);
    if j < |prev| {
      SeedNamesDistinct(roles, init, nextId, i, j);
    } else {
      assert Seed(roles, defaults, nextId)[i] == prev[i];
    }
  }

  /** Seeding keeps every existing role name. */
  lemma SeedKeepsNames(roles: seq<Role>, defaults: seq<Role>, nextId: int)
    ensures forall x :: x in RoleNames(roles) ==> x in RoleNames(Seed(roles, defaults, nextId))
  {
    SeedPrefix(roles, defaults, nextId);
    var r := Seed(roles, defaults, nextId);
    forall x | x in RoleNames(roles)
      ensures x in RoleNames(r)
    {
      var k :| 0 <= k < |roles| && RoleNames(roles)[k] == x;
      assert r[k] == roles[k];
      assert RoleNames(r)[k] == x;
    }
  }

  /** Once every default exists, seeding adds nothing: running init_default_roles twice changes nothing. */
  lemma {:induction false} SeedIdle(roles: seq<Role>, defaults: seq<Role>, nextId: int)
    requires forall i :: 0 <= i < |defaults| ==> HasRole(roles, defaults[i].name)
    ensures Seed(roles, defaults, nextId) == roles
  {
    if defaults != [] {
      var init := defaults[..|defaults| - 1];
      assert forall i :: 0 <= i < |init| ==> init[i] == defaults[i];
      SeedIdle(roles, init, nextId);
    }
  }

  /** Seeding twice is seeding once. */
  lemma SeedTwice(roles: seq<Role>, nextId: int, laterId: int)
    ensures var once := Seed(roles, DEFAULT_ROLES, nextId);
      Seed(once, DEFAULT_ROLES, laterId) == once
  {
    SeedCovers(roles, DEFAULT_ROLES, nextId);
    SeedIdle(Seed(roles, DEFAULT_ROLES, nextId), DEFAULT_ROLES, laterId);
  }

  /** The users and roles tables. */
  class AuthService {
    var roles: seq<Role>
    var users: seq<User>
    var nextRoleId: int
    var nextUserId: int

    /**
     * Role names are unique and role ids lie below the next id; user ids
     * increase along the table; usernames and e-mails are each unique; a
     * user's roles are names of existing roles.
     */
    predicate Valid()
      reads this
    {
      && 0 < nextRoleId && 0 < nextUserId
      && RolesValid(roles, nextRoleId) && UsersValid(users, nextUserId) && UsersRolesExist(users, roles)
    }

    constructor ()
      ensures Valid() && roles == [] && users == []
    {
      roles := [];
      users := [];
      nextRoleId := 1;
      nextUserId := 1;
    }

    /**
     * init_default_roles: each of the four default roles that is missing is
     * added, in order (Seed); existing roles are left as they are.
     */
    method InitDefaultRoles()
      requires Valid()
      modifies this
      ensures Valid()
      ensures roles == Seed(old(roles), DEFAULT_ROLES, old(nextRoleId))
      ensures users == old(users)
    {
      var defaults := DEFAULT_ROLES;
      for k := 0 to |defaults|
        invariant roles == Seed(old(roles), defaults[..k], old(nextRoleId))
        invariant nextRoleId == old(nextRoleId) + |roles| - |old(roles)|
        invariant users == old(users) && nextUserId == old(nextUserId)
      {
        assert defaults[..k + 1][..k] == defaults[..k];
        if !HasRole(roles, defaults[k].name) {
          roles := roles + [Role(nextRoleId, defaults[k].name, defaults[k].description)];
          nextRoleId := nextRoleId + 1;
        }
      }
      assert defaults[..|defaults|] == defaults;
      SeedKeepsValid(old(roles), defaults, old(nextRoleId));
      SeedKeepsNames(old(roles), defaults, old(nextRoleId));
      assert UsersRolesExist(users, roles);
    }

    /**
     * register: 400 when the username or the e-mail is already used;
     * otherwise the user is added, active, with the role RoleFor picks (none
     * when neither the requested role nor "customer" exists), and the claims
     * carry the new id, the username and those role names.
     */
    method Register(reg: Registration, passwordHash: string) returns (r: Result<Claims>)
      requires Valid()
      modifies this
      ensures Valid()
      ensures (exists i :: 0 <= i < |old(users)| && (old(users)[i].username == reg.username || old(users)[i].email == reg.email))
        ==> r == Fail(400, "Username or email already registered") && unchanged(this)
      ensures r.Ok? ==>
        var granted := if RoleFor(old(roles), reg.roleName).Some? then [RoleFor(old(roles), reg.roleName).value] else [];
        && r.value == Claims(old(nextUserId), reg.username, granted)
        && users == old(users) + [User(old(nextUserId), reg.username, reg.email, reg.fullName, passwordHash, true, granted)]
        && roles == old(roles)
      ensures r.Err? <==>
        exists i :: 0 <= i < |old(users)| && (old(users)[i].username == reg.username || old(users)[i].email == reg.email)
    {
      if exists i :: 0 <= i < |users| && (users[i].username == reg.username || users[i].email == reg.email) {
        return Fail(400, "Username or email already registered");
      }
      var role := RoleFor(roles, reg.roleName);
      var granted := if role.Some? then [role.value] else [];
      if role.Some? {
        var j :| 0 <= j < |roles| && roles[j].name == role.value;
        assert RoleNames(roles)[j] == role.value;
      }
      var u := User(nextUserId, reg.username, reg.email, reg.fullName, passwordHash, true, granted);
      AddUserKeepsValid(users, roles, u, nextUserId);
      users := users + [u];
      nextUserId := nextUserId + 1;
      r := Ok(Claims(u.id, u.username, u.roles));
    }

    /** GET /users and GET /roles: admins only. */
    method ListUsers(user: Payload) returns (r: Result<seq<User>>)
      ensures r.Ok? <==> "admin" in user.roles
      ensures r.Err? ==> r == Fail(403, "Only admin can access this endpoint")
      ensures r.Ok? ==> r.value == users
    {
      var gate := AdminGate(user, "Only admin can access this endpoint");
      if gate.Err? {
        return Err(gate.error);
      }
      return Ok(users);
    }

    method ListRoles(user: Payload) returns (r: Result<seq<Role>>)
      ensures r.Ok? <==> "admin" in user.roles
      ensures r.Err? ==> r == Fail(403, "Only admin can access this endpoint")
      ensures r.Ok? ==> r.value == roles
    {
      var gate := AdminGate(user, "Only admin can access this endpoint");
      if gate.Err? {
        return Err(gate.error);
      }
      return Ok(roles);
    }

    /** create_role: 403 for a non-admin, 400 for a name already used; otherwise the role is appended. */
    method CreateRole(user: Payload, name: string, description: Option<string>) returns (r: Result<Role>)
      requires Valid()
      modifies this
      ensures Valid()
      ensures "admin" !in user.roles ==> r == Fail(403, "Only admin can create roles") && unchanged(this)
      ensures "admin" in user.roles && HasRole(old(roles), name) ==> r == Fail(400, "Role already exists") && unchanged(this)
      ensures r.Ok? <==> "admin" in user.roles && !HasRole(old(roles), name)
      ensures r.Ok? ==>
        && r.value == Role(old(nextRoleId), name, description)
        && roles == old(roles) + [r.value] && users == old(users)
    {
      var gate := AdminGate(user, "Only admin can create roles");
      if gate.Err? {
        return Err(gate.error);
      }
      if HasRole(roles, name) {
        return Fail(400, "Role already exists");
      }
      var role := Role(nextRoleId, name, description);
      AddRoleKeepsNames(roles, role);
      roles := roles + [role];
      nextRoleId := nextRoleId + 1;
      r := Ok(role);
    }

    /**
     * update_user_roles: 403 for a non-admin, 404 for an unknown user, 400
     * unless every name is found exactly once; otherwise the user's roles are
     * replaced by the found roles, in table order.
     */
    method UpdateUserRoles(user: Payload, userId: int, names: seq<string>) returns (r: Result<User>)
      requires Valid()
      modifies this
      ensures Valid()
      ensures "admin" !in user.roles ==> r == Fail(403, "Only admin can update user roles") && unchanged(this)
      ensures "admin" in user.roles && (forall i :: 0 <= i < |old(users)| ==> old(users)[i].id != userId) ==>
        r == Fail(404, "User not found") && unchanged(this)
      ensures r.Err? ==> unchanged(this)
      ensures r.Ok? <==>
        && "admin" in user.roles
        && (exists i :: 0 <= i < |old(users)| && old(users)[i].id == userId)
        && NoDup(names) && (forall x :: x in names ==> x in RoleNames(old(roles)))
      ensures r.Ok? ==>
        exists i :: 0 <= i < |old(users)| && old(users)[i].id == userId
          && r.value == old(users)[i].(roles := FoundRoles(old(roles), names))
          && users == old(users)[i := r.value] && roles == old(roles)
    {
      var gate := AdminGate(user, "Only admin can update user roles");
      if gate.Err? {
        return Err(gate.error);
      }
      if forall i :: 0 <= i < |users| ==> users[i].id != userId {
        return Fail(404, "User not found");
      }
      var i :| 0 <= i < |users| && users[i].id == userId;
      var found := FoundRoles(roles, names);
      RoleListAccepted(roles, names);
      if |found| != |names| {
        return Fail(400, "One or more roles not found");
      }
      var updated := users[i].(roles := found);
      ReplaceRolesKeepsValid(users, roles, i, found, nextUserId);
      users := users[i := updated];
      r := Ok(updated);
      assert users == old(users)[i := r.value];
    }
  }

  lemma {:induction false} RoleNamesAppend(roles: seq<Role>, role: Role)
    ensures RoleNames(roles + [role]) == RoleNames(roles) + [role.name]
  {
    var a := RoleNames(roles + [role]);
    var b := RoleNames(roles) + [role.name];
    assert |a| == |b|;
    forall i | 0 <= i < |a|
      ensures a[i] == b[i]
    {
      assert (roles + [role])[i] == if i < |roles| then roles[i] else role;
    }
  }

  /** Appending a role whose name is new keeps the names unique and keeps every existing name. */
  lemma AddRoleKeepsNames(roles: seq<Role>, role: Role)
    requires NoDup(RoleNames(roles)) && !HasRole(roles, role.name)
    ensures NoDup(RoleNames(roles + [role]))
    ensures forall x :: x in RoleNames(roles) ==> x in RoleNames(roles + [role])
  {
    RoleNamesAppend(roles, role);
    var n := RoleNames(roles + [role]);
    forall i, j | 0 <= i < j < |n|
      ensures n[i] != n[j]
    {
      if j == |roles| {
        assert n[i] == roles[i].name;
      }
    }
  }

  /**
   * Registration lets the caller pick any existing role: with the "admin"
   * role seeded, a new account asking for it is signed as an admin.
   */
  lemma RegisterMaySelfAssignAdmin(roles: seq<Role>)
    requires HasRole(roles, "admin")
    ensures RoleFor(roles, Some("admin")) == Some("admin")
  {
  }

  /**
   * Login by e-mail can reach a different account than intended: nothing
   * stops one user's username from being another user's e-mail, and the
   * first of the two in the table wins.
   */
  lemma LoginAmbiguity(a: User, b: User)
    requires a.username == b.email && a.email != b.email && a.username != b.username
    ensures LoginMatch([a, b], b.email) == Some(0)
    ensures LoginMatch([b, a], b.email) == Some(0)
  {
  }
}
