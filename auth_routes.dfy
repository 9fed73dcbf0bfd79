// The authentication and user-management routes of
// book-store-api/routes/authRoutes.js: the token and owner middlewares, the
// default users, login, and the owner-only user table operations. bcrypt is
// the `Hash` value of Database (comparing a password is equality with the
// hash of it) and JWT signing and verification are function parameters.
module AuthRoutes {
  import opened Wrappers
  import opened Text
  import opened Database

  // ---------------------------------------------------------------------------
  // verifyToken and verifyOwner

  /** What a signed token carries, and what `req.user` holds once it is verified. */
  datatype Claims = Claims(userId: int, username: string, fullName: Option<string>, role: string)

  const NoToken := ApiError(401, "Token tidak ditemukan")
  const BadToken := ApiError(401, "Token tidak valid atau sudah expired")
  const OwnerOnly := ApiError(403, "Akses ditolak. Hanya owner yang dapat melakukan aksi ini.")

  /** `req.headers.authorization?.split(' ')[1]` when it is truthy: the second space-separated part. */
  function BearerToken(header: Option<string>): (r: Option<string>)
    ensures r.Some? ==> r.value != "" && ' ' !in r.value
  {
    if header.None? then None
    else
      var parts := Split(header.value, ' ');
      if |parts| < 2 || parts[1] == "" then None else Some(parts[1])
  }

  /** `verifyToken`; `verify` is `jwt.verify` with the server's secret, `None` when it throws. */
  function VerifyToken(header: Option<string>, verify: string -> Option<Claims>): Result<Claims, ApiError> {
    match BearerToken(header)
    case None => Err(NoToken)
    case Some(token) =>
      match verify(token)
      case None => Err(BadToken)
      case Some(claims) => Ok(claims)
  }

  /** `verifyOwner` on the verified claims. */
  function VerifyOwner(claims: Claims): Option<ApiError> {
    if claims.role != "owner" then Some(OwnerOnly) else None
  }

  /** The middleware chain in front of a handler: the token, then the owner check on owner-only routes. */
  function Authorize(header: Option<string>, verify: string -> Option<Claims>, ownerOnly: bool): Result<Claims, ApiError> {
    match VerifyToken(header, verify)
    case Err(e) => Err(e)
    case Ok(claims) =>
      if ownerOnly && VerifyOwner(claims).Some? then Err(OwnerOnly) else Ok(claims)
  }

  /** "Bearer <token>": the token is what follows the single space. */
  lemma {:induction false} BearerOfScheme(scheme: string, token: string)
    requires ' ' !in scheme && token != "" && ' ' !in token
    ensures BearerToken(Some(scheme + " " + token)) == Some(token)
  {
    assert scheme + " " + token == scheme + [' '] + token;
    SplitAfter(scheme, ' ', token);
    SplitNone(token, ' ');
  }

  /** A header without a space, or no header at all, carries no token. */
  lemma {:induction false} NoSpaceNoToken(header: string)
    requires ' ' !in header
    ensures BearerToken(Some(header)) == None && BearerToken(None) == None
  {
    SplitNone(header, ' ');
  }

  /**
   * The chain answers 401 without a token or with one `jwt.verify` rejects,
   * 403 on an owner-only route for any role but owner, and otherwise lets the
   * request through with the verified claims.
   */
  lemma {:induction false} AuthorizeOutcomes(header: Option<string>, verify: string -> Option<Claims>, ownerOnly: bool)
    ensures BearerToken(header).None? ==> Authorize(header, verify, ownerOnly) == Err(NoToken)
    ensures BearerToken(header).Some? && verify(BearerToken(header).value).None? ==>
      Authorize(header, verify, ownerOnly) == Err(BadToken)
    ensures BearerToken(header).Some? && verify(BearerToken(header).value).Some? ==>
      var claims := verify(BearerToken(header).value).value;
      Authorize(header, verify, ownerOnly) == if ownerOnly && claims.role != "owner" then Err(OwnerOnly) else Ok(claims)
  {
  }

  // ---------------------------------------------------------------------------
  // The users table

  /** `INSERT INTO users (username, password, full_name, role)`: the new user takes the next id. */
  function InsertUser(s: State, u: User): (r: (State, int))
    ensures r.1 == s.nextUserId
    ensures r.0 == s.(users := s.users[r.1 := u], nextUserId := r.1 + 1)
  {
    (s.(users := s.users[s.nextUserId := u], nextUserId := s.nextUserId + 1), s.nextUserId)
  }

  /** The ids of the active owners (`SELECT COUNT(*) … WHERE role = 'owner' AND is_active = TRUE`). */
  function ActiveOwners(users: map<int, User>): set<int> {
    set k | k in users && users[k].role == "owner" && users[k].isActive
  }

  /** Some user other than `except` has the username (`SELECT user_id FROM users WHERE username = ? [AND user_id != ?]`). */
  predicate NameTaken(users: map<int, User>, name: string, except: Option<int>) {
    exists k :: k in users && users[k].username == name && Some(k) != except
  }

  /** No two users share a username. */
  predicate UniqueNames(users: map<int, User>) {
    forall j, k :: j in users && k in users && j != k ==> users[j].username != users[k].username
  }

  /** bcrypt.compare: the stored hash is the hash of the given password. */
  predicate PasswordMatches(u: User, password: string) {
    u.password == Hash(password)
  }

  /** The roles the routes accept. */
  predicate ValidRole(role: string) {
    role == "owner" || role == "admin"
  }

  // ---------------------------------------------------------------------------
  // initDefaultUsers

  const DefaultOwner := User("owner", Hash("owner"), Some("Owner Toko"), "owner", true, None)
  const DefaultAdmin := User("admin", Hash("admin"), Some("Admin Toko"), "admin", true, None)

  /** The default owner and admin are inserted only into an empty table. */
  function InitUsersEffect(s: State): State {
    if |s.users| == 0 then InsertUser(InsertUser(s, DefaultOwner).0, DefaultAdmin).0 else s
  }

  method InitDefaultUsers(db: Db)
    modifies db
    ensures db.Snapshot() == InitUsersEffect(old(db.Snapshot()))
  {
    var count := |db.users|;
    if count == 0 {
      db.users := db.users[db.nextUserId := DefaultOwner];
      db.nextUserId := db.nextUserId + 1;
      db.users := db.users[db.nextUserId := DefaultAdmin];
      db.nextUserId := db.nextUserId + 1;
    }
  }

  /**
   * On an empty table exactly the default owner and admin are created and the
   * owner is an active owner; a table with any user is left as it is, so
   * running the initialisation again changes nothing.
   */
  lemma {:induction false} InitUsersResult(s: State)
    requires Valid(s)
    ensures var t := InitUsersEffect(s);
      Valid(t) && InitUsersEffect(t) == t
      && (|s.users| == 0 ==>
            t == s.(users := map[s.nextUserId := DefaultOwner, s.nextUserId + 1 := DefaultAdmin], nextUserId := s.nextUserId + 2)
            && ActiveOwners(t.users) == {s.nextUserId}
            && UniqueNames(t.users))
      && (|s.users| > 0 ==> t == s)
  {
    if |s.users| == 0 {
      assert s.users == map[];
      var t := InitUsersEffect(s);
      assert t.users.Keys == {s.nextUserId, s.nextUserId + 1};
      assert |t.users| == 2;
    }
  }

  // ---------------------------------------------------------------------------
  // POST /login

  datatype LoginResult = LoginResult(token: string, user: Claims)

  const MissingCredentials := ApiError(400, "Username dan password harus diisi")
  const BadLogin := ApiError(401, "Username atau password salah")

  /** The active user named `name` with the lowest id from `k` on (`… WHERE username = ? AND is_active = TRUE`). */
  function ActiveUserFrom(s: State, name: string, k: int): (r: Option<int>)
    ensures r.Some? ==> k <= r.value && r.value in s.users && s.users[r.value].username == name && s.users[r.value].isActive
    ensures r.None? ==> forall j :: k <= j < s.nextUserId && j in s.users ==> !(s.users[j].username == name && s.users[j].isActive)
    decreases s.nextUserId - k
  {
    if k >= s.nextUserId then None
    else if k in s.users && s.users[k].username == name && s.users[k].isActive then Some(k)
    else ActiveUserFrom(s, name, k + 1)
  }

  function ClaimsOf(id: int, u: User): Claims {
    Claims(id, u.username, u.fullName, u.role)
  }

  /**
   * Login: both fields are required; the user must exist and be active and
   * the password must match, with one message for either failure; success
   * stamps `last_login` and signs a token for the user's claims.
   */
  function LoginEffect(s: State, username: Option<string>, password: Option<string>, now: int, sign: Claims -> string)
    : Result<(State, LoginResult), ApiError>
  {
    if !Given(username) || !Given(password) then Err(MissingCredentials)
    else
      match ActiveUserFrom(s, username.value, 1)
      case None => Err(BadLogin)
      case Some(id) =>
        var u := s.users[id];
        if !PasswordMatches(u, password.value) then Err(BadLogin)
        else Ok((s.(users := s.users[id := u.(lastLogin := Some(now))]), LoginResult(sign(ClaimsOf(id, u)), ClaimsOf(id, u))))
  }

  method Login(db: Db, username: Option<string>, password: Option<string>, now: int, sign: Claims -> string)
    returns (r: Result<LoginResult, ApiError>)
    modifies db
    ensures LoginEffect(old(db.Snapshot()), username, password, now, sign).Err? ==>
      r == Err(LoginEffect(old(db.Snapshot()), username, password, now, sign).error) && db.Snapshot() == old(db.Snapshot())
    ensures LoginEffect(old(db.Snapshot()), username, password, now, sign).Ok? ==>
      r == Ok(LoginEffect(old(db.Snapshot()), username, password, now, sign).value.1)
      && db.Snapshot() == LoginEffect(old(db.Snapshot()), username, password, now, sign).value.0
  {
    if !Given(username) || !Given(password) {
      return Err(MissingCredentials);
    }
    var found := ActiveUserFrom(db.Snapshot(), username.value, 1);
    if found.None? {
      return Err(BadLogin);
    }
    var id := found.value;
    var u := db.users[id];
    if !PasswordMatches(u, password.value) {
      return Err(BadLogin);
    }
    db.users := db.users[id := u.(lastLogin := Some(now))];
    var claims := ClaimsOf(id, u);
    r := Ok(LoginResult(sign(claims), claims));
  }

  /**
   * A login succeeds exactly for an active user with that name whose password
   * matches; an unknown or inactive name and a wrong password give the same
   * 401; success changes only that user's `last_login`.
   */
  lemma {:induction false} LoginOutcomes(s: State, username: string, password: string, now: int, sign: Claims -> string)
    requires Valid(s) && username != "" && password != ""
    ensures var r := LoginEffect(s, Some(username), Some(password), now, sign);
      (r.Ok? <==> exists id :: id in s.users && s.users[id].username == username && s.users[id].isActive
                            && id == ActiveUserFrom(s, username, 1).value && PasswordMatches(s.users[id], password))
      && (r.Err? ==> r.error == BadLogin)
      && (r.Ok? ==>
            var id := r.value.1.user.userId;
            id in s.users && s.users[id].isActive && s.users[id].username == username
            && r.value.0 == s.(users := s.users[id := s.users[id].(lastLogin := Some(now))])
            && r.value.1.user.role == s.users[id].role)
  {
  }

  /** Without an active user of that name every password is refused with the shared message. */
  lemma {:induction false} UnknownUserRefused(s: State, username: string, password: string, now: int, sign: Claims -> string)
    requires Valid(s) && username != "" && password != ""
    requires forall k :: k in s.users && s.users[k].username == username ==> !s.users[k].isActive
    ensures LoginEffect(s, Some(username), Some(password), now, sign) == Err(BadLogin)
  {
  }

  // ---------------------------------------------------------------------------
  // POST /users

  datatype NewUser = NewUser(username: Option<string>, password: Option<string>, fullName: Option<string>, role: Option<string>)

  const BadRole := ApiError(400, "Role harus owner atau admin")
  const NameInUse := ApiError(400, "Username sudah digunakan")

  /** The row a create inserts: `full_name || null`, `role || 'admin'`, active and never logged in. */
  function NewUserRow(req: NewUser): User
    requires Given(req.username) && Given(req.password)
  {
    User(req.username.value, Hash(req.password.value), if Given(req.fullName) then req.fullName else None,
         if Given(req.role) then req.role.value else "admin", true, None)
  }

  function CreateUserEffect(s: State, req: NewUser): Result<(State, int), ApiError> {
    if !Given(req.username) || !Given(req.password) then Err(MissingCredentials)
    else if Given(req.role) && !ValidRole(req.role.value) then Err(BadRole)
    else if NameTaken(s.users, req.username.value, None) then Err(NameInUse)
    else Ok(InsertUser(s, NewUserRow(req)))
  }

  method CreateUser(db: Db, req: NewUser) returns (r: Result<int, ApiError>)
    modifies db
    ensures CreateUserEffect(old(db.Snapshot()), req).Err? ==>
      r == Err(CreateUserEffect(old(db.Snapshot()), req).error) && db.Snapshot() == old(db.Snapshot())
    ensures CreateUserEffect(old(db.Snapshot()), req).Ok? ==>
      r == Ok(CreateUserEffect(old(db.Snapshot()), req).value.1)
      && db.Snapshot() == CreateUserEffect(old(db.Snapshot()), req).value.0
  {
    if !Given(req.username) || !Given(req.password) {
      return Err(MissingCredentials);
    }
    if Given(req.role) && !ValidRole(req.role.value) {
      return Err(BadRole);
    }
    var taken := exists k :: k in db.users && db.users[k].username == req.username.value;
    if taken {
      return Err(NameInUse);
    }
    var id := db.nextUserId;
    db.users := db.users[id := NewUserRow(req)];
    db.nextUserId := id + 1;
    r := Ok(id);
  }

  /**
   * A create is refused without a username or password, with a role other
   * than owner or admin, or with a username in use (active or not); otherwise
   * it adds one active user under a fresh id, role admin by default, and
   * usernames stay unique.
   */
  lemma {:induction false} CreateUserOutcomes(s: State, req: NewUser)
    requires Valid(s) && UniqueNames(s.users)
    ensures var r := CreateUserEffect(s, req);
      (r.Err? <==> !Given(req.username) || !Given(req.password)
                   || (Given(req.role) && !ValidRole(req.role.value))
                   || NameTaken(s.users, req.username.value, None))
      && (r.Ok? ==>
            var (t, id) := r.value;
            id !in s.users && t.users == s.users[id := NewUserRow(req)] && Valid(t) && UniqueNames(t.users)
            && ValidRole(t.users[id].role) && t.users[id].isActive
            && (req.role.None? ==> t.users[id].role == "admin"))
  {
  }

  // ---------------------------------------------------------------------------
  // PUT /users/:id

  /** The fields of an update body; `None` is `undefined`; `fullName` may be `null`. */
  datatype UserChanges = UserChanges(username: Option<string>, fullName: Option<Option<string>>, role: Option<string>,
                                     isActive: Option<bool>)

  /** One `column = ?` of the UPDATE statement with its value. */
  datatype Column = SetUsername(name: string) | SetFullName(fullName: Option<string>) | SetRole(role: string) | SetActive(active: bool)

  const UserMissing := ApiError(404, "User tidak ditemukan")
  const SelfDeactivation := ApiError(400, "Tidak dapat menonaktifkan akun sendiri")
  const NothingToUpdate := ApiError(400, "Tidak ada data yang diupdate")

  /** `updateFields`/`updateValues`, pushed in order; a role other than owner or admin is skipped. */
  method UpdateColumns(req: UserChanges) returns (columns: seq<Column>)
    ensures columns == ColumnsOf(req)
  {
    columns := [];
    if req.username.Some? {
      columns := columns + [SetUsername(req.username.value)];
    }
    if req.fullName.Some? {
      columns := columns + [SetFullName(req.fullName.value)];
    }
    if req.role.Some? && ValidRole(req.role.value) {
      columns := columns + [SetRole(req.role.value)];
    }
    if req.isActive.Some? {
      columns := columns + [SetActive(req.isActive.value)];
    }
  }

  function ColumnsOf(req: UserChanges): seq<Column> {
    (if req.username.Some? then [SetUsername(req.username.value)] else [])
    + (if req.fullName.Some? then [SetFullName(req.fullName.value)] else [])
    + (if req.role.Some? && ValidRole(req.role.value) then [SetRole(req.role.value)] else [])
    + (if req.isActive.Some? then [SetActive(req.isActive.value)] else [])
  }

  function ApplyColumn(u: User, c: Column): User {
    match c
    case SetUsername(name) => u.(username := name)
    case SetFullName(fullName) => u.(fullName := fullName)
    case SetRole(role) => u.(role := role)
    case SetActive(active) => u.(isActive := active)
  }

  /** `UPDATE users SET <columns> WHERE user_id = ?`. */
  function ApplyColumns(u: User, cs: seq<Column>): User
    decreases |cs|
  {
    if cs == [] then u else ApplyColumns(ApplyColumn(u, cs[0]), cs[1..])
  }

  /** The columns set exactly the supplied fields, an invalid role excepted, and leave the password and last login alone. */
  lemma {:induction false} ColumnsChangeSuppliedFields(u: User, req: UserChanges)
    ensures var v := ApplyColumns(u, ColumnsOf(req));
      v.username == (if req.username.Some? then req.username.value else u.username)
      && v.fullName == (if req.fullName.Some? then req.fullName.value else u.fullName)
      && v.role == (if req.role.Some? && ValidRole(req.role.value) then req.role.value else u.role)
      && v.isActive == (if req.isActive.Some? then req.isActive.value else u.isActive)
      && v.password == u.password && v.lastLogin == u.lastLogin
      && (ColumnsOf(req) == [] <==> req.username.None? && req.fullName.None? && req.isActive.None?
                                     && !(req.role.Some? && ValidRole(req.role.value)))
  {
    var cs := ColumnsOf(req);
    var c0 := if req.username.Some? then [SetUsername(req.username.value)] else [];
    var c1 := if req.fullName.Some? then [SetFullName(req.fullName.value)] else [];
    var c2 := if req.role.Some? && ValidRole(req.role.value) then [SetRole(req.role.value)] else [];
    var c3 := if req.isActive.Some? then [SetActive(req.isActive.value)] else [];
    assert cs == c0 + (c1 + (c2 + c3));
    var u0 := ApplyColumns(u, c0);
    var u1 := ApplyColumns(u0, c1);
    var u2 := ApplyColumns(u1, c2);
    if req.username.Some? { ApplyOne(u, SetUsername(req.username.value)); }
    if req.fullName.Some? { ApplyOne(u0, SetFullName(req.fullName.value)); }
    if req.role.Some? && ValidRole(req.role.value) { ApplyOne(u1, SetRole(req.role.value)); }
    if req.isActive.Some? { ApplyOne(u2, SetActive(req.isActive.value)); }
    ApplyConcat(u, c0, c1 + (c2 + c3));
    ApplyConcat(u0, c1, c2 + c3);
    ApplyConcat(u1, c2, c3);
    assert |cs| == |c0| + |c1| + |c2| + |c3|;
  }

  lemma {:induction false} ApplyOne(u: User, c: Column)
    ensures ApplyColumns(u, [c]) == ApplyColumn(u, c)
  {
    assert [c][1..] == [];
  }

  lemma {:induction false} ApplyConcat(u: User, a: seq<Column>, b: seq<Column>)
    ensures ApplyColumns(u, a + b) == ApplyColumns(ApplyColumns(u, a), b)
    decreases |a|
  {
    if a != [] {
      assert (a + b)[0] == a[0] && (a + b)[1..] == a[1..] + b;
      ApplyConcat(ApplyColumn(u, a[0]), a[1..], b);
    } else {
      assert a + b == b;
    }
  }

  function UpdateUserEffect(s: State, caller: Claims, id: int, req: UserChanges): Result<State, ApiError> {
    if id !in s.users then Err(UserMissing)
    else if s.users[id].role == "owner" && req.isActive == Some(false) && caller.userId == id then Err(SelfDeactivation)
    else if Given(req.username) && NameTaken(s.users, req.username.value, Some(id)) then Err(NameInUse)
    else if ColumnsOf(req) == [] then Err(NothingToUpdate)
    else Ok(s.(users := s.users[id := ApplyColumns(s.users[id], ColumnsOf(req))]))
  }

  method UpdateUser(db: Db, caller: Claims, id: int, req: UserChanges) returns (err: Option<ApiError>)
    modifies db
    ensures UpdateUserEffect(old(db.Snapshot()), caller, id, req).Err? ==>
      err == Some(UpdateUserEffect(old(db.Snapshot()), caller, id, req).error) && db.Snapshot() == old(db.Snapshot())
    ensures UpdateUserEffect(old(db.Snapshot()), caller, id, req).Ok? ==>
      err == None && db.Snapshot() == UpdateUserEffect(old(db.Snapshot()), caller, id, req).value
  {
    if id !in db.users {
      return Some(UserMissing);
    }
    if db.users[id].role == "owner" && req.isActive == Some(false) && caller.userId == id {
      return Some(SelfDeactivation);
    }
    if Given(req.username) {
      var taken := exists k :: k in db.users && db.users[k].username == req.username.value && k != id;
      if taken {
        return Some(NameInUse);
      }
    }
    var columns := UpdateColumns(req);
    if columns == [] {
      return Some(NothingToUpdate);
    }
    db.users := db.users[id := ApplyColumns(db.users[id], columns)];
    err := None;
  }

  /**
   * An update changes only the target user, and only the supplied fields
   * (an invalid role is ignored); a non-empty new username must not belong to
   * another user, so usernames stay unique.
   */
  lemma {:induction false} UpdateUserOutcomes(s: State, caller: Claims, id: int, req: UserChanges)
    requires UniqueNames(s.users)
    requires UpdateUserEffect(s, caller, id, req).Ok?
    ensures var t := UpdateUserEffect(s, caller, id, req).value;
      id in s.users && t.users.Keys == s.users.Keys
      && t == s.(users := t.users)
      && (forall k :: k in s.users && k != id ==> t.users[k] == s.users[k])
      && t.users[id] == ApplyColumns(s.users[id], ColumnsOf(req))
      && !(s.users[id].role == "owner" && caller.userId == id && !t.users[id].isActive && req.isActive.Some?)
      && (req.username.Some? && req.username.value != "" ==> UniqueNames(t.users))
  {
    ColumnsChangeSuppliedFields(s.users[id], req);
  }

  /**
   * The last-owner protection exists only on delete: an owner may demote
   * themselves by an update and leave the shop with no active owner.
   */
  lemma {:induction false} UpdateCanRemoveLastOwner()
    ensures var owner := User("owner", Hash("owner"), None, "owner", true, None);
      var s := State(map[], map[], map[], [], [], true, [], map[1 := owner], 1, 1, 1, 2);
      var r := UpdateUserEffect(s, Claims(1, "owner", None, "owner"), 1, UserChanges(None, None, Some("admin"), None));
      |ActiveOwners(s.users)| == 1 && r.Ok? && ActiveOwners(r.value.users) == {}
  {
    var owner := User("owner", Hash("owner"), None, "owner", true, None);
    var s := State(map[], map[], map[], [], [], true, [], map[1 := owner], 1, 1, 1, 2);
    var req := UserChanges(None, None, Some("admin"), None);
    assert ColumnsOf(req) == [SetRole("admin")];
    assert ApplyColumns(owner, [SetRole("admin")]) == ApplyColumns(owner.(role := "admin"), []);
    assert ActiveOwners(s.users) == {1};
    var r := UpdateUserEffect(s, Claims(1, "owner", None, "owner"), 1, req);
    assert r.value.users == map[1 := owner.(role := "admin")];
  }

  // ---------------------------------------------------------------------------
  // PUT /users/:id/reset-password and PUT /change-password

  const MinPasswordLength := 4

  const ResetMissing := ApiError(400, "Password baru harus diisi")
  const ResetTooShort := ApiError(400, "Password minimal 4 karakter")

  /** `UPDATE users SET password = ? WHERE user_id = ?` with the hash of the new password. */
  function SetPassword(s: State, id: int, password: string): State
    requires id in s.users
  {
    s.(users := s.users[id := s.users[id].(password := Hash(password))])
  }

  function ResetPasswordEffect(s: State, id: int, newPassword: Option<string>): Result<State, ApiError> {
    if !Given(newPassword) then Err(ResetMissing)
    else if |newPassword.value| < MinPasswordLength then Err(ResetTooShort)
    else if id !in s.users then Err(UserMissing)
    else Ok(SetPassword(s, id, newPassword.value))
  }

  method ResetPassword(db: Db, id: int, newPassword: Option<string>) returns (err: Option<ApiError>)
    modifies db
    ensures ResetPasswordEffect(old(db.Snapshot()), id, newPassword).Err? ==>
      err == Some(ResetPasswordEffect(old(db.Snapshot()), id, newPassword).error) && db.Snapshot() == old(db.Snapshot())
    ensures ResetPasswordEffect(old(db.Snapshot()), id, newPassword).Ok? ==>
      err == None && db.Snapshot() == ResetPasswordEffect(old(db.Snapshot()), id, newPassword).value
  {
    if !Given(newPassword) {
      return Some(ResetMissing);
    }
    if |newPassword.value| < MinPasswordLength {
      return Some(ResetTooShort);
    }
    if id !in db.users {
      return Some(UserMissing);
    }
    db.users := db.users[id := db.users[id].(password := Hash(newPassword.value))];
    err := None;
  }

  const ChangeMissing := ApiError(400, "Password lama dan baru harus diisi")
  const ChangeTooShort := ApiError(400, "Password baru minimal 4 karakter")
  const WrongPassword := ApiError(401, "Password lama salah")

  /** The caller changes their own password; the current one must match. */
  function ChangePasswordEffect(s: State, caller: Claims, current: Option<string>, newPassword: Option<string>): Result<State, ApiError> {
    if !Given(current) || !Given(newPassword) then Err(ChangeMissing)
    else if |newPassword.value| < MinPasswordLength then Err(ChangeTooShort)
    else if caller.userId !in s.users then Err(UserMissing)
    else if !PasswordMatches(s.users[caller.userId], current.value) then Err(WrongPassword)
    else Ok(SetPassword(s, caller.userId, newPassword.value))
  }

  method ChangePassword(db: Db, caller: Claims, current: Option<string>, newPassword: Option<string>) returns (err: Option<ApiError>)
    modifies db
    ensures ChangePasswordEffect(old(db.Snapshot()), caller, current, newPassword).Err? ==>
      err == Some(ChangePasswordEffect(old(db.Snapshot()), caller, current, newPassword).error) && db.Snapshot() == old(db.Snapshot())
    ensures ChangePasswordEffect(old(db.Snapshot()), caller, current, newPassword).Ok? ==>
      err == None && db.Snapshot() == ChangePasswordEffect(old(db.Snapshot()), caller, current, newPassword).value
  {
    if !Given(current) || !Given(newPassword) {
      return Some(ChangeMissing);
    }
    if |newPassword.value| < MinPasswordLength {
      return Some(ChangeTooShort);
    }
    if caller.userId !in db.users {
      return Some(UserMissing);
    }
    if !PasswordMatches(db.users[caller.userId], current.value) {
      return Some(WrongPassword);
    }
    db.users := db.users[caller.userId := db.users[caller.userId].(password := Hash(newPassword.value))];
    err := None;
  }

  /** Both password routes refuse a missing password or one shorter than four characters, before looking at the user. */
  lemma {:induction false} ShortPasswordsRefused(s: State, caller: Claims, id: int, current: string, p: string)
    requires current != "" && |p| < MinPasswordLength
    ensures ResetPasswordEffect(s, id, Some(p)).Err? && ResetPasswordEffect(s, id, Some(p)).error.status == 400
    ensures ChangePasswordEffect(s, caller, Some(current), Some(p)).Err?
    ensures ChangePasswordEffect(s, caller, Some(current), Some(p)).error.status == 400
  {
  }

  /**
   * After a change the new password matches and, when the two differ, the old
   * one no longer does; a wrong current password is refused with 401 and
   * changes nothing.
   */
  lemma {:induction false} ChangePasswordRoundTrip(s: State, caller: Claims, current: string, p: string)
    requires current != "" && |p| >= MinPasswordLength && caller.userId in s.users
    ensures var r := ChangePasswordEffect(s, caller, Some(current), Some(p));
      (r.Ok? <==> PasswordMatches(s.users[caller.userId], current))
      && (r.Err? ==> r.error == WrongPassword)
      && (r.Ok? ==> PasswordMatches(r.value.users[caller.userId], p)
                    && (p != current ==> !PasswordMatches(r.value.users[caller.userId], current))
                    && r.value.users.Keys == s.users.Keys)
  {
  }

  /** A reset makes the new password the one that matches, for any existing user. */
  lemma {:induction false} ResetThenMatches(s: State, id: int, p: string)
    requires id in s.users && |p| >= MinPasswordLength
    ensures ResetPasswordEffect(s, id, Some(p)).Ok?
    ensures PasswordMatches(ResetPasswordEffect(s, id, Some(p)).value.users[id], p)
  {
  }

  // ---------------------------------------------------------------------------
  // DELETE /users/:id

  const SelfDelete := ApiError(400, "Tidak dapat menghapus akun sendiri")
  const LastOwner := ApiError(400, "Tidak dapat menghapus owner terakhir")

  /** A soft delete: the user is only deactivated. */
  function DeleteUserEffect(s: State, caller: Claims, id: int): Result<State, ApiError> {
    if id !in s.users then Err(UserMissing)
    else if caller.userId == id then Err(SelfDelete)
    else if s.users[id].role == "owner" && |ActiveOwners(s.users)| <= 1 then Err(LastOwner)
    else Ok(s.(users := s.users[id := s.users[id].(isActive := false)]))
  }

  method DeleteUser(db: Db, caller: Claims, id: int) returns (err: Option<ApiError>)
    modifies db
    ensures DeleteUserEffect(old(db.Snapshot()), caller, id).Err? ==>
      err == Some(DeleteUserEffect(old(db.Snapshot()), caller, id).error) && db.Snapshot() == old(db.Snapshot())
    ensures DeleteUserEffect(old(db.Snapshot()), caller, id).Ok? ==>
      err == None && db.Snapshot() == DeleteUserEffect(old(db.Snapshot()), caller, id).value
  {
    if id !in db.users {
      return Some(UserMissing);
    }
    if caller.userId == id {
      return Some(SelfDelete);
    }
    if db.users[id].role == "owner" {
      var ownerCount := |ActiveOwners(db.users)|;
      if ownerCount <= 1 {
        return Some(LastOwner);
      }
    }
    db.users := db.users[id := db.users[id].(isActive := false)];
    err := None;
  }

  /** A delete keeps every row and only clears the target's `is_active`. */
  lemma {:induction false} DeleteIsSoft(s: State, caller: Claims, id: int)
    requires DeleteUserEffect(s, caller, id).Ok?
    ensures var t := DeleteUserEffect(s, caller, id).value;
      id in s.users && id != caller.userId
      && t.users.Keys == s.users.Keys && t == s.(users := t.users)
      && t.users[id] == s.users[id].(isActive := false)
      && (forall k :: k in s.users && k != id ==> t.users[k] == s.users[k])
  {
  }

  /** The active owners after a delete: the same set less the deleted user. */
  lemma {:induction false} DeleteOwners(s: State, caller: Claims, id: int)
    requires DeleteUserEffect(s, caller, id).Ok?
    ensures ActiveOwners(DeleteUserEffect(s, caller, id).value.users) == ActiveOwners(s.users) - {id}
  {
    var t := DeleteUserEffect(s, caller, id).value;
    forall k
      ensures k in ActiveOwners(t.users) <==> k in ActiveOwners(s.users) - {id}
    {
      if k in s.users && k != id {
        assert t.users[k] == s.users[k];
      }
    }
  }

  /** Removing one element from a set loses at most one. */
  lemma {:induction false} RemoveOne(a: set<int>, x: int)
    ensures |a - {x}| >= |a| - 1
  {
    if x in a {
      assert a == (a - {x}) + {x};
    } else {
      assert a - {x} == a;
    }
  }

  /** A delete that succeeds never leaves the shop without an active owner if it had one. */
  lemma {:induction false} DeleteKeepsAnOwner(s: State, caller: Claims, id: int)
    requires DeleteUserEffect(s, caller, id).Ok?
    requires |ActiveOwners(s.users)| >= 1
    ensures |ActiveOwners(DeleteUserEffect(s, caller, id).value.users)| >= 1
  {
    DeleteOwners(s, caller, id);
    if id in ActiveOwners(s.users) {
      RemoveOne(ActiveOwners(s.users), id);
    } else {
      assert ActiveOwners(s.users) - {id} == ActiveOwners(s.users);
    }
  }

  /** A delete is refused for a missing user, for oneself, and for an owner while at most one owner is active. */
  lemma {:induction false} DeleteRefusals(s: State, caller: Claims, id: int)
    ensures id !in s.users ==> DeleteUserEffect(s, caller, id) == Err(UserMissing)
    ensures id in s.users && caller.userId == id ==> DeleteUserEffect(s, caller, id) == Err(SelfDelete)
    ensures id in s.users && caller.userId != id && s.users[id].role == "owner" && |ActiveOwners(s.users)| <= 1 ==>
      DeleteUserEffect(s, caller, id) == Err(LastOwner)
    ensures id in s.users && caller.userId != id && s.users[id].role != "owner" ==> DeleteUserEffect(s, caller, id).Ok?
  {
  }
}
