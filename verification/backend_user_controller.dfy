/** The backend's UserController: registration with its three validations,
    login, the profile read and update, and the admin user list. The
    password hash, its comparison and `jwt.sign` are oracle parameters;
    `req.user` is the decoded token the middleware passed on. */
module BackendUserController {
  import opened Text
  import opened Seqs
  import opened UserModel
  import opened AuthMiddleware

  /** No `@` and no white space. */
  predicate Plain(t: string) {
    forall k :: 0 <= k < |t| ==> t[k] != '@' && !IsSpace(t[k])
  }

  /** `/^[^\s@]+@[^\s@]+\.[^\s@]+$/` read literally: three non-empty plain
      runs, the first two joined by `@`, the last two by a dot. */
  ghost predicate EmailPattern(s: string) {
    exists i, j :: 0 < i && i + 1 < j && j + 1 < |s| && s[i] == '@' && s[j] == '.'
                   && Plain(s[..i]) && Plain(s[i + 1..j]) && Plain(s[j + 1..])
  }

  /** The email check as it can be computed: a non-empty plain local part
      before the first `@`, and after it a plain domain with a dot that has
      text on both sides. */
  predicate ValidEmail(s: string) {
    var i := FindIndex(s, (c: char) => c == '@');
    0 < i < |s| && Plain(s[..i])
    && var d := s[i + 1..];
       Plain(d) && exists j :: 0 < j < |d| - 1 && d[j] == '.'
  }

  /** The computed check accepts exactly the strings the pattern matches. */
  lemma ValidEmailIsPattern(s: string)
    ensures ValidEmail(s) <==> EmailPattern(s)
  {
    if ValidEmail(s) {
      ValidEmailMatches(s);
    }
    if EmailPattern(s) {
      var i, j :| 0 < i && i + 1 < j && j + 1 < |s| && s[i] == '@' && s[j] == '.'
                  && Plain(s[..i]) && Plain(s[i + 1..j]) && Plain(s[j + 1..]);
      PatternIsValid(s, i, j);
    }
  }

  lemma PlainSlice(t: string, a: int, b: int)
    requires Plain(t) && 0 <= a <= b <= |t|
    ensures Plain(t[a..b])
  {
    assert forall k :: 0 <= k < b - a ==> t[a..b][k] == t[a + k];
  }

  lemma ValidEmailMatches(s: string)
    requires ValidEmail(s)
    ensures EmailPattern(s)
  {
    var i := FindIndex(s, (c: char) => c == '@');
    var d := s[i + 1..];
    var j :| 0 < j < |d| - 1 && d[j] == '.';
    var j' := i + 1 + j;
    PlainSlice(d, 0, j);
    PlainSlice(d, j + 1, |d|);
    assert s[i + 1..j'] == d[..j];
    assert s[j' + 1..] == d[j + 1..];
    assert s[j'] == d[j];
  }

  lemma PatternIsValid(s: string, i: int, j: int)
    requires 0 < i && i + 1 < j && j + 1 < |s| && s[i] == '@' && s[j] == '.'
    requires Plain(s[..i]) && Plain(s[i + 1..j]) && Plain(s[j + 1..])
    ensures ValidEmail(s)
  {
    assert forall k :: 0 <= k < i ==> s[..i][k] == s[k];
    assert FindIndex(s, (c: char) => c == '@') == i;
    var d := s[i + 1..];
    forall k | 0 <= k < |d| ensures d[k] != '@' && !IsSpace(d[k]) {
      if k < j - i - 1 {
        assert d[k] == s[i + 1..j][k];
      } else if k > j - i - 1 {
        assert d[k] == s[j + 1..][k - (j - i)];
      } else {
        assert d[k] == '.';
      }
    }
    assert d[j - i - 1] == '.';
  }

  lemma EmailAccepted()
    ensures ValidEmail("a@b.co")
  {
    var s := "a@b.co";
    assert s[..1] == "a" && s[2..3] == "b" && s[4..] == "co";
    PatternIsValid(s, 1, 3);
  }

  /** Refused: no dot after the `@`, nothing before it, a space. */
  lemma EmailsRefused()
    ensures !ValidEmail("a@b")
    ensures !ValidEmail("@b.co")
    ensures !ValidEmail("a b@c.d")
  {
    assert FindIndex("a@b", (c: char) => c == '@') == 1;
    assert FindIndex("@b.co", (c: char) => c == '@') == 0;
    assert FindIndex("a b@c.d", (c: char) => c == '@') == 3;
    assert "a b@c.d"[..3][1] == ' ';
  }

  const RequiredFields: string := "All fields are required: email, password, first_name, last_name"
  const BadEmail: string := "Please provide a valid email address"
  const ShortPassword: string := "Password must be at least 6 characters long"
  const BadCredentials: string := "Invalid email or password"
  const NoUser: string := "User not found"
  const NothingToUpdate: string := "At least one field must be provided for update"
  const NotAdmin: string := "Access denied. Admin privileges required."

  datatype RegisterBody = RegisterBody(email: Option<string>, password: Option<string>,
                                       firstName: Option<string>, lastName: Option<string>,
                                       role: Option<string>)

  /** An answer: status, message, and on success the user and the token. */
  datatype Reply = Reply(status: int, message: string, user: Option<PublicUser>, token: Option<string>)

  function Refusal(status: int, message: string): Reply {
    Reply(status, message, None, None)
  }

  /** register's validations, in order: the four required fields, the email
      pattern, the password length. */
  function RegisterCheck(b: RegisterBody): (err: Option<string>)
    ensures err.None? <==> Truthy(b.email) && Truthy(b.password) && Truthy(b.firstName) && Truthy(b.lastName)
                           && ValidEmail(b.email.value) && Utf16Length(b.password.value) >= 6
    ensures err == Some(RequiredFields) <==>
              !Truthy(b.email) || !Truthy(b.password) || !Truthy(b.firstName) || !Truthy(b.lastName)
    ensures err == Some(BadEmail) ==> Truthy(b.email) && !ValidEmail(b.email.value)
    ensures err == Some(ShortPassword) ==> ValidEmail(b.email.value) && Utf16Length(b.password.value) < 6
    ensures err.Some? ==> err.value in {RequiredFields, BadEmail, ShortPassword}
  {
    if !Truthy(b.email) || !Truthy(b.password) || !Truthy(b.firstName) || !Truthy(b.lastName) then
      Some(RequiredFields)
    else if !ValidEmail(b.email.value) then Some(BadEmail)
    else if Utf16Length(b.password.value) < 6 then Some(ShortPassword)
    else None
  }

  /** `password.length` counts UTF-16 units: three emoji are six units and
      pass the length check, while three letters do not. */
  lemma PasswordLengthInUnits(email: string, first: string, last: string)
    requires ValidEmail(email) && first != "" && last != ""
    ensures RegisterCheck(RegisterBody(Some(email), Some("\U{1F600}\U{1F600}\U{1F600}"), Some(first), Some(last), None)).None?
    ensures RegisterCheck(RegisterBody(Some(email), Some("abc"), Some(first), Some(last), None)) == Some(ShortPassword)
  {
    assert Utf16Length("\U{1F600}\U{1F600}\U{1F600}") == 6;
    assert Utf16Length("abc") == 3;
  }

  /** The token's payload: `{userId, email, role}`. */
  function TokenFor(u: PublicUser, sign: Claims -> string): string {
    sign(SignedClaims(u.id, u.email, u.role))
  }

  /** register: 400 on a failed check and 409 on a known email, both
      without a write; otherwise 201 with the new user, role 'user' unless
      one is given, and a token for it. */
  method Register(t: UserTable, b: RegisterBody, hash: string -> string, sign: Claims -> string) returns (r: Reply)
    requires t.Valid()
    modifies t
    ensures t.Valid()
    ensures RegisterCheck(b).Some? ==>
              r == Refusal(400, RegisterCheck(b).value) && t.rows == old(t.rows)
    ensures RegisterCheck(b).None? && old(t.FindByEmail(b.email.value)).Some? ==>
              r == Refusal(409, DuplicateEmail) && t.rows == old(t.rows)
    ensures RegisterCheck(b).None? && old(t.FindByEmail(b.email.value)).None? ==>
              var row := UserRow(old(t.nextId), b.email.value, hash(b.password.value), b.firstName.value,
                                 b.lastName.value, if b.role.Some? then b.role.value else DefaultRole, None, None);
              r.status == 201 && t.rows == old(t.rows) + [row] && r.user == Some(Public(row))
              && r.token == Some(TokenFor(r.user.value, sign))
  {
    var err := RegisterCheck(b);
    if err.Some? {
      return Refusal(400, err.value);
    }
    var role := if b.role.Some? then b.role.value else DefaultRole;
    var created := t.CreateUser(b.email.value, b.password.value, b.firstName.value, b.lastName.value, Some(role), hash);
    match created
    case Err(_) => r := Refusal(409, DuplicateEmail);
    case Ok(u) => r := Reply(201, "User registered successfully", Some(u), Some(TokenFor(u, sign)));
  }

  /** login: 400 without both fields; one and the same 401 for an unknown
      email and for a wrong password; otherwise the user and a token. */
  function Login(t: UserTable, email: Option<string>, password: Option<string>,
                 compare: (string, string) -> bool, sign: Claims -> string): (r: Reply)
    reads t
    ensures !Truthy(email) || !Truthy(password) ==> r == Refusal(400, "Email and password are required")
    ensures r.status == 200 <==> Truthy(email) && Truthy(password) && t.FindByEmail(email.value).Some?
                                 && compare(password.value, t.FindByEmail(email.value).value.passwordHash)
    ensures r.status == 200 ==> r.user == Some(Public(t.FindByEmail(email.value).value))
                                && r.token == Some(TokenFor(r.user.value, sign))
    ensures r.status != 200 && Truthy(email) && Truthy(password) ==> r == Refusal(401, BadCredentials)
  {
    if !Truthy(email) || !Truthy(password) then Refusal(400, "Email and password are required")
    else match t.FindByEmail(email.value)
      case None => Refusal(401, BadCredentials)
      case Some(u) =>
        if !compare(password.value, u.passwordHash) then Refusal(401, BadCredentials)
        else Reply(200, "Login successful", Some(Public(u)), Some(TokenFor(Public(u), sign)))
  }

  /** A caller cannot tell an unknown email from a wrong password. */
  lemma LoginFailuresIdentical(t: UserTable, known: string, unknown: string, password: string,
                               compare: (string, string) -> bool, sign: Claims -> string)
    requires known != "" && unknown != "" && password != ""
    requires t.FindByEmail(unknown).None?
    requires t.FindByEmail(known).Some? && !compare(password, t.FindByEmail(known).value.passwordHash)
    ensures Login(t, Some(unknown), Some(password), compare, sign) == Login(t, Some(known), Some(password), compare, sign)
  {
  }

  /** getProfile for the user the token names. */
  function GetProfile(t: UserTable, user: Claims): (r: Reply)
    reads t
    ensures r.status == 200 <==> UserIdClaim(user).Some? && t.FindById(UserIdClaim(user).value).Some?
    ensures r.status == 200 ==> r.user == t.FindById(UserIdClaim(user).value)
    ensures r.status != 200 ==> r == Refusal(404, NoUser)
  {
    match UserIdClaim(user)
    case None => Refusal(404, NoUser)
    case Some(id) =>
      match t.FindById(id)
      case None => Refusal(404, NoUser)
      case Some(u) => Reply(200, "", Some(u), None)
  }

  /** Some field of the patch is truthy. */
  predicate AnyGiven(p: ProfilePatch) {
    Truthy(p.firstName) || Truthy(p.lastName) || Truthy(p.bio) || Truthy(p.phone)
  }

  /** updateProfile: 400 when no field is truthy and 404 for an unknown
      user, both without a write; otherwise the patched row. */
  method UpdateProfile(t: UserTable, user: Claims, p: ProfilePatch) returns (r: Reply, view: Option<UserView>)
    requires t.Valid()
    modifies t
    ensures t.Valid()
    ensures !AnyGiven(p) ==> r == Refusal(400, NothingToUpdate) && view.None? && t.rows == old(t.rows)
    ensures AnyGiven(p) && UserIdClaim(user).None? ==> r == Refusal(404, NoUser) && t.rows == old(t.rows)
    ensures AnyGiven(p) && UserIdClaim(user).Some? ==>
              t.rows == UpdateWhere(old(t.rows), UserIdClaim(user).value, p)
              && (r.status == 200 <==> view.Some?)
              && (r.status != 200 ==> r == Refusal(404, NoUser))
              && (view.Some? <==> exists u :: u in old(t.rows) && u.id == UserIdClaim(user).value)
  {
    view := None;
    if !AnyGiven(p) {
      return Refusal(400, NothingToUpdate), None;
    }
    if UserIdClaim(user).None? {
      return Refusal(404, NoUser), None;
    }
    view := t.UpdateProfile(UserIdClaim(user).value, p);
    if view.None? {
      r := Refusal(404, NoUser);
    } else {
      r := Reply(200, "Profile updated successfully", Some(view.value.user), None);
    }
  }

  /** getAllUsers: 403 unless the token's role is 'admin'. */
  function GetAllUsers(t: UserTable, user: Claims): (r: Result<seq<PublicUser>>)
    reads t
    ensures r.Ok? <==> RoleClaim(user) == Some("admin")
    ensures r.Ok? ==> r.value == t.GetAllUsers()
    ensures r.Err? ==> r.error == NotAdmin
  {
    if RoleClaim(user) != Some("admin") then Err(NotAdmin) else Ok(t.GetAllUsers())
  }

  /** A user registered through the controller can then log in with the
      same password, given a hash comparison that accepts its own hashes. */
  method RegisterThenLogin(t: UserTable, b: RegisterBody, hash: string -> string,
                           compare: (string, string) -> bool, sign: Claims -> string) returns (r1: Reply, r2: Reply)
    requires t.Valid()
    requires forall pw :: compare(pw, hash(pw))
    modifies t
    ensures t.Valid()
    ensures r1.status == 201 ==> r2.status == 200 && r2.user == r1.user
  {
    r1 := Register(t, b, hash, sign);
    r2 := Login(t, b.email, b.password, compare, sign);
    if r1.status == 201 {
      RegisteredIsFound(t, b.email.value);
    }
  }

  /** The last row's email finds the last row, since emails are unique. */
  lemma RegisteredIsFound(t: UserTable, email: string)
    requires t.Valid() && |t.rows| > 0 && t.rows[|t.rows| - 1].email == email
    ensures t.FindByEmail(email) == Some(t.rows[|t.rows| - 1])
  {
    var k := FindIndex(t.rows, (u: UserRow) => u.email == email);
    assert k < |t.rows|;
    if k < |t.rows| - 1 {
      assert t.rows[k].email == t.rows[|t.rows| - 1].email;
    }
  }
}
