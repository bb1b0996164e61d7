/** The root server's UserController: registration with a required role and
    initials for an avatar, login, and the profile read. Every answer that
    carries a user carries the row without its password hash. The table is
    the root server's `users` table, as the three model calls this
    controller makes see it. */
module RootUserController {
  import opened Text
  import opened Seqs
  import opened AuthMiddleware

  datatype AccountRow = AccountRow(id: int, email: string, passwordHash: string, firstName: string,
                                   lastName: string, role: string, avatarUrl: string)

  /** A row with `password_hash` taken out. */
  datatype Account = Account(id: int, email: string, firstName: string, lastName: string,
                             role: string, avatarUrl: string)

  /** `const { password_hash: _, ...rest } = row` */
  function Strip(u: AccountRow): (a: Account)
    ensures a.id == u.id && a.email == u.email && a.role == u.role && a.avatarUrl == u.avatarUrl
    ensures a.firstName == u.firstName && a.lastName == u.lastName
  {
    Account(u.id, u.email, u.firstName, u.lastName, u.role, u.avatarUrl)
  }

  /** The answer carries nothing of the hash: rows that differ only in
      their hash answer alike. */
  lemma StripIgnoresHash(u: AccountRow, h: string)
    ensures Strip(u.(passwordHash := h)) == Strip(u)
  {
  }

  /** `${first_name.charAt(0)}${last_name.charAt(0)}` */
  function Initials(first: string, last: string): (r: string)
    ensures |r| == (if first == "" then 0 else 1) + (if last == "" then 0 else 1)
    ensures first != "" && last != "" ==> r == [first[0], last[0]]
  {
    (if first == "" then "" else [first[0]]) + (if last == "" then "" else [last[0]])
  }

  class Accounts {
    var rows: seq<AccountRow>
    var nextId: int

    ghost predicate Valid()
      reads this
    {
      nextId >= 1
      && (forall u :: u in rows ==> 1 <= u.id < nextId)
      && Pairwise(rows, (a: AccountRow, b: AccountRow) => a.id < b.id)
    }

    constructor ()
      ensures Valid() && rows == [] && nextId == 1
    {
      rows := [];
      nextId := 1;
    }

    /** `UserModel.findByEmail`: the first row with that email. */
    function FindByEmail(email: string): (r: Option<AccountRow>)
      reads this
      ensures r.None? <==> forall u :: u in rows ==> u.email != email
      ensures r.Some? ==> r.value in rows && r.value.email == email
    {
      Find(rows, (u: AccountRow) => u.email == email)
    }

    /** `UserModel.findById` */
    function FindById(id: int): (r: Option<AccountRow>)
      reads this
      ensures r.None? <==> forall u :: u in rows ==> u.id != id
      ensures r.Some? ==> r.value in rows && r.value.id == id
    {
      Find(rows, (u: AccountRow) => u.id == id)
    }

    /** `UserModel.create`: the row under a fresh id. */
    method Create(email: string, passwordHash: string, firstName: string, lastName: string,
                  role: string, avatarUrl: string) returns (u: AccountRow)
      requires Valid()
      modifies this
      ensures Valid()
      ensures u == AccountRow(old(nextId), email, passwordHash, firstName, lastName, role, avatarUrl)
      ensures rows == old(rows) + [u] && nextId == old(nextId) + 1
    {
      u := AccountRow(nextId, email, passwordHash, firstName, lastName, role, avatarUrl);
      rows := rows + [u];
      nextId := nextId + 1;
    }
  }

  datatype RegisterBody = RegisterBody(email: Option<string>, password: Option<string>,
                                       firstName: Option<string>, lastName: Option<string>,
                                       role: Option<string>)

  /** An answer: status, message, and on success the user without its hash
      and, for login, a token. */
  datatype Reply = Reply(status: int, message: string, user: Option<Account>, token: Option<string>)

  const Duplicate: string := "User with this email already exists"
  const BadCredentials: string := "Invalid email or password"

  /** register's required fields: all five, the role included. */
  predicate AllGiven(b: RegisterBody) {
    Truthy(b.email) && Truthy(b.password) && Truthy(b.firstName) && Truthy(b.lastName) && Truthy(b.role)
  }

  /** register: 400 without all five fields, 400 for a known email, both
      without a write; otherwise 201 with the new row, hash stripped, and
      initials for its avatar. */
  method Register(t: Accounts, b: RegisterBody, hash: string -> string) returns (r: Reply)
    requires t.Valid()
    modifies t
    ensures t.Valid()
    ensures !AllGiven(b) ==> r == Reply(400, "All fields are required", None, None) && t.rows == old(t.rows)
    ensures AllGiven(b) && old(t.FindByEmail(b.email.value)).Some? ==>
              r == Reply(400, Duplicate, None, None) && t.rows == old(t.rows)
    ensures AllGiven(b) && old(t.FindByEmail(b.email.value)).None? ==>
              var row := AccountRow(old(t.nextId), b.email.value, hash(b.password.value), b.firstName.value,
                                    b.lastName.value, b.role.value, Initials(b.firstName.value, b.lastName.value));
              r == Reply(201, "User registered successfully", Some(Strip(row)), None)
              && t.rows == old(t.rows) + [row]
              && |row.avatarUrl| == 2
  {
    if !AllGiven(b) {
      return Reply(400, "All fields are required", None, None);
    }
    if t.FindByEmail(b.email.value).Some? {
      return Reply(400, Duplicate, None, None);
    }
    var avatar := Initials(b.firstName.value, b.lastName.value);
    var u := t.Create(b.email.value, hash(b.password.value), b.firstName.value, b.lastName.value, b.role.value, avatar);
    r := Reply(201, "User registered successfully", Some(Strip(u)), None);
  }

  /** login: 400 without both fields; one and the same 401 for an unknown
      email and for a wrong password; otherwise the row without its hash and
      a token for `{userId, email, role}`. */
  function Login(t: Accounts, email: Option<string>, password: Option<string>,
                 compare: (string, string) -> bool, sign: Claims -> string): (r: Reply)
    reads t
    ensures !Truthy(email) || !Truthy(password) ==> r == Reply(400, "Email and password are required", None, None)
    ensures r.status == 200 <==> Truthy(email) && Truthy(password) && t.FindByEmail(email.value).Some?
                                 && compare(password.value, t.FindByEmail(email.value).value.passwordHash)
    ensures r.status == 200 ==>
              var u := t.FindByEmail(email.value).value;
              r.user == Some(Strip(u)) && r.token == Some(sign(SignedClaims(u.id, u.email, u.role)))
    ensures r.status != 200 && Truthy(email) && Truthy(password) ==> r == Reply(401, BadCredentials, None, None)
  {
    if !Truthy(email) || !Truthy(password) then Reply(400, "Email and password are required", None, None)
    else match t.FindByEmail(email.value)
      case None => Reply(401, BadCredentials, None, None)
      case Some(u) =>
        if !compare(password.value, u.passwordHash) then Reply(401, BadCredentials, None, None)
        else Reply(200, "Login successful", Some(Strip(u)), Some(sign(SignedClaims(u.id, u.email, u.role))))
  }

  /** A caller cannot tell an unknown email from a wrong password. */
  lemma LoginFailuresIdentical(t: Accounts, known: string, unknown: string, password: string,
                               compare: (string, string) -> bool, sign: Claims -> string)
    requires known != "" && unknown != "" && password != ""
    requires t.FindByEmail(unknown).None?
    requires t.FindByEmail(known).Some? && !compare(password, t.FindByEmail(known).value.passwordHash)
    ensures Login(t, Some(unknown), Some(password), compare, sign) == Login(t, Some(known), Some(password), compare, sign)
  {
  }

  /** getProfile for the user the token names: 404 or the row without its hash. */
  function GetProfile(t: Accounts, user: Claims): (r: Reply)
    reads t
    ensures r.status == 200 <==> UserIdClaim(user).Some? && t.FindById(UserIdClaim(user).value).Some?
    ensures r.status == 200 ==> r.user == Some(Strip(t.FindById(UserIdClaim(user).value).value))
    ensures r.status != 200 ==> r == Reply(404, "User not found", None, None)
  {
    match UserIdClaim(user)
    case None => Reply(404, "User not found", None, None)
    case Some(id) =>
      match t.FindById(id)
      case None => Reply(404, "User not found", None, None)
      case Some(u) => Reply(200, "", Some(Strip(u)), None)
  }

  /** Registering and then reading one's own profile, with a token that
      names the new user, gives back the registered user. */
  method RegisterThenProfile(t: Accounts, b: RegisterBody, hash: string -> string) returns (r1: Reply, r2: Reply)
    requires t.Valid()
    modifies t
    ensures t.Valid()
    ensures r1.status == 201 ==> r2 == Reply(200, "", r1.user, None)
  {
    r1 := Register(t, b, hash);
    if r1.status == 201 {
      var u := t.rows[|t.rows| - 1];
      NewestIsFound(t, u);
      r2 := GetProfile(t, SignedClaims(u.id, u.email, u.role));
    } else {
      r2 := Reply(404, "User not found", None, None);
    }
  }

  /** The newest row's id is found, and finds that row: ids increase. */
  lemma NewestIsFound(t: Accounts, u: AccountRow)
    requires t.Valid() && |t.rows| > 0 && u == t.rows[|t.rows| - 1]
    ensures t.FindById(u.id) == Some(u)
  {
    var k := FindIndex(t.rows, (v: AccountRow) => v.id == u.id);
    assert k == |t.rows| - 1;
  }
}
