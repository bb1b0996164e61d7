/** The backend's UserModel: the `users` table as its rows in insertion
    order. Ids are handed out in increasing order and emails are unique;
    bcrypt's hash is an oracle parameter. */
module UserModel {
  import opened Text
  import opened Seqs

  const DuplicateEmail: string := "User with this email already exists"
  const DefaultRole: string := "user"

  /** A row of `users`, password hash included. */
  datatype UserRow = UserRow(
    id: int,
    email: string,
    passwordHash: string,
    firstName: string,
    lastName: string,
    role: string,
    bio: Option<string>,
    phone: Option<string>)

  /** The columns the queries return to callers: no password hash. */
  datatype PublicUser = PublicUser(id: int, email: string, firstName: string, lastName: string, role: string)

  /** The row `updateProfile` returns: the public columns with bio and phone. */
  datatype UserView = UserView(user: PublicUser, bio: Option<string>, phone: Option<string>)

  /** The fields `updateProfile` is given; `None` is an absent field, which
      reaches the query as SQL NULL. */
  datatype ProfilePatch = ProfilePatch(firstName: Option<string>, lastName: Option<string>,
                                       bio: Option<string>, phone: Option<string>)

  function Public(u: UserRow): (p: PublicUser)
    ensures p.id == u.id && p.email == u.email && p.role == u.role
    ensures p.firstName == u.firstName && p.lastName == u.lastName
  {
    PublicUser(u.id, u.email, u.firstName, u.lastName, u.role)
  }

  /** Nothing of the hash reaches a caller: rows that differ only in their
      hash look alike. */
  lemma PublicIgnoresHash(u: UserRow, h: string)
    ensures Public(u.(passwordHash := h)) == Public(u)
  {
  }

  /** `COALESCE($n, column)` */
  function Coalesce<T>(given: Option<T>, current: T): (r: T)
    ensures given.Some? ==> r == given.value
    ensures given.None? ==> r == current
  {
    if given.Some? then given.value else current
  }

  /** The row after the UPDATE's SET list: each given field replaces its
      column, the others keep theirs; id, email, hash and role never change. */
  function Patched(u: UserRow, patch: ProfilePatch): (r: UserRow)
    ensures r.id == u.id && r.email == u.email && r.passwordHash == u.passwordHash && r.role == u.role
    ensures r.firstName == Coalesce(patch.firstName, u.firstName)
    ensures r.lastName == Coalesce(patch.lastName, u.lastName)
    ensures r.bio == (if patch.bio.Some? then patch.bio else u.bio)
    ensures r.phone == (if patch.phone.Some? then patch.phone else u.phone)
  {
    u.(firstName := Coalesce(patch.firstName, u.firstName),
       lastName := Coalesce(patch.lastName, u.lastName),
       bio := if patch.bio.Some? then patch.bio else u.bio,
       phone := if patch.phone.Some? then patch.phone else u.phone)
  }

  /** An empty patch changes nothing, and patching twice with the same
      fields is patching once. */
  lemma PatchedIdempotent(u: UserRow, patch: ProfilePatch)
    ensures Patched(u, ProfilePatch(None, None, None, None)) == u
    ensures Patched(Patched(u, patch), patch) == Patched(u, patch)
  {
  }

  /** `UPDATE ... WHERE id = $5` over the rows. */
  function UpdateWhere(rows: seq<UserRow>, id: int, patch: ProfilePatch): (r: seq<UserRow>)
    ensures |r| == |rows|
    ensures forall i :: 0 <= i < |rows| ==> r[i] == if rows[i].id == id then Patched(rows[i], patch) else rows[i]
  {
    seq(|rows|, i requires 0 <= i < |rows| => if rows[i].id == id then Patched(rows[i], patch) else rows[i])
  }

  /** The update touches neither ids nor emails, so the table's
      invariants carry over. */
  lemma UpdateWhereKeepsKeys(rows: seq<UserRow>, id: int, patch: ProfilePatch, nextId: int)
    requires forall u :: u in rows ==> 1 <= u.id < nextId
    requires Pairwise(rows, (a: UserRow, b: UserRow) => a.id < b.id)
    requires Pairwise(rows, (a: UserRow, b: UserRow) => a.email != b.email)
    ensures forall u :: u in UpdateWhere(rows, id, patch) ==> 1 <= u.id < nextId
    ensures Pairwise(UpdateWhere(rows, id, patch), (a: UserRow, b: UserRow) => a.id < b.id)
    ensures Pairwise(UpdateWhere(rows, id, patch), (a: UserRow, b: UserRow) => a.email != b.email)
  {
    var r := UpdateWhere(rows, id, patch);
    forall u | u in r ensures 1 <= u.id < nextId {
      var i :| 0 <= i < |r| && r[i] == u;
      assert rows[i] in rows;
    }
  }

  function Reverse<T>(s: seq<T>): (r: seq<T>)
    ensures |r| == |s|
    ensures forall i :: 0 <= i < |s| ==> r[i] == s[|s| - 1 - i]
  {
    if s == [] then [] else Reverse(s[1..]) + [s[0]]
  }

  class UserTable {
    var rows: seq<UserRow>
    var nextId: int

    /** Ids increase along the table and stay below `nextId`; no two rows
        share an email. */
    ghost predicate Valid()
      reads this
    {
      nextId >= 1
      && (forall u :: u in rows ==> 1 <= u.id < nextId)
      && Pairwise(rows, (a: UserRow, b: UserRow) => a.id < b.id)
      && Pairwise(rows, (a: UserRow, b: UserRow) => a.email != b.email)
    }

    constructor ()
      ensures Valid() && rows == [] && nextId == 1
    {
      rows := [];
      nextId := 1;
    }

    /** findByEmail: the row with that email, or null. */
    function FindByEmail(email: string): (r: Option<UserRow>)
      reads this
      ensures r.None? <==> forall u :: u in rows ==> u.email != email
      ensures r.Some? ==> r.value in rows && r.value.email == email
    {
      Find(rows, (u: UserRow) => u.email == email)
    }

    /** findById: the public columns of the row with that id, or null. */
    function FindById(id: int): (r: Option<PublicUser>)
      reads this
      ensures r.None? <==> forall u :: u in rows ==> u.id != id
      ensures r.Some? ==> exists u :: u in rows && u.id == id && r.value == Public(u)
    {
      match Find(rows, (u: UserRow) => u.id == id)
      case Some(u) => Some(Public(u))
      case None => None
    }

    /** getAllUsers: the public columns of every row, newest first. */
    function GetAllUsers(): (r: seq<PublicUser>)
      reads this
      ensures |r| == |rows|
      ensures forall i :: 0 <= i < |rows| ==> r[i] == Public(rows[|rows| - 1 - i])
    {
      var rev := Reverse(rows);
      seq(|rev|, i requires 0 <= i < |rev| => Public(rev[i]))
    }

    /** createUser: refuses a known email and inserts nothing; otherwise
        appends one row holding the hash of the password, with role 'user'
        when none is given, under a fresh id. */
    method CreateUser(email: string, password: string, firstName: string, lastName: string,
                      role: Option<string>, hash: string -> string) returns (r: Result<PublicUser>)
      requires Valid()
      modifies this
      ensures Valid()
      ensures (exists u :: u in old(rows) && u.email == email) ==>
                r == Err(DuplicateEmail) && rows == old(rows) && nextId == old(nextId)
      ensures (forall u :: u in old(rows) ==> u.email != email) ==>
                var row := UserRow(old(nextId), email, hash(password), firstName, lastName,
                                   if role.Some? then role.value else DefaultRole, None, None);
                rows == old(rows) + [row] && nextId == old(nextId) + 1 && r == Ok(Public(row))
    {
      if FindByEmail(email).Some? {
        return Err(DuplicateEmail);
      }
      var row := UserRow(nextId, email, hash(password), firstName, lastName,
                         if role.Some? then role.value else DefaultRole, None, None);
      rows := rows + [row];
      nextId := nextId + 1;
      r := Ok(Public(row));
    }

    /** updateProfile: the row with that id gets the given fields and is
        returned; null for an unknown id, with nothing changed. */
    method UpdateProfile(id: int, patch: ProfilePatch) returns (r: Option<UserView>)
      requires Valid()
      modifies this
      ensures Valid() && nextId == old(nextId)
      ensures rows == UpdateWhere(old(rows), id, patch)
      ensures r.None? <==> forall u :: u in old(rows) ==> u.id != id
      ensures r.Some? ==> exists u :: u in old(rows) && u.id == id
                            && var p := Patched(u, patch); r.value == UserView(Public(p), p.bio, p.phone)
    {
      var found := Find(rows, (u: UserRow) => u.id == id);
      UpdateWhereKeepsKeys(rows, id, patch, nextId);
      rows := UpdateWhere(rows, id, patch);
      match found
      case None => r := None;
      case Some(u) =>
        var p := Patched(u, patch);
        r := Some(UserView(Public(p), p.bio, p.phone));
    }

    /** deleteUser: removes the row and returns its id, or null when there
        was none. */
    method DeleteUser(id: int) returns (r: Option<int>)
      requires Valid()
      modifies this
      ensures Valid() && nextId == old(nextId)
      ensures rows == Filter(old(rows), (u: UserRow) => u.id != id)
      ensures r.Some? <==> exists u :: u in old(rows) && u.id == id
      ensures r.Some? ==> r.value == id
      ensures forall u :: u in rows ==> u.id != id
    {
      var found := Find(rows, (u: UserRow) => u.id == id);
      FilterPairwise(rows, (u: UserRow) => u.id != id, (a: UserRow, b: UserRow) => a.id < b.id);
      FilterPairwise(rows, (u: UserRow) => u.id != id, (a: UserRow, b: UserRow) => a.email != b.email);
      rows := Filter(rows, (u: UserRow) => u.id != id);
      r := if found.Some? then Some(id) else None;
    }
  }

  /** A second registration with the same email is refused: once a user is
      created, findByEmail finds them and createUser fails for that email. */
  method CreateThenDuplicate(t: UserTable, email: string, password: string, other: string,
                             first: string, last: string, hash: string -> string)
      returns (r1: Result<PublicUser>, r2: Result<PublicUser>)
    requires t.Valid()
    modifies t
    ensures t.Valid()
    ensures r1.Ok? ==> t.FindByEmail(email).Some? && r2 == Err(DuplicateEmail)
  {
    r1 := t.CreateUser(email, password, first, last, None, hash);
    if r1.Ok? {
      assert t.rows[|t.rows| - 1].email == email;
    }
    r2 := t.CreateUser(email, other, first, last, None, hash);
  }
}
