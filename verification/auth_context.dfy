/** The frontend's mock sign-in: two demo accounts sharing one password, the
    signed-in user, and the copy of it kept in local storage so that a
    reload finds the session again. */
module AuthContext {
  import opened Text

  datatype Role = MentorRole | UserRole

  datatype User = User(id: string, name: string, email: string, role: Role, avatar: string)

  const DemoPassword: string := "password123"
  const MentorEmail: string := "mentor@demo.com"
  const UserEmail: string := "user@demo.com"

  /** The mock account for an email, if it is one of the two demo emails. */
  function DemoUser(email: string): (r: Option<User>)
    ensures r.Some? <==> email == MentorEmail || email == UserEmail
    ensures r.Some? ==> r.value.email == email
    ensures email == MentorEmail ==> r.value.id == "1" && r.value.role == MentorRole
    ensures email == UserEmail ==> r.value.id == "2" && r.value.role == UserRole
  {
    if email == MentorEmail then Some(User("1", "Sarah Johnson", MentorEmail, MentorRole, "SJ"))
    else if email == UserEmail then Some(User("2", "John Smith", UserEmail, UserRole, "JS"))
    else None
  }

  /** The two demo accounts are different people. */
  lemma DemoUsersDistinct()
    ensures DemoUser(MentorEmail).value.id != DemoUser(UserEmail).value.id
  {
  }

  class AuthProvider {
    var user: Option<User>
    var isLoading: bool
    /** The `mentormatch-user` entry of local storage, already parsed. */
    var stored: Option<User>

    /** A provider before its mount effect has run. */
    constructor (stored: Option<User>)
      ensures user == None && isLoading && this.stored == stored
    {
      user := None;
      isLoading := true;
      this.stored := stored;
    }

    /** The mount effect: take the saved session if there is one, then stop
        loading. */
    method LoadSession()
      modifies this
      ensures user == (if stored.Some? then stored else old(user))
      ensures !isLoading && stored == old(stored)
    {
      if stored.Some? {
        user := stored;
      }
      isLoading := false;
    }

    /** login: only the shared password and a demo email succeed; a failure
        changes nothing. */
    method Login(email: string, password: string) returns (ok: bool)
      modifies this
      ensures ok <==> password == DemoPassword && DemoUser(email).Some?
      ensures ok ==> user == DemoUser(email) && stored == user
      ensures !ok ==> user == old(user) && stored == old(stored)
      ensures isLoading == old(isLoading)
    {
      if password == DemoPassword {
        var mock := DemoUser(email);
        if mock.None? {
          return false;
        }
        user := mock;
        stored := mock;
        return true;
      }
      return false;
    }

    /** logout */
    method Logout()
      modifies this
      ensures user == None && stored == None && isLoading == old(isLoading)
    {
      user := None;
      stored := None;
    }
  }

  /** A session survives a reload: after a successful login, a fresh
      provider over the same storage comes up signed in as the same user. */
  method ReloadAfterLogin(p: AuthProvider, email: string, password: string) returns (ok: bool, q: AuthProvider)
    modifies p
    ensures fresh(q)
    ensures ok ==> q.user == p.user == DemoUser(email) && !q.isLoading
  {
    ok := p.Login(email, password);
    q := new AuthProvider(p.stored);
    q.LoadSession();
  }
}
