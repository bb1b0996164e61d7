/** The frontend's route table and the two builders that fill in a mentor's
    id, with the reading of the id back out of a built path. */
module Routes {
  import opened Text

  const Home: string := "/"
  const Mentors: string := "/mentors"
  const MentorProfile: string := "/mentor/:id"
  const BookSession: string := "/book/:id"
  const SignupMentor: string := "/signup/mentor"
  const SignupUser: string := "/signup/user"
  const Login: string := "/login"
  const MentorDashboard: string := "/mentor-dashboard"
  const UserDashboard: string := "/user-dashboard"

  const MentorPrefix: string := "/mentor/"
  const BookPrefix: string := "/book/"

  /** createMentorProfileRoute */
  function MentorProfileRoute(id: string): (r: string)
    ensures |r| == |MentorPrefix| + |id|
    ensures r[..|MentorPrefix|] == MentorPrefix && r[|MentorPrefix|..] == id
  {
    MentorPrefix + id
  }

  /** createBookSessionRoute */
  function BookSessionRoute(id: string): (r: string)
    ensures |r| == |BookPrefix| + |id|
    ensures r[..|BookPrefix|] == BookPrefix && r[|BookPrefix|..] == id
  {
    BookPrefix + id
  }

  /** The id of a path with the given prefix, if it has that prefix. */
  function IdAfter(prefix: string, path: string): (r: Option<string>)
    ensures r.Some? <==> |prefix| <= |path| && path[..|prefix|] == prefix
    ensures r.Some? ==> path == prefix + r.value
  {
    if |prefix| <= |path| && path[..|prefix|] == prefix then Some(path[|prefix|..]) else None
  }

  /** Building a path and reading the id back gives the id. */
  lemma RouteRoundTrip(id: string)
    ensures IdAfter(MentorPrefix, MentorProfileRoute(id)) == Some(id)
    ensures IdAfter(BookPrefix, BookSessionRoute(id)) == Some(id)
  {
  }

  /** Each builder, given the placeholder, gives its route pattern. */
  lemma BuildersMatchPatterns()
    ensures MentorProfileRoute(":id") == MentorProfile
    ensures BookSessionRoute(":id") == BookSession
  {
  }

  /** Different ids give different paths. */
  lemma BuildersInjective(a: string, b: string)
    ensures MentorProfileRoute(a) == MentorProfileRoute(b) ==> a == b
    ensures BookSessionRoute(a) == BookSessionRoute(b) ==> a == b
  {
    RouteRoundTrip(a);
    RouteRoundTrip(b);
  }

  /** A profile path is never a booking path. */
  lemma ProfileIsNotBooking(a: string, b: string)
    ensures MentorProfileRoute(a) != BookSessionRoute(b)
  {
    assert MentorProfileRoute(a)[1] == 'm' && BookSessionRoute(b)[1] == 'b';
  }
}
