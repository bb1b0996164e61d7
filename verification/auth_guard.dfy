/** useAuthGuard: a page that needs a signed-in user sends a visitor without
    one to the login page, once, after the session has loaded. Navigation is
    kept as a log of the paths navigated to. */
module AuthGuard {
  import opened Text
  import opened AuthContext

  const DefaultRedirect: string := "/login"

  /** `redirectTo = '/login'` */
  function RedirectTarget(redirectTo: Option<string>): (r: string)
    ensures redirectTo.None? ==> r == DefaultRedirect
    ensures redirectTo.Some? ==> r == redirectTo.value
  {
    match redirectTo
    case None => DefaultRedirect
    case Some(t) => t
  }

  /** `isAuthenticated: !!user`, whatever the role. */
  function IsAuthenticated(user: Option<User>): (b: bool)
    ensures b <==> user.Some?
  {
    user.Some?
  }

  /** The role plays no part: a user is authenticated as any role. */
  lemma RoleIrrelevant(u: User, r: Role)
    ensures IsAuthenticated(Some(u)) == IsAuthenticated(Some(u.(role := r))) == true
  {
  }

  class Guard {
    var hasRedirected: bool
    /** The paths `navigate` has been called with, oldest first. */
    var navigations: seq<string>

    /** The flag is set exactly when a redirect has happened, and there is
        at most one. */
    ghost predicate Valid()
      reads this
    {
      (hasRedirected <==> |navigations| == 1) && |navigations| <= 1
    }

    constructor ()
      ensures Valid() && !hasRedirected && navigations == []
    {
      hasRedirected := false;
      navigations := [];
    }

    /** One run of the effect, for the current user and loading flag. The
        required role is read but never acted on. */
    method Run(user: Option<User>, isLoading: bool, requiredRole: Option<Role>, redirectTo: Option<string>)
      requires Valid()
      modifies this
      ensures Valid()
      ensures !isLoading && !old(hasRedirected) && user.None? ==>
                navigations == [RedirectTarget(redirectTo)] && hasRedirected
      ensures isLoading || old(hasRedirected) || user.Some? ==>
                navigations == old(navigations) && hasRedirected == old(hasRedirected)
    {
      if isLoading {
        return;
      }
      if hasRedirected {
        return;
      }
      if user.None? {
        hasRedirected := true;
        navigations := navigations + [RedirectTarget(redirectTo)];
        return;
      }
    }
  }

  /** However the effect is re-run, the guard never navigates twice, and a
      signed-in user of the wrong role is never sent away. */
  method RunTwice(g: Guard, u1: Option<User>, u2: Option<User>, l1: bool, l2: bool,
                  role: Option<Role>, target: Option<string>)
    requires g.Valid() && !g.hasRedirected
    modifies g
    ensures g.Valid() && |g.navigations| <= 1
    ensures u1.Some? && u2.Some? ==> g.navigations == []
    ensures !l1 && u1.None? ==> g.navigations == [RedirectTarget(target)]
  {
    g.Run(u1, l1, role, target);
    g.Run(u2, l2, role, target);
  }
}
