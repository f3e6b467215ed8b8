/**
  The two route guards. `ProtectedRoute` checks loading first, then whether
  a user and a profile are present, then the required role, where `admin` may
  enter anywhere. `OptionalAuthRoute` reads only `loading`.
*/
module Guards {
  import opened Wrappers
  import opened Auth

  /** What a guard renders. */
  datatype View = Spinner | SignInForm | AccessDenied(requiredRole: Role) | Content

  /** The role check: no requirement, the required role itself, or `admin`. */
  function RoleAllows(role: Role, required: Option<Role>): (ok: bool)
    ensures required.None? ==> ok
    ensures role == Admin ==> ok
    ensures required == Some(role) ==> ok
    ensures ok && required.Some? ==> role == required.value || role == Admin
  {
    required.None? || role == required.value || role == Admin
  }

  /** `ProtectedRoute`: a chain of early returns over the session cells. */
  function ProtectedRoute(loading: bool, user: Option<User>, profile: Option<Profile>,
                          requiredRole: Option<Role>): (v: View)
    ensures loading ==> v == Spinner
    ensures !loading && (user.None? || profile.None?) ==> v == SignInForm
    ensures v.AccessDenied? <==>
      && !loading && user.Some? && profile.Some? && requiredRole.Some?
      && profile.value.role != requiredRole.value && profile.value.role != Admin
    ensures v.AccessDenied? ==> v.requiredRole == requiredRole.value
    ensures v == Content <==>
      !loading && user.Some? && profile.Some? && RoleAllows(profile.value.role, requiredRole)
  {
    if loading then Spinner
    else if user.None? || profile.None? then SignInForm
    else if requiredRole.Some? && profile.value.role != requiredRole.value && profile.value.role != Admin then
      AccessDenied(requiredRole.value)
    else Content
  }

  /** `OptionalAuthRoute`: a spinner while loading, the page otherwise. */
  function OptionalAuthRoute(loading: bool): (v: View)
    ensures v == Spinner <==> loading
    ensures v == Content <==> !loading
    ensures v != SignInForm && !v.AccessDenied?
  {
    if loading then Spinner else Content
  }

  /** An administrator profile is never turned away, whatever role is asked for. */
  lemma AdminNeverDenied(user: Option<User>, profile: Option<Profile>, requiredRole: Option<Role>)
    requires profile.Some? && profile.value.role == Admin
    ensures !ProtectedRoute(false, user, profile, requiredRole).AccessDenied?
    ensures user.Some? ==> ProtectedRoute(false, user, profile, requiredRole) == Content
  {
  }

  /** Without a required role, a signed-in user with a profile sees the page. */
  lemma NoRoleRequiredShowsContent(user: User, profile: Profile)
    ensures ProtectedRoute(false, Some(user), Some(profile), None) == Content
  {
  }

  /** Both guards show the spinner under the same condition. */
  lemma GuardsShareSpinner(loading: bool, user: Option<User>, profile: Option<Profile>, requiredRole: Option<Role>)
    ensures (OptionalAuthRoute(loading) == Spinner) == (ProtectedRoute(loading, user, profile, requiredRole) == Spinner)
  {
  }

  /**
    The optional guard has no timeout: from mount, along any order of events,
    it shows the spinner exactly until the first event that resolves loading.
  */
  lemma OptionalSpinnerUntilResolved(es: seq<Event>)
    ensures OptionalAuthRoute(Run(Initial(), es).loading) == Spinner
        <==> forall k :: 0 <= k < |es| ==> !Resolves(es[k])
  {
    LoadingUntilResolved(es);
  }

  /** Once revealed, the optional guard keeps showing the page whatever comes next. */
  lemma OptionalStaysRevealed(s: State, es: seq<Event>)
    requires OptionalAuthRoute(s.loading) == Content
    ensures OptionalAuthRoute(Run(s, es).loading) == Content
  {
    LoadingNeverReturns(s, es);
  }

  /**
    A stale fetch result after sign-out does not let a user past the
    mandatory guard: with no user it still shows the sign-in form.
  */
  lemma LateFetchStillSignInForm(u: User, p: Profile, requiredRole: Option<Role>)
    ensures var s := Run(Initial(), [AuthChange(Some(u)), AuthChange(None), ProfileResult(Found(p))]);
      ProtectedRoute(s.loading, s.user, s.profile, requiredRole) == SignInForm
  {
    LateFetchAfterSignOut(u, p);
  }
}
