/**
  The session store of the application (`AuthProvider`): three state cells,
  `user`, `profile` and `loading`, driven by auth-change notifications, the
  initial-session check and the outcomes of profile fetches, plus the four auth
  actions. Every backend reply is an input. The notifications the store shows
  and the requests it sends the backend are kept as logs.

  The first half gives the store's state as a value, with one transition
  function per handler and lemmas about arbitrary sequences of events. The
  class `AuthProvider` at the end keeps the same cells as fields, and each of
  its methods is proved to follow the matching transition function.
*/
module Auth {
  import opened Wrappers
  import opened Toasts

  // ---------------------------------------------------------------------------
  // Data
  // ---------------------------------------------------------------------------

  datatype Role = Student | Staff | Admin | Recycler

  /** A row of the `profiles` table as the store keeps it. */
  datatype Profile = Profile(
    id: string,
    email: string,
    fullName: Option<string>,
    studentId: Option<string>,
    role: Role,
    points: int,
    createdAt: string,
    updatedAt: string)

  /** `Partial<Profile>`: a field that is present overrides the stored one. */
  datatype ProfileChanges = ProfileChanges(
    id: Option<string>,
    email: Option<string>,
    fullName: Option<Option<string>>,
    studentId: Option<Option<string>>,
    role: Option<Role>,
    points: Option<int>,
    createdAt: Option<string>,
    updatedAt: Option<string>)

  const NoChanges := ProfileChanges(None, None, None, None, None, None, None, None)

  /** The backend's account object; the store only reads its id. */
  datatype User = User(id: string)

  datatype BackendError = BackendError(code: string, message: string)

  /**
    The reply to a sign-in, sign-up, sign-out or profile update: success, an
    `{ error }` object, or a promise that rejects with `error`.
  */
  datatype Reply = Accepted | Rejected(error: BackendError) | Thrown(error: BackendError)

  /** How a profile fetch ends: a row, an error object, or a thrown exception. */
  datatype FetchOutcome = Found(row: Profile) | Failed(error: BackendError) | Threw

  /** The `options.data` metadata that sign-up sends. */
  datatype SignUpMetadata = SignUpMetadata(fullName: string, studentId: Option<string>, role: string)

  /** A call the store makes on the backend. */
  datatype Request =
    | SelectProfile(userId: string)
    | SignInWithPassword(email: string, password: string)
    | CreateAccount(email: string, password: string, metadata: SignUpMetadata)
    | EndSession
    | UpdateProfileRow(userId: string, changes: ProfileChanges)

  /** The three state cells with the toast log and the request log. */
  datatype State = State(
    user: Option<User>,
    profile: Option<Profile>,
    loading: bool,
    toasts: seq<Toast>,
    requests: seq<Request>)

  /** The error code the backend uses for "no row matched". */
  const NotFoundCode := "PGRST116"
  const DefaultSignUpRole := "student"

  const ProfileLoadFailed := Toast("Error", "Failed to load user profile", true)
  const SignedIn := Toast("Success", "Signed in successfully!", false)
  const AccountCreated := Toast("Success", "Account created successfully! Please check your email to confirm your account.", false)
  const SignedOut := Toast("Success", "Signed out successfully!", false)
  const ProfileUpdateFailed := Toast("Error", "Failed to update profile", true)
  const ProfileUpdated := Toast("Success", "Profile updated successfully!", false)

  /** The error toast of the sign-in, sign-up and sign-out actions. */
  function ErrorToast(e: BackendError): (t: Toast)
    ensures t.destructive && t.description == e.message
  {
    Toast("Error", e.message, true)
  }

  // ---------------------------------------------------------------------------
  // The session handlers
  // ---------------------------------------------------------------------------

  /** On mount: no user, no profile, loading, nothing shown, nothing sent. */
  function Initial(): (s: State)
    ensures s.user.None? && s.profile.None? && s.loading
    ensures s.toasts == [] && s.requests == []
  {
    State(None, None, true, [], [])
  }

  /**
    The auth-change listener. With a user it records the user and starts a
    profile fetch (whose outcome arrives later as its own event); without one
    it clears user and profile and ends loading.
  */
  function AuthChanged(s: State, session: Option<User>): (r: State)
    ensures r.user == session && r.toasts == s.toasts
    ensures session.None? ==> r.profile.None? && !r.loading && r.requests == s.requests
    ensures session.Some? ==>
      r.profile == s.profile && r.loading == s.loading
      && r.requests == s.requests + [SelectProfile(session.value.id)]
  {
    match session
    case None => s.(user := None, profile := None, loading := false)
    case Some(u) => s.(user := Some(u), requests := s.requests + [SelectProfile(u.id)])
  }

  /**
    The continuation of the initial-session check. Like the listener, except
    that without a user it leaves the profile as it was.
  */
  function SessionChecked(s: State, session: Option<User>): (r: State)
    ensures r.user == session && r.toasts == s.toasts && r.profile == s.profile
    ensures session.None? ==> !r.loading && r.requests == s.requests
    ensures session.Some? ==>
      r.loading == s.loading && r.requests == s.requests + [SelectProfile(session.value.id)]
  {
    match session
    case None => s.(user := None, loading := false)
    case Some(u) => s.(user := Some(u), requests := s.requests + [SelectProfile(u.id)])
  }

  /**
    The end of `fetchProfile`. A row replaces the profile; the not-found code
    clears it silently; any other error shows one toast and keeps the profile;
    an exception keeps the profile and shows nothing. The `finally` block ends
    loading in every case.
  */
  function ProfileFetched(s: State, outcome: FetchOutcome): (r: State)
    ensures !r.loading && r.user == s.user && r.requests == s.requests
    ensures outcome.Found? ==> r.profile == Some(outcome.row) && r.toasts == s.toasts
    ensures outcome.Failed? && outcome.error.code == NotFoundCode ==> r.profile.None? && r.toasts == s.toasts
    ensures outcome.Failed? && outcome.error.code != NotFoundCode ==>
      r.profile == s.profile && r.toasts == s.toasts + [ProfileLoadFailed]
    ensures outcome.Threw? ==> r.profile == s.profile && r.toasts == s.toasts
  {
    match outcome
    case Found(row) => s.(profile := Some(row), loading := false)
    case Failed(e) =>
      if e.code == NotFoundCode then s.(profile := None, loading := false)
      else s.(toasts := s.toasts + [ProfileLoadFailed], loading := false)
    case Threw => s.(loading := false)
  }

  // ---------------------------------------------------------------------------
  // The auth actions
  // ---------------------------------------------------------------------------

  /**
    The common shape of sign-in, sign-up and sign-out: send the request, then
    show the backend's message and re-raise on error, or show the success
    toast. A call that throws skips both toasts and the exception leaves the
    action. The three session cells are not touched.
  */
  function Act(s: State, req: Request, reply: Reply, success: Toast): (r: (State, Option<BackendError>))
    ensures r.0.user == s.user && r.0.profile == s.profile && r.0.loading == s.loading
    ensures r.0.requests == s.requests + [req]
    ensures reply.Rejected? ==> r.1 == Some(reply.error) && r.0.toasts == s.toasts + [ErrorToast(reply.error)]
    ensures reply.Accepted? ==> r.1.None? && r.0.toasts == s.toasts + [success]
    ensures reply.Thrown? ==> r.1 == Some(reply.error) && r.0.toasts == s.toasts
  {
    var sent := s.(requests := s.requests + [req]);
    match reply
    case Rejected(e) => (sent.(toasts := s.toasts + [ErrorToast(e)]), Some(e))
    case Accepted => (sent.(toasts := s.toasts + [success]), None)
    case Thrown(e) => (sent, Some(e))
  }

  function SignInResult(s: State, email: string, password: string, reply: Reply): (r: (State, Option<BackendError>))
    ensures r.0.user == s.user && r.0.profile == s.profile && r.0.loading == s.loading
    ensures r.0.requests == s.requests + [SignInWithPassword(email, password)]
    ensures reply.Rejected? ==> r.1 == Some(reply.error) && r.0.toasts == s.toasts + [ErrorToast(reply.error)]
    ensures reply.Accepted? ==> r.1.None? && r.0.toasts == s.toasts + [SignedIn]
    ensures reply.Thrown? ==> r.1 == Some(reply.error) && r.0.toasts == s.toasts
  {
    Act(s, SignInWithPassword(email, password), reply, SignedIn)
  }

  /** The metadata sign-up sends: the role defaults to `student`. */
  function SignUpData(fullName: string, studentId: Option<string>, role: Option<string>): (m: SignUpMetadata)
    ensures m.fullName == fullName && m.studentId == studentId
    ensures role.None? ==> m.role == DefaultSignUpRole
    ensures role.Some? ==> m.role == role.value
  {
    SignUpMetadata(fullName, studentId, role.GetOr(DefaultSignUpRole))
  }

  function SignUpResult(s: State, email: string, password: string, fullName: string,
                  studentId: Option<string>, role: Option<string>, reply: Reply): (r: (State, Option<BackendError>))
    ensures r.0.user == s.user && r.0.profile == s.profile && r.0.loading == s.loading
    ensures r.0.requests == s.requests + [CreateAccount(email, password, SignUpData(fullName, studentId, role))]
    ensures reply.Rejected? ==> r.1 == Some(reply.error) && r.0.toasts == s.toasts + [ErrorToast(reply.error)]
    ensures reply.Accepted? ==> r.1.None? && r.0.toasts == s.toasts + [AccountCreated]
    ensures reply.Thrown? ==> r.1 == Some(reply.error) && r.0.toasts == s.toasts
  {
    Act(s, CreateAccount(email, password, SignUpData(fullName, studentId, role)), reply, AccountCreated)
  }

  function SignOutResult(s: State, reply: Reply): (r: (State, Option<BackendError>))
    ensures r.0.user == s.user && r.0.profile == s.profile && r.0.loading == s.loading
    ensures r.0.requests == s.requests + [EndSession]
    ensures reply.Rejected? ==> r.1 == Some(reply.error) && r.0.toasts == s.toasts + [ErrorToast(reply.error)]
    ensures reply.Accepted? ==> r.1.None? && r.0.toasts == s.toasts + [SignedOut]
    ensures reply.Thrown? ==> r.1 == Some(reply.error) && r.0.toasts == s.toasts
  {
    Act(s, EndSession, reply, SignedOut)
  }

  /** `{ ...prev, ...updates }`: every field present in the changes wins. */
  function Merge(p: Profile, c: ProfileChanges): (r: Profile)
    ensures r.id == c.id.GetOr(p.id) && r.email == c.email.GetOr(p.email)
    ensures r.fullName == c.fullName.GetOr(p.fullName) && r.studentId == c.studentId.GetOr(p.studentId)
    ensures r.role == c.role.GetOr(p.role) && r.points == c.points.GetOr(p.points)
    ensures r.createdAt == c.createdAt.GetOr(p.createdAt) && r.updatedAt == c.updatedAt.GetOr(p.updatedAt)
  {
    Profile(c.id.GetOr(p.id), c.email.GetOr(p.email), c.fullName.GetOr(p.fullName),
            c.studentId.GetOr(p.studentId), c.role.GetOr(p.role), c.points.GetOr(p.points),
            c.createdAt.GetOr(p.createdAt), c.updatedAt.GetOr(p.updatedAt))
  }

  /** `{ ...a, ...b }` on two sets of changes. */
  function Then(a: ProfileChanges, b: ProfileChanges): ProfileChanges {
    ProfileChanges(
      if b.id.Some? then b.id else a.id,
      if b.email.Some? then b.email else a.email,
      if b.fullName.Some? then b.fullName else a.fullName,
      if b.studentId.Some? then b.studentId else a.studentId,
      if b.role.Some? then b.role else a.role,
      if b.points.Some? then b.points else a.points,
      if b.createdAt.Some? then b.createdAt else a.createdAt,
      if b.updatedAt.Some? then b.updatedAt else a.updatedAt)
  }

  /** The payload sent to the backend: the changes plus a fresh `updated_at`. */
  function UpdatePayload(c: ProfileChanges, now: string): (d: ProfileChanges)
    ensures d.updatedAt == Some(now)
    ensures d.(updatedAt := c.updatedAt) == c
  {
    c.(updatedAt := Some(now))
  }

  /**
    `updateProfile`. Without a user it returns at once. Otherwise it sends the
    payload; on error it shows a fixed toast, re-raises and keeps the profile;
    a thrown call leaves with neither toast;
    on success it merges the changes into the profile it holds (if any) and
    shows a success toast. `now` is the timestamp the source takes from the clock.
  */
  function UpdateProfileResult(s: State, c: ProfileChanges, now: string, reply: Reply): (r: (State, Option<BackendError>))
    ensures r.0.user == s.user && r.0.loading == s.loading
    ensures s.user.None? ==> r == (s, None)
    ensures s.user.Some? ==> r.0.requests == s.requests + [UpdateProfileRow(s.user.value.id, UpdatePayload(c, now))]
    ensures s.user.Some? && reply.Rejected? ==>
      r.1 == Some(reply.error) && r.0.profile == s.profile && r.0.toasts == s.toasts + [ProfileUpdateFailed]
    ensures s.user.Some? && reply.Accepted? ==>
      r.1.None? && r.0.toasts == s.toasts + [ProfileUpdated]
      && r.0.profile == (if s.profile.Some? then Some(Merge(s.profile.value, c)) else None)
    ensures s.user.Some? && reply.Thrown? ==>
      r.1 == Some(reply.error) && r.0.profile == s.profile && r.0.toasts == s.toasts
  {
    if s.user.None? then (s, None)
    else
      var sent := s.(requests := s.requests + [UpdateProfileRow(s.user.value.id, UpdatePayload(c, now))]);
      match reply
      case Rejected(e) => (sent.(toasts := s.toasts + [ProfileUpdateFailed]), Some(e))
      case Accepted =>
        var merged := if s.profile.Some? then Some(Merge(s.profile.value, c)) else None;
        (sent.(profile := merged, toasts := s.toasts + [ProfileUpdated]), None)
      case Thrown(e) => (sent, Some(e))
  }

  // ---------------------------------------------------------------------------
  // Properties of the merge
  // ---------------------------------------------------------------------------

  lemma MergeNoChanges(p: Profile)
    ensures Merge(p, NoChanges) == p
  {
  }

  lemma MergeIdempotent(p: Profile, c: ProfileChanges)
    ensures Merge(Merge(p, c), c) == Merge(p, c)
  {
  }

  /** Two successive merges are one merge of the combined changes. */
  lemma MergeThen(p: Profile, a: ProfileChanges, b: ProfileChanges)
    ensures Merge(Merge(p, a), b) == Merge(p, Then(a, b))
  {
  }

  /**
    A successful update keeps the local `updated_at` unless the changes carry
    one, although the backend is sent the fresh timestamp.
  */
  lemma UpdateKeepsLocalTimestamp(s: State, c: ProfileChanges, now: string)
    requires s.user.Some? && s.profile.Some? && c.updatedAt.None?
    ensures var r := UpdateProfileResult(s, c, now, Accepted).0;
      && r.profile.Some? && r.profile.value.updatedAt == s.profile.value.updatedAt
      && r.requests[|r.requests| - 1].changes.updatedAt == Some(now)
  {
  }

  /**
    None of the four actions catches a thrown backend call: the request is
    sent, no toast is shown, the session cells and the profile stay as they
    were, and the exception is what the action raises.
  */
  lemma ThrownActionIsSilent(s: State, email: string, password: string, fullName: string,
                             studentId: Option<string>, role: Option<string>,
                             c: ProfileChanges, now: string, e: BackendError)
    ensures var r := SignInResult(s, email, password, Thrown(e)); r.0 == s.(requests := r.0.requests) && r.1 == Some(e)
    ensures var r := SignUpResult(s, email, password, fullName, studentId, role, Thrown(e));
      r.0 == s.(requests := r.0.requests) && r.1 == Some(e)
    ensures var r := SignOutResult(s, Thrown(e)); r.0 == s.(requests := r.0.requests) && r.1 == Some(e)
    ensures s.user.Some? ==>
      var r := UpdateProfileResult(s, c, now, Thrown(e)); r.0 == s.(requests := r.0.requests) && r.1 == Some(e)
  {
  }

  // ---------------------------------------------------------------------------
  // Any order of events
  // ---------------------------------------------------------------------------

  /** Anything that can reach the store, in whatever order it arrives. */
  datatype Event =
    | AuthChange(session: Option<User>)
    | InitialSession(session: Option<User>)
    | ProfileResult(outcome: FetchOutcome)
    | SignInCall(email: string, password: string, reply: Reply)
    | SignUpCall(email: string, password: string, fullName: string, studentId: Option<string>,
                 role: Option<string>, reply: Reply)
    | SignOutCall(reply: Reply)
    | UpdateCall(changes: ProfileChanges, now: string, reply: Reply)

  function Apply(s: State, e: Event): State {
    match e
    case AuthChange(session) => AuthChanged(s, session)
    case InitialSession(session) => SessionChecked(s, session)
    case ProfileResult(outcome) => ProfileFetched(s, outcome)
    case SignInCall(email, password, reply) => SignInResult(s, email, password, reply).0
    case SignUpCall(email, password, name, sid, role, reply) => SignUpResult(s, email, password, name, sid, role, reply).0
    case SignOutCall(reply) => SignOutResult(s, reply).0
    case UpdateCall(c, now, reply) => UpdateProfileResult(s, c, now, reply).0
  }

  /** The state after the events, oldest first. */
  function Run(s: State, es: seq<Event>): State
    decreases |es|
  {
    if es == [] then s else Apply(Run(s, es[..|es| - 1]), es[|es| - 1])
  }

  /** The events after which nothing is pending: a no-user result or a finished fetch. */
  predicate Resolves(e: Event) {
    || (e.AuthChange? && e.session.None?)
    || (e.InitialSession? && e.session.None?)
    || e.ProfileResult?
  }

  predicate StartsFetch(e: Event) {
    (e.AuthChange? || e.InitialSession?) && e.session.Some?
  }

  /** Every fetch result belongs to a fetch started earlier: `open` are still running. */
  predicate FeasibleFrom(open: nat, es: seq<Event>)
    decreases |es|
  {
    es == [] ||
    (if StartsFetch(es[0]) then FeasibleFrom(open + 1, es[1..])
     else if es[0].ProfileResult? then open > 0 && FeasibleFrom(open - 1, es[1..])
     else FeasibleFrom(open, es[1..]))
  }

  predicate Feasible(es: seq<Event>) {
    FeasibleFrom(0, es)
  }

  /** No handler ever sets `loading` back to true. */
  lemma {:induction false} LoadingNeverReturns(s: State, es: seq<Event>)
    requires !s.loading
    ensures !Run(s, es).loading
    decreases |es|
  {
    if es != [] {
      LoadingNeverReturns(s, es[..|es| - 1]);
    }
  }

  /**
    From mount, `loading` is still true exactly when no event so far has
    resolved: no no-user result and no finished profile fetch.
  */
  lemma {:induction false} LoadingUntilResolved(es: seq<Event>)
    ensures Run(Initial(), es).loading <==> forall k :: 0 <= k < |es| ==> !Resolves(es[k])
    decreases |es|
  {
    if es != [] {
      var init := es[..|es| - 1];
      LoadingUntilResolved(init);
      assert forall k :: 0 <= k < |init| ==> init[k] == es[k];
      if Resolves(es[|es| - 1]) {
        assert !Run(Initial(), es).loading;
      }
    }
  }

  /** The toast and request logs only ever grow. */
  lemma {:induction false} LogsOnlyGrow(s: State, es: seq<Event>)
    ensures s.toasts <= Run(s, es).toasts && s.requests <= Run(s, es).requests
    decreases |es|
  {
    if es != [] {
      LogsOnlyGrow(s, es[..|es| - 1]);
      ApplyExtendsLogs(Run(s, es[..|es| - 1]), es[|es| - 1]);
    }
  }

  /** One event appends to the toast and request logs and removes nothing. */
  lemma ApplyExtendsLogs(s: State, e: Event)
    ensures s.toasts <= Apply(s, e).toasts && s.requests <= Apply(s, e).requests
  {
  }

  /** An auth action in any order leaves the three session cells as they were. */
  lemma ActionsKeepSession(s: State, e: Event)
    requires e.SignInCall? || e.SignUpCall? || e.SignOutCall?
    ensures var r := Apply(s, e); r.user == s.user && r.profile == s.profile && r.loading == s.loading
  {
  }

  /**
    "No user implies no profile" is not an invariant: the listener starts a
    fetch for a user, the user signs out, and the late fetch result installs
    the gone user's profile. Fetch results carry no user tag.
  */
  lemma LateFetchAfterSignOut(u: User, p: Profile)
    ensures var es := [AuthChange(Some(u)), AuthChange(None), ProfileResult(Found(p))];
      && Feasible(es) && Run(Initial(), es).user.None? && Run(Initial(), es).profile == Some(p)
  {
    var es := [AuthChange(Some(u)), AuthChange(None), ProfileResult(Found(p))];
    assert es[..2][..1] == [AuthChange(Some(u))];
    assert es[..2] == [AuthChange(Some(u)), AuthChange(None)];
    assert es[1..] == [AuthChange(None), ProfileResult(Found(p))];
    assert es[1..][1..] == [ProfileResult(Found(p))];
    assert es[1..][1..][1..] == [];
    assert FeasibleFrom(1, es[1..][1..]);
    assert FeasibleFrom(1, es[1..]);
  }

  /**
    The same through the initial-session path, which does not clear the
    profile: a listener event loads a profile, then an initial check that
    resolves late with no session leaves that profile beside no user.
  */
  lemma StaleInitialSession(u: User, p: Profile)
    ensures var es := [AuthChange(Some(u)), ProfileResult(Found(p)), InitialSession(None)];
      && Feasible(es) && Run(Initial(), es).user.None? && Run(Initial(), es).profile == Some(p)
  {
    var es := [AuthChange(Some(u)), ProfileResult(Found(p)), InitialSession(None)];
    assert es[..2][..1] == [AuthChange(Some(u))];
    assert es[..2] == [AuthChange(Some(u)), ProfileResult(Found(p))];
    assert es[1..] == [ProfileResult(Found(p)), InitialSession(None)];
    assert es[1..][1..] == [InitialSession(None)];
    assert es[1..][1..][1..] == [];
    assert FeasibleFrom(0, es[1..][1..]);
    assert FeasibleFrom(1, es[1..]);
  }

  // ---------------------------------------------------------------------------
  // The provider object
  // ---------------------------------------------------------------------------

  class AuthProvider {
    var user: Option<User>
    var profile: Option<Profile>
    var loading: bool
    var toasts: seq<Toast>
    var requests: seq<Request>

    function Snapshot(): State
      reads this
    {
      State(user, profile, loading, toasts, requests)
    }

    constructor ()
      ensures Snapshot() == Initial()
    {
      user := None;
      profile := None;
      loading := true;
      toasts := [];
      requests := [];
    }

    /** The first half of `fetchProfile`: the select on `profiles` by id. */
    method StartFetchProfile(userId: string)
      modifies this
      ensures Snapshot() == old(Snapshot()).(requests := old(requests) + [SelectProfile(userId)])
    {
      requests := requests + [SelectProfile(userId)];
    }

    method OnAuthStateChange(session: Option<User>)
      modifies this
      ensures Snapshot() == AuthChanged(old(Snapshot()), session)
    {
      user := session;
      if session.Some? {
        StartFetchProfile(session.value.id);
      } else {
        profile := None;
        loading := false;
      }
    }

    method OnInitialSession(session: Option<User>)
      modifies this
      ensures Snapshot() == SessionChecked(old(Snapshot()), session)
    {
      user := session;
      if session.Some? {
        StartFetchProfile(session.value.id);
      } else {
        loading := false;
      }
    }

    /** The second half of `fetchProfile`: the try, catch and finally blocks. */
    method OnProfileFetched(outcome: FetchOutcome)
      modifies this
      ensures Snapshot() == ProfileFetched(old(Snapshot()), outcome)
    {
      match outcome {
        case Found(row) =>
          profile := Some(row);
        case Failed(e) =>
          if e.code == NotFoundCode {
            profile := None;
          } else {
            toasts := toasts + [ProfileLoadFailed];
          }
        case Threw =>
      }
      loading := false;
    }

    method SignIn(email: string, password: string, reply: Reply) returns (raised: Option<BackendError>)
      modifies this
      ensures (Snapshot(), raised) == SignInResult(old(Snapshot()), email, password, reply)
    {
      requests := requests + [SignInWithPassword(email, password)];
      raised := Report(reply, SignedIn);
    }

    method SignUp(email: string, password: string, fullName: string, studentId: Option<string>,
                  role: Option<string>, reply: Reply) returns (raised: Option<BackendError>)
      modifies this
      ensures (Snapshot(), raised) == SignUpResult(old(Snapshot()), email, password, fullName, studentId, role, reply)
    {
      requests := requests + [CreateAccount(email, password, SignUpData(fullName, studentId, role))];
      raised := Report(reply, AccountCreated);
    }

    method SignOut(reply: Reply) returns (raised: Option<BackendError>)
      modifies this
      ensures (Snapshot(), raised) == SignOutResult(old(Snapshot()), reply)
    {
      requests := requests + [EndSession];
      raised := Report(reply, SignedOut);
    }

    /** Shows the outcome of an auth action and hands back the error to re-raise. */
    method Report(reply: Reply, success: Toast) returns (raised: Option<BackendError>)
      modifies this
      ensures reply.Rejected? ==> Snapshot() == old(Snapshot()).(toasts := old(toasts) + [ErrorToast(reply.error)])
      ensures reply.Accepted? ==> Snapshot() == old(Snapshot()).(toasts := old(toasts) + [success])
      ensures reply.Thrown? ==> Snapshot() == old(Snapshot())
      ensures raised == (if reply.Accepted? then None else Some(reply.error))
    {
      match reply {
        case Rejected(e) =>
          toasts := toasts + [ErrorToast(e)];
          raised := Some(e);
        case Accepted =>
          toasts := toasts + [success];
          raised := None;
        case Thrown(e) =>
          raised := Some(e);
      }
    }

    method UpdateProfile(c: ProfileChanges, now: string, reply: Reply) returns (raised: Option<BackendError>)
      modifies this
      ensures (Snapshot(), raised) == UpdateProfileResult(old(Snapshot()), c, now, reply)
    {
      if user.None? {
        return None;
      }
      requests := requests + [UpdateProfileRow(user.value.id, UpdatePayload(c, now))];
      if reply.Thrown? {
        return Some(reply.error);
      }
      if reply.Rejected? {
        toasts := toasts + [ProfileUpdateFailed];
        return Some(reply.error);
      }
      if profile.Some? {
        profile := Some(Merge(profile.value, c));
      }
      toasts := toasts + [ProfileUpdated];
      raised := None;
    }
  }

  /**
    The late-fetch counterexample played on the provider itself: after it,
    the provider holds a profile but no user.
  */
  method LateFetchOnProvider(u: User, p: Profile) returns (user: Option<User>, profile: Option<Profile>)
    ensures user.None? && profile == Some(p)
  {
    var auth := new AuthProvider();
    auth.OnAuthStateChange(Some(u));
    auth.OnAuthStateChange(None);
    auth.OnProfileFetched(Found(p));
    user, profile := auth.user, auth.profile;
  }
}
