/**
  The waste report form: the form fields, the captured location, the
  `isSubmitting` flag, and `handleSubmit`, which checks the session and the
  two required fields, inserts one `waste_reports` row and, once the insert
  has resolved, resets the form on success or keeps it on failure.

  `handleSubmit` awaits the insert, so it is split at the `await`: `Submit`
  is everything before it (the guards, `setIsSubmitting(true)` and the insert
  request), `InsertResolved` is everything after it (the toast, the reset and
  the `finally` block). The toast and insert logs stand for the calls to
  `toast` and to the backend.
*/
module WasteReport {
  import opened Wrappers
  import Auth
  import opened Toasts

  /** The five text fields of the form, all strings. */
  datatype FormData = FormData(
    title: string, description: string, wasteType: string, locationName: string, imageUrl: string)

  const EmptyForm := FormData("", "", "", "", "")

  /** A captured GPS position. */
  datatype Coordinates = Coordinates(lat: real, lng: real)

  /** The record handed to `insert` on `waste_reports`. */
  datatype InsertPayload = InsertPayload(
    userId: string, title: string, description: string, wasteType: string, locationName: string,
    latitude: Option<real>, longitude: Option<real>, imageUrl: string)

  /** The form's state cells and the effects it has issued so far. */
  datatype FormState = FormState(
    isSubmitting: bool, location: Option<Coordinates>, form: FormData,
    toasts: seq<Toast>, inserts: seq<InsertPayload>)

  const MissingInformation := Toast("Missing information", "Please fill in the title and waste type", true)
  const ReportSubmitted := Toast("Report submitted!", "Thank you for helping keep our campus clean. You've earned 10 points!", false)
  const SubmitFailed := Toast("Error", "Failed to submit report. Please try again.", true)
  const LocationCaptured := Toast("Location captured", "Your current location has been recorded", false)

  function Initial(): (s: FormState)
    ensures !s.isSubmitting && s.location.None? && s.form == EmptyForm
    ensures s.toasts == [] && s.inserts == []
  {
    FormState(false, None, EmptyForm, [], [])
  }

  /** `x || null` on a number: zero is falsy, so it becomes null too. */
  function OrNull(x: real): (r: Option<real>)
    ensures r.None? <==> x == 0.0
    ensures r.Some? ==> r.value == x
  {
    if x == 0.0 then None else Some(x)
  }

  /** The form fields a row was built from. */
  function FormOf(p: InsertPayload): FormData {
    FormData(p.title, p.description, p.wasteType, p.locationName, p.imageUrl)
  }

  /** The row built from the signed-in user's id, the form and the location. */
  function Payload(userId: string, f: FormData, loc: Option<Coordinates>): (p: InsertPayload)
    ensures p.userId == userId && FormOf(p) == f
    ensures loc.None? ==> p.latitude.None? && p.longitude.None?
  {
    InsertPayload(userId, f.title, f.description, f.wasteType, f.locationName,
                  if loc.Some? then OrNull(loc.value.lat) else None,
                  if loc.Some? then OrNull(loc.value.lng) else None,
                  f.imageUrl)
  }

  /** Only the title and the waste type are required. */
  function Complete(f: FormData): (ok: bool)
    ensures ok ==> |f.title| > 0 && |f.wasteType| > 0
    ensures f == EmptyForm ==> !ok
  {
    f.title != "" && f.wasteType != ""
  }

  /** The two guards of `handleSubmit` pass: a user, a profile and a complete form. */
  function Ready(s: FormState, user: Option<Auth.User>, profile: Option<Auth.Profile>): (ok: bool)
    ensures ok ==> user.Some? && profile.Some? && Complete(s.form)
    ensures user.None? || profile.None? || s.form == EmptyForm ==> !ok
  {
    user.Some? && profile.Some? && Complete(s.form)
  }

  /**
    `handleSubmit` up to the `await`: without a user or a profile it returns
    at once; with a missing required field it shows one toast and returns;
    otherwise it raises `isSubmitting` and sends the insert.
  */
  function Submit(s: FormState, user: Option<Auth.User>, profile: Option<Auth.Profile>): (r: FormState)
    ensures user.None? || profile.None? ==> r == s
    ensures r.form == s.form && r.location == s.location
    ensures Ready(s, user, profile) ==>
      && r.isSubmitting && r.toasts == s.toasts
      && r.inserts == s.inserts + [Payload(user.value.id, s.form, s.location)]
    ensures !Ready(s, user, profile) ==> r.isSubmitting == s.isSubmitting && r.inserts == s.inserts
    ensures |r.inserts| == |s.inserts| + 1 <==> Ready(s, user, profile)
  {
    if user.None? || profile.None? then s
    else if s.form.title == "" || s.form.wasteType == "" then s.(toasts := s.toasts + [MissingInformation])
    else s.(isSubmitting := true, inserts := s.inserts + [Payload(user.value.id, s.form, s.location)])
  }

  /**
    `handleSubmit` after the `await`: success shows the confirmation and
    empties the form and the location; an error (returned or thrown) shows
    the failure toast and keeps both; `finally` lowers `isSubmitting`.
  */
  function InsertResolved(s: FormState, reply: Auth.Reply): (r: FormState)
    ensures !r.isSubmitting && r.inserts == s.inserts
    ensures reply.Accepted? ==>
      r.form == EmptyForm && r.location.None? && r.toasts == s.toasts + [ReportSubmitted]
    ensures !reply.Accepted? ==>
      r.form == s.form && r.location == s.location && r.toasts == s.toasts + [SubmitFailed]
  {
    match reply
    case Accepted =>
      s.(isSubmitting := false, form := EmptyForm, location := None, toasts := s.toasts + [ReportSubmitted])
    case Rejected(_) | Thrown(_) =>
      s.(isSubmitting := false, toasts := s.toasts + [SubmitFailed])
  }

  /** The success callback of the geolocation request. */
  function PositionCaptured(s: FormState, c: Coordinates): (r: FormState)
    ensures r.location == Some(c) && r.toasts == s.toasts + [LocationCaptured]
    ensures r.form == s.form && r.isSubmitting == s.isSubmitting && r.inserts == s.inserts
  {
    s.(location := Some(c), toasts := s.toasts + [LocationCaptured])
  }

  // ---------------------------------------------------------------------------
  // Properties of one submission
  // ---------------------------------------------------------------------------

  /** A row is determined by the user, the form and its coordinates. */
  lemma PayloadInjective(u1: string, f1: FormData, u2: string, f2: FormData, loc: Option<Coordinates>)
    requires Payload(u1, f1, loc) == Payload(u2, f2, loc)
    ensures u1 == u2 && f1 == f2
  {
    assert FormOf(Payload(u1, f1, loc)) == f1 && FormOf(Payload(u2, f2, loc)) == f2;
  }

  /**
    A captured coordinate is stored as is unless it is exactly zero: `||`
    treats 0 as missing, so a position on the equator or the prime meridian
    loses that coordinate.
  */
  lemma CapturedCoordinates(userId: string, f: FormData, c: Coordinates)
    ensures Payload(userId, f, Some(c)).latitude == (if c.lat == 0.0 then None else Some(c.lat))
    ensures Payload(userId, f, Some(c)).longitude == (if c.lng == 0.0 then None else Some(c.lng))
  {
  }

  /** No user or no profile: nothing happens at all. */
  lemma NoSessionNoEffect(s: FormState, user: Option<Auth.User>, profile: Option<Auth.Profile>)
    requires user.None? || profile.None?
    ensures Submit(s, user, profile) == s
  {
  }

  /**
    A signed-in user with an empty title or an empty waste type gets exactly
    one "Missing information" toast, no insert, and `isSubmitting` as it was.
  */
  lemma MissingFieldBlocks(s: FormState, user: Auth.User, profile: Auth.Profile)
    requires s.form.title == "" || s.form.wasteType == ""
    ensures var r := Submit(s, Some(user), Some(profile));
      && r.toasts == s.toasts + [MissingInformation]
      && r.inserts == s.inserts && r.isSubmitting == s.isSubmitting
  {
  }

  /**
    Description, location name, image and coordinates are optional to the
    handler; the input's `type="url"` check on the image is the browser's.
  */
  lemma OptionalFieldsNotRequired(s: FormState, user: Auth.User, profile: Auth.Profile)
    requires s.form.title != "" && s.form.wasteType != ""
    ensures |Submit(s, Some(user), Some(profile)).inserts| == |s.inserts| + 1
  {
  }

  /**
    A whole submission that reaches the backend: `isSubmitting` is up while
    the insert is outstanding and down afterwards on both outcomes, exactly
    one row was sent, success empties the form and the location, failure
    keeps them.
  */
  lemma SubmissionBracket(s: FormState, user: Auth.User, profile: Auth.Profile, reply: Auth.Reply)
    requires Complete(s.form)
    ensures var mid := Submit(s, Some(user), Some(profile));
      var r := InsertResolved(mid, reply);
      && mid.isSubmitting && !r.isSubmitting
      && r.inserts == s.inserts + [Payload(user.id, s.form, s.location)]
      && (reply.Accepted? ==> r.form == EmptyForm && r.location.None?)
      && (!reply.Accepted? ==> r.form == s.form && r.location == s.location)
  {
  }

  /**
    After a successful report, calling the handler on the reset form only
    yields "Missing information". In the page the empty required title stops
    the browser from submitting at all.
  */
  lemma ResetFormIsIncomplete(s: FormState, user: Auth.User, profile: Auth.Profile)
    requires Complete(s.form)
    ensures var r := InsertResolved(Submit(s, Some(user), Some(profile)), Auth.Accepted);
      Submit(r, Some(user), Some(profile)) == r.(toasts := r.toasts + [MissingInformation])
  {
  }

  // ---------------------------------------------------------------------------
  // Any order of events
  // ---------------------------------------------------------------------------

  /** What can reach the form: edits, a captured position, a call of `handleSubmit`, an insert result. */
  datatype Event =
    | Edit(form: FormData)
    | Located(position: Coordinates)
    | Pressed(user: Option<Auth.User>, profile: Option<Auth.Profile>)
    | InsertDone(reply: Auth.Reply)

  function Apply(s: FormState, e: Event): FormState {
    match e
    case Edit(f) => s.(form := f)
    case Located(c) => PositionCaptured(s, c)
    case Pressed(user, profile) => Submit(s, user, profile)
    case InsertDone(reply) => InsertResolved(s, reply)
  }

  /** The state after the events, oldest first. */
  function Run(s: FormState, es: seq<Event>): FormState
    decreases |es|
  {
    if es == [] then s else Apply(Run(s, es[..|es| - 1]), es[|es| - 1])
  }

  /**
    The submit button is disabled while `isSubmitting`, so `handleSubmit` is
    only called when it is down; an insert result only arrives while one is
    outstanding, that is while it is up.
  */
  function Enabled(s: FormState, e: Event): (ok: bool)
    ensures e.Pressed? && s.isSubmitting ==> !ok
    ensures e.InsertDone? && !s.isSubmitting ==> !ok
    ensures e.Edit? || e.Located? ==> ok
  {
    (e.Pressed? ==> !s.isSubmitting) && (e.InsertDone? ==> s.isSubmitting)
  }

  /** Every event of `es` can happen in the state the events before it lead to. */
  function Feasible(s: FormState, es: seq<Event>): (ok: bool)
    ensures es == [] ==> ok
    ensures ok ==> forall k :: 0 <= k < |es| && es[k].Pressed? ==> !Run(s, es[..k]).isSubmitting
    ensures ok ==> forall k :: 0 <= k < |es| && es[k].InsertDone? ==> Run(s, es[..k]).isSubmitting
  {
    forall k :: 0 <= k < |es| ==> Enabled(Run(s, es[..k]), es[k])
  }

  function CountResults(es: seq<Event>): nat
    decreases |es|
  {
    if es == [] then 0 else CountResults(es[..|es| - 1]) + (if es[|es| - 1].InsertDone? then 1 else 0)
  }

  /**
    Along any feasible order of events from mount, every insert sent has
    resolved except for at most one, and `isSubmitting` is up exactly when
    one is outstanding.
  */
  lemma {:induction false} SubmittingIffOutstanding(es: seq<Event>)
    requires Feasible(Initial(), es)
    ensures |Run(Initial(), es).inserts| == CountResults(es) + (if Run(Initial(), es).isSubmitting then 1 else 0)
    decreases |es|
  {
    if es != [] {
      var init := es[..|es| - 1];
      assert Feasible(Initial(), init) by {
        forall k | 0 <= k < |init| ensures Enabled(Run(Initial(), init[..k]), init[k]) {
          assert init[..k] == es[..k];
        }
      }
      SubmittingIffOutstanding(init);
      assert es[..|es| - 1] == init;
      assert Enabled(Run(Initial(), init), es[|es| - 1]);
    }
  }

  // ---------------------------------------------------------------------------
  // The form object
  // ---------------------------------------------------------------------------

  class WasteReportForm {
    var isSubmitting: bool
    var location: Option<Coordinates>
    var formData: FormData
    var toasts: seq<Toast>
    var inserts: seq<InsertPayload>

    function Snapshot(): FormState
      reads this
    {
      FormState(isSubmitting, location, formData, toasts, inserts)
    }

    constructor ()
      ensures Snapshot() == Initial()
    {
      isSubmitting := false;
      location := None;
      formData := EmptyForm;
      toasts := [];
      inserts := [];
    }

    /** The inputs' `onChange` handlers, which replace the form data. */
    method SetFormData(f: FormData)
      modifies this
      ensures Snapshot() == Apply(old(Snapshot()), Edit(f))
    {
      formData := f;
    }

    /** The success callback of `handleGetLocation`. */
    method OnPositionCaptured(c: Coordinates)
      modifies this
      ensures Snapshot() == PositionCaptured(old(Snapshot()), c)
    {
      location := Some(c);
      toasts := toasts + [LocationCaptured];
    }

    /**
      `handleSubmit` up to the `await`, reading the session from the
      provider. It never touches the provider: no points are added locally.
    */
    method HandleSubmit(auth: Auth.AuthProvider) returns (started: bool)
      modifies this
      ensures Snapshot() == Submit(old(Snapshot()), auth.user, auth.profile)
      ensures started <==> Ready(old(Snapshot()), auth.user, auth.profile)
      ensures unchanged(auth)
    {
      if auth.user.None? || auth.profile.None? {
        return false;
      }
      if formData.title == "" || formData.wasteType == "" {
        toasts := toasts + [MissingInformation];
        return false;
      }
      isSubmitting := true;
      inserts := inserts + [Payload(auth.user.value.id, formData, location)];
      started := true;
    }

    /** `handleSubmit` after the `await`: the toast, the reset and `finally`. */
    method OnInsertResolved(reply: Auth.Reply)
      modifies this
      ensures Snapshot() == InsertResolved(old(Snapshot()), reply)
    {
      if reply.Accepted? {
        toasts := toasts + [ReportSubmitted];
        formData := EmptyForm;
        location := None;
      } else {
        toasts := toasts + [SubmitFailed];
      }
      isSubmitting := false;
    }
  }
}
