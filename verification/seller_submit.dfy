/** The seller-application modal's state and its two handlers
    (frontend/src/components/forms/BecomeSellerModal.jsx): `handleChange`
    and `handleSubmit`, with the deferred reset that follows a success.
    The signed-in user, the stored token and the submission call are
    inputs; rendering is not modelled. */
module SellerSubmit {
  import opened Wrappers
  import opened JsText
  import opened SellerForm
  import opened SubmitErrors

  /** The component's state. `closeRequested` records that the deferred
      step has called the parent's `onClose`. */
  datatype ModalState = ModalState(
    form: Form,
    error: string,
    success: bool,
    loading: bool,
    closeRequested: bool)

  /** The state a freshly opened modal starts in. */
  const Initial: ModalState := ModalState(Empty, "", false, false, false)

  /** What the submission call does: answer with a response body, or throw. */
  datatype ApiResult = Responded(response: Response) | Threw(error: ThrownError)

  /** One run of the submit handler: the state it leaves, the body it sent
      (if it called the endpoint at all), and whether it armed the deferred
      reset. */
  datatype Submission = Submission(state: ModalState, sent: Option<Form>, resetPending: bool)

  const OfflineToken: string := "offline-token"

  const PleaseLogIn: string := "Please log in to submit a seller application."
  const SessionInvalid: string := "Your session is invalid. Please log out and log in again."
  const TokenInvalid: string := "Your session token is invalid. Please log out and log in again."
  const FillRequired: string := "Please fill in all required fields"

  /** `handleChange`: the named field takes the typed value and the shown
      error is cleared. */
  function HandleChange(st: ModalState, name: Field, value: string): (r: ModalState)
    ensures Get(r.form, name) == value
    ensures forall other :: other != name ==> Get(r.form, other) == Get(st.form, other)
    ensures r.error == ""
    ensures r.success == st.success && r.loading == st.loading && r.closeRequested == st.closeRequested
  {
    st.(form := Set(st.form, name, value), error := "")
  }

  /** The local checks in the order they run; the first failing one gives
      its message. `None` when every check passes. */
  function LocalCheck(signedIn: bool, storedToken: Option<string>, form: Form): (failure: Option<string>)
    ensures failure.None? <==>
      signedIn && Truthy(storedToken) && storedToken.value != OfflineToken
      && multiset(storedToken.value)['.'] == 2
      && forall name :: Required(name) ==> Get(form, name) != ""
  {
    StoredTokenShape(storedToken);
    MissingRequiredIffBlankRequired(form);
    if !signedIn then Some(PleaseLogIn)
    else if !Truthy(storedToken) || storedToken.value == OfflineToken then Some(SessionInvalid)
    else if !ThreeSegments(storedToken.value) then Some(TokenInvalid)
    else if MissingRequired(form) then Some(FillRequired)
    else None
  }

  /** The shape check on a stored token, if there is one, is the two-dot test. */
  lemma StoredTokenShape(storedToken: Option<string>)
    ensures storedToken.Some? ==>
      (ThreeSegments(storedToken.value) <==> multiset(storedToken.value)['.'] == 2)
  {
    if storedToken.Some? {
      ThreeSegmentsIffTwoDots(storedToken.value);
    }
  }

  /** `handleSubmit`: clear the error and raise `loading`; run the local
      checks; only if all pass, send the draft once and act on the answer. */
  function HandleSubmit(st: ModalState, signedIn: bool, storedToken: Option<string>,
                        submit: Form -> ApiResult): (s: Submission)
    ensures s.state.form == st.form && s.state.closeRequested == st.closeRequested
    ensures s.sent.Some? <==> LocalCheck(signedIn, storedToken, st.form).None?
    ensures s.sent.Some? ==> s.sent.value == st.form
    ensures s.sent.None? ==>
      s.state == st.(error := LocalCheck(signedIn, storedToken, st.form).value, loading := false)
    ensures s.resetPending <==>
      s.sent.Some? && submit(st.form).Responded? && submit(st.form).response.success
    ensures s.resetPending ==> s.state.success && s.state.loading && s.state.error == ""
    ensures !s.resetPending ==> !s.state.loading && s.state.success == st.success
    ensures s.sent.Some? && submit(st.form).Responded? && !submit(st.form).response.success ==>
      s.state.error == ResponseMessage(submit(st.form).response)
    ensures s.sent.Some? && submit(st.form).Threw? ==>
      s.state.error == ThrownMessage(submit(st.form).error)
  {
    var started := st.(error := "", loading := true);
    match LocalCheck(signedIn, storedToken, st.form)
    case Some(message) =>
      Submission(started.(error := message, loading := false), None, false)
    case None =>
      var body := Payload(st.form);
      match submit(body)
      case Responded(resp) =>
        if resp.success then Submission(started.(success := true), Some(body), true)
        else Submission(started.(error := ResponseMessage(resp), loading := false), Some(body), false)
      case Threw(err) =>
        Submission(started.(error := ThrownMessage(err), loading := false), Some(body), false)
  }

  /** The step the success timer runs: close the modal, drop the success
      view and empty the draft. The error and `loading` are left alone. */
  function DeferredReset(st: ModalState): (r: ModalState)
    ensures forall name :: Get(r.form, name) == ""
    ensures !r.success && r.closeRequested
    ensures r.error == st.error && r.loading == st.loading
  {
    st.(closeRequested := true, success := false, form := Empty)
  }

  // ---------------------------------------------------------------------
  // Properties of the handlers

  /** The local checks take effect in a fixed order, each failing one
      setting its own message, whatever the draft holds after it; the
      endpoint is not called. */
  lemma LocalChecksInOrder(st: ModalState, signedIn: bool, storedToken: Option<string>,
                           submit: Form -> ApiResult)
    ensures var s := HandleSubmit(st, signedIn, storedToken, submit);
      && (!signedIn ==>
            s == Submission(st.(error := PleaseLogIn, loading := false), None, false))
      && (signedIn && (storedToken.None? || storedToken.value in {"", OfflineToken}) ==>
            s == Submission(st.(error := SessionInvalid, loading := false), None, false))
      && (signedIn && Truthy(storedToken) && storedToken.value != OfflineToken
          && multiset(storedToken.value)['.'] != 2 ==>
            s == Submission(st.(error := TokenInvalid, loading := false), None, false))
      && (signedIn && Truthy(storedToken) && storedToken.value != OfflineToken
          && multiset(storedToken.value)['.'] == 2
          && (exists name :: Required(name) && Get(st.form, name) == "") ==>
            s == Submission(st.(error := FillRequired, loading := false), None, false))
  {
    StoredTokenShape(storedToken);
    MissingRequiredIffBlankRequired(st.form);
  }

  /** Whether a submission is blocked locally does not depend on the
      optional fields. */
  lemma OptionalFieldsNeverBlockSubmit(st: ModalState, signedIn: bool, storedToken: Option<string>,
                                       submit: Form -> ApiResult, name: Field, value: string)
    requires !Required(name)
    ensures HandleSubmit(st, signedIn, storedToken, submit).sent.Some? <==>
      HandleSubmit(HandleChange(st, name, value), signedIn, storedToken, submit).sent.Some?
  {
    OptionalFieldsNeverBlock(st.form, name, value);
  }

  /** A success shows the confirmation and, once the deferred step runs,
      the modal is closed with an empty draft; `loading` is still raised. */
  lemma SuccessThenReset(st: ModalState, signedIn: bool, storedToken: Option<string>,
                         submit: Form -> ApiResult)
    requires HandleSubmit(st, signedIn, storedToken, submit).resetPending
    ensures var after := DeferredReset(HandleSubmit(st, signedIn, storedToken, submit).state);
      after == Initial.(loading := true, closeRequested := true)
  {
  }
}
