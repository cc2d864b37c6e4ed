/** How the seller-application form turns a failed submission into the one
    message it shows (frontend/src/components/forms/BecomeSellerModal.jsx).
    A failure arrives loosely shaped: as a response with `success` false, or
    as a thrown error that may carry field errors, an API `data` object, a
    message, a status and flags. */
module SubmitErrors {
  import opened Wrappers
  import opened JsText

  /** One element of an `errors` array: an object with optional `msg` and
      `message` properties, or a bare string. */
  datatype ErrorItem =
    | FieldError(msg: Option<string>, message: Option<string>)
    | Text(text: string)

  /** The `errors` property: absent (or falsy), present but not an array,
      or an array. */
  datatype ErrorList = NoErrors | NotArray | Items(items: seq<ErrorItem>)

  /** A response body from the submission endpoint. */
  datatype Response = Response(success: bool, message: Option<string>, errors: ErrorList)

  /** The `data` object of a thrown API error. */
  datatype ErrorData = ErrorData(errors: ErrorList, message: Option<string>)

  /** A thrown error, with the properties the handler inspects. */
  datatype ThrownError = ThrownError(
    errors: ErrorList,
    data: Option<ErrorData>,
    message: Option<string>,
    requiresAuth: bool,
    status: Option<int>,
    isNetworkError: bool)

  const ResponseDefault: string := "Failed to submit application"
  const ThrownDefault: string := "Failed to submit application. Please try again."
  const SessionExpired: string :=
    "Your session has expired or is invalid. Please log out and log in again to submit an application."
  const ServerUnreachable: string :=
    "Unable to connect to server. Please check if the backend server is running on http://localhost:3000 and try again."
  const NoPermission: string := "You do not have permission to perform this action."
  const InvalidData: string := "Invalid data provided. Please check all fields."

  /** What `join` renders for `e.msg || e.message` on a response's error
      element: `undefined` renders as the empty string, and a bare string
      has neither property. */
  function ResponseItemText(e: ErrorItem): (text: string)
    ensures e.FieldError? && Truthy(e.msg) ==> text == e.msg.value
    ensures e.FieldError? && !Truthy(e.msg) ==> text == e.message.GetOr("")
    ensures e.Text? ==> text == ""
  {
    match e
    case FieldError(msg, message) => if Truthy(msg) then msg.value else message.GetOr("")
    case Text(_) => ""
  }

  /** What `join` renders for `e.msg || e.message || e` on a thrown error's
      element: a bare string renders as itself, an object with neither
      property as `[object Object]`. */
  function ThrownItemText(e: ErrorItem): (text: string)
    ensures e.FieldError? && Truthy(e.msg) ==> text == e.msg.value
    ensures e.FieldError? && !Truthy(e.msg) && Truthy(e.message) ==> text == e.message.value
    ensures e.FieldError? && !Truthy(e.msg) && !Truthy(e.message) ==> text == "[object Object]"
    ensures e.Text? ==> text == e.text
  {
    match e
    case FieldError(msg, message) =>
      if Truthy(msg) then msg.value
      else if Truthy(message) then message.value
      else "[object Object]"
    case Text(s) => s
  }

  /** The two renderings agree on every object with a truthy `msg` or
      `message`; they differ only on a bare string (empty against the string
      itself) and on an object with neither (its `message` or empty against
      `[object Object]`). */
  lemma ItemTextsAgreeOnMessages(e: ErrorItem)
    ensures e.FieldError? && (Truthy(e.msg) || Truthy(e.message)) ==>
      ResponseItemText(e) == ThrownItemText(e)
    ensures e.Text? ==> ResponseItemText(e) == "" && ThrownItemText(e) == e.text
    ensures e.FieldError? && !Truthy(e.msg) && !Truthy(e.message) ==>
      ResponseItemText(e) == "" && ThrownItemText(e) == "[object Object]"
  {
  }

  /** `items.map(e => e.msg || e.message)` on a response's errors. */
  function ResponseTexts(items: seq<ErrorItem>): (texts: seq<string>)
    ensures |texts| == |items|
    ensures forall k :: 0 <= k < |items| ==> texts[k] == ResponseItemText(items[k])
  {
    if |items| == 0 then [] else [ResponseItemText(items[0])] + ResponseTexts(items[1..])
  }

  /** `items.map(e => e.msg || e.message || e)` on a thrown error's errors. */
  function ThrownTexts(items: seq<ErrorItem>): (texts: seq<string>)
    ensures |texts| == |items|
    ensures forall k :: 0 <= k < |items| ==> texts[k] == ThrownItemText(items[k])
  {
    if |items| == 0 then [] else [ThrownItemText(items[0])] + ThrownTexts(items[1..])
  }

  /** The message shown for a response whose `success` is falsy: an
      `errors` array wins over `message`, which wins over the default. */
  function ResponseMessage(resp: Response): (m: string)
    ensures resp.errors.Items? ==> m == Join(ResponseTexts(resp.errors.items), ", ")
    ensures !resp.errors.Items? && Truthy(resp.message) ==> m == resp.message.value
    ensures !resp.errors.Items? && !Truthy(resp.message) ==> m == ResponseDefault
  {
    var fallback := OrElse(resp.message, ResponseDefault);
    if resp.errors.Items? then Join(ResponseTexts(resp.errors.items), ", ") else fallback
  }

  /** The classification of a thrown error's (truthy) message: auth signals
      first, then network, then 403; a 400 and anything else show the
      message itself. */
  function ClassifyMessage(err: ThrownError, msg: string): (r: string)
    requires msg != ""
    ensures r in {SessionExpired, ServerUnreachable, NoPermission, msg}
    ensures err.requiresAuth || err.status == Some(401) ==> r == SessionExpired
    ensures r == ServerUnreachable ==> !err.requiresAuth && err.status != Some(401)
    ensures r == NoPermission && msg != NoPermission ==>
      !err.requiresAuth && !err.isNetworkError && (err.status == Some(403) || Contains(msg, "Forbidden"))
    ensures r == msg && msg !in {SessionExpired, ServerUnreachable, NoPermission} ==>
      !err.requiresAuth && !err.isNetworkError && err.status !in {Some(401), Some(403)}
  {
    if err.requiresAuth || err.status == Some(401) || Contains(msg, "Unauthorized")
       || Contains(msg, "invalid") || Contains(msg, "expired") then SessionExpired
    else if err.isNetworkError || Contains(msg, "fetch") || Contains(msg, "Network") then ServerUnreachable
    else if err.status == Some(403) || Contains(msg, "Forbidden") then NoPermission
    else if err.status == Some(400) || Contains(msg, "Bad Request") then OrElse(Some(msg), InvalidData)
    else msg
  }

  /** The message shown for a thrown error: its own `errors` array, else its
      `data` (errors, then message, else the default, never looking at the
      error's message), else the classification of a truthy message, else
      the default. */
  function ThrownMessage(err: ThrownError): (m: string)
    ensures err.errors.Items? ==> m == Join(ThrownTexts(err.errors.items), ", ")
    ensures !err.errors.Items? && err.data.Some? ==>
      m == (if err.data.value.errors.Items? then Join(ThrownTexts(err.data.value.errors.items), ", ")
            else OrElse(err.data.value.message, ThrownDefault))
    ensures !err.errors.Items? && err.data.None? && !Truthy(err.message) ==> m == ThrownDefault
    ensures !err.errors.Items? && err.data.None? && Truthy(err.message) ==>
      m in {SessionExpired, ServerUnreachable, NoPermission, err.message.value}
  {
    if err.errors.Items? then Join(ThrownTexts(err.errors.items), ", ")
    else if err.data.Some? then
      var data := err.data.value;
      if data.errors.Items? then Join(ThrownTexts(data.errors.items), ", ")
      else if Truthy(data.message) then data.message.value
      else ThrownDefault
    else if Truthy(err.message) then ClassifyMessage(err, err.message.value)
    else ThrownDefault
  }

  // ---------------------------------------------------------------------
  // The failure kinds as a sum type, and the agreement of the two views

  /** The kinds of failure the handler tells apart, resolved once. */
  datatype Failure =
    | FieldErrors(texts: seq<string>)
    | ServerMessage(text: string)
    | Unauthorized
    | Unreachable
    | Forbidden
    | BadRequest(text: string)
    | Unclassified(text: string)
    | Generic

  /** An auth signal on a thrown error with message `msg`. */
  ghost predicate AuthSignal(err: ThrownError, msg: string) {
    || err.requiresAuth || err.status == Some(401)
    || Mentions(msg, "Unauthorized")
    || Mentions(msg, "invalid")
    || Mentions(msg, "expired")
  }

  /** A network signal on a thrown error with message `msg`. */
  ghost predicate NetworkSignal(err: ThrownError, msg: string) {
    || err.isNetworkError
    || Mentions(msg, "fetch")
    || Mentions(msg, "Network")
  }

  ghost predicate ForbiddenSignal(err: ThrownError, msg: string) {
    err.status == Some(403) || Mentions(msg, "Forbidden")
  }

  ghost predicate BadRequestSignal(err: ThrownError, msg: string) {
    err.status == Some(400) || Mentions(msg, "Bad Request")
  }

  /** The failure kind of a thrown error, with substring signals stated as
      occurrences at an index. */
  ghost function FailureOf(err: ThrownError): Failure {
    if err.errors.Items? then FieldErrors(ThrownTexts(err.errors.items))
    else if err.data.Some? then
      if err.data.value.errors.Items? then FieldErrors(ThrownTexts(err.data.value.errors.items))
      else if Truthy(err.data.value.message) then ServerMessage(err.data.value.message.value)
      else Generic
    else if !Truthy(err.message) then Generic
    else MessageKind(err, err.message.value)
  }

  /** The failure kind signalled by a thrown error's message `msg` and its
      status and flags, in the handler's order of precedence. */
  ghost function MessageKind(err: ThrownError, msg: string): Failure {
    if AuthSignal(err, msg) then Unauthorized
    else if NetworkSignal(err, msg) then Unreachable
    else if ForbiddenSignal(err, msg) then Forbidden
    else if BadRequestSignal(err, msg) then BadRequest(msg)
    else Unclassified(msg)
  }

  /** The text shown for each failure kind. */
  function Render(f: Failure): string {
    match f
    case FieldErrors(texts) => Join(texts, ", ")
    case ServerMessage(text) => text
    case Unauthorized => SessionExpired
    case Unreachable => ServerUnreachable
    case Forbidden => NoPermission
    case BadRequest(text) => if text != "" then text else InvalidData
    case Unclassified(text) => text
    case Generic => ThrownDefault
  }

  /** Each signal, stated with occurrences, is the handler's `includes` test. */
  lemma SignalsAreIncludesTests(err: ThrownError, msg: string)
    ensures AuthSignal(err, msg) <==>
      err.requiresAuth || err.status == Some(401) || Contains(msg, "Unauthorized")
      || Contains(msg, "invalid") || Contains(msg, "expired")
    ensures NetworkSignal(err, msg) <==>
      err.isNetworkError || Contains(msg, "fetch") || Contains(msg, "Network")
    ensures ForbiddenSignal(err, msg) <==> err.status == Some(403) || Contains(msg, "Forbidden")
    ensures BadRequestSignal(err, msg) <==> err.status == Some(400) || Contains(msg, "Bad Request")
  {
    ContainsIffOccurs(msg, "Unauthorized");
    ContainsIffOccurs(msg, "invalid");
    ContainsIffOccurs(msg, "expired");
    ContainsIffOccurs(msg, "fetch");
    ContainsIffOccurs(msg, "Network");
    ContainsIffOccurs(msg, "Forbidden");
    ContainsIffOccurs(msg, "Bad Request");
  }

  /** The `includes` tests of the handler agree with the kinds' signals. */
  lemma ClassifyMessageRendersKind(err: ThrownError, msg: string)
    requires msg != ""
    ensures ClassifyMessage(err, msg) == Render(MessageKind(err, msg))
  {
    SignalsAreIncludesTests(err, msg);
  }

  /** The handler's chain of shape checks shows exactly the text of the
      failure kind the error has. */
  lemma ThrownMessageRendersFailure(err: ThrownError)
    ensures ThrownMessage(err) == Render(FailureOf(err))
  {
    if !err.errors.Items? && err.data.None? && Truthy(err.message) {
      ClassifyMessageRendersKind(err, err.message.value);
    }
  }

  /** A thrown error's classified message is never blank: a 400 and an
      unclassified error show their own (truthy) message verbatim. */
  lemma ClassifiedMessageVerbatim(err: ThrownError)
    requires !err.errors.Items? && err.data.None? && Truthy(err.message)
    requires !AuthSignal(err, err.message.value) && !NetworkSignal(err, err.message.value)
    requires !ForbiddenSignal(err, err.message.value)
    ensures ThrownMessage(err) == err.message.value
  {
    ThrownMessageRendersFailure(err);
  }

  /** A message mentioning "expired" anywhere is treated as an expired
      session, even when it also mentions the network or a 403. */
  lemma ExpiredWinsOverNetwork(err: ThrownError, before: string, after: string)
    requires !err.errors.Items? && err.data.None?
    requires err.message == Some(before + "expired" + after)
    ensures ThrownMessage(err) == SessionExpired
  {
    var msg := before + "expired" + after;
    assert msg[|before|..|before| + |"expired"|] == "expired";
    assert OccursAt(msg, "expired", |before|);
    ThrownMessageRendersFailure(err);
  }

  /** Once `data` is present and the error has no `errors` array, the
      error's own message, status and flags are never consulted. */
  lemma DataShadowsMessage(err: ThrownError, message: Option<string>, requiresAuth: bool,
                           status: Option<int>, isNetworkError: bool)
    requires !err.errors.Items? && err.data.Some?
    ensures ThrownMessage(err) ==
      ThrownMessage(err.(message := message, requiresAuth := requiresAuth, status := status,
                         isNetworkError := isNetworkError))
    ensures !err.data.value.errors.Items? && !Truthy(err.data.value.message) ==>
      ThrownMessage(err) == ThrownDefault
  {
  }

  /** A response reporting one field error with a `msg` shows that text. */
  lemma SingleFieldErrorShown(resp: Response, text: string, message: Option<string>)
    requires resp.errors == Items([FieldError(Some(text), message)])
    requires text != ""
    ensures ResponseMessage(resp) == text
  {
  }

  /** A response with two field errors shows both texts, in order, with
      ", " between them. */
  lemma TwoFieldErrorsJoined(resp: Response, first: ErrorItem, second: ErrorItem)
    requires resp.errors == Items([first, second])
    ensures ResponseMessage(resp) == ResponseItemText(first) + ", " + ResponseItemText(second)
  {
    var texts := ResponseTexts([first, second]);
    assert texts == [ResponseItemText(first)] + [ResponseItemText(second)];
    JoinConcat([ResponseItemText(first)], [ResponseItemText(second)], ", ");
  }

  /** An empty `errors` array is still an array, and its empty join replaces
      the response's message: the form then shows a blank error. */
  lemma EmptyErrorArrayBlanksMessage(resp: Response)
    requires resp.errors == Items([])
    ensures ResponseMessage(resp) == ""
  {
  }
}
