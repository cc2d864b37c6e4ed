# Auth gate and seller-application form, modelled in Dafny

This project models two small request pipelines of a marketplace web
application and proves properties of them.

- **The server's auth gate** (`backend/middleware/auth.js`).
  `authenticate` takes the bearer token from the `Authorization` header and
  checks that it has the three dot-separated parts of a JWS Compact
  Serialization (section 7.1 of RFC 7515; bearer usage as in section 2.1 of
  RFC 6750). It then has the token verified, looks the user up, and either
  attaches the user and continues or rejects with 401 and one of six
  messages. `authorize(...roles)` and `isAdmin` are allow-list gates that
  answer 401, 403 or continue.
- **The client's "become a seller" modal**
  (`frontend/src/components/forms/BecomeSellerModal.jsx`). It keeps a
  ten-field draft, updated one field per keystroke. Its submit handler runs
  four local checks in order and then sends the draft once. A failure, from
  a response or from a thrown error, is reduced to one message by a chain of
  shape checks. A success arms a deferred step that closes the modal and
  empties the draft.

Files:

- `wrappers.dfy` holds `Option`, which stands for a JavaScript value that
  may be `undefined`.
- `js_text.dfy` holds the string operations both sides use: `split` and
  `join`, `includes`, `startsWith` and truthiness. It also holds the shared
  `ThreeSegments` token check, with lemmas relating it to the number of dots. `Join` inverts
  `Split` in both directions. The length of a split is one more than the
  number of separators. `includes` agrees with an occurrence-at-an-index
  definition.
- `auth.dfy` holds `authenticate`, `authorize` and `isAdmin` as functions
  to an `Outcome`: `Continue(request)` or `Reject(status, message)`.
  `Reject` stands for the `{ success: false, message }` body. The token
  verifier and the user lookup are function parameters. "The verifier is
  never consulted" is stated as "the outcome is the same for every
  verifier".
- `seller_form.dfy` holds the draft record, the field update, the
  required-field test and the request body.
- `seller_errors.dfy` holds the response and thrown-error shapes and the
  two message derivations. It also holds a sum type of failure kinds with a
  proof that the handler's chain of checks shows exactly the text of the
  kind an error has.
- `seller_submit.dfy` holds the modal state, `handleChange`,
  `handleSubmit` and the deferred reset.

Notes on the code as written:

- The header fallback splits on a single space character, not on any
  whitespace.
- The success timer is never cancelled.
- `loading` stays raised after a success, because the deferred step does
  not lower it.

## Model

| member | source | states |
|---|---|---|
| JsText.Split | backend/middleware/auth.js:28 | `split` with a one-character separator never returns an empty array, and no piece contains the separator |
| JsText.JoinSplit | backend/middleware/auth.js:18 | joining the pieces of a split with the separator gives back the original string |
| JsText.SplitJoin | backend/middleware/auth.js:18 | splitting a join of separator-free pieces (at least one) gives back the pieces |
| JsText.SplitLength | backend/middleware/auth.js:28 | the number of pieces of a split is one more than the number of separators in the string |
| JsText.ThreeSegmentsIffTwoDots | backend/middleware/auth.js:27-28 | a token passes the three-part check exactly when it contains exactly two dots |
| JsText.SplitHasSecond | backend/middleware/auth.js:18 | `split(c)[1]` exists exactly when the string contains `c` |
| JsText.SplitSecond | backend/middleware/auth.js:18 | `split(c)[1]` is the text between the first and the second `c`, or up to the end when there is no second `c` |
| JsText.SplitFirst | backend/middleware/auth.js:18 | `split(c)[0]` is the longest prefix that holds no `c` |
| JsText.Join | frontend/src/components/forms/BecomeSellerModal.jsx:109 | `join` of an empty array is the empty string, and a join starts with its first element |
| JsText.JoinConcat | frontend/src/components/forms/BecomeSellerModal.jsx:109-125 | for any separator, joining two non-empty arrays back to back is the join of the first, the separator, then the join of the second: every element appears in order, each later one after a separator |
| JsText.Contains | frontend/src/components/forms/BecomeSellerModal.jsx:130-136 | `includes` holds when the text is a prefix, and only when the text is no longer than the string |
| JsText.ContainsIffOccurs | frontend/src/components/forms/BecomeSellerModal.jsx:130-136 | `includes` holds exactly when the text occurs in the string at some index |
| Auth.ExtractToken | backend/middleware/auth.js:15-18 | a `"Bearer "` header yields the text after its 7 characters; any other header yields a token exactly when it has a space, and that token holds no space |
| Auth.Credential | backend/middleware/auth.js:6-25 | a credential goes on only when the header is present and non-empty and the extracted token is non-empty, and it is then exactly the token extracted from the header |
| Auth.Classify | backend/middleware/auth.js:51-71 | every thrown error gives a 401; the message is "Invalid token" exactly for `JsonWebTokenError`, "Token expired" exactly for `TokenExpiredError`, and "Authentication failed" otherwise |
| Auth.Authenticate | backend/middleware/auth.js:4-73 | every rejection is a 401; the request continues exactly when a credential exists, has three parts, verifies to an id, and that id has a user; the continued request is the input with that user attached and nothing else changed |
| Auth.NoCredentialRejected | backend/middleware/auth.js:8-25 | without a usable credential the answer is 401 "Authentication required. Please login." for every verifier and every lookup |
| Auth.HeadersWithoutCredential | backend/middleware/auth.js:8-25 | an absent header, an empty one, `"Bearer "` alone, or a non-Bearer header without a space yields no credential |
| Auth.FallbackTakesSecondWord | backend/middleware/auth.js:16-18 | a header not starting with `"Bearer "` yields the text between its first and second space |
| Auth.WrongDotCountRejected | backend/middleware/auth.js:27-33 | a credential without exactly two dots gets 401 "Invalid token format", whatever the verifier would say |
| Auth.VerifyFailureClassified | backend/middleware/auth.js:51-71 | a verifier failure named `JsonWebTokenError` gives "Invalid token", `TokenExpiredError` gives "Token expired", and any other name gives "Authentication failed", all with 401 |
| Auth.LookupFailureRejected | backend/middleware/auth.js:38-46 | a verified id with no user record gets 401 "User not found"; a lookup that throws is classified like a verifier error |
| Auth.Authorize | backend/middleware/auth.js:75-93 | no user gives 401; a role outside the allow-list gives 403; the request continues unchanged exactly when there is a user with a listed role |
| Auth.EmptyAllowListDeniesAll | backend/middleware/auth.js:84-89 | with no roles listed, every authenticated request gets 403 |
| Auth.IsAdmin | backend/middleware/auth.js:95-111 | continues, unchanged, exactly for a user whose role is `"admin"`; its 403 carries the admin-specific message |
| Auth.IsAdminDecidesAsAuthorize | backend/middleware/auth.js:75-111 | `isAdmin` makes the same status-or-continue decision as `authorize('admin')` on every request, and differs only in the 403 message |
| Auth.GuardedRouteInvariant | backend/middleware/auth.js:36-50 | a request that passes `authenticate` then `authorize(roles)` carries exactly the user found for its verified two-dot token, and that user's role is listed |
| SellerForm.Set | frontend/src/components/forms/BecomeSellerModal.jsx:29-32 | the named field takes the new value and the other nine keep theirs |
| SellerForm.MissingRequiredIffBlankRequired | frontend/src/components/forms/BecomeSellerModal.jsx:64-65 | the chain of falsy checks fails exactly when some field of the required seven (business name, type, address, city, state, pincode, description) is empty |
| SellerForm.Payload | frontend/src/components/forms/BecomeSellerModal.jsx:73-84 | the body sent carries all ten fields, and for string fields the `|| ''` defaults make it equal to the draft field for field |
| SellerForm.OptionalFieldsNeverBlock | frontend/src/components/forms/BecomeSellerModal.jsx:64-65 | editing GST number, bank account or IFSC code never changes whether the required-field check fails |
| SubmitErrors.ResponseItemText | frontend/src/components/forms/BecomeSellerModal.jsx:109 | an element renders as its truthy `msg`, else its `message` (absent renders as empty), and a bare string renders as empty |
| SubmitErrors.ThrownItemText | frontend/src/components/forms/BecomeSellerModal.jsx:121-125 | an element renders as its truthy `msg`, else its truthy `message`, else `[object Object]`; a bare string renders as itself |
| SubmitErrors.ItemTextsAgreeOnMessages | frontend/src/components/forms/BecomeSellerModal.jsx:109-125 | the response rendering and the thrown-error rendering agree on every object with a truthy `msg` or `message`; they differ only on a bare string (empty against the string) and on an object with neither (empty against `[object Object]`) |
| SubmitErrors.ResponseTexts | frontend/src/components/forms/BecomeSellerModal.jsx:109 | one text per error element, each the element's `msg`, else its `message`, else empty |
| SubmitErrors.ThrownTexts | frontend/src/components/forms/BecomeSellerModal.jsx:121-125 | one text per error element, each the element's `msg`, else its `message`, else the element itself |
| SubmitErrors.ResponseMessage | frontend/src/components/forms/BecomeSellerModal.jsx:105-112 | an `errors` array (texts joined with ", ") wins over a truthy `message`, which wins over "Failed to submit application" |
| SubmitErrors.ThrownMessage | frontend/src/components/forms/BecomeSellerModal.jsx:114-141 | `err.errors` wins, then `err.data` (its errors, then its message, else the default), and only without `data` is a truthy `err.message` classified; the result is then one of the three fixed texts or the message itself |
| SubmitErrors.ClassifyMessage | frontend/src/components/forms/BecomeSellerModal.jsx:129-140 | a truthy message classifies to the session text, the network text, the 403 text or the message itself; `requiresAuth` or status 401 always give the session text; the network text never follows an auth flag or 401; the 403 text follows only a 403 status or "Forbidden" with no auth or network flag |
| SubmitErrors.SignalsAreIncludesTests | frontend/src/components/forms/BecomeSellerModal.jsx:130-136 | each signal stated by occurrence at an index is the handler's flag-or-`includes` test |
| SubmitErrors.ClassifyMessageRendersKind | frontend/src/components/forms/BecomeSellerModal.jsx:129-140 | the `includes` tests pick the same failure kind as the occurrence-based signals, in the order auth, network, 403, 400 |
| SubmitErrors.ThrownMessageRendersFailure | frontend/src/components/forms/BecomeSellerModal.jsx:117-141 | the handler's chain of shape checks shows exactly the text of the failure kind the error has |
| SubmitErrors.ClassifiedMessageVerbatim | frontend/src/components/forms/BecomeSellerModal.jsx:136-139 | with no auth, network or 403 signal, the 400 branch and the final branch both show the error's message verbatim |
| SubmitErrors.ExpiredWinsOverNetwork | frontend/src/components/forms/BecomeSellerModal.jsx:130-133 | a message mentioning "expired" anywhere gives the session-expired text, even if it also mentions the network |
| SubmitErrors.DataShadowsMessage | frontend/src/components/forms/BecomeSellerModal.jsx:122-129 | once `err.data` is present, the error's own message, status and flags change nothing; `data` without errors or message leaves the default |
| SubmitErrors.SingleFieldErrorShown | frontend/src/components/forms/BecomeSellerModal.jsx:108-110 | a response with a single field error carrying a `msg` shows exactly that `msg` |
| SubmitErrors.TwoFieldErrorsJoined | frontend/src/components/forms/BecomeSellerModal.jsx:108-110 | a response with two field errors shows both element texts, in order, separated by ", " |
| SubmitErrors.EmptyErrorArrayBlanksMessage | frontend/src/components/forms/BecomeSellerModal.jsx:107-110 | an empty `errors` array still replaces the response's message, so the shown error is blank |
| SellerSubmit.HandleChange | frontend/src/components/forms/BecomeSellerModal.jsx:27-34 | the named field takes the value, the other nine are unchanged, the error is cleared, and nothing else changes |
| SellerSubmit.LocalCheck | frontend/src/components/forms/BecomeSellerModal.jsx:41-69 | every local check passes exactly when the user is signed in, the stored token is non-empty, is not `offline-token` and has two dots, and every required field is filled |
| SellerSubmit.StoredTokenShape | frontend/src/components/forms/BecomeSellerModal.jsx:56-57 | the client's three-part check on the stored token is the two-dot test |
| SellerSubmit.HandleSubmit | frontend/src/components/forms/BecomeSellerModal.jsx:36-146 | the endpoint is called, with the draft as body, exactly when the local checks pass; a blocked run shows the first check's message and lowers `loading`; the reset is armed exactly on a success response; a failure shows the derived message with `loading` lowered; the draft is never changed |
| SellerSubmit.DeferredReset | frontend/src/components/forms/BecomeSellerModal.jsx:89-104 | the deferred step closes the modal, drops the success view and empties every field, leaving `loading` and the error as they were |
| SellerSubmit.LocalChecksInOrder | frontend/src/components/forms/BecomeSellerModal.jsx:41-69 | the checks apply in order (not signed in, token missing or `offline-token`, token without two dots, a required field empty), the first failing one sets its message, and no call is made |
| SellerSubmit.OptionalFieldsNeverBlockSubmit | frontend/src/components/forms/BecomeSellerModal.jsx:63-84 | whether a submission reaches the endpoint does not depend on the optional fields |
| SellerSubmit.SuccessThenReset | frontend/src/components/forms/BecomeSellerModal.jsx:86-104 | after a success and the deferred step, the modal is closed with the initial empty draft, no error and no success view, but `loading` is still raised |

## Left out

- JWT signature and expiry checking (`verifyToken` in `config/jwt.js`) is not part of this model. It is a parameter that decodes a token to a user id or throws an error with a name.
- The database lookup `User.findById(...).select('-password')` is a parameter that finds a record, finds none, or throws. Excluding the password is the library's work.
- A verified payload without an `id` is not modelled. The decoded payload is taken to carry an id.
- Express `req`/`res`/`next` plumbing and the `console.error` diagnostics are folded into the `Outcome` datatype. Logging is not modelled.
- React hooks, rendering, CSS and the `disabled={loading}` submit button (BecomeSellerModal.jsx:148-327) are not modelled.
- `localStorage` and `sellerApplicationsAPI.submit` are inputs: the stored token, the signed-in flag, and a function from the body to a response or a thrown error.
- SellerSubmit.HandleSubmit: the handler is taken as one atomic step. In the code it suspends at the submission call (BecomeSellerModal.jsx:73), and the inputs stay enabled during the wait; only the submit button is disabled. An edit made during that wait changes the draft and clears the error before the failure branch sets its message. Such interleavings are not modelled.
- The 2000 ms timer is one deferred step (`DeferredReset`). Its timing is not modelled. The code never cancels it, so cancellation is not modelled either.
- Error elements that are `null`, or `msg`/`message` values that are not strings, are not modelled. The first would make the response path throw into the catch block.
- An `err.data` that is truthy but not an object is not modelled. Such a value has neither `errors` nor `message`, so it would leave the default message, as an empty `data` object does.
- Responses that are not objects are not modelled. The API wrapper is taken to return an object.
