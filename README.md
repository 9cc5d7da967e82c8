# Hospital emergency dashboard and login flow: a Dafny model

This project models the two parts of the hospital emergency-response
application that contain logic.

- **The hospital dashboard** (`HospitalDashboard.jsx`). It holds a list of
  accident reports and a bed-statistics record. Accepting a report replaces
  every entry with that report's id by an "accepted" copy carrying an
  assigned doctor, a ward and an acceptance time, and it updates the bed
  and case counters. Rejecting an id removes every report with that id. A
  status filter and a case-insensitive search choose the visible reports.
  Two counters summarise the list. A "time ago" label is shown for each
  incident. The component's state is the class
  `Dashboard.HospitalDashboard`. Its handlers are methods that apply pure
  transformers (`AcceptReports`, `AcceptStats`, `RejectReports`), and
  their laws are proved as lemmas. The class invariant says that report
  ids stay unique and the available-bed figure never goes negative.
- **The login route** (`POST /login`). The validator (`loginValidation.js`)
  checks four rules and reports every violation, email first. It then
  either answers 400 or passes control on. Only then does the controller
  (`loginController.js`) run. It reads the user collection once, by email,
  and compares the password with the stored hash. On a match it signs a
  token over `{userId, role}`, sets it as an HTTP-only cookie and answers
  200. An unknown email and a wrong password get the same 401 answer. Any
  exception gives a 500 with no cookie.

Collaborators that are outside the code are parameters:

- the email-syntax check is `isEmail: string -> bool`;
- the bcrypt comparison is `compare: (string, string) -> Result<bool>`, where `Thrown` stands for an exception;
- the JWT signer is `sign: (Claims, Option<string>, nat) -> Result<string>`;
- the clock is `now` and the random ward draw is `pick`;
- the database is a `UserCollection` object, holding a map from email to user record and a reachability flag.

The collection's ghost `lookups` field records every read. The controller's
contract uses it to state that a login performs exactly one read, keyed by
the request's email, and no write.

Files: `wrappers.dfy` (Option, Result), `seqs.dfy` (the JavaScript array
`filter`/`map`/`length` and their laws), `text.dfy` (ASCII `toLowerCase`,
`includes`, `split(' ')[0]`, decimal rendering), `dashboard.dfy`,
`http.dfy` (response records), `middleware.dfy`, `controllers.dfy` and
`routes.dfy`.

## Model

| member | source | states |
|---|---|---|
| `Seqs.Filter` | frontend/src/dashboard/HospitalDashboard.jsx:333 | `Array.prototype.filter`: the result is no longer than the input and every kept element passes the predicate |
| `Seqs.Map` | frontend/src/dashboard/HospitalDashboard.jsx:319 | `Array.prototype.map`: same length, each position holds the image of the input at that position |
| `Seqs.FilterMembership` | frontend/src/dashboard/HospitalDashboard.jsx:333 | an element is in the filtered list exactly when it is in the input and passes the predicate (both directions) |
| `Seqs.FilterSublist` | frontend/src/dashboard/HospitalDashboard.jsx:333 | the filtered list is an order-preserving sub-list of the input |
| `Seqs.FilterMultiplicity` | frontend/src/dashboard/HospitalDashboard.jsx:333 | each passing element keeps its multiplicity and each failing element occurs zero times |
| `Seqs.FilterIdempotent` | frontend/src/dashboard/HospitalDashboard.jsx:333 | filtering twice by the same predicate equals filtering once |
| `Seqs.FilterAllPass` | frontend/src/dashboard/HospitalDashboard.jsx:341-353 | a predicate every element passes returns the whole list unchanged |
| `Seqs.FilterNonePass` | frontend/src/dashboard/HospitalDashboard.jsx:341-353 | a predicate no element passes returns the empty list |
| `Seqs.CountMapInvariant` | frontend/src/dashboard/HospitalDashboard.jsx:355-356 | mapping with a function that preserves the counted property preserves the `filter(...).length` count |
| `Text.Lower` | frontend/src/dashboard/HospitalDashboard.jsx:348-350 | `toLowerCase` keeps the length and lower-cases each character (ASCII letters only) |
| `Text.LowerIdempotent` | frontend/src/dashboard/HospitalDashboard.jsx:348-350 | lower-casing an already lower-cased string changes nothing |
| `Text.IncludesIff` | frontend/src/dashboard/HospitalDashboard.jsx:348-350 | the left-to-right `includes` search returns true exactly when the needle occurs at some position of the haystack (both directions) |
| `Text.Includes` | frontend/src/dashboard/HospitalDashboard.jsx:348-350 | `includes`: a found needle is no longer than the haystack; a prefix, the empty needle and the whole haystack are always found |
| `Text.FirstWord` | frontend/src/dashboard/HospitalDashboard.jsx:314 | `split(' ')[0]` is a prefix of the name, contains no space, and is followed by a space or the end of the name |
| `Text.NatToString` | frontend/src/dashboard/HospitalDashboard.jsx:142-143 | the decimal rendering is non-empty, all digits, and has no leading zero |
| `Text.ParseNatToString` | frontend/src/dashboard/HospitalDashboard.jsx:142-143 | reading the rendered digits back gives the number: the label's count is recoverable |
| `Text.NatToStringInjective` | frontend/src/dashboard/HospitalDashboard.jsx:142-143 | different counts give different labels |
| `Dashboard.MockAccidentReports` | frontend/src/dashboard/HospitalDashboard.jsx:7-125 | the initial list has four reports with pairwise distinct ids |
| `Dashboard.HospitalStats` | frontend/src/dashboard/HospitalDashboard.jsx:128-136 | in the initial statistics, available plus occupied beds equals total beds |
| `Dashboard.FormatTimeAgo` | frontend/src/dashboard/HospitalDashboard.jsx:139-144 | the label is "Just now" exactly when less than a minute has passed, which includes a negative elapsed time |
| `Dashboard.FormatTimeAgoMinutes` | frontend/src/dashboard/HospitalDashboard.jsx:139-142 | an elapsed time between n and n+1 minutes, for 1 ≤ n < 60, reads "n min ago" |
| `Dashboard.FormatTimeAgoHours` | frontend/src/dashboard/HospitalDashboard.jsx:139-143 | an elapsed time between n and n+1 hours, for n ≥ 1, reads "n hr ago", with no upper bound |
| `Dashboard.DoctorName` | frontend/src/dashboard/HospitalDashboard.jsx:314 | the doctor is "Dr. " followed by the text before the first space of the full name, or "Dr. Hospital Staff" when the user, the name, or that text is missing |
| `Dashboard.WardName` | frontend/src/dashboard/HospitalDashboard.jsx:315 | the ward is "Emergency Ward k" with a single digit k from 1 to 5, one more than the random draw |
| `Dashboard.AcceptedCopy` | frontend/src/dashboard/HospitalDashboard.jsx:311-317 | the copy has status 'accepted', the doctor, the ward and the acceptance time, and every other field of the passed report |
| `Dashboard.AcceptReports` | frontend/src/dashboard/HospitalDashboard.jsx:319 | length and order are kept; exactly the entries whose id equals the accepted report's id are replaced by the accepted copy, and all others are unchanged |
| `Dashboard.AcceptStats` | frontend/src/dashboard/HospitalDashboard.jsx:322-327 | cases today and occupied beds each go up by one; available beds become max(0, prev − 1); every other field is unchanged; beds are conserved while one was available |
| `Dashboard.RejectReports` | frontend/src/dashboard/HospitalDashboard.jsx:333 | the result is an order-preserving sub-list that holds exactly the reports with another id, each with its multiplicity |
| `Dashboard.MatchesFilter` | frontend/src/dashboard/HospitalDashboard.jsx:342-345 | 'all' passes every report; 'pending', 'accepted' and 'critical' pass exactly the pending, accepted and critical reports; any other filter passes nothing |
| `Dashboard.MatchesSearch` | frontend/src/dashboard/HospitalDashboard.jsx:347-350 | the empty term matches every report; a non-empty term matches only when some searched field is at least as long as the term |
| `Dashboard.FilterReports` | frontend/src/dashboard/HospitalDashboard.jsx:341-353 | the view is an order-preserving sub-list holding exactly the reports that match both the filter and the search; 'all' with an empty term gives the whole list; an unknown filter gives nothing |
| `Dashboard.SearchMeaning` | frontend/src/dashboard/HospitalDashboard.jsx:347-350 | a report matches exactly when the term is empty or the lower-cased term is a substring of the lower-cased victim name, address or incident type |
| `Dashboard.SearchIgnoresCase` | frontend/src/dashboard/HospitalDashboard.jsx:347-350 | lower-casing the term beforehand does not change which reports match |
| `Seqs.Count` | frontend/src/dashboard/HospitalDashboard.jsx:355-356 | `filter(...).length`: the number of passing elements, never more than the length of the list |
| `Seqs.CountExtremes` | frontend/src/dashboard/HospitalDashboard.jsx:355-356 | the count is zero exactly when no element passes, and equals the length exactly when every element passes (both directions) |
| `Dashboard.PendingCount` | frontend/src/dashboard/HospitalDashboard.jsx:355 | the pending counter (`Seqs.Count` over the pending status) is at most the list length; it is zero exactly when no report is pending and equals the length exactly when all are |
| `Dashboard.CriticalCount` | frontend/src/dashboard/HospitalDashboard.jsx:356 | the critical counter (`Seqs.Count` over severity 'Critical') is at most the list length; it is zero exactly when no report is critical and equals the length exactly when all are |
| `Dashboard.InitialCounts` | frontend/src/dashboard/HospitalDashboard.jsx:355-356 | on the mock data the pending counter is 3 and the critical counter is 1 |
| `Dashboard.AcceptLowersPending` | frontend/src/dashboard/HospitalDashboard.jsx:319 | with unique ids, accepting a pending report of the list lowers the pending count by exactly one |
| `Dashboard.AcceptKeepsCritical` | frontend/src/dashboard/HospitalDashboard.jsx:319 | with unique ids, accepting a report of the list leaves the critical count unchanged |
| `Dashboard.AcceptKeepsUniqueIds` | frontend/src/dashboard/HospitalDashboard.jsx:319 | accepting keeps ids unique |
| `Dashboard.RejectKeepsUniqueIds` | frontend/src/dashboard/HospitalDashboard.jsx:333 | rejecting keeps ids unique |
| `Dashboard.RejectIdempotent` | frontend/src/dashboard/HospitalDashboard.jsx:333 | rejecting the same id twice equals rejecting it once |
| `Dashboard.RejectAfterAccept` | frontend/src/dashboard/HospitalDashboard.jsx:310-335 | accepting a report and then rejecting its id gives the same list as rejecting that id straight away |
| `Dashboard.HospitalDashboard.constructor` | frontend/src/dashboard/HospitalDashboard.jsx:300-303 | the state starts as the mock reports, the mock statistics, filter 'all' and an empty search term, and the invariant holds |
| `Dashboard.HospitalDashboard.AcceptReport` | frontend/src/dashboard/HospitalDashboard.jsx:310-330 | `handleAcceptReport` sets the reports and stats to their transformed values and leaves filter and search alone; it keeps the invariant, lowers the pending counter by one for a pending listed report, and keeps the critical counter |
| `Dashboard.HospitalDashboard.RejectReport` | frontend/src/dashboard/HospitalDashboard.jsx:332-335 | `handleRejectReport` sets the reports to the filtered list, changes nothing else, and keeps the invariant |
| `Dashboard.HospitalDashboard.SetFilter` | frontend/src/dashboard/HospitalDashboard.jsx:446 | the filter drop-down changes only the filter |
| `Dashboard.HospitalDashboard.SetSearchTerm` | frontend/src/dashboard/HospitalDashboard.jsx:380 | the search box changes only the search term |
| `Dashboard.HospitalDashboard.FilteredReports` | frontend/src/dashboard/HospitalDashboard.jsx:341-353 | the shown list is an order-preserving sub-list of the state's reports, holding exactly those matching the current filter and search term; all reports with 'all' and an empty term |
| `Dashboard.HospitalDashboard.PendingReports` | frontend/src/dashboard/HospitalDashboard.jsx:355 | the state's pending counter: at most the number of reports, and zero exactly when none is pending |
| `Dashboard.HospitalDashboard.CriticalCases` | frontend/src/dashboard/HospitalDashboard.jsx:356 | the state's critical counter: at most the number of reports, and zero exactly when none is critical |
| `Middleware.EmailErrors` | backend/middlewares/loginValidation.js:6-12 | the email rule gives at most one message: 'Email is required' exactly when the field is absent, 'Email must be valid' exactly when it is present but not an address, none otherwise |
| `Middleware.PasswordErrors` | backend/middlewares/loginValidation.js:14-20 | the password rule gives at most one message: 'Password is required' exactly when the field is absent, the length message exactly when it has fewer than 6 characters, none otherwise |
| `Middleware.SchemaErrors` | backend/middlewares/loginValidation.js:5-24 | at most two messages; each of the four messages appears exactly when its rule is violated (both directions); email messages come before password messages; no message exactly when email is present and valid and the password has at least 6 characters |
| `Middleware.LoginValidation` | backend/middlewares/loginValidation.js:27-34 | `next` is called exactly when there are no errors, and then both fields are present; otherwise the answer is 400 with `{success: false, errors}` and no cookie |
| `Middleware.SixCharactersPass` | backend/middlewares/loginValidation.js:14-20 | a password of exactly six characters draws no password message |
| `Middleware.BothMissing` | backend/middlewares/loginValidation.js:6-24 | an empty body yields both "required" messages, email first |
| `Middleware.BadEmailShortPassword` | backend/middlewares/loginValidation.js:6-30 | `{email: 'bad-email', password: '123'}` yields exactly "Email must be valid", then "Password must be at least 6 characters" |
| `Controllers.UserCollection.constructor` | backend/controllers/loginController.js:10 | the collection starts with the given users, stored each under its own email, the given reachability, and no reads yet |
| `Controllers.UserCollection.FindOne` | backend/controllers/loginController.js:10 | one read, logged by its email; it keeps the collection's invariant that every record is stored under its own email, and returns the record stored under that email (whose email is therefore the requested one), none, or a thrown error when the database is unreachable |
| `Controllers.SessionCookie` | backend/controllers/loginController.js:40-46 | the cookie is named 'token', holds the token, is HTTP-only with SameSite 'strict', is secure exactly in production, and lives as long as the token (7 days in ms) |
| `Controllers.LoginResponse` | backend/controllers/loginController.js:5-65 | only 200, 401 or 500 occur; a cookie is set exactly on 200; with the store reachable, 401 happens exactly for an unknown email or a mismatching password, and 401 is always the same answer, with `data: null`; 500 is always the same answer, `{statusCode: 500, message: 'Internal server error', data: null}`; with the store reachable, 200 happens exactly when the user exists, the password matches and signing succeeds, and then the body holds only `{id, email, role}` and the cookie the token signed over `{userId, role}`; in a store keyed by email the body's email is the requested one |
| `Controllers.LoginController` | backend/controllers/loginController.js:5-65 | step-by-step controller: exactly one collection read, keyed by the request's email, no write, the answer `LoginResponse` describes, and on 200 the body's email is the request's |
| `Controllers.UnknownAndWrongPasswordIndistinguishable` | backend/controllers/loginController.js:10-27 | an unknown email and a wrong password give the identical answer: same status, same body, no cookie |
| `Controllers.HashNotDisclosed` | backend/controllers/loginController.js:29-57 | changing only the stored hash, with the comparison verdict unchanged, leaves the answer unchanged, so neither body nor token carries the hash |
| `Routes.PostLoginResponse` | backend/routes/authRoutes.js:8 | only 200, 400, 401 or 500 occur; 400 happens exactly when validation finds errors; otherwise both fields are present and the answer is the controller's; a cookie is set exactly on 200 |
| `Routes.PostLogin` | backend/routes/authRoutes.js:8 | validator then controller: a request the validator rejects never reads the collection; one that passes reads it once, by its email; on 200 the body's email is the request's |
| `Routes.AdminLogsIn` | backend/controllers/loginController.js:49-57 | a registered admin with a matching password, whose token is signed without error, gets 200, role 'admin', and a cookie |
| `Routes.UnknownUserTurnedAway` | backend/controllers/loginController.js:10-17 | an unregistered email gets the 401 answer with no cookie, whatever password passes validation (six characters or more) |
| `Routes.MalformedRequestRejected` | backend/middlewares/loginValidation.js:27-31 | `{email: 'bad-email', password: '123'}` gets 400 with both messages and never reaches the controller |

## Left out

- Rendering is left out as presentation: the JSX, `ReportCard`/`StatCard` markup, `alert`, `navigate`, `logout`, the `tel:` link and `handleViewDetails` (which only alerts) (HospitalDashboard.jsx:147-295, 337-339, 358-606).
- The accept and reject buttons only appear on pending reports (HospitalDashboard.jsx:226). The handlers themselves do not check this, so the model leaves them unguarded too.
- The emergency-bed figure (30% of the available beds, rounded down) and its bar width are left out because they use floating-point arithmetic.
- The random number generator and the clock are not modelled. The random ward draw is the parameter `pick` (a whole number from 0 to 4), and the clock is the parameter `now` (milliseconds).
- Dashboard.FormatTimeAgo: the floating-point quotient `(Date.now() - date) / 60000` is modelled as exact integer floor division. This agrees with JavaScript for timestamps of realistic size.
- Text.Lower: `toLowerCase` is modelled for ASCII letters only. Full Unicode case mapping is not modelled.
- Strings are sequences of Unicode scalar values, while JavaScript counts UTF-16 code units. Password length and substring search can therefore differ for characters outside the Basic Multilingual Plane.
- The bcrypt hashing and comparison, its constant-time behaviour, and JWT encoding and signature verification are foreign libraries. They are the parameters `compare` and `sign`.
- Repeated logins are not proved to issue fresh tokens. A real token embeds its issue time; `sign` here is a pure parameter, so repeating a login yields the same token.
- The email grammar of the validation library is the parameter `isEmail`.
- Middleware.SchemaErrors: fields are absent or non-empty strings (`FieldValue`). The library's `string.empty`, `string.base` and `object.unknown` rules are its own default messages and not part of the schema's visible code, so empty strings, non-strings and extra keys are not modelled.
- A missing request body is not modelled; the body is always an object. The validator would accept `undefined`, and the controller's destructuring would then throw and answer 500.
- The user model file (`backend/model/userModel.js`) is not part of this model. The stored user is taken to have `_id`, `email`, `password` (the hash) and `role`, with emails unique as map keys and every record stored under its own email (`Controllers.KeyedByEmail`).
- `backend/model/hospitalModel.js` is a schema declaration with a geospatial index and has no behaviour. `backend/seedScrappedData/seedAdmin.js` is a one-off database script. Both are left out.
- Express request/response plumbing, environment loading (`JWT_SECRET` and `NODE_ENV` are the `Config` parameter) and concurrent requests are left out.
