# SPAMS core, modelled in Dafny

SPAMS is a student performance system split into microservices behind an
API gateway. This project models the sequential logic at the centre of
three of its services and proves properties of it:

- **Grade service.** `uploadGrades` folds parsed CSV rows into a store of
  `StudentGrades` documents keyed by `(studentId, semester)`. The in-memory
  analytics turn query results into a score distribution, per-course averages
  sorted strongest first, a course's performances sorted by score, a
  per-student semester projection, and the merge of batch statistics with
  their top and bottom performers (`grades.dfy`, `grade_analytics.dfy`).
- **Identity service.** `User.ts` and the eight account controllers form a
  state machine over a store of users. The model covers registration,
  verification, code re-sending, login, the forgotten-password flow and the
  password reset. Each controller is a method of `IdentityStore` that returns
  the status, message and cookies of its reply. Alongside them are the
  request guards of `authMiddleware.ts` and the token and cookie policy of
  `generateToken.ts` (`user_model.dfy`, `identity.dfy`,
  `auth_middleware.dfy`, `tokens.dfy`).
- **API gateway.** `server.ts` checks its environment and builds the
  Express middleware stack with `app.use`. It admits requests through the
  CORS origin predicate, answers an allowed preflight (OPTIONS) with 204,
  applies a 100-per-15-minutes limit per client, and routes each remaining
  request through the token check to the proxy of its service
  (`gateway.dfy`).

`text.dfy` holds the string helpers: ASCII trim and lowercase, and decimal
digits. `wrappers.dfy` holds `Option` and `Result`.

Stores are Dafny maps held in class fields. Handlers that change state are
methods, and each is proved against a specification function (`UploadRows`,
`Tally`, `Accumulate`, `Run`) or against the whole new state of the store.
Outside services are parameters:
- the argon2 hash and verify, `jwt.verify`;
- the request validators, whose outcome is passed in as `validationError`;
- the random number behind the two-factor code;
- the clock, in milliseconds since the epoch;
- the random refresh token.

Published RabbitMQ events are appended to an `events` log.

On these points the model follows the gateway's code:
- cors runs before the rate limiter, and the limiter before the request logger;
- a window starts at a client's first hit, because rate-limit-redis sets the
  counter's expiry on the first increment, rather than at a fixed time bucket;
- a rejected origin becomes an error passed to the gateway's error handler.
  That handler is not part of this model, so the model does not fix the
  status of the reply;
- `/ping` answers `{message: "PONG"}`;
- an empty `Origin` header is allowed, like an absent one, because the code tests `!origin`.

## Model

| member | source | states |
|---|---|---|
| Text.Trim | identity-service/src/models/User.ts:18-24 | the result is the slice of the input that starts after its leading white space and is followed only by white space; it neither starts nor ends with white space, and is empty exactly when the input is all spaces |
| Text.DecimalRoundTrip | identity-service/src/controllers/registerController.ts:41 | reading back the decimal digits of `n` gives `n` (the `toString()` of the code) |
| Text.DecimalSixDigits | identity-service/src/controllers/registerController.ts:41 | every number from 100000 to 999999 prints as exactly six digits |
| Grades.Field | grade-service/src/controllers/gradeController.ts:50-57 | a present cell becomes the cell trimmed; a missing cell becomes "" |
| Grades.ParseScore | grade-service/src/controllers/gradeController.ts:57 | a missing or empty score counts as 0; any other text takes the value `Number` gives it, NaN included |
| Grades.NormaliseAll | grade-service/src/controllers/gradeController.ts:48-57 | one normalised row per CSV row, in the same order |
| Grades.FindCourse | grade-service/src/controllers/gradeController.ts:68 | the index of the first course with the code, or -1 exactly when no course has it |
| Grades.MergeRow | grade-service/src/controllers/gradeController.ts:68-80 | an existing course has its score overwritten and keeps its name unless the new one is non-empty, and the length stays the same; a new course is appended after the untouched old ones; studentName, batch and major change only to non-empty values; the set of codes gains exactly the row's code |
| Grades.NewRecord | grade-service/src/controllers/gradeController.ts:82-91 | a document with no record yet is created under the row's key with exactly the one course of the row |
| Grades.ApplyRow | grade-service/src/controllers/gradeController.ts:59-91 | a skipped row (empty studentId or courseCode, NaN score) leaves the store unchanged; an accepted row touches only its own key, creates or merges, and is rejected exactly when the document fails the schema's required validators; the store invariant is kept |
| Grades.MergedRecordValid | grade-service/src/controllers/gradeController.ts:68-80 | merging a row into a document that passes validation with distinct codes keeps both properties |
| Grades.MergeKeepsValid | grade-service/src/controllers/gradeController.ts:64-91 | creating or merging under the row's key keeps every document under its own key, saveable and free of duplicate codes |
| Grades.ReplaceKeepsCodes | grade-service/src/controllers/gradeController.ts:70-72 | overwriting a course with one of the same code keeps the set of codes |
| Grades.AppendCodes | grade-service/src/controllers/gradeController.ts:74-76 | appending a course adds exactly its code |
| Grades.UploadKeepsValid | grade-service/src/controllers/gradeController.ts:48-94 | an upload keeps the store invariant, never removes a document, and cannot fail when every accepted row updates an existing document |
| Grades.UploadAddsOnlyRowKeys | grade-service/src/controllers/gradeController.ts:64-91 | every document an upload adds is keyed by one of its accepted rows |
| Grades.UploadStep | grade-service/src/controllers/gradeController.ts:48-92 | the fold over one more row applies that row to the store reached so far |
| Grades.UploadFailureSticks | grade-service/src/controllers/gradeController.ts:95-100 | once a row fails, the upload has failed with the store as it stood before that row |
| Grades.GradeStore.constructor | grade-service/src/models/Grade.ts:3-24 | an empty store |
| Grades.GradeStore.Upsert | grade-service/src/controllers/gradeController.ts:64-91 | the new documents are exactly those `ApplyRow` gives, and a failed save changes nothing |
| Grades.GradeStore.UploadGrades | grade-service/src/controllers/gradeController.ts:37-101 | no file is 400 "CSV file is required under field 'file'" with nothing changed; otherwise the store becomes the fold of all rows in order; 200 "CSV processed" exactly when no save failed, else 500 "Failed to process CSV" with the rows before the failure kept |
| GradeAnalytics.InsertDesc | grade-service/src/controllers/gradeController.ts:207 | inserting into a list sorted by decreasing key keeps it sorted and adds exactly the one element |
| GradeAnalytics.InsertedBelowHead | grade-service/src/controllers/gradeController.ts:207 | an element inserted below the head of a sorted list leaves every key after the head no greater than the head's |
| GradeAnalytics.SortDesc | grade-service/src/controllers/gradeController.ts:207 | the result is sorted by decreasing key and is a permutation of the input |
| GradeAnalytics.BandOf | grade-service/src/controllers/gradeController.ts:149-152 | A exactly when the score is at least 85, B for 70 to 84, C for 60 to 69, D below 60 |
| GradeAnalytics.CountBandAppend | grade-service/src/controllers/gradeController.ts:142-153 | one more score adds one to its band's count and nothing to the others |
| GradeAnalytics.TallyCountsBands | grade-service/src/controllers/gradeController.ts:142-153 | each bucket of the running count equals the number of scores falling in that band |
| GradeAnalytics.TallyTotal | grade-service/src/controllers/gradeController.ts:142-153 | the four bucket counts sum to the number of matching scores |
| GradeAnalytics.TallyStep | grade-service/src/controllers/gradeController.ts:142-153 | counting one more course of a document either bumps one band or, for another code, changes nothing |
| GradeAnalytics.GradeDistribution | grade-service/src/controllers/gradeController.ts:129-161 | an empty course code is 400 "courseCode required"; otherwise the counts are the bands of exactly the matching scores, in any document |
| GradeAnalytics.AccumulateWellFormed | grade-service/src/controllers/gradeController.ts:175-191 | the totals map lists each course code once in insertion order, and every entry counts at least one score |
| GradeAnalytics.AccumulateStep | grade-service/src/controllers/gradeController.ts:175-191 | the totals after one more course are those before it with that course added |
| GradeAnalytics.AbsentSumsToZero | grade-service/src/controllers/gradeController.ts:175-191 | a code that occurs nowhere sums to 0 |
| GradeAnalytics.ReferenceAppend | grade-service/src/controllers/gradeController.ts:175-191 | the reference sum, count and first name over one more course |
| GradeAnalytics.AccumulateMeans | grade-service/src/controllers/gradeController.ts:175-191 | a code has an entry exactly when it occurs, and the entry holds the name of its first occurrence, the sum of its scores and their number |
| GradeAnalytics.AveragesOf | grade-service/src/controllers/gradeController.ts:193-204 | one average per map entry in insertion order, each the entry's total divided by its count |
| GradeAnalytics.AveragesMeans | grade-service/src/controllers/gradeController.ts:175-204 | each course that occurs gets exactly one row, and that row's average is its score sum over its count |
| GradeAnalytics.EntriesStep | grade-service/src/controllers/gradeController.ts:175-177 | the courses of one more document follow those of the documents before it |
| GradeAnalytics.AddCourses | grade-service/src/controllers/gradeController.ts:176-190 | the map loop leaves exactly the totals of all courses seen so far |
| GradeAnalytics.ReportAverages | grade-service/src/controllers/gradeController.ts:193-204 | the output loop yields `AveragesOf` the map |
| GradeAnalytics.StrengthsWeaknesses | grade-service/src/controllers/gradeController.ts:164-214 | an empty student id is 400 "studentId required"; otherwise the per-course averages sorted strongest first |
| GradeAnalytics.RowsOfMatch | grade-service/src/controllers/gradeController.ts:230-246 | a document yields one performance per course with the code, carrying that course's score |
| GradeAnalytics.PerformancesMatch | grade-service/src/controllers/gradeController.ts:230-246 | over all documents there is one performance per matching course entry, with the same scores as the distribution counts |
| GradeAnalytics.CoursePerformances | grade-service/src/controllers/gradeController.ts:217-255 | an empty course code is 400; otherwise a permutation of the matching entries, all with the requested code, sorted by non-increasing score |
| GradeAnalytics.PerformanceOverTime | grade-service/src/controllers/gradeController.ts:104-126 | an empty student id is 400; otherwise one semester entry per document, in order, carrying its semester and courses |
| GradeAnalytics.LookupRanked | grade-service/src/controllers/gradeController.ts:468-471 | the performers of a course code, taken from its last entry as `new Map(pairs)` keeps; `None` exactly when the code is absent |
| GradeAnalytics.MergeStats | grade-service/src/controllers/gradeController.ts:468-480 | one summary per stats entry in the same order, with its code and name, its average, min, max and count each defaulting to 0 when missing, and the top and bottom performers of the last entry with its code, or `[]` when the code is absent |
| GradeAnalytics.BatchSemesterAggregate | grade-service/src/controllers/gradeController.ts:424-487 | an empty trimmed batch or semester is 400 "batch and semester required"; otherwise success with exactly the `MergeStats` merge of the three query results |
| UserModel.ParseRole | identity-service/src/models/User.ts:3-33 | exactly "USER" and "ADMIN" name a role, and the role names itself back |
| UserModel.NormalizeEmail | identity-service/src/models/User.ts:18-24 | a stored email is the lower-cased form of the trimmed input: it holds no upper-case letter, is trimmed, no longer than given, and empty exactly when the input is blank |
| UserModel.NormalizedEmailIsLower | identity-service/src/models/User.ts:18-24 | no position of a stored email holds an upper-case letter |
| UserModel.NormalizeEmailIdempotent | identity-service/src/models/User.ts:18-24 | the email setters do not change a stored email |
| UserModel.MissingPaths | identity-service/src/models/User.ts:10-28 | nothing is missing exactly when firstName, the normalised email and the password are all non-empty |
| UserModel.CreateUser | identity-service/src/models/User.ts:8-51 | creation succeeds exactly when no required path is missing, and otherwise fails with the validation message; a new user is unverified, has role USER unless given one, keeps the optional fields as given and stores its email trimmed and lowercased |
| Tokens.CookieOptionsFor | identity-service/src/utils/generateToken.ts:34-46 | the options carry the expiry they are given |
| Tokens.PolicyOfOptions | identity-service/src/utils/generateToken.ts:34-96 | cookies built from the common options are httpOnly, secure exactly in production, SameSite none in production and strict otherwise |
| Tokens.UserName | identity-service/src/utils/generateToken.ts:9-11 | first name and last name run together when the last name is non-empty, else the first name alone (the same expression recurs at lines 76-78) |
| Tokens.AccessToken | identity-service/src/utils/generateToken.ts:13-22 | the access JWT carries `{userId, username, email, role}` and lives 15 minutes |
| Tokens.SessionCookies | identity-service/src/utils/generateToken.ts:24-46 | the refresh cookie expires with its stored record 18 days after issue; the access cookie expires 900000 ms after issue; both follow the cookie policy |
| Tokens.VerificationCookie | identity-service/src/utils/generateToken.ts:51-70 | the verification JWT carries only the user id and email, lives 180 s, and its cookie expires 180000 ms after issue |
| Tokens.ResetCookie | identity-service/src/utils/generateToken.ts:72-99 | the reset JWT carries id, username and email but no role and lives 300 s, while its cookie lives 600000 ms |
| AuthMiddleware.AuthenticateRequest | identity-service/src/middleware/authMiddleware.ts:6-29 | continues exactly when both trust headers are single non-empty strings, with `req.user` made of those two values; otherwise 401 |
| AuthMiddleware.AuthorizeRoles | identity-service/src/middleware/authMiddleware.ts:31-48 | no user is 401, a role outside the list is 403, and the request continues exactly when the role is listed |
| AuthMiddleware.VerifyVerificationToken | identity-service/src/middleware/authMiddleware.ts:50-69 | a missing or empty named cookie (default "verificationToken") is 401; a token the verifier rejects is 401; an accepted token's payload becomes `req.user` |
| AuthMiddleware.RevokeVerificationToken | identity-service/src/middleware/authMiddleware.ts:71-80 | clears exactly the named cookie, "verificationToken" by default, with the cookie policy |
| Identity.GenerateCode | identity-service/src/controllers/registerController.ts:41 | `floor(100000 + r * 900000)` lies in 100000..999999 for every r in [0, 1) |
| Identity.CodeOf | identity-service/src/controllers/registerController.ts:41 | the code string has six decimal digits whose value is the generated number |
| Identity.Owner | identity-service/src/models/User.ts:18-24 | the user `findOne({email})` finds holds that email; none is found only when no user holds it |
| Identity.OwnerIs | identity-service/src/models/User.ts:18-24 | with unique emails, the owner of an email is the user holding it |
| Identity.RegisteredRecord | identity-service/src/controllers/registerController.ts:44-52 | the new record keeps the names, normalises the email, stores the hash, is ADMIN exactly when the raw email equals ADMIN_ACCOUNT, is unverified, and its code expires 180000 ms after now |
| Identity.IdentityStore.constructor | identity-service/src/models/User.ts:8-51 | an empty store, which satisfies the one-user-per-email invariant |
| Identity.IdentityStore.FindByEmail | identity-service/src/controllers/loginController.ts:22 | the lookup applies the email setters to the filter and finds its owner |
| Identity.IdentityStore.GenerateTokens | identity-service/src/utils/generateToken.ts:8-49 | stores one refresh record expiring 18 days later, and returns the same access and refresh values it sets as cookies |
| Identity.IdentityStore.ClearUnverified | identity-service/src/controllers/registerController.ts:26-39 | a verified owner of the email blocks registration with nothing changed; an unverified owner is the only user deleted; afterwards nobody holds the email |
| Identity.IdentityStore.CreateAccount | identity-service/src/controllers/registerController.ts:41-64 | the record is inserted under the new id with its 201 reply, verification cookie and `user.registered` event carrying the stored code; a record failing validation is 500 with mongoose's message and no change |
| Identity.IdentityStore.Register | identity-service/src/controllers/registerController.ts:18-64 | a validation error is 400 and a verified owner is 400 "Email already in use", both with no change; only an unverified user with the same email is ever removed; no other user changes; nobody becomes verified; at most one user per email; 201 exactly when creation succeeds; a failed creation (500) leaves the store without the unverified holder of the email, which was deleted before `User.create` ran |
| Identity.IdentityStore.VerifyAccount | identity-service/src/controllers/verifyAccountController.ts:14-69 | the guards run in order: code format 400, no user id 400, unknown 404, already verified 400, wrong or expired code 400. Every failure leaves the store unchanged. Success sets isVerified and clears the code and expiry, touching nothing else; it records `user.verified`, clears the verification cookie and answers 200. This is the only transition that verifies a user |
| Identity.IdentityStore.VerifyAccountCodeResend | identity-service/src/controllers/verifyAccountCodeResendController.ts:13-48 | unknown is 404; verified is 400 with no change; otherwise only the code and its 3-minute expiry change, and `user.registered` carries the stored code |
| Identity.IdentityStore.Login | identity-service/src/controllers/loginController.ts:12-56 | validation 400 before lookup; unknown email 404 and wrong password 401 with the same message; unverified 400, checked before the password; tokens are issued exactly when all guards pass; the user store is never written; the reply exposes only first name, last name and email |
| Identity.IdentityStore.ForgotPassword | identity-service/src/controllers/forgotPasswordController.ts:12-52 | validation 400; unknown 404 and unverified 400, both "User not found"; otherwise only the code and its expiry change, with a verification cookie and a `user.forgot_password` event carrying the stored code |
| Identity.IdentityStore.VerifyResetPasswordCodeResend | identity-service/src/controllers/verifyResetPasswordCodeResendController.ts:15-47 | unknown 404; unverified 400 "User not verified" with no change; otherwise only the code and expiry change, and the event carries the new code |
| Identity.IdentityStore.VerifyResetPassword | identity-service/src/controllers/verifyResetPasswordController.ts:15-61 | validation 400, unknown 404, unverified 400, wrong or expired code 400; success changes no record, clears the verification cookie, sets the reset cookie and answers 200 |
| Identity.IdentityStore.ResetPassword | identity-service/src/controllers/resetPasswordController.ts:15-55 | validation 400, unknown 404, unverified 400 "User not found"; success stores the hash of the new password and clears the code and expiry, leaving isVerified and email as they were, and clears the `resetPasswordToken` cookie |
| Identity.IdentityStore.VerifyTwice | identity-service/src/controllers/verifyAccountController.ts:35-40 | after a successful verification a second one answers 400 "User already verified" |
| Gateway.CorsOrigin | api-gateway/src/server.ts:45-60 | an origin is allowed exactly when it is absent, empty, or one of the two localhost origins; any other is the error "CORS blocked: <origin>" |
| Gateway.NextWindow | api-gateway/src/server.ts:69-89 | a hit inside a live window adds one to its count; a hit with no window, or after the window has run 15 minutes, opens a new one with one hit |
| Gateway.ReplayCounts | api-gateway/src/server.ts:69-89 | hits inside the window opened by the first of them are counted one by one |
| Gateway.HundredAndFirstRefused | api-gateway/src/server.ts:69-79 | inside one window the first 100 hits from a client pass and the 101st is refused |
| Gateway.Layers | api-gateway/src/server.ts:115-147 | `app.use(path, ...handlers)` adds one layer per handler, in order |
| Gateway.MultipartOnlyForGrades | api-gateway/src/server.ts:115-147 | the only proxy in the stack that passes multipart bodies is the one mounted under `/v1/grade` |
| Gateway.BlockedOriginNeverCounted | api-gateway/src/server.ts:41-93 | a blocked origin is rejected with its error before the limiter: no counter changes and no route is reached |
| Gateway.PreflightAnswered | api-gateway/src/server.ts:41-66 | an OPTIONS request from an allowed origin is answered 204 by cors, before the limiter, with no counter changed |
| Gateway.OverLimitRefused | api-gateway/src/server.ts:41-91 | an allowed request other than a preflight, over the limit, is answered 429 `{success: false, message: "Too many requests"}` and goes no further |
| Gateway.AdmittedRoutes | api-gateway/src/server.ts:41-152 | a request other than a preflight that passes cors and the limiter is counted once and ends at its destination: under the first service whose prefix covers its path, the token check's refusal or that service's proxy with `res.locals.proxyUrl` holding its original URL; otherwise `/ping` for GET and HEAD, otherwise 404 |
| Gateway.PassesGuards | api-gateway/src/server.ts:41-103 | helmet, the parsers, cors, the limiter and the logger let an admitted request other than a preflight through with its counter bumped |
| Gateway.ServiceWalk | api-gateway/src/server.ts:105-120 | a request under a service mount is refused by the token check or proxied with the URL `captureUrl` stored; any other request passes on untouched |
| Gateway.TailWalk | api-gateway/src/server.ts:149-152 | after the services only GET or HEAD `/ping` is answered; anything else falls through to 404 |
| Gateway.MountsDisjoint | api-gateway/src/server.ts:115-147 | no path falls under two service prefixes |
| Gateway.RunSkips | api-gateway/src/server.ts:41-66 | helmet, the JSON parser and the cookie parser pass the request on to cors |
| Gateway.GatewayApp.constructor | api-gateway/src/server.ts:17 | an empty stack, not listening, with the given counters |
| Gateway.GatewayApp.Use | api-gateway/src/server.ts:41-149 | the stack grows by exactly the layers of the call |
| Gateway.GatewayApp.UseBase | api-gateway/src/server.ts:41-103 | the six global layers, in registration order |
| Gateway.GatewayApp.UseService | api-gateway/src/server.ts:115-147 | one service mount's three layers |
| Gateway.GatewayApp.UseTail | api-gateway/src/server.ts:149-152 | the error handler, then the `/ping` route |
| Gateway.GatewayApp.Start | api-gateway/src/server.ts:18-176 | each missing URL (REDIS, IDENTITY, GRADE, NOTIFICATION, in that order) exits with code 1 at its point in the script, before listening, leaving only the layers registered before it; the server listens exactly when all four are set, with the full stack and PORT (3000 by default) |
| Gateway.GatewayApp.Handle | api-gateway/src/server.ts:41-152 | dispatching a request through the stack gives the outcome and counters of the `Run` walk, and changes nothing else |

## Left out

- MongoDB query and aggregation semantics are not modelled. The query results are given as sequences of documents: the matching documents of each analytics handler, and the stats, top and bottom results of `batchSemesterAggregate`. The pipelines that produce them, and the handlers built only on pipelines (`courseAggregate`, `getCoursesByBatch`, `byMajor`, `byBatch`, `bySemester`), are not modelled.
- GradeAnalytics.StrengthsWeaknesses: averages are exact rationals; the two-decimal rounding of `toFixed(2)`, which also returns a string, is not modelled. The same holds for the averages passed into `MergeStats`.
- GradeAnalytics.SortDesc: the insertion sort places an element after the equal keys already placed, so, like `Array.prototype.sort`, it keeps entries with equal keys in input order; stability is not stated as a lemma. Because the averages are not rounded to two decimals, two courses whose rounded averages tie can still come out in a different order than in the source.
- Grades.ParseScore: `Number` parsing of text is not modelled; a score cell carries the value `Number` gives (or NaN). Fractional scores are not modelled: scores are integers.
- CSV parsing (csv-parser, multer buffering) is not modelled; the upload starts from the parsed rows. A stream error of the parser is not modelled either.
- Mongoose `ObjectId` casting: an id that is not a valid ObjectId makes `findById` throw a CastError (500) in the source; the model treats every id string as a key and answers 404 for an unknown one.
- argon2, `jwt.sign`, `jwt.verify`, `crypto.randomBytes`, `Math.random` and the request validators are parameters; RabbitMQ publishing is an `events` log; logging is left out.
- Identity.CodeOf: the floating-point rounding of `100000 + Math.random() * 900000` is not modelled; the random number is an exact real in [0, 1).
- Unicode: trimming removes only the ASCII white space (space, tab, line feed, carriage return, vertical tab, form feed), and lowercasing maps only A-Z; the other Unicode spaces and letters are not modelled.
- Asynchronous interleavings, such as two uploads racing on `findOne`/`create` or two registrations of one email, are not modelled: every handler runs to completion on its own. The database's unique index on `email` is not modelled; uniqueness follows from the handlers.
- Request bodies are strings as declared; a body field of another JSON type is not modelled.
- `generateResetPasswordToken` also computes an `expiresAt` date that it never uses; it is not modelled.
- RunSkips: helmet, `express.json` and cookie-parser are not modelled beyond their place in the stack; a body that `express.json` rejects (malformed JSON, over its size limit) goes to the error handler before cors and the limiter, and the model does not capture that exit.
- Redis is not modelled beyond the limiter's counters. The rate limiter's counters are a map from client key to window, updated atomically. A Redis outage is not modelled.
- The gateway's `createProxy`, its `validationToken` middleware and its `errorHandler` are not part of this model. A request that reaches a proxy is reported as forwarded, with its target, body mode and captured URL. The verdict of `validationToken` is a field of the request, `tokenAccepted`; a refused request is reported as `TokenRejected` without its reply. The error handler runs only for errors, and the reply it gives a rejected origin is not modelled.
- Express matches mount paths case-insensitively and ignores a trailing slash on routes; the model matches paths exactly.
- The request logger and `getClientIp` only write logs; they are not modelled. The rate limiter's key is the request's `ip`.
- Tokens.SessionCookies: the refresh expiry is now plus 18 × 86400000 ms; `setDate(getDate() + 18)` works in local calendar days, so across a daylight-saving change it differs by an hour.
