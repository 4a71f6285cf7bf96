# Auth flow, request gate and cart total of a small e-commerce backend

This project models three small pieces of decision logic from an Express/MongoDB shop
backend and proves properties about them in Dafny 4.11:

- **Registration and login** (`routes/auth.js`). `Auth.Register` and `Auth.Login` are pure
  functions. Each takes a request body, the user store, the library oracles and the store
  faults, and returns the response (status and JSON body) together with the store it leaves
  behind.
  - Registration checks the email first (the email validator plus the pattern
    `/<script.?>.?<\/script>/gi`, read exactly as written). Then it checks password strength,
    then looks for a duplicate. Only after that does it hash, save and sign a token with role
    `'user'`.
  - Login looks the user up and compares the password hash. It derives the role by exact
    comparison with the configured admin email, signs a token and answers.
  - Every unexpected failure becomes a 500 with the handler's fixed message and the error
    text. The login rate limiter is a boolean input that short-circuits to 429.
- **Request gate** (`routes/middlewares/authMiddleware.js`). `Gate.JwtMiddleware` handles the
  bearer header: it takes `split(' ')[1]`, runs the token verifier and checks the `id` claim.
  `Gate.Authorize(roles, _)` checks role membership. Each middleware either sends a response
  or calls `next`, and the `Step` datatype makes that exclusive. `App.ProtectedRoute` and
  `App.AdminRoute` chain the middlewares the way `routes/app.js` mounts them.
- **Cart total** (`routes/services/cart_total_salary.js`). `Cart.Total` is the left fold from
  0 of `productPrice * quantity`, over integers. `Cart.CalculateTotalPrice` is the loop
  `reduce` runs.

The libraries are parameters, not models:
- `validator.isEmail` is an arbitrary predicate.
- `bcrypt.hash(_, 10)`, `bcrypt.compare` and `jwt.sign` are arbitrary functions returning
  `Result`, where `Failure` means the call threw.
- `jwt.verify` is an arbitrary `string -> Option<Claims>`.
- `process.env.ADMIN_EMAIL` is an `Option<string>`.
- A `StoreFaults` value says whether `findOne` and `save` throw.
- The `_id` a new document receives is a parameter.

JavaScript strings are UTF-16 code units, while a Dafny `string` holds Unicode scalar values.
The model handles the gap in three places:
- `password.length` is `JsString.Utf16Length`: a character outside the Basic Multilingual
  Plane counts as two units.
- The regex `.` is `Patterns.Dot`. It does not match a line terminator, and it does not match
  an astral character either. Without `u`, `.` would take one surrogate half of such a
  character, and that half is always followed by its partner half, never by the `>` or `<`
  the pattern needs next.
- The `i` flag without `u` never folds a non-ASCII character onto an ASCII one, so matching
  the all-ASCII pattern case-insensitively is the same as comparing after ASCII upper-casing.

As written, the email pattern allows at most one character in each `.?` slot. So an ordinary
inline script such as `<script>alert(1)</script>` does not match it
(`Validation.InlineScriptPassesPattern`). Such an email is refused only because the email
validator refuses it. The model keeps the pattern as the code has it.

Three behaviours of the code are worth stating plainly:
- A `save` that fails, including on a duplicate key, gives 500. The handler never turns it
  into "User already exists".
- A missing `JWT_SECRET` is never checked at startup. `jwt.sign` throws on each request, which
  gives 500, and a registration has already saved the record by then
  (`Auth.SignFailureKeepsRecord`).
- Nothing in the handlers re-hashes a password on update.

## Model

| member | source | states |
|---|---|---|
| Auth.Register | routes/auth.js:19-62 | The email check decides first and alone: 400 "Invalid or malicious email" iff the email is unacceptable, whatever the password. 400 "Password is too weak" iff the email is acceptable but the password is not strong. 400 "User already exists" iff both checks pass, the lookup succeeds and the email is taken. Every 400 is one of those three bodies, so none carries a token, and it leaves the store unchanged. Once both checks pass, a throwing `findOne`, hash, `save` or sign gives 500 "Database operation timeout or connection issue" with that error's message. The store is unchanged for the first three. Once lookup, hash and save succeed, the store gains exactly one record under the new email, whose password field is the hasher's output. That holds for a 201 and for the 500 from a throwing sign. In every other case the store is unchanged. 201 iff every step succeeds, and then the body is the success message with the token signed for (new id, role 'user'). The store stays keyed by email. |
| Auth.Login | routes/auth.js:65-92 | Never changes the store. Every 400 is the identical "Invalid credentials", and 400 happens iff the lookup succeeds and the email is unknown or the password comparison says no. A throwing `findOne`, compare or sign gives 500 "Server error" with that error's message. 200 iff the credentials are accepted and signing succeeds. Then the role is 'admin' iff the submitted email equals the configured admin email, else 'user', and the message, token, userId and role fields follow from that role and the stored id. |
| Auth.LoginRoute | routes/auth.js:11-16 | 429 with the limiter's message iff the client is limited, and the store is untouched. Otherwise the result is the login handler's. |
| Auth.RoleFor | routes/auth.js:79 | The role is 'admin' exactly when the configured admin email is set and equals the submitted email, otherwise 'user'. |
| Auth.LoginMsg | routes/auth.js:83 | The capitalised role message: "Admin login successful" for 'admin', "User login successful" for 'user'. |
| Auth.ChecksPrecedeStore | routes/auth.js:23-40 | When the email or password check fails, the response does not depend on the store, the store faults or the new id, and the store is left as it was. |
| Auth.EachPasswordCriterionRequired | routes/auth.js:27-35 | Failing any single criterion (length, upper, lower, digit, special) gives exactly 400 "Password is too weak" with the store unchanged. |
| Auth.RegisterTwice | routes/auth.js:37-56 | Registering an acceptable email succeeds with 201. Registering it again afterwards gives 400 "User already exists" and changes nothing. |
| Auth.StoredPasswordIsNotPlaintext | routes/auth.js:42-52 | If the hasher never returns its input, the saved password field is never the plaintext. |
| Auth.SignFailureKeepsRecord | routes/auth.js:52-60 | When signing throws after the save, the response is 500 but the new record stays in the store. |
| Auth.UnknownEmailLikeWrongPassword | routes/auth.js:69-77 | An unknown email and a known email with a wrong password get identical responses. |
| Auth.LimitedLoginIgnoresStore | routes/auth.js:65 | A rate-limited login's response is the same whatever the store holds or whether it would fail. |
| Auth.RegisterThenLogin | routes/auth.js:42-87 | If the hasher and comparer agree, a fresh registration can log in. The answer is 200 with the new id, and the role is 'admin' iff the email is the admin email. |
| Validation.EmailRejected | routes/auth.js:23-25 | The email guard fires iff the validator rejects the email or some substring matches the script pattern (declarative reading). |
| Validation.PasswordTooWeak | routes/auth.js:27-33 | The password guard fires iff the password is not strong. Strong means at least 8 UTF-16 code units plus an existing `A-Z`, `a-z`, `0-9` and `!@#$%^&*` character. |
| Validation.ShortPasswordIsWeak | routes/auth.js:28 | Fewer than 8 characters, none astral, is always too weak. |
| Validation.InlineScriptPassesPattern | routes/auth.js:23 | `<script>alert(1)</script>` does not match the pattern as written. |
| Validation.MixedCaseTagIsCaught | routes/auth.js:23 | Matching ignores case and admits one character in each `.?` slot: `a<SCRIPT >x</sCrIpT>@b.co` is rejected whatever the validator says. |
| Patterns.ScriptPatternTest | routes/auth.js:23 | The backtracking search over all start positions succeeds iff some substring matches. A match is `<script` (any case), at most one non-line-terminator, `>`, at most one non-line-terminator, then `</script>` (any case). |
| Patterns.SearchFromIff | routes/auth.js:23 | Searching from position i succeeds iff the pattern matches at some position at or after i. |
| Patterns.TestClass | routes/auth.js:29-32 | A character-class test succeeds iff some character of the string is in the class. |
| JsString.Utf16Length | routes/auth.js:28 | `password.length` lies between the character count and twice it, and equals the character count iff no character is astral. A one-character string has that character's code-unit count. |
| JsString.Utf16Units | routes/auth.js:28 | A character takes one UTF-16 code unit iff it is in the Basic Multilingual Plane, otherwise two. |
| JsString.Utf16LengthConcat | routes/auth.js:28 | The length of a concatenation is the sum of the lengths. With the one-character case, this makes `password.length` the sum of the characters' code units. |
| JsString.IndexOf | routes/middlewares/authMiddleware.js:12 | The result is the position of the first occurrence of the separator, or the length when there is none. |
| JsString.Split | routes/middlewares/authMiddleware.js:12 | `split` gives at least one field. The first field is the text before the first separator. There are two or more fields iff the separator occurs. No field contains the separator. |
| JsString.JoinSplit | routes/middlewares/authMiddleware.js:12 | Joining the fields of a split with the separator gives back the original string. |
| Gate.BearerToken | routes/middlewares/authMiddleware.js:12 | For a header starting with "Bearer ", `split(' ')[1]` is the space-free run right after the prefix, ending at the next space or the end. |
| Gate.BearerTokenUnique | routes/middlewares/authMiddleware.js:12 | A header determines that run uniquely. |
| Gate.JwtMiddleware | routes/middlewares/authMiddleware.js:4-25 | Calls `next` iff the header starts with "Bearer ", the token verifies and the claims' `id` is truthy. The request passed on is the original with `user` set to the verified claims. Otherwise the response is 401: "No token, authorization denied" iff the header is missing or lacks the prefix, and the single "Token is not valid" for both verification failure and a falsy id. |
| Gate.DoubleSpaceGivesEmptyToken | routes/middlewares/authMiddleware.js:12-23 | `"Bearer  x"` yields the empty token. Given that the verifier rejects the empty token, the response is 401 "Token is not valid". |
| Gate.Includes | routes/middlewares/authMiddleware.js:30 | `roles.includes(v)` holds iff v is a string that is in the list. |
| Gate.Authorize | routes/middlewares/authMiddleware.js:28-35 | Calls `next` with the request unchanged iff the identity is present and its role is a listed string. Otherwise the response is 403 "Forbidden". |
| Gate.AuthorizeMonotone | routes/middlewares/authMiddleware.js:29-34 | Admission for an allow-list implies admission for every superset of it. |
| Gate.AbsentUserForbidden | routes/middlewares/authMiddleware.js:30-31 | With no identity, every allow-list gives 403 "Forbidden". |
| App.ProtectedRoute | routes/app.js:45-47 | 200 "Access granted" iff the request authenticates, otherwise 401. A 401 is the middleware's own response passed through: "No token, authorization denied" iff the bearer header is missing or malformed, otherwise "Token is not valid". |
| App.AdminRoute | routes/app.js:50-52 | The status is 401 iff the request does not authenticate, and that 401 is the middleware's own response with the same two messages as on the protected route. It is 403 "Forbidden" iff the request authenticates and the role claim is not 'admin'. It is 200 "Admin access granted" iff it authenticates with role 'admin'. |
| App.AdminRouteRefinesProtected | routes/app.js:45-52 | Both routes reject tokens identically (same 401 responses). Whatever the admin route admits or forbids has a token the protected route admits, so 403 never occurs without a valid token. |
| App.UserTokenOnAdminRoute | routes/app.js:50-52 | A valid token with role 'user' gets 403 on the admin route and 200 on the protected route. |
| Cart.Total | routes/services/cart_total_salary.js:1-5 | The left fold from 0. Non-negative prices and quantities give a non-negative total. |
| Cart.CalculateTotalPrice | routes/services/cart_total_salary.js:1-5 | The accumulating loop returns the sum of all line amounts `productPrice * quantity`. |
| Cart.TotalOfSmallCarts | routes/services/cart_total_salary.js:2-4 | The empty cart totals 0. A one-item cart totals `productPrice * quantity`. |
| Cart.ExampleCarts | routes/services/cart_total_salary.js:2-4 | The three-line cart (10×2, 20×1, 5×4) totals 60. A zero-quantity line adds nothing, so (10×0, 20×1) totals 20. |
| Cart.TotalAppend | routes/services/cart_total_salary.js:2-4 | Appending an item adds exactly its line amount. |
| Cart.TotalConcat | routes/services/cart_total_salary.js:2-4 | The total of a concatenation is the sum of the totals. |
| Cart.TotalIsSumOfLines | routes/services/cart_total_salary.js:2-4 | The left fold equals the sum taken from the front. |

## Left out

- routes/server.js (database connection, CORS, body parsing, `listen`) is not part of this model: it is process bootstrap and I/O.
- routes/app.js headers (helmet, CSP, XSS protection), static files and router mounting are framework plumbing. Only the middleware order of the two protected routes is modelled.
- Library internals are not modelled: `validator.isEmail`, `bcryptjs` hashing and comparison, and `jsonwebtoken` signing, expiry and signature checks. They are opaque parameters, so no sign/verify round trip is stated.
- Auth.LoginRoute: the limiter's window counting (5 attempts per 15 minutes per client) lives in `express-rate-limit`. It is a boolean input here.
- The `User` model (`./models/users`) is not part of this model. Two consequences:
  - Lookups are exact-match on the email string; any schema casting (lower-casing, trimming) is not modelled.
  - Any pre-save hook is not modelled; `save` either stores the record or throws.
- Concurrency is not modelled: two registrations of the same email racing between `findOne` and `save`, and async suspension points.
- Body fields are strings. A missing (`undefined` or `null`) password makes `password.length` throw into the 500 path. Other non-string values do not throw there: `length` is `undefined` for a number, and the regex tests turn the value into text, so a number password gets 400 "Password is too weak". None of these inputs is modelled.
- Strings with unpaired UTF-16 surrogates cannot be represented by a Dafny `string`.
- Gate.JwtMiddleware: a verified payload that is a plain string instead of an object is not represented separately. It behaves like claims without an `id`, which gives the same 401.
- Auth.LoginMsg: only the ASCII upper-casing of the first letter is modelled. That is all the two role names need.
- Cart.Total: amounts are integers (for example cents). JavaScript's double-precision rounding is not modelled.
- Logging through `console.error` is not modelled.
