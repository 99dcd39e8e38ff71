# Profile upsert and login of a MERN social-network backend, modelled in Dafny

This project models the two route handlers of the Express/Mongoose backend that hold real logic:

- **POST /api/profile** (`routes/api/profile.js`). It validates that `status` and `skills` are non-empty. It builds a partial profile record: a field is copied only when its input is truthy in JavaScript, `skills` is split on `,` and each piece trimmed, and `social` is always an object holding the truthy links. It then creates or updates the requester's profile with `$set`. **GET /api/profile/me** looks the requester's profile up.
- **POST /api/auth** (`routes/api/auth.js`) is the login decision. It validates, looks the user up by email, compares the password with the stored hash, and signs a token holding only the user's id, valid for 360000 seconds. An unknown email and a wrong password get the same reply. **GET /api/auth** returns the current user without the password. Any failure is answered 401.

Modules and files:

- `common.dfy`: `Wrappers` (Option) and `Http` (reply and error-item shapes, shared messages).
- `skills.dfy`: `SkillsParser`. This is JavaScript's `split(",")` and `trim()` as pure functions, with lemmas: piece count, round trips with `join(",")`, and trimming.
- `profile.dfy`: `ProfileRoutes`.
  - Validation, and the builder as an imperative method proved against the specification function `ProfileFields`.
  - `$set` as `SetPaths`, and the collection transition `Upserted`.
  - The class `ProfileStore`, whose field `profiles` (user id to document) the handlers update in place.
- `auth.dfy`: `AuthRoutes`. Login and current-user are pure functions over a read-only user table.

The libraries are parameters or data:

- `bcrypt.compare` is a predicate `matches(plain, hash)`.
- express-validator's `isEmail` is a predicate `isEmail`.
- `jwt.sign` is the constructor `Signed(payload, secret, expiresIn)`.
- `config.get('jwtSecret')` is the parameter `secret: Option<string>`. `None` stands for a key that is not configured, where `config.get` throws inside the `try`.
- A failing store is `storeFails` (profile) or `Unreachable` (users).
- The requester's id is the one set by the authentication middleware. It is a parameter, and `middleware/auth.js` is not part of this model.

Where the code and its documentation differ, the model follows the code:

- GET /api/auth is mounted without the authentication middleware. So `req.user` is never set and the route always answers 401 (`UnguardedCurrentUserRejects`). When `req.user` is set, a missing user is answered 200 with JSON `null`, because `res.json(null)` is what the code sends.
- GET /me answers with the key `message`, while the login errors use `msg`.

## Model

| member | source | states |
|---|---|---|
| `SkillsParser.TrimStart` | routes/api/profile.js:50 | the result is a suffix of the input, what was dropped is all whitespace, and it does not start with whitespace |
| `SkillsParser.TrimEnd` | routes/api/profile.js:50 | the result is a prefix of the input, what was dropped is all whitespace, and it does not end with whitespace |
| `SkillsParser.Trim` | routes/api/profile.js:50 | `trim()` gives a string that neither starts nor ends with whitespace |
| `SkillsParser.TrimCutsOnlyBlankEnds` | routes/api/profile.js:50 | the trimmed string is a slice of the input, and only whitespace is cut off on either side |
| `SkillsParser.TrimIdempotent` | routes/api/profile.js:50 | trimming a trimmed string changes nothing |
| `SkillsParser.TrimWhitespaceIsEmpty` | routes/api/profile.js:50 | a blank piece trims to "" |
| `SkillsParser.Split` | routes/api/profile.js:50 | `split(",")` always yields at least one piece (`"".split(",")` is `[""]`), and no piece contains a comma |
| `SkillsParser.SplitCount` | routes/api/profile.js:50 | the number of pieces is the number of commas plus one |
| `SkillsParser.JoinSplit` | routes/api/profile.js:50 | joining the untrimmed pieces with "," gives back the input string |
| `SkillsParser.JoinExtendsFirst` | routes/api/profile.js:50 | a character put in front of the first piece ends up in front of the joined string |
| `SkillsParser.SplitJoin` | routes/api/profile.js:50 | splitting comma-free pieces joined with "," gives back those pieces |
| `SkillsParser.SplitPrefix` | routes/api/profile.js:50 | a comma-free prefix only lengthens the first piece |
| `SkillsParser.ParseSkills` | routes/api/profile.js:50 | the skills list has one entry per piece |
| `SkillsParser.ParsedSkills` | routes/api/profile.js:50 | the skills list has commas+1 entries; entry i is piece i trimmed; no entry contains a comma, starts or ends with whitespace |
| `SkillsParser.BlankPieceKept` | routes/api/profile.js:50 | an empty or blank piece stays in the list as "" |
| `ProfileRoutes.ProfileValidation` | routes/api/profile.js:29-37 | no errors iff `status` and `skills` are both non-empty; each missing or empty one gives its own error entry, status first |
| `ProfileRoutes.SocialLinks` | routes/api/profile.js:52-57 | `social` holds exactly the networks whose input is truthy, each with its input |
| `ProfileRoutes.ProfileFields` | routes/api/profile.js:42-57 | `user` is the requester whatever the body holds; each scalar is present iff its input is truthy (so "" is never stored) and then equals it; `skills` present iff truthy, as the parsed list; `social` always present |
| `ProfileRoutes.ValidatedFieldsCarryStatusAndSkills` | routes/api/profile.js:29-50 | after validation passes, the record always carries the body's status and the parsed skills |
| `ProfileRoutes.BuildProfileFields` | routes/api/profile.js:42-57 | the field-by-field imperative builder produces exactly `ProfileFields` |
| `ProfileRoutes.BuildSocial` | routes/api/profile.js:52-57 | filling `social` network by network produces exactly `SocialLinks` |
| `ProfileRoutes.SetPaths` | routes/api/profile.js:64 | `$set`: every path the record holds takes its value, every other path keeps the old value |
| `ProfileRoutes.Upserted` | routes/api/profile.js:60-72 | the requester ends with a profile, under its own key; an existing one takes the sent paths and keeps every other; a missing one is created equal to the record; other users' profiles are unchanged |
| `ProfileRoutes.UpsertKeepsConsistent` | routes/api/profile.js:43 | since the record's `user` is the requester, every stored profile stays owned by the key it is stored under |
| `ProfileRoutes.RepeatedUpsertKeepsOneProfile` | routes/api/profile.js:60-72 | two upserts by one user leave the collection's keys as after the first; paths the second call omits keep the first call's values |
| `ProfileRoutes.UpsertIdempotent` | routes/api/profile.js:60-66 | repeating an upsert with the same record leaves the collection as after the first |
| `ProfileRoutes.ProfileStore.GetMine` | routes/api/profile.js:11-23 | 400 "There is no profile for this user" iff the requester has no profile (and the store answers); otherwise 200 with that profile; a store failure is 500 "Server error" |
| `ProfileRoutes.ProfileStore.CreateOrUpdate` | routes/api/profile.js:29-79 | validation failure: 400 with the errors and the store unchanged; store failure: 500 and unchanged; otherwise the collection becomes `Upserted(old, requester, ProfileFields(...))` and the reply is the requester's new profile; ownership is preserved |
| `AuthRoutes.FirstIndex` | routes/api/auth.js:42 | the index found is the first user satisfying the query, or the end if none does |
| `AuthRoutes.FindFirst` | routes/api/auth.js:42 | the single-document query behind `findOne({ email })`, and also behind `findById` at line 15, misses iff no user satisfies the query; a hit satisfies it and is in the table |
| `AuthRoutes.LoginValidation` | routes/api/auth.js:28-35 | no errors iff the email is present and accepted by `isEmail` and a password is present; exactly one error per failing check, the email error first |
| `AuthRoutes.Login` | routes/api/auth.js:26-71 | checks in order validation (400), store (500), lookup and password (the generic 400 "Invalid credentials"), then reading the secret (500 when it is not configured); a token is issued iff the email names a user whose hash matches and the secret is configured; the token holds only `{user:{id}}`, the secret and expiry 360000 |
| `AuthRoutes.ValidationBeforeLookup` | routes/api/auth.js:32-42 | a validation failure is a 400 that depends neither on the user table nor on the password check |
| `AuthRoutes.FailedLoginsIndistinguishable` | routes/api/auth.js:42-52 | any two failed lookups-or-comparisons give equal status and body |
| `AuthRoutes.UnknownEmailLooksLikeWrongPassword` | routes/api/auth.js:43-52 | an unknown email and a wrong password for a known email give the same reply |
| `AuthRoutes.CurrentUser` | routes/api/auth.js:13-21 | 401 "Token is not valid" iff the request has no user or the lookup fails; otherwise 200 with the stored user minus its password, or `null` when no user has that id |
| `AuthRoutes.UnguardedCurrentUserRejects` | routes/api/auth.js:13-21 | with no `req.user`, which is always the case since the route has no auth middleware, the reply is 401 |

## Left out

- Mongoose strict mode. The Profile schema (models/Profile.js:5-31) has no `social` path, yet the handler sets one. The model keeps `social` as the builder computes it. Whether Mongoose drops it on save and `$set` is library behaviour and is left open.
- Mongoose details: `_id`, the default `[]` for array paths, `populate('user', ['name', 'avatar'])` on GET /me, ObjectId casting and cast errors, and the serialisation of documents.
- The check-then-create race in the upsert (two concurrent requests can both create). Only sequential behaviour is modelled.
- `ProfileRoutes.ProfileStore.CreateOrUpdate`: a store failure is one flag that leaves the collection unchanged. A write that fails part-way is not modelled.
- GET /api/profile/all and GET /api/profile/:uid. They are bare library reads whose errors depend on Mongoose casting.
- JWT signing and verification, and bcrypt hashing and comparison. These are cryptographic libraries, kept as a constructor and a predicate.
- The `throw` inside the `jwt.sign` callback. It happens asynchronously, outside the `try`. A failing `config.get('jwtSecret')` is modelled (500), since it throws inside the `try`.
- At most one profile per user. The Profile schema (models/Profile.js:5-31) has no unique index on `user`, and the handler relies on `findOne` followed by a create. The model stores profiles keyed by user id, so uniqueness is an assumption of the model, not something `RepeatedUpsertKeepsOneProfile` proves. What that lemma proves is how the sent and unsent paths of two updates merge.
- express-validator internals:
  - what `isEmail` accepts (a parameter);
  - the `value` and `location` members of its error entries (only `param` and `msg` are kept);
  - that `check('password')` also looks at cookies, headers, route parameters and the query string (the model looks at the body only);
  - a missing email is treated as rejected, as `isEmail` rejects "".
- Request bodies whose fields are not strings: numbers, arrays, objects, `null`. For example, a non-string `skills` makes `split` throw before the `try`.
- `middleware/auth.js` is not part of this model. The requester's id is an input of the profile handlers.
- `server.js` mounts none of the routers and installs no JSON body parser. The handlers are modelled as if reached with a parsed body.
- routes/api/users.js and routes/api/posts.js (stub routes), config/db.js (connection I/O), the React client, and every `console.log`.
- JavaScript strings are UTF-16 while Dafny's are code points. This does not change `split(",")` or `trim()`, because every character `trim` removes is in the Basic Multilingual Plane.
