# Dating-site signup core, modelled in Dafny

This project models the part of the dating site that registers a user. It has four parts.

- **The User model.** It holds the user's attributes and their constraints: not-null, unique email, password length. It also holds the `age` getter, the default search band (`defaultAge`), the default search preference (`defaultPreference`) and `oppositeGender`. Finally it holds the create hooks, which lower-case the email, store a password hash and attach one default search preference per created user.
- **The signup form's client-side `validate`.** It checks location, email, password and the three birth-date fields, and returns an error object with at most one message per field.
- **The `signup` endpoint and `tokenForUser`.** `signup` checks the exact submitted email against the users table, then calls `User.create`. It answers with a token, with 422 "Email is in use", or with 500 and the name of the error `create` rejected with.
- **The users table and the search-preference table.** These form a class `UserStore.Database`. It keeps one invariant: ids are distinct, emails are present, lower-cased and unique, no password is stored, and every preference belongs to a stored user.

Files:
- `wrappers.dfy`: `Option` and `Result`.
- `ascii.dfy`: ASCII lower-casing.
- `user_model.dfy`: attributes, validation, age, default band and preference, the `beforeCreate`/`beforeBulkCreate`/`beforeUpdate` hooks.
- `user_store.dfy`: the tables, `User.create`, the `afterCreate`/`afterBulkCreate` hooks.
- `signup_form.dfy`: the form validator, the email pattern and calendar validity.
- `authentication.dfy`: `signup` and `tokenForUser`.

Outside calls become parameters:
- the clock becomes `now` (milliseconds) or `currentYear`;
- bcrypt's hash becomes `hash`;
- the JWT encoder, together with its secret, becomes `encode`;
- the `isEmail` validator of the model becomes `isEmail`.

Two behaviours of the code as written are kept in the model:
- **`signup` can never create a user.** It gives `create` no `username` and no `gender`, and both are not-null. The `sex` it does pass is not an attribute of the model. So every request is answered with 422 or with 500 "SequelizeValidationError" (`Authentication.Signup`). The flow for attributes that could validate is `Authentication.SignupWith`.
- **The duplicate lookup is case-sensitive.** It uses the exact submitted email, while stored emails are lower-cased. So a mixed-case variant of a stored email gets past the lookup. For attributes that validate, it then collides at the unique constraint and the answer is 500 "SequelizeUniqueConstraintError" (the third case of `Authentication.SignupWith`). For the attributes `signup` actually passes, validation fails first and the answer is 500 "SequelizeValidationError".

The age getter divides by a 365-day year with no leap-year correction (server/models/user.js:71). A date of birth in the future gives a negative age, and nothing clamps it.

## Model

| member | source | states |
|---|---|---|
| UserModel.MsPerYearIs365Days | server/models/user.js:71 | The divisor of the age getter is exactly the milliseconds of a 365-day year. |
| UserModel.WithDefaults | server/models/user.js:15-17 | Building an instance sets avatar_url to "images/default-user.png", avatar_uploaded to false and last_online to now, each only when it is not given. Every other attribute is unchanged. |
| UserModel.PassesValidation | server/models/user.js:5-19 | The field constraints: every allowNull:false attribute is present, the email passes isEmail, a present digest is not blank, and the password is present, not blank and at least 3 characters long. Blank means empty or made only of characters JavaScript's `\s` matches, as Sequelize's `notEmpty` tests. |
| UserModel.MissingRequiredFails | server/models/user.js:5-19 | An instance lacking username, email, province, city, dob, gender, looking_for or password never passes validation. |
| UserModel.BlankPasswordFails | server/models/user.js:19 | A password made only of whitespace, whatever its length, never passes validation. |
| UserModel.ShortPasswordFails | server/models/user.js:19 | A password shorter than 3 characters never passes validation. |
| UserModel.Age | server/models/user.js:71 | The age is the floor of (now − dob) over a 365-day year: a·Y ≤ now − dob < (a+1)·Y. |
| UserModel.FutureDobGivesNegativeAge | server/models/user.js:71 | A date of birth after now gives a negative age. |
| UserModel.AgeAfterWholeYears | server/models/user.js:71 | n whole years plus less than one more year after birth, the age is exactly n. |
| UserModel.AtLeast18 | server/models/user.js:108-112 | The clamp `x < 18 ? 18 : x` is at least 18 and at least x, and is either x or 18. |
| UserModel.DefaultAge | server/models/user.js:105-115 | Both bounds are ≥ 18 and low ≤ high. They are max(18, age−5)/max(18, age+10) when looking for "male", and max(18, age−10)/max(18, age+5) otherwise. |
| UserModel.DefaultAgeAtThirty | server/models/user.js:105-115 | At age 30 the band is 25..40 when looking for "male" and 20..35 otherwise. |
| UserModel.DefaultAgeContainsOwnAge | server/models/user.js:105-115 | An adult's own age lies within the default band. |
| UserModel.DefaultPreference | server/models/user.js:89-103 | gender = looking_for, looking_for is null, and province and city are copied. The age band is defaultAge. Heights are 150/180 iff looking for "female", otherwise 160/190. |
| UserModel.OtherLookingForIsMixed | server/models/user.js:89-115 | A looking_for that is neither "male" nor "female" gets the "female" age band but the 160/190 heights. |
| UserModel.OppositeGender | server/models/user.js:85-87 | The result is always "male" or "female", and is "female" exactly for "male". |
| UserModel.OppositeGenderInvolution | server/models/user.js:85-87 | On {"male", "female"} the function swaps the two values and is its own inverse. |
| Ascii.Lower | server/models/user.js:33 | Lower-casing keeps the length, maps each character through the ASCII case map, leaves no upper-case letter, and leaves a lower-case string unchanged. |
| Ascii.LowerChar | server/models/user.js:33 | An upper-case ASCII letter moves up by 32. Every other character is unchanged. |
| Ascii.LowerIdempotent | server/models/user.js:33 | Lower-casing twice is lower-casing once. |
| UserModel.Normalize | server/models/user.js:32-36 | The email becomes its lower-cased form, the digest becomes hash(password), and nothing else changes. |
| UserModel.NormalizeIdempotent | server/models/user.js:37-43 | Applying the hook transformation twice equals applying it once. |
| UserModel.User.constructor | server/models/user.js:15-17 | A built instance has no id and its values are the attributes with defaults filled in. |
| UserModel.User.BeforeCreate | server/models/user.js:32-36 | The instance's values become their normalized form, and the id is untouched. |
| UserModel.User.BeforeUpdate | server/models/user.js:44-46 | The hook changes nothing: no re-lower-casing, no re-hashing. |
| UserModel.BeforeBulkCreate | server/models/user.js:37-43 | Every user in the array ends up normalized exactly once, even when listed twice, and ids are untouched. |
| UserStore.ErrorName | server/controllers/authentication.js:38 | The names of the model's two rejections: "SequelizeValidationError" or "SequelizeUniqueConstraintError". |
| UserStore.ErrorNameInjective | server/controllers/authentication.js:38 | A validation failure and a unique-constraint failure carry different names. |
| UserStore.Persisted | server/models/user.js:19 | The virtual password is not stored, and every other attribute is. |
| UserStore.FindByEmail | server/controllers/authentication.js:21 | A row is found iff some stored email equals the given one exactly, and the row found is stored with that email. |
| UserStore.PrefsOf | server/models/user.js:47-51 | The preferences of a user are empty iff no preference row has that user's id, and contain p iff the row (id, p) is stored. |
| UserStore.PrefsOfAppend | server/models/user.js:52-58 | The preferences of a user over two stretches of the table are those of each stretch, in order. |
| UserStore.PrefsOfOnlyRow | server/models/user.js:52-58 | A user owning exactly one row of a stretch of the preference table has exactly that row's preference there. |
| UserStore.MixedCaseEmailNotFound | server/controllers/authentication.js:21 | With lower-cased stored emails, an email holding an upper-case letter is never found. |
| UserStore.Database.AfterCreate | server/models/user.js:47-51 | Exactly one preference row is appended: the user's id with its defaultPreference. The users table is untouched and the invariant is kept. |
| UserStore.Database.AfterBulkCreate | server/models/user.js:52-58 | One preference row is appended per array entry, in order, each with that user's defaultPreference, and nothing else changes. A user listed once and holding no preference before ends with exactly one, its defaultPreference; a user listed twice gets two. |
| UserStore.Database.Insert | server/models/user.js:6 | For an email not yet stored, the row is appended with the next id, the counter advances, and the invariant, including email uniqueness, is kept. |
| UserStore.Database.Create | server/models/user.js:5-51 | Failed validation gives a ValidationError and leaves the tables unchanged. A taken lower-cased email gives a UniqueConstraintError and leaves them unchanged. Otherwise the result is the new id, one row is added with the normalized values without password, and the new user has exactly one preference, its defaultPreference. |
| SignupForm.IsEmailAddress | client/components/auth/signup.js:140 | The regular expression's test: some '@' position and some later '.' position split the string into local characters, domain characters, and 2 to 4 letters. |
| SignupForm.IsEmailAddressMatchesPattern | client/components/auth/signup.js:140 | The character-position test accepts exactly the strings that split as local part, '@', domain, '.', and 2 to 4 letters, over the regex's character classes. |
| SignupForm.EmailHasOneAt | client/components/auth/signup.js:140 | An accepted email contains exactly one '@'. |
| SignupForm.DaysInMonth | client/components/auth/signup.js:165 | A month has 28 to 31 days. February has 29 iff the year is a Gregorian leap year. Of the other months, exactly April, June, September and November have 30. |
| SignupForm.DateExists | client/components/auth/signup.js:165 | The month is 1..12, the day is 1..31 and the day is at most the month's length in that year. |
| SignupForm.NonexistentDateHasValidParts | client/components/auth/signup.js:165 | 02/30/2000 passes the month and day ranges but does not exist. 02/29/2000 exists and 02/29/2100 does not. |
| SignupForm.Accepted | client/components/auth/signup.js:130-169 | Every check passes: location, email and password given, the email matches the pattern, month 1..12, day 1..31, year 1910..2100 and at most currentYear − 18, and the date exists. |
| SignupForm.ErrorFor | client/components/auth/signup.js:134-167 | Each field's own chain of checks, in order: the message of the first that fails, or none. |
| SignupForm.NoMessageIffAccepted | client/components/auth/signup.js:130-169 | No field has a message iff every field is present and passes all its checks. |
| SignupForm.CutoffYearPasses | client/components/auth/signup.js:163 | A year equal to currentYear − 18 with an existing date gets no year message, whatever the month and day. |
| SignupForm.NonexistentDateOnlyYear | client/components/auth/signup.js:149-167 | 02/30/2000 leaves the month and day keys unset and sets only the year key, to the "date does not exist" message. |
| SignupForm.AllMessagesPerField | client/components/auth/signup.js:130-169 | After all six checks, a field has a key iff its own checks give a message, and the key holds that message. |
| SignupForm.AllMessagesMeaning | client/components/auth/signup.js:130-169 | The completed error object holds exactly the failing fields' messages and is empty iff the form is accepted. |
| SignupForm.CheckLocation | client/components/auth/signup.js:134-136 | A missing location adds exactly "where are you?", and anything else leaves the object as it was. |
| SignupForm.CheckEmail | client/components/auth/signup.js:138-142 | A missing email adds "Please enter an email" and a pattern mismatch adds "Invalid email address". Only one of the two is added. |
| SignupForm.CheckPassword | client/components/auth/signup.js:144-146 | A missing password adds exactly "Please enter a password". |
| SignupForm.CheckMonth | client/components/auth/signup.js:149-153 | A month message is added iff the month is missing, non-numeric or outside 1..12, with the message of the first failing check. |
| SignupForm.CheckDay | client/components/auth/signup.js:154-158 | A day message is added iff the day is missing, non-numeric or outside 1..31, with the message of the first failing check. |
| SignupForm.CheckYear | client/components/auth/signup.js:159-167 | The year checks run in order: missing, then outside 1910..2100, then after currentYear − 18, then a nonexistent date. At most one message is added, from the first check that fails. |
| SignupForm.Validate | client/components/auth/signup.js:130-170 | The returned object has a key exactly for each field whose checks fail, holding that field's message, and is empty iff every check passes. |
| Authentication.TokenForUser | server/controllers/authentication.js:5-8 | The token is the encoding of the claims with the user id as `sub` and the issue time as `iat`. |
| Authentication.TokenCarriesId | server/controllers/authentication.js:5-8 | Decoding a token gives the user id as `sub` and the issue time as `iat`. |
| Authentication.SignupAttributes | server/controllers/authentication.js:26-33 | dob, email, password, province and city come from the request, and looking_for comes from lookingFor. `sex` is dropped, and username and gender stay unset. |
| Authentication.SignupAttributesNeverValid | server/controllers/authentication.js:26-33 | The attributes signup passes never validate, whatever the request holds. |
| Authentication.MixedCaseDuplicateReachesCreate | server/controllers/authentication.js:21 | A mixed-case variant of a stored email is missed by the exact lookup, while its lower-cased form is stored, and an instance holding it collides with the stored row once `beforeCreate` has run. |
| Authentication.SignupWith | server/controllers/authentication.js:18-44 | An exact email match gives 422 "Email is in use" and no change. Otherwise the create's outcome decides: 500 with "SequelizeValidationError" or "SequelizeUniqueConstraintError" and no change, or the token for the new id, with exactly one user row and exactly one preference row, its default preference, appended and every other row unchanged. |
| Authentication.Signup | server/controllers/authentication.js:18-44 | As written, no user or preference is ever added. The answer is 422 when the exact email is taken and 500 "SequelizeValidationError" otherwise. |

## Left out

- React rendering, redux-form wiring and `handleFormSubmit` of the signup page are user-interface code.
- The chat box and user card components are user-interface code bound to Redux and sockets.
- The user controller is a lookup wrapper with no logic.
- Likes, mutual matches and candidate filtering have no logic in the code: only association declarations exist.
- `comparePassword` and `generateHash` call bcrypt. The hash is the parameter `hash`, and `comparePassword` is not modelled.
- `tokenForUser` calls jwt-simple and the clock. The encoder is the parameter `encode`, and the clock is `now`.
- The model's `isEmail` validator belongs to validator.js and is the parameter `isEmail`.
- `validate` reads the current year from moment; it is the parameter `currentYear`.
- Concurrent signups are not modelled. Each request runs to completion, so the race between the lookup and the insert does not appear.
- The error path where the lookup itself fails and is handed to `next(err)` is not modelled, since the lookup is a total function here.
- A request without an email is looked up as an absent value, which matches no stored user.
- `afterCreate` and `afterBulkCreate` do not wait for the preference write, and its failure is not observed. The write is modelled as completing.
- Sequelize internals are not modelled: indexes, promises, callback-style hooks, and the validation of `bulkCreate`.
- UserModel.BeforeBulkCreate: a user without an email or password would make the hook throw. This is stated as a precondition rather than modelled as an error.
- SignupForm.Validate: the date is checked as Gregorian calendar validity. moment's strict "MM/DD/YYYY" tokenisation is not modelled: under it, a one-digit month or day such as "2/28/2000" also fails the parse.
- SignupForm.Validate: numeric fields are integers, empty or non-numeric. `Number()` coercion of fractional or padded strings is not modelled.
- Ascii.Lower: lower-casing is ASCII only. Unicode case mapping is not modelled.
- The error object is keyed by a field datatype rather than by strings.
- UserStore.Database.Create: the insert fails only when the lower-cased email is taken. Three database behaviours are not modelled:
  - Other rejections by the database: a value longer than a VARCHAR(255) column on a strict database, or a lost connection. The source answers those with 500 and another error name, such as "SequelizeDatabaseError", where the model gives a token.
  - A rejected insert usually still uses up an auto-increment value. The model keeps the next id unchanged on the unique-constraint path.
  - The preference writes of `afterBulkCreate` are not awaited and may land in any order. The model writes them in array order.
- UserModel.WithDefaults: `None` merges `undefined` and `null`. Sequelize fills a `defaultValue` only for an undefined attribute. An explicit `null` for `avatar_uploaded` or `last_online` is kept and then fails `allowNull: false`, while the model fills the default and lets it validate. No call site in the modelled code passes such a null.
- The `console.log` of the error name on the 500 path is output only and is not modelled.
- UserModel.DefaultAge: the source reads the `age` getter up to four times, and each read takes the clock again. The model reads one `now` for all of them.
- UserModel.NormalizeIdempotent: `hash` is a deterministic function, while bcrypt draws a fresh salt on each call. A user listed twice in a bulk create would in fact receive two different digests. The idempotence and "normalized exactly once" rest on the deterministic hash.
- UserModel.User.BeforeUpdate: the tables have no update operation. In the source, the no-op hook means an updated email is stored exactly as given, without lower-casing, and an updated password is not re-hashed. So "stored emails are lower-cased" in the table invariant holds only because updates are left out.
