# Bootcamp directory API — a Dafny model of its core

The system is an Express/Mongoose REST API for a directory of coding
bootcamps, their courses and their users. This project models the parts of it
that decide things, and proves properties about them:

- the list-query engine `advancedResults`, used by every list route. It does
  six things:
  - it removes the reserved keys `select`, `sort`, `page` and `limit` from the
    query;
  - it serialises the rest and puts `$` before every whole-word `gt`, `gte`,
    `lt`, `lte` and `in`;
  - it turns the `select` and `sort` comma lists into space lists;
  - it parses `page` and `limit` with `parseInt(…, 10) || default`;
  - it computes the skip window and the `next`/`prev` links;
  - it packs the response envelope;
- the access gate: Bearer-token extraction, the verify/lookup outcome and the
  role check;
- the error classifier, which maps an error to an HTTP status and a message;
- the user record:
  - its schema checks and role enum;
  - the password-hash pre-save hook;
  - the reset-token record: base16 of 20 random bytes (section 8 of RFC 4648,
    lower case), the stored digest and a 10-minute expiry;
- the login guard chain, the register field selection and the token-cookie
  options;
- the bootcamp record:
  - its schema checks and defaults;
  - its slug and geocode pre-save hooks;
  - the cascade delete of its courses;
- the course record:
  - its schema checks and defaults;
  - the per-bootcamp average tuition, rounded up to a multiple of 10 and
    recomputed when a course is saved or deleted.

Modules follow the source's concerns:

- `Wrappers`: Option and Result.
- `JsText`: the JavaScript string primitives the code relies on (`\w`,
  white space, `split`/`join`, `trim`).
- `Hex`: base16.
- `IntParsing`: `parseInt` with radix 10.
- `QueryString`: the parsed query object and `JSON.stringify` of it.
- `OperatorRewrite`: the `\b(gt|gte|lt|lte|in)\b` replacement.
- `Paging` and `AdvancedResults`: the list-query engine.
- `AccessGate`: `middleware/auth.js`.
- `ErrorHandler`: `middleware/error.js`.
- `Users`, `AuthController`, `Bootcamps` and `Courses`: the models and the
  auth controller.

The data store is an abstract sequence of records; `Courses.Directory` holds
the bootcamp and course collections that the model hooks update.

Library primitives are parameters of the operations that use them:

- bcrypt `genSalt`, `hash` and `compare`;
- JWT `sign` and `verify`;
- `crypto.randomBytes` and the SHA-256 hex digest;
- slugify and the geocoder;
- `find`, `populate` and the user lookup;
- the e-mail and URL regular expressions;
- `Date.now()`, `NODE_ENV` and `JWT_COOKIE_EXPIRE`.

Nothing about these parameters is assumed beyond being functions.

## Model

| member | source | states |
|---|---|---|
| AdvancedResults.AdvancedResults | middleware/advancedResults.js:1-84 | A malformed `select`/`sort` is a TypeError. Otherwise it fails exactly when the store rejects the selection (say a filter value it cannot cast) or the skip is negative, with the store's reason. On success: `success` is true; `count` equals the length of `data`; `data` is the fetched window, populated only when `populate` is given; `next` is present iff `endIndex < total`; `prev` is present iff `startIndex > 0`. Each link carries `page ± 1` and `limit`. |
| AdvancedResults.RemoveReserved | middleware/advancedResults.js:3-9 | The copied query loses exactly the keys `select`, `sort`, `page` and `limit`; every other entry is kept in order. |
| AdvancedResults.FilterOut | middleware/advancedResults.js:9 | An entry survives iff it was in the query and its key is not removed. Distinct keys stay distinct. |
| AdvancedResults.DeleteFilterOut | middleware/advancedResults.js:9 | Deleting one more key is the same as filtering it out with the others, so the `forEach` of deletes equals a single filter. |
| AdvancedResults.FilterOutNothing | middleware/advancedResults.js:9 | A query with none of the reserved keys passes through unchanged. |
| AdvancedResults.FieldList | middleware/advancedResults.js:28-32 | An absent or falsy parameter gives no field list. A truthy non-string (array or object) is a TypeError, because it has no `split`. A string gives the same characters with every `,` replaced by a space. |
| AdvancedResults.Compile | middleware/advancedResults.js:12-40 | It fails iff `select` or `sort` is a truthy non-string. Otherwise the filter is the operator-rewritten serialisation of the query without its reserved keys. The projection is the `select` string with every `,` turned into a space, or none when `select` is falsy. The sort is the `sort` string with every `,` turned into a space, or `-createdAt` when `sort` is falsy. |
| AdvancedResults.Expand | middleware/advancedResults.js:52-54 | With `populate`, every fetched record is expanded, keeping count and order; without it the records pass through unchanged. |
| OperatorRewrite.StripRewrite | middleware/advancedResults.js:17-21 | The rewrite only inserts: removing each `$` that stands before an operator run gives back the original string. |
| OperatorRewrite.RewriteLength | middleware/advancedResults.js:17-21 | The rewritten string is longer by exactly the number of matched operator runs. |
| OperatorRewrite.MatchIsWholeOperatorRun | middleware/advancedResults.js:19 | A match is a whole maximal word-character run that equals one of `gt`, `gte`, `lt`, `lte`, `in`, at a word boundary. |
| OperatorRewrite.FirstOpIsWholeRun | middleware/advancedResults.js:19 | The ordered alternation with a trailing `\b` picks the operator that is the whole run (so `gte` is taken whole, never `gt` + `e`). |
| OperatorRewrite.RewriteNoMatch | middleware/advancedResults.js:17-21 | A string with no operator run is left unchanged. |
| OperatorRewrite.WordRunKept | middleware/advancedResults.js:17-21 | Where no operator match starts, the leading word run (`gtx`, `login`, …) is copied through unchanged. |
| OperatorRewrite.NoMatchAfterPlainChar | middleware/advancedResults.js:19 | The rewrite creates no new match: when no operator starts a string, none starts its rewrite either. |
| OperatorRewrite.ExampleOperator | middleware/advancedResults.js:17-21 | `lte` becomes `$lte`. |
| OperatorRewrite.ExampleLongerRun | middleware/advancedResults.js:17-21 | `gtx` is unchanged. |
| JsText.SplitJoinReplaces | middleware/advancedResults.js:30 | `split(",").join(" ")` equals replacing every `,` by a space. |
| JsText.ReplaceCharAt | middleware/advancedResults.js:30 | The replacement changes exactly the `,` positions and keeps every other character in place. |
| JsText.SplitJoinRoundTrip | middleware/advancedResults.js:30 | Splitting on a character and joining with the same character gives back the string. |
| JsText.Split | middleware/auth.js:15 | `split` gives one more piece than there are separators, and no piece contains the separator. |
| JsText.IndexOf | middleware/auth.js:15 | The position of the first occurrence of the character, or the length when there is none. |
| JsText.SplitAtFirst | middleware/auth.js:15 | The first piece of a split ends at the first separator, and the other pieces are the split of the text after it; without a separator the only piece is the whole string. |
| JsText.SplitSecond | middleware/auth.js:15 | A split has a second piece iff the separator occurs, and that piece lies between the first separator and the next one (or the end). |
| IntParsing.ParseIntOfIntString | middleware/advancedResults.js:43-44 | `parseInt` reads back the decimal text of any integer, even when non-digit text follows it. |
| IntParsing.ParseIntSkipsSpace | middleware/advancedResults.js:43-44 | Leading JavaScript white space does not change what `parseInt` reads. |
| IntParsing.ParseIntNaN | middleware/advancedResults.js:43-44 | NaN exactly when no digit follows the leading white space and at most one sign. |
| IntParsing.UndefinedIsNaN | middleware/advancedResults.js:43-44 | An absent parameter, read as the text `undefined`, is NaN. |
| IntParsing.IntOr | middleware/advancedResults.js:43-44 | `x \|\| d`: NaN and 0 give the default; any other parsed value is kept; a non-zero default never yields 0. |
| IntParsing.DigitRun | middleware/advancedResults.js:43-44 | The digits read form the longest all-digit prefix. |
| Paging.PageParam | middleware/advancedResults.js:43 | `page` is never 0 (the fallback to 1 is `IntParsing.IntOr`). |
| Paging.LimitParam | middleware/advancedResults.js:44 | `limit` is never 0 (the fallback to 25 is `IntParsing.IntOr`). |
| Paging.ParamsReadDecimal | middleware/advancedResults.js:43-44 | A parameter holding the decimal text of `n` gives `n`, or the default when `n` is 0; an absent one gives the default. Negative values pass through. |
| Paging.EndIsStartPlusLimit | middleware/advancedResults.js:46-47 | `endIndex = startIndex + limit`. |
| Paging.PrevIffLaterPage | middleware/advancedResults.js:46-74 | For `limit ≥ 1`, `startIndex > 0` (a `prev` link) iff `page > 1`. |
| Paging.Fetch | middleware/advancedResults.js:50-56 | `skip(startIndex).limit(limit)`. It fails iff the skip is negative. Otherwise it returns a prefix of the records after the skip: at most `\|limit\|` of them, none past the end, and exactly `limit` when that many remain. |
| Paging.FetchCount | middleware/advancedResults.js:50-56 | A successful fetch returns exactly `min(\|limit\|, remaining)` records, or all remaining ones when the limit is 0; with the prefix property this fixes the result. |
| Paging.FetchExamples | middleware/advancedResults.js:50-56 | Skip 2 and limit 25 over three records give the last one; limit -2 gives the first two; limit 0 gives all after the skip. |
| QueryString.Get | middleware/advancedResults.js:28-44 | A key is absent iff it is not among the query's keys; otherwise its value is the one stored under it. |
| QueryString.Delete | middleware/advancedResults.js:9 | `delete` keeps exactly the entries with other keys, and does nothing when the key is absent. |
| ErrorHandler.HandleError | middleware/error.js:3-32 | The response always has `success: false`. A ValidationError gives 400 with the entries' messages joined by `,` (the default when there are none). Otherwise, code 11000 gives 400 "Duplicate field value entered". Otherwise, a CastError gives 404 "Resource not found". Otherwise the status is the error's `statusCode` or 500, and the message is the error's message or "Server Errorz". |
| ErrorHandler.NewErrorResponse | middleware/error.js:14 | An `ErrorResponse` is an `Error` carrying the given message and status code. |
| AccessGate.BearerToken | middleware/auth.js:10-16 | A token exists iff there is a header, it starts with `Bearer`, and it holds a space. The token is the text between the first space and the next one (or the end), so `Bearer a b` yields `a`. |
| AccessGate.BearerTokenExamples | middleware/auth.js:10-16 | `Bearer tok` and `Bearerxyz tok` both yield `tok`; a header with no space, or no header, yields none. |
| AccessGate.Protect | middleware/auth.js:7-39 | It proceeds iff a non-empty token is found, verification succeeds and the lookup does not throw; `req.user` is then the lookup result, even when that is null. Every rejection is 401 "Not authorized to access this route". |
| AccessGate.Authorize | middleware/auth.js:42-54 | It passes iff the user's role is one of `roles`. Another role gives 403 "User role <role> is not authorized to access this route". A null user is a TypeError. |
| Users.ValidationErrors | models/User.js:6-38 | A user input is valid iff it has a name, an e-mail the pattern accepts, a role (when given) of `user` or `publisher`, and a password of at least 6 characters. |
| Users.NoValidAdmin | models/User.js:20-24 | No valid user has role `admin`, so `authorize("admin")` refuses every valid user with a 403. |
| Users.User.constructor | models/User.js:6-38 | A new user has the given fields, `role` defaulting to `user`, no reset token and `createdAt = now`. |
| Users.User.PreSave | models/User.js:41-48 | The password is replaced by its bcrypt hash with a cost-10 salt, whether or not it was modified (the guard falls through). |
| Users.IssuedTokenOpensGate | models/User.js:51-55 | A token issued to a user and sent back as `Bearer <token>` is the token `protect` reads, and a verifier accepting the signer's tokens decodes it to that user's id, so `protect` proceeds with `findById` of that id. |
| Users.SameIdSameToken | models/User.js:51-55 | For one signer, the same id gives the same token, whatever the users' other fields. |
| Users.User.GetResetPasswordToken | models/User.js:63-79 | The returned token is the base16 text of the 20 random bytes: 40 lower-case hex digits that decode back to those bytes. The stored token is the SHA-256 hex digest of it, and it expires at `now + 600000`. |
| Hex.DecodeEncode | models/User.js:65 | Base16 decoding inverts encoding. |
| Hex.Encode | models/User.js:65 | The encoding has two lower-case hex digits per byte. |
| Hex.EncodeInjective | models/User.js:65 | Different byte strings give different tokens. |
| AuthController.CheckCredentials | controllers/auth.js:32-58 | A falsy email or password gives 400 before any lookup. It logs in iff the e-mail is found and bcrypt's `compare` accepts the entered password against that record's stored hash. Every other failure is 401 "Invalid credentials". |
| AuthController.Login | controllers/auth.js:32-65 | The credential check's error, or the found user with a 200 token response whose cookie and body carry the token signed over that user's id. |
| AuthController.UnknownEmailLooksLikeWrongPassword | controllers/auth.js:43-55 | An unknown e-mail and a wrong password produce the identical 401 error. |
| AuthController.LoginAfterRegister | models/User.js:58-60 | For a user stored with `hash(p, genSalt(10))`, login succeeds iff `compare(entered, hash(p, genSalt(10)))`; for a `compare` that accepts a hash only for its own password, iff `entered == p`. |
| AuthController.RegisterIgnoresOtherFields | controllers/auth.js:9-17 | Only `name`, `email`, `password` and `role` of the body reach the new user. |
| AuthController.Register | controllers/auth.js:8-27 | Invalid input is the user ValidationError. Otherwise a user is created with the body's name, e-mail and role, `createdAt = now`, and the password hashed with a salt of cost 10. A 200 token response is sent, with the token signed over the new user's id. |
| AuthController.SendTokenResponse | controllers/auth.js:80-103 | The given status is used. The cookie `token` and the body `{success: true, token}` carry the same token. The cookie expires after `JWT_COOKIE_EXPIRE` days and is `httpOnly`. It is `secure` iff `NODE_ENV` is `production`. |
| Bootcamps.ValidationErrors | models/Bootcamp.js:5-111 | A bootcamp input is valid iff all of the following hold: the trimmed name is present and at most 50 characters; the description is present and at most 500; a given website or e-mail matches its pattern; a phone has at most 20 characters; the address is present; every career is one of the six; a rating is in [1, 10]; there is a user. |
| Bootcamps.NameErrors | models/Bootcamp.js:7-13 | The name check passes iff the trimmed name is non-empty and at most 50 characters. |
| Bootcamps.DescriptionErrors | models/Bootcamp.js:16-20 | The description check passes iff it is non-empty and at most 500 characters. |
| Bootcamps.ContactErrors | models/Bootcamp.js:21-42 | The website, phone, e-mail and address checks pass iff their conditions hold; an empty optional string skips its pattern. |
| Bootcamps.CareerErrors | models/Bootcamp.js:62-74 | The careers check passes iff every entry is in the enum. There is one message per element outside the enum, naming its path `careers.<i>`, in index order. |
| Bootcamps.BadCareers | models/Bootcamp.js:62-74 | Exactly the indices of the elements outside the enum, in increasing order. |
| Bootcamps.RatingErrors | models/Bootcamp.js:75-79 | The rating check passes iff the rating is absent or in [1, 10]. |
| Bootcamps.LongNameRefused | models/Bootcamp.js:11-12 | A name longer than 50 characters after trimming is refused with the name message first. |
| JsText.TrimIdempotent | models/Bootcamp.js:11 | Trimming twice is trimming once. |
| JsText.TrimSlice | models/Bootcamp.js:11 | The trimmed string is a contiguous slice of the original with no white space at either end. |
| Bootcamps.LocationOf | models/Bootcamp.js:131-142 | `location` is a `Point` with coordinates in [longitude, latitude] order, and its street and state come from the geocoder's street name and state code. |
| Bootcamps.Bootcamp.constructor | models/Bootcamp.js:5-111 | A new bootcamp has the trimmed name (at most 50 characters) and the given description, website, phone, e-mail, address, careers, average rating, average cost and user. `photo` defaults to `no-photo.jpg`; the four flags default to false; `createdAt = now`; there is no slug or location before the save hook. |
| Bootcamps.Bootcamp.PreSave | models/Bootcamp.js:120-147 | The slug is the slugified current name. With a geocoder result, `location` is built from the first result and the address is cleared. With none, a TypeError is raised and both are left alone. |
| Courses.CourseErrors | models/Course.js:3-39 | A course input is valid iff all of the following hold: the trimmed title, description and weeks are present; there is a tuition; the minimum skill is one of the three; there is a bootcamp. |
| Courses.NewCourse | models/Course.js:3-39 | A new course keeps the trimmed, non-empty title and the given description, weeks, tuition, skill (one of the enum) and bootcamp. `scholarshipAvailable` is false unless given as true. `createdAt = now`. |
| Courses.Matching | models/Course.js:47-59 | The `$match` stage keeps the courses of the given bootcamp and only those. |
| Courses.MatchingCounts | models/Course.js:47-59 | Each course of the bootcamp is kept exactly as often as it occurs; every other course is dropped. |
| Courses.MatchingAppend | models/Course.js:47-59 | The match of a concatenation is the concatenation of the matches, so collection order is kept. |
| Courses.CeilTo10 | models/Course.js:63 | The stored cost is a multiple of 10, at least the average and less than the average plus 10. |
| Courses.CeilTo10Least | models/Course.js:63 | It is the least multiple of 10 that is at least the average. |
| Courses.TuitionSumBounded | models/Course.js:55 | Tuitions within [lo, hi] sum to between `n·lo` and `n·hi`. |
| Courses.AverageBetween | models/Course.js:55 | The average lies between the cheapest and the dearest tuition of the group. |
| Courses.AppendJoinsGroup | models/Course.js:47-51 | A saved course joins the end of its bootcamp's group. |
| Courses.OtherCourses | models/Bootcamp.js:154 | `deleteMany({bootcamp: id})` keeps the courses of other bootcamps and only those. |
| Courses.OtherCoursesCounts | models/Bootcamp.js:154 | Each course of another bootcamp is kept exactly as often as it occurs; the deleted bootcamp's courses are dropped. |
| Courses.OtherCoursesAppend | models/Bootcamp.js:154 | The survivors of a concatenation are the concatenation of the survivors, so collection order is kept. |
| Courses.CascadeLeavesNoMatch | models/Bootcamp.js:150-157 | After the cascade no course of the deleted bootcamp remains. |
| Courses.CascadeKeepsOtherGroups | models/Bootcamp.js:150-157 | The cascade leaves every other bootcamp's courses, in order. |
| Courses.WithoutCourse | models/Course.js:76-78 | Deleting a course keeps the other courses and only those. |
| Courses.WithoutCourseCounts | models/Course.js:76-78 | Each course with another id is kept exactly as often as it occurs; the deleted id is gone. |
| Courses.WithoutCourseAppend | models/Course.js:76-78 | Deletion from a concatenation is the concatenation of the deletions, so collection order is kept. |
| Courses.Directory.GetAverageCost | models/Course.js:45-68 | An empty group raises a TypeError, which is logged, and the bootcamp is left unchanged. Otherwise the bootcamp's `averageCost` is the group average rounded up to a multiple of 10. No other bootcamp changes. |
| Courses.Directory.SaveCourse | models/Course.js:3-73 | Invalid input is the course ValidationError and stores nothing. Otherwise the course is appended and its bootcamp's average recomputed with it included. |
| Courses.Directory.Insert | models/Course.js:71-73 | A checked course is appended and the post-save hook recomputes its bootcamp's average with it included; no other bootcamp changes. |
| Courses.Directory.DeleteCourse | models/Course.js:76-78 | The average is recomputed while the course is still stored, so its tuition still counts. Then the course is removed. |
| Courses.Directory.DeleteBootcamp | models/Bootcamp.js:150-157 | Every course of the bootcamp is deleted and the others are kept in order; then the bootcamp is removed. |

## Left out

- I/O: every `console.log`/`console.error` (including the raw reset token), the HTTP response writing, and `next()` chaining, which is modelled as returning a result or an error; async/await is treated as sequential.
- Foreign primitives: bcrypt, JWT sign/verify, `crypto.randomBytes`, SHA-256, slugify, the geocoder, and the store's `find`/`populate`/`countDocuments` are parameters with no assumed properties. MongoDB's own query evaluation of the filter is not modelled.
- `JSON.parse` of the rewritten filter is left abstract: the filter is the rewritten string. The `JSON.stringify` model covers strings, arrays and nested objects as `qs` produces them.
- V8 orders integer-like object keys first; the model keeps the query's insertion order.
- Strings are sequences of characters: JavaScript's UTF-16 code-unit lengths (for `maxlength`) are not distinguished from code points.
- `$avg` and tuitions are exact (integer tuitions, real average). Floating-point rounding and millisecond `Date` values are not modelled.
- IntParsing.ParseInt: values beyond 2^53 lose no precision in the model, unlike JavaScript numbers.
- Paging.Fetch: follows MongoDB's documented `skip`/`limit` semantics (a negative skip is an error, a negative limit acts as its absolute value, 0 means no limit) rather than a particular driver version.
- Uniqueness (`unique: true` on user e-mail and bootcamp name) is a database index whose violation surfaces as error code 11000; the model does not keep the index.
- Mongoose reports all failing paths of a document; the model lists the messages in schema order, with one message per `careers` element outside the enum, under its own path `careers.<i>`.
- Bootcamps.ValidationErrors: `careers` is `required`, but an array path defaults to `[]`, so the model has no absent `careers` and no required check for it.
- AuthController.CheckCredentials: a JSON body can carry numbers, booleans, `null` or objects; the body is modelled as strings only, so `0`, `false` and `null` (falsy, 400) and an object such as `{"$gt": ""}` (truthy, passed on to `findOne` as a query operator) are not modelled.
- AuthController.Register: body fields are strings only, for the same reason; non-string values and Mongoose's casting of them are not modelled.
- `password` being excluded from default selection (`select: false`) is a query projection and is not modelled.
- The bootcamp controllers delete with `findByIdAndDelete`, which does not run the `deleteOne` document hook; `Courses.Directory.DeleteBootcamp` models the hook as it fires on a document's `deleteOne`. Query-form `deleteOne` on bootcamps is not modelled.
- Courses.Directory.DeleteCourse: Mongoose registers `pre("deleteOne")` as query middleware by default; the model follows the document reading, in which the hook recomputes the average before the course is removed.
- The save/delete hooks call `getAverageCost` without awaiting it; the model runs it to completion in order.
- `getMe` in controllers/auth.js, the CRUD controllers, routers, `server.js`, `config/db.js`, `seeder.js`, `middleware/logger.js` and `utils/sendEmail.js` are not part of this model.
- The e-mail and URL regular expressions are predicate parameters.
- `JWT_COOKIE_EXPIRE` is taken as an integer number of days, not an environment string coerced by `*`.
