# DevCamper API: listing middleware, route guards and schemas in Dafny

This project models the core of the DevCamper API (an Express and Mongoose
service for coding bootcamps and their courses) and proves properties of
that model.

- **Advanced results** (`src/middleware/advancedResults.js`) turns
  `req.query` into a database query and a response envelope. It copies the
  query and deletes the four reserved keys `select`, `sort`, `page` and
  `limit`. It writes the rest as JSON and puts a `$` before every whole word
  `gt`, `gte`, `lt`, `lte` or `in`. It turns the commas of `select` and
  `sort` into spaces, with `-createdAt` as the default sort. It reads `page`
  and `limit` with `parseInt(…, 10) || default`, skips `(page - 1) * limit`
  documents, and builds `next`/`prev` links against the document count of
  the whole collection.
- **Route guards** (`src/middleware/auth.js`). `protect` takes the second
  space-separated field of an `Authorization` header that starts with
  `Bearer`, has it verified, and stores the user it names in `req.user`.
  `authorize(...roles)` lets through a user whose role is listed.
- **Schemas** (`src/models/Bootcamp.js`, `src/models/Course.js`). For
  each schema the model gives what Mongoose stores (trimmed paths,
  defaults), which documents it accepts, and the message each rejected path
  reports.

Modules, one per file:

- `Wrappers`: `Option`, `Result`.
- `SeqFacts`: small sequence lemmas.
- `JsText`: the JavaScript string built-ins used: white space, `trim`, `split`/`join`, `parseInt`, UTF-16 `length`.
- `QueryValue`: parsed query values, `String(v)` and `JSON.stringify`.
- `Operators`: the operator rewrite.
- `Http`: the request, errors, and how a middleware call ends.
- `AdvancedResults`, `Auth`, `Mongoose` (the validator semantics the schemas use), `BootcampSchema`, `CourseSchema`.

The advanced-results middleware and `protect` are methods that update the
request and response objects. Each method is proved against a function of
its inputs (`AdvancedResults.Respond`, `Auth.Protect`). The lemmas state the
properties of those functions.

Three facts about the code shape the model:

- The Bootcamp schema has only the paths `name`, `slug`, `description`,
  `website`, `phone`, `email` and `address`.
- The error handler answers every error the same way, so the model gives
  each error's message and status and nothing more.
- The pagination links count the whole collection, not the matching
  documents. `AdvancedResults.NextIgnoresFilter` shows the effect.

## Model

| member | source | states |
|---|---|---|
| JsText.Trim | src/models/Bootcamp.js:10 | the result is the part of the input left after removing white space at both ends; it neither starts nor ends with white space |
| JsText.TrimIdempotent | src/models/Bootcamp.js:10 | trimming twice is trimming once |
| JsText.TrimBlank | src/models/Bootcamp.js:8-10 | a text of white space only trims to the empty string |
| JsText.Utf16Length | src/models/Bootcamp.js:11-12 | a string's `length` lies between its number of code points and twice that |
| JsText.Utf16LengthBmp | src/models/Bootcamp.js:11-12 | without code points above U+FFFF, `length` is the number of characters |
| JsText.JoinSplitReplace | src/middleware/advancedResults.js:24-30 | `split(c).join(d)` replaces every `c` by `d` and changes nothing else |
| JsText.JoinSplit | src/middleware/advancedResults.js:24 | splitting and joining with the same separator gives the text back |
| JsText.SplitAfterField | src/middleware/auth.js:16 | a field without separators followed by a separator comes out as the first field |
| JsText.SplitLastField | src/middleware/auth.js:16 | a text without separators splits into itself alone |
| JsText.DecimalValue | src/middleware/advancedResults.js:38-39 | the decimal numeral of `n` has the value `n` |
| JsText.ParseIntDecimal | src/middleware/advancedResults.js:38-39 | `parseInt` of a numeral gives its value |
| JsText.ParseIntNegativeDecimal | src/middleware/advancedResults.js:38-39 | `parseInt` of a minus sign and a numeral gives the negated value |
| QueryValue.LookupFirst | src/middleware/advancedResults.js:23-39 | a key reads as the value of its first entry, and as undefined exactly when no entry has it |
| QueryValue.EscapeChar | src/middleware/advancedResults.js:14 | JSON escaping keeps ordinary characters and starts every escape with a backslash |
| QueryValue.Stringify | src/middleware/advancedResults.js:14 | a JSON text has at least its two delimiters |
| Operators.WordLen | src/middleware/advancedResults.js:17 | the leading word ends at the first non-word character or at the end of the text |
| Operators.RewriteConcat | src/middleware/advancedResults.js:17 | the rewrite distributes over a concatenation that does not join two words |
| Operators.RewriteHeadNotOperator | src/middleware/advancedResults.js:17 | a rewritten text never starts with a bare operator word |
| Operators.UnrewriteRewrite | src/middleware/advancedResults.js:17 | removing the `$` before each operator word of a rewritten text gives the original text back |
| Operators.RewriteOnlyInsertsDollars | src/middleware/advancedResults.js:17 | the rewrite adds `$` characters and nothing else |
| Operators.RewriteGte | src/middleware/advancedResults.js:17 | `gte` is rewritten whole to `$gte` |
| Operators.RewritePlainWord | src/middleware/advancedResults.js:17 | a whole word that is not an operator is left alone |
| Operators.RewriteLongerWord | src/middleware/advancedResults.js:17 | a word that contains an operator (`ingredient`) is left alone |
| Operators.RewriteOperatorPrefixedWord | src/middleware/advancedResults.js:17 | a word that starts with an operator (`gtx`) is left alone |
| Operators.RewriteNotIdempotent | src/middleware/advancedResults.js:17 | an existing `$gt` becomes `$$gt`, so rewriting twice differs from rewriting once |
| Operators.EscapeRewrite | src/middleware/advancedResults.js:14-17 | without control characters, escaping and rewriting commute |
| Operators.QuoteRewrite | src/middleware/advancedResults.js:14-17 | without control characters, rewriting a quoted JSON string rewrites its content |
| Operators.StringifyDelimited | src/middleware/advancedResults.js:14 | a JSON text is non-empty and starts and ends with punctuation |
| Operators.StringifyRewrite | src/middleware/advancedResults.js:14-17 | without control characters, rewriting the JSON text equals the JSON of the value with every key and string rewritten |
| Operators.ItemsRewrite | src/middleware/advancedResults.js:14-17 | the same for the items of an array |
| Operators.MembersRewrite | src/middleware/advancedResults.js:14-17 | the same for the members of an object |
| Operators.EscapedNewlineHidesOperator | src/middleware/advancedResults.js:14-17 | after an escaped newline an operator word joins the `n` of `\n` and is not rewritten in the text, though it is in the value |
| AdvancedResults.WithoutMembers | src/middleware/advancedResults.js:5-11 | an entry is kept exactly when it was in the query and its key is not removed |
| AdvancedResults.WithoutNothing | src/middleware/advancedResults.js:5 | removing no keys leaves the copy equal to the query |
| AdvancedResults.WithoutWithout | src/middleware/advancedResults.js:11 | removing keys one after the other is removing them all at once |
| AdvancedResults.WithoutConcat | src/middleware/advancedResults.js:11 | removal works entry by entry |
| AdvancedResults.WithoutLookup | src/middleware/advancedResults.js:5-11 | a removed key reads as undefined; every other key keeps its value |
| AdvancedResults.StripReserved | src/middleware/advancedResults.js:5-11 | the copy after the delete loop is the query without exactly the four reserved keys |
| AdvancedResults.CommaToSpace | src/middleware/advancedResults.js:24-30 | same length, every comma a space, every other character kept |
| AdvancedResults.IntParamAbsent | src/middleware/advancedResults.js:38-39 | an absent page or limit gives the default |
| AdvancedResults.IntParamZero | src/middleware/advancedResults.js:38-39 | `0` gives the default |
| AdvancedResults.IntParamText | src/middleware/advancedResults.js:38-39 | a text that does not start like a number gives the default |
| AdvancedResults.IntParamNumeral | src/middleware/advancedResults.js:38-39 | a positive numeral gives its value |
| AdvancedResults.IntParamNonZero | src/middleware/advancedResults.js:38-39 | page and limit are never zero |
| AdvancedResults.WindowOf | src/middleware/advancedResults.js:38-41 | the page and limit read from a query are never zero |
| AdvancedResults.PagesAdjoin | src/middleware/advancedResults.js:40-41 | a page spans `limit` positions and ends where the next page starts |
| AdvancedResults.PrevIffNotFirst | src/middleware/advancedResults.js:66-71 | for page and limit at least 1, a previous link exists exactly when the page is not the first |
| AdvancedResults.Run | src/middleware/advancedResults.js:44-52 | a negative skip is refused; the results are the found documents from the skip position on: all that remain for limit 0, otherwise `abs(limit)` of them, or all that remain when fewer are left |
| AdvancedResults.RunShortLastPage | src/middleware/advancedResults.js:44-52 | a short last page holds every document left after the skip |
| AdvancedResults.NextIffMoreDocuments | src/middleware/advancedResults.js:58-63 | a next link exists exactly when the following page of the whole collection is not empty |
| AdvancedResults.NextThenPrev | src/middleware/advancedResults.js:58-71 | the page a next link points to links back to this page |
| AdvancedResults.PrevThenNext | src/middleware/advancedResults.js:58-71 | the page a previous link points to links forward to this page |
| AdvancedResults.LinkReproducesWindow | src/middleware/advancedResults.js:38-71 | a link's page and limit, put back into a query, select that page again |
| AdvancedResults.SelectRejected | src/middleware/advancedResults.js:23-26 | a `select` that is an array or object throws `req.query.select.split is not a function` |
| AdvancedResults.SortRejected | src/middleware/advancedResults.js:29-35 | a `sort` that is an array or object throws `req.query.sort.split is not a function` |
| AdvancedResults.Paginate | src/middleware/advancedResults.js:55-71 | the pagination object built link by link is the link rule applied to page, limit and total |
| AdvancedResults.AdvancedResults | src/middleware/advancedResults.js:1-81 | the middleware stores the envelope and calls `next()` exactly when the specification gives one; otherwise its promise rejects with the error and `res` is unchanged; the query sent to the database is the one built |
| AdvancedResults.EnvelopeShape | src/middleware/advancedResults.js:73-78 | a stored envelope has success true, a count equal to its data, links against the total, and as data the found documents from the skip position on: `abs(limit)` of them, or all that remain on a short last page |
| AdvancedResults.RejectedIff | src/middleware/advancedResults.js:1-52 | within the model, whose database refuses only a negative skip: the middleware fails exactly when select or sort is an array or object, or the skip is negative |
| AdvancedResults.OrdinaryPageAccepted | src/middleware/advancedResults.js:38-52 | with page and limit at least 1 and select and sort accepted, an envelope is produced with at most `limit` documents |
| AdvancedResults.FilterIsRewrittenQuery | src/middleware/advancedResults.js:5-20 | without control characters, the filter is the JSON of the stripped query with every key and string rewritten |
| AdvancedResults.BracketOperatorFilter | src/middleware/advancedResults.js:5-44 | `field[op]=value` filters on `{field: {$op: value}}`; the query asks for the first ten documents, newest first |
| AdvancedResults.SecondPageOfFive | src/middleware/advancedResults.js:38-71 | `page=2&limit=5` links back to page 1 and forward exactly when the total exceeds 10 |
| AdvancedResults.NextIgnoresFilter | src/middleware/advancedResults.js:42-63 | with no matches but 11 documents in the collection, the envelope is empty and still links to page 2 |
| AdvancedResults.SortDefault | src/middleware/advancedResults.js:29-35 | a missing or empty sort gives `-createdAt` |
| Auth.HeaderTokenOf | src/middleware/auth.js:12-17 | `Bearer`, space-free text, a space, a space-free token, then nothing or a space: the token is extracted (so `BearerX tok` yields `tok`) |
| Auth.HeaderTokenShape | src/middleware/auth.js:12-17 | conversely, every extracted token comes from a header of that shape |
| Auth.HeaderTokenNoField | src/middleware/auth.js:14-17 | `Bearer` followed by space-free text yields no token |
| Auth.HeaderTokenNotBearer | src/middleware/auth.js:12-17 | a missing header or one not starting with `Bearer` yields no token |
| Auth.Protect | src/middleware/auth.js:8-36 | the guard either admits or passes the 401 `Unauthorized!` error; when it refuses, `req.user` is unchanged; when it admits, `req.user` is set |
| Auth.ProtectAdmitsAs | src/middleware/auth.js:12-32 | on every admitted request the header yields a non-empty token that verifies, and `req.user` is the user with its id, or `null` when there is none |
| Auth.ProtectMiddleware | src/middleware/auth.js:8-36 | the method's new `req.user` and ending are those `Auth.Protect` gives; query and header are unchanged |
| Auth.ProtectAdmitsIff | src/middleware/auth.js:19-35 | admitted exactly when a non-empty token is extracted, verifies, and the lookup does not fail |
| Auth.ProtectLogsIn | src/middleware/auth.js:12-32 | a well-formed bearer header with a verified token whose user exists logs that user in |
| Auth.ProtectNullUser | src/middleware/auth.js:20-32 | a well-formed bearer header with a verified token whose id belongs to no user admits the request with `req.user` set to `null` |
| Auth.ProtectRefusesWithoutToken | src/middleware/auth.js:12-22 | no header, `Bearer` without a second field, and an empty second field (`Bearer  x`) are refused with 401 |
| Auth.ProtectRefusesOtherSchemes | src/middleware/auth.js:12-22 | a header not starting with `Bearer` is refused with 401 |
| Auth.AuthorizeIff | src/middleware/auth.js:39-49 | a logged-in user passes exactly when the role is listed, and is otherwise refused with status 403 and the message `User role <role> is unauthorized !` |
| Auth.AuthorizeNoRoles | src/middleware/auth.js:42 | with no roles listed nobody passes |
| Auth.AuthorizeNeedsUser | src/middleware/auth.js:42-44 | without a user, reading the role throws a TypeError that is passed on |
| Auth.AuthorizeRoleSet | src/middleware/auth.js:42 | only the set of listed roles matters, not their order or repetition |
| Auth.ProtectThenAuthorize | src/middleware/auth.js:8-49 | after `protect` admits, `authorize` passes exactly when a user was found and has a listed role |
| Mongoose.FirstFailureNone | src/models/Bootcamp.js:6-13 | a path reports no error exactly when all its validators pass |
| Mongoose.FirstFailureSome | src/models/Bootcamp.js:6-13 | a path's error is the message of a failing validator all of whose predecessors pass |
| Mongoose.RequiredFirst | src/models/Bootcamp.js:8-12 | a missing or empty required path reports the required message, whatever the other validators say |
| Mongoose.UndefinedSkipsValidators | src/models/Bootcamp.js:28-32 | an undefined path that is not required reports nothing |
| Mongoose.Present | src/models/Course.js:20-37 | a required path of another type fails exactly when undefined, with the required message |
| Mongoose.CollectEmpty | src/models/Bootcamp.js:5-44 | a document has no errors exactly when no path has one |
| Mongoose.CollectMembers | src/models/Bootcamp.js:5-44 | the reported errors are exactly the paths' errors, each with its message |
| BootcampSchema.Normalise | src/models/Bootcamp.js:10 | a given name is stored trimmed; nothing else changes |
| BootcampSchema.NormaliseIdempotent | src/models/Bootcamp.js:10 | storing a stored bootcamp again changes nothing |
| BootcampSchema.NameError | src/models/Bootcamp.js:6-13 | the name reports missing, too short (under 5) or too long (over 50), in that order, and nothing within 5 to 50 |
| BootcampSchema.BlankNameMissing | src/models/Bootcamp.js:8-10 | a name of white space only is reported as missing |
| BootcampSchema.DescriptionError | src/models/Bootcamp.js:15-20 | the description reports missing, under 5 or over 500 characters, and nothing within |
| BootcampSchema.DescriptionNotTrimmed | src/models/Bootcamp.js:15-20 | five spaces are an acceptable description |
| BootcampSchema.PhoneError | src/models/Bootcamp.js:28-32 | an absent phone is fine; a given one must be 8 to 20 characters, and an empty one is too short |
| BootcampSchema.AddressPatternErrors | src/models/Bootcamp.js:21-39 | web and e-mail addresses are checked against their patterns only when given and non-empty |
| BootcampSchema.AddressError | src/models/Bootcamp.js:40-43 | the address reports missing exactly when undefined or empty |
| BootcampSchema.AddressRequired | src/models/Bootcamp.js:40-43 | a missing address is among the reported errors with its message |
| BootcampSchema.NoOutcomeFails | src/models/Bootcamp.js:5-44 | a bootcamp has no errors exactly when each of its six validated paths has none |
| BootcampSchema.ValidIff | src/models/Bootcamp.js:5-44 | Mongoose reports no error exactly for the bootcamps the independent validity predicate accepts |
| BootcampSchema.SlugUnchecked | src/models/Bootcamp.js:14 | the slug plays no part in validation |
| CourseSchema.Normalise | src/models/Course.js:7-32 | a given title is stored trimmed, the scholarship flag defaults to false and an explicit one is kept; nothing else changes |
| CourseSchema.NormaliseIdempotent | src/models/Course.js:7-32 | storing a stored course again changes nothing |
| CourseSchema.RequiredTextError | src/models/Course.js:7-19 | title, description and weeks report their messages exactly when missing or empty |
| CourseSchema.MinimumSkillError | src/models/Course.js:24-28 | the skill level reports missing first, then the enum message naming a value outside the three levels |
| CourseSchema.SkillCaseSensitive | src/models/Course.js:24-28 | `Beginner` is refused with the enum message naming it |
| CourseSchema.NoOutcomeFails | src/models/Course.js:5-42 | a course has no errors exactly when each validated path has none |
| CourseSchema.ValidIff | src/models/Course.js:5-42 | Mongoose reports no error exactly for the courses the independent validity predicate accepts |
| CourseSchema.FlagUnchecked | src/models/Course.js:29-32 | the scholarship flag plays no part in validation |
| CourseSchema.BootcampRequired | src/models/Course.js:33-37 | a course without a bootcamp reports Mongoose's default required message for `bootcamp` |

## Left out

- I/O and the database: `model.find`, `countDocuments`, `populate` and running the query are not modelled. `total` and `found` are parameters. `found` is taken to be the matching documents, already sorted and projected, before skip and limit. The skip and limit rules of `AdvancedResults.Run` follow MongoDB: a negative skip is refused, a limit of 0 means no limit, and a negative limit counts like its absolute value. Other database failures are not modelled: a filter value Mongoose cannot cast to the path's type (`tuition[lte]=abc` on courses), or a failing `countDocuments` or `find`, would also reject the promise.
- `JSON.parse` of the rewritten filter text (src/middleware/advancedResults.js:20) is not modelled. The query keeps the text.
- Operators.StringifyRewrite: holds only for queries without control characters. JSON escapes such as `\n` put a word character before the next word (see `Operators.EscapedNewlineHidesOperator`).
- JsText.ParseInt10: integers are unbounded. JavaScript numbers are doubles, so numerals above 2^53 lose precision and `(page - 1) * limit` can round; neither is modelled.
- Express's query-string parser is not modelled. Queries are given as parsed values: strings, arrays and objects, in property order.
- Auth.Protect: `jwt.verify` and `User.findById` are parameters. The token's payload is assumed to carry an id. A `next()` that throws inside the `try` block, which would be caught as a 401, is not modelled.
- src/middleware/async.js, which wraps `protect`, is not part of this model. Nothing in `protect` throws outside its `try` block, so the wrapper does not change what is modelled.
- Mongoose casting (strings to numbers, booleans or ObjectIds), `null` values, the ValidationError object and its combined message, and the `timestamps` option are not modelled.
- The `unique` index on the bootcamp name is enforced by the database, not by validation, and is not modelled.
- The website and e-mail regular expressions are not modelled. They come in as predicates, so the `gm` flags on the website pattern are not modelled either.
- Course tuition is a real number rather than a double.
- src/models/Bootcamp.js declares its schema but registers no model. The schema is modelled as declared.
- Not modelled: src/middleware/errors.js, the controllers, the routes, server and database setup, the seeders and the geocoder. src/models/User.js is also left out: line 38 builds its model from `bootcampSchema`, a name the file never declares, so loading it throws a ReferenceError and its own rules never apply. That is why user lookup (`findById`) is a parameter of `Auth.Protect`.
