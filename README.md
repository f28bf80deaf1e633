# portfolio-api in Dafny

A model of the request-handling core of the portfolio-api service: a Gin REST API
for a developer portfolio (projects, skills, users, contact messages, visit
statistics), plus two serverless entry points (one in Go, one in Node.js) that answer
four fixed endpoints with literal data.

The model covers:

- **The in-memory handlers** (handlers/handlers.go, handlers/users.go). The
  package-level `projects`, `skills`, `contacts` and `visits` slices are the fields of
  the class `PortfolioHandlers.Portfolio`, and the `users` slice is the field of
  `UserStore.UserDirectory`. Each handler is a method whose postcondition states:
  - the HTTP status;
  - the reply body;
  - the new contents of the slice.

  The listing filters, the integer parse of `:id`, the linear search, the
  append-on-create, the field-by-field partial update, the splice-on-delete and the
  counting loop of the project statistics are proved against specification functions
  in `Collections`. Those functions have their own lemmas: a filter composition,
  membership, the first match, tally sums and id freshness.
- **The database-backed user handlers** (handlers/user_handlers.go).
  `UserQueries` builds the SQL text and the argument list each handler sends. The
  dynamic `UPDATE … SET updated_at = NOW(), col = $k …` statement is one of them.
  The proofs show:
  - its `$n` placeholders are numbered `1..n` without gaps;
  - `n` is the number of arguments, and the id is the last argument;
  - every present field's value is bound;
  - the text depends only on which fields are present.

  What the database answers is a parameter. The model maps each outcome to the
  handler's status.
- **The serverless entry points** (api/index.go, api/index.js): `GoRouter` and
  `NodeRouter`, over the shared endpoint table in `ServerlessRoutes`. Properties
  proved:
  - CORS headers come first on every response;
  - OPTIONS short-circuits;
  - a path is matched exactly;
  - other paths get a 404 that echoes the path;
  - list bodies are well counted.

  The Go router matches the parsed path. The Node router matches the raw url, so a
  known path followed by `?` is a 404 there. The Go not-found handler sets its JSON
  content type after writing the status, so that setting has no effect.
- **The request validation rules** (models/*.go): the `binding:"required"` and
  `email` tags as predicates in `Models`. The e-mail validator is the parameter
  `isEmail`.

Conventions:
- A request body that does not decode is `None`.
- A clock reading is an `int` (`Models.Time`) passed in as `now`.
- `strconv.Atoi` is `Numbers.Atoi` (an optional sign, then at least one digit, within
  Go's 64-bit `int`).
- A Go map is ranged over by `Collections.EnumerateKeys`, which fixes no order.

## Model

| member | source | states |
|---|---|---|
| Numbers.Itoa | handlers/user_handlers.go:203 | the rendering is non-empty, all decimal digits, reads back as the number, and has a leading zero only for 0 |
| Numbers.Atoi | handlers/handlers.go:125 | the parse succeeds iff the text is an optional sign followed by one or more digits and its signed value fits Go's 64-bit `int`; the result is then that signed value |
| Numbers.AtoiItoa | handlers/user_handlers.go:203 | every non-negative `int` rendered by `Itoa` parses back to itself |
| Numbers.AtoiNegativeItoa | handlers/handlers.go:125 | a minus sign before a rendered magnitude parses to the negative number, down to the smallest `int` |
| Numbers.AtoiPlusSign | handlers/handlers.go:125 | a leading plus sign parses to the same value as the bare digits |
| Numbers.AtoiRejectsNonDigit | handlers/handlers.go:126-129 | a non-digit after the first character makes the parse fail, which the by-id handlers answer with 400 |
| Collections.Filter | handlers/handlers.go:97-105 | a filter never lengthens the list |
| Collections.FilterMembership | handlers/handlers.go:97-105 | an element is in the filtered list exactly when it was in the list and passes the condition |
| Collections.FilterAccepts | handlers/handlers.go:97-105 | every listed element passes the condition |
| Collections.FilterExtensional | handlers/handlers.go:97-115 | two conditions that agree on every element select the same list |
| Collections.FilterComposes | handlers/handlers.go:97-115 | filtering the status-filtered list by `featured` equals one filter by the conjunction, in stored order |
| Collections.FilterKeepsAll | handlers/handlers.go:95 | a condition every element passes returns the list unchanged, as an empty query does |
| Collections.Select | handlers/handlers.go:98-104 | the filtering loop returns exactly `Filter` of the list |
| Collections.IndexOf | handlers/handlers.go:131-136 | `Some(i)` is the first position carrying the id; `None` exactly when no record carries it |
| Collections.Find | handlers/handlers.go:131-136 | the linear search loop returns `IndexOf` |
| Collections.Lookup | handlers/handlers.go:123-139 | 400 with the invalid-id message iff the parse fails; 404 with the not-found message iff the id parses and no record has it; otherwise 200 with the first record carrying it; whenever a parsed id is found, the reply is exactly 200 with that first match |
| Collections.RemoveAt | handlers/handlers.go:234 | the splice is one shorter, keeps the order of the rest, and removes exactly the one record (multiset) |
| Collections.DeleteRemovesId | handlers/handlers.go:232-237 | with unique ids, after the splice no record carries the deleted id |
| Collections.RemoveKeepsUniqueIds | handlers/handlers.go:234 | the splice keeps ids unique |
| Collections.ReplaceKeepsUniqueIds | handlers/handlers.go:182-214 | overwriting a record with one of the same id keeps ids unique |
| Collections.MaxId | handlers/handlers.go:149 | non-negative and at least every id in the list |
| Collections.FreshId | handlers/handlers.go:149 | positive and carried by no record in the list |
| Collections.AppendFresh | handlers/handlers.go:164 | appending under a fresh id keeps ids unique, and the new record is the one found by its id |
| Collections.DenseIdsFreshIsLengthPlusOne | handlers/handlers.go:149 | while the ids are exactly 1..n, the fresh id is `n + 1`, the id the code assigns |
| Collections.ConsecutiveMaxId | handlers/handlers.go:38-67 | the largest of consecutive ids `base..base+n-1` is the last one |
| Collections.CountOverAppend | handlers/handlers.go:385 | one more element adds one to the listed keys' total exactly when its key is listed |
| Collections.CountOverCovers | handlers/handlers.go:377-390 | per-key counts over distinct keys that cover the list add up to its length |
| Collections.CountOverEmpty | handlers/handlers.go:377 | nothing counted gives total 0 |
| Collections.Increment | handlers/handlers.go:385 | `m[k]++` adds `k` to the keys and no other key |
| Collections.IncrementCounts | handlers/handlers.go:385 | incrementing `x` keeps the map the exact tally of the list extended by `x` |
| Collections.IncrementAll | handlers/handlers.go:387-389 | the inner tech loop turns the tally of the techs seen into the tally of those plus this stack |
| Collections.IncrementCountsStep | handlers/handlers.go:388 | one step of the inner loop keeps the tally exact |
| Collections.TallySumsToLength | handlers/handlers.go:392-408 | the counts of a tally add up to the number of elements tallied |
| Collections.SumCountsIsCountOver | handlers/handlers.go:392-408 | the sum of the entries' counts is the total over their keys |
| Collections.EnumerateKeys | handlers/handlers.go:393 | ranging over a map yields every key exactly once, in no fixed order |
| Models.CreateProjectRequiredFields | models/project.go:24-27 | an empty title, description or status each invalidates a create request |
| Models.CreateProjectOptionalFields | models/project.go:26-33 | tech stack, featured, URLs, start and end date never decide validity |
| Models.CreateUserRule | models/user.go:22-29 | name and role required, e-mail must pass the address check, the optional fields never decide validity |
| Models.ContactFormRule | models/contact.go:19-22 | every field required, and the e-mail must pass the address check |
| Models.AddSkillRule | models/contact.go:40-47 | name, category and level required; the other fields never decide validity |
| Models.VisitRule | models/stats.go:59-62 | only the page is required |
| PortfolioHandlers.ProjectListingIsConjunction | handlers/handlers.go:95-115 | the listing is exactly the projects matching both query conditions in stored order; an empty status or a `featured` other than "true" restricts nothing |
| PortfolioHandlers.AppendProjectEffect | handlers/handlers.go:148-165 | create grows the slice by one at the end, keeps every earlier record, copies the request's fields, stamps both times with the clock and uses an id no record carries |
| PortfolioHandlers.CreateThenGet | handlers/handlers.go:149 | with the `len + 1` rule, get-by-id finds the new record iff no stored record already has id `len + 1` |
| PortfolioHandlers.LengthIdReusedAfterDelete | handlers/handlers.go:149 | delete id 1 from [1, 2], then create: the new record gets id 2 again, ids stop being unique, and lookup of 2 returns the old record |
| Collections.LengthIdClashAfterDelete | handlers/handlers.go:149 | on any resource, delete id 1 from [1, 2] and append under `len + 1`: the new id is 2 again, ids are no longer unique, and the first record with id 2 is the older one |
| PortfolioHandlers.FreshCreateThenGet | handlers/handlers.go:149 | with the corrected rule ids stay unique and get-by-id of the new id returns the new record; on a history without deletes it assigns the id the code assigns |
| PortfolioHandlers.ProjectUpdateFields | handlers/handlers.go:184-214 | each field takes the request's value if it is present and changes only then; id and creation time are kept; the modification time is the clock's |
| PortfolioHandlers.EndDateNeverCleared | handlers/handlers.go:211-213 | a stored end date stays set whatever the request |
| PortfolioHandlers.ProjectUpdateIdempotent | handlers/handlers.go:184-214 | applying the same update twice at one instant equals applying it once |
| PortfolioHandlers.EmptyProjectUpdate | handlers/handlers.go:214 | an empty body changes only the modification time |
| PortfolioHandlers.SkillIdReusedAfterDelete | handlers/handlers.go:284 | remove skill 1 from [1, 2], then add: the new skill gets id 2 again, and a DELETE of id 2 removes the older skill and keeps the new one |
| PortfolioHandlers.FreshAddSkill | handlers/handlers.go:284 | with the corrected rule skill ids stay unique and the new id finds the new skill; without deletes it is the id the code assigns |
| PortfolioHandlers.SkillListingIsConjunction | handlers/handlers.go:248-268 | the skill listing is exactly the skills matching both query conditions, in stored order |
| PortfolioHandlers.NewContact | handlers/handlers.go:326-334 | a stored message starts "unread", a documented status, with no read time |
| PortfolioHandlers.NewVisit | handlers/handlers.go:428-436 | a visit's IP is the connection's address, never anything from the body |
| PortfolioHandlers.StatusesOf | handlers/handlers.go:377-386 | one status per project |
| PortfolioHandlers.StatusCountIsMultiplicity | handlers/handlers.go:378-386 | the number of projects with a status is that status's multiplicity among all statuses |
| PortfolioHandlers.GenerateTimeStats | handlers/handlers.go:447-461 | seven entries, oldest first, ending today, each with 40 plus its draw, so between 40 and 99 views |
| PortfolioHandlers.TechStatsOf | handlers/handlers.go:392-400 | the per-technology entries are an exact tally of all tech-stack entries |
| PortfolioHandlers.StatusStatsOf | handlers/handlers.go:402-408 | the per-status entries are an exact tally of the statuses |
| PortfolioHandlers.SeedProjectIdsDense | handlers/handlers.go:38-67 | the seeded projects are numbered 1, 2 in order, so the corrected id rule first assigns 3, as `len + 1` does |
| PortfolioHandlers.SeedSkillIdsDense | handlers/handlers.go:70-77 | the seeded skills are numbered 1 to 6 in order, so the corrected id rule first assigns 7, as `len + 1` does |
| PortfolioHandlers.CountProjects | handlers/handlers.go:372-390 | after the one pass, `completed` and `featured` are the numbers of completed and of featured projects, and the two maps hold each status's and each technology's exact count |
| PortfolioHandlers.Portfolio.constructor | handlers/handlers.go:38-83 | start-up state: the seeded projects and skills, no messages, no visits, ids unique |
| PortfolioHandlers.Portfolio.GetProjects | handlers/handlers.go:91-121 | `data` is the filtered listing and `count` its length |
| PortfolioHandlers.Portfolio.GetProject | handlers/handlers.go:123-139 | the reply is `Lookup` with "Invalid project ID" / "Project not found"; the slice is not changed |
| PortfolioHandlers.Portfolio.CreateProject | handlers/handlers.go:141-166 | 400 and no change on a bad body; otherwise 201 with the record appended under a fresh id, reachable by that id; ids stay unique |
| PortfolioHandlers.Portfolio.UpdateProject | handlers/handlers.go:168-222 | 400 on a bad id before the body is read, 400 on a bad body, 404 with no change when no record matches; otherwise only the first match is rewritten by the field-wise update and returned with 200 |
| PortfolioHandlers.Portfolio.DeleteProject | handlers/handlers.go:224-241 | 400 / 404 with no change, or 204 with the first match spliced out; afterwards no record has the id, so a repeat is 404 |
| PortfolioHandlers.Portfolio.GetSkills | handlers/handlers.go:244-274 | `data` is the filtered skill listing and `count` its length |
| PortfolioHandlers.Portfolio.AddSkill | handlers/handlers.go:276-297 | 400 and no change on a bad body; otherwise 201 with the skill appended under a fresh id |
| PortfolioHandlers.Portfolio.RemoveSkill | handlers/handlers.go:299-316 | 400 "Invalid skill ID", 404 "Skill not found" with no change, or 204 with the first match spliced out and the id gone |
| PortfolioHandlers.Portfolio.SubmitContactForm | handlers/handlers.go:319-342 | 400 and no change on a bad body; otherwise the message is appended with id `len + 1` and the reply carries that id |
| PortfolioHandlers.Portfolio.RecordVisit | handlers/handlers.go:421-444 | 400 and no change on a bad body; otherwise the visit is appended with the connection's IP and the reply carries its id |
| PortfolioHandlers.Portfolio.GetProjectStats | handlers/handlers.go:371-419 | total = number of projects; completed and featured are the counts of those projects; per-status and per-technology entries are exact tallies; their counts sum to the total and to the total tech-stack length |
| UserStore.UserIdReusedAfterDelete | handlers/users.go:62 | delete user 1 from [1, 2], then create: the new user gets id 2 again, and GET /users/2 answers with the older user |
| UserStore.FreshCreateUserThenGet | handlers/users.go:62 | with the corrected rule user ids stay unique and GET of the new id returns the new user; without deletes it is the id the code assigns |
| UserStore.UserUpdateFields | handlers/users.go:132-159 | exactly the present fields are overwritten with the request's values; id and creation time kept; modification time refreshed, even by an empty body |
| UserStore.UpdateCanDuplicateEmail | handlers/users.go:138-140 | giving one user another's e-mail leaves two users with the same address |
| UserStore.DeleteUserTwice | handlers/users.go:187-195 | with unique ids, a lookup after a successful delete is 404 "User not found" |
| UserStore.UserDirectory.constructor | handlers/users.go:13-27 | the slice is exactly the one seeded user: id 1, the seed's fields, created a year before start-up |
| UserStore.UserDirectory.GetUsers | handlers/users.go:37-42 | the whole slice and its length |
| UserStore.UserDirectory.CreateUser | handlers/users.go:54-77 | 400 and no change on a bad body; otherwise 201 with the request's fields appended under a fresh id |
| UserStore.UserDirectory.GetUserByID | handlers/users.go:89-105 | the reply is `Lookup` with "Invalid user ID" / "User not found" |
| UserStore.UserDirectory.UpdateUser | handlers/users.go:118-167 | bad id 400 before the body; bad body 400; 404 with no change; otherwise only the first match is rewritten field-wise and returned |
| UserStore.UserDirectory.DeleteUser | handlers/users.go:179-196 | 400 / 404 with no change, or 204 with the match spliced out, others in order, the id gone |
| UserQueries.DigitRun | handlers/user_handlers.go:203 | the leading digit run is all digits and maximal |
| UserQueries.NoDollarNoPlaceholders | handlers/user_handlers.go:198 | text without `$` holds no placeholder |
| UserQueries.AllDigitsRun | handlers/user_handlers.go:203 | a run of digits is read to its end |
| UserQueries.DigitRunAppend | handlers/user_handlers.go:203 | a digit run is not extended by text that starts with a non-digit |
| UserQueries.PlaceholdersAppend | handlers/user_handlers.go:203 | the placeholders of a concatenation are those of the parts, when the second part starts with a non-digit |
| UserQueries.PlaceholderOfNumber | handlers/user_handlers.go:203 | `"$" + Itoa(k)` holds exactly placeholder `k` |
| UserQueries.NoDollarConcat | handlers/user_handlers.go:24 | concatenating text without `$` gives text without `$` |
| UserQueries.ConstantTextsClear | handlers/user_handlers.go:24-32 | the fixed parts of the statements hold no placeholder |
| UserQueries.Clause | handlers/user_handlers.go:203 | an assignment starts with its comma |
| UserQueries.Assignments | handlers/user_handlers.go:202-236 | seven blocks, in the handler's order |
| UserQueries.ColumnsClear | handlers/user_handlers.go:202-236 | no column name holds a placeholder |
| UserQueries.CounterTracksBound | handlers/user_handlers.go:202-236 | the counter ends one past the start for every bound value |
| UserQueries.BoundArePresentValues | handlers/user_handlers.go:202-236 | a value is bound iff it belongs to a present field |
| UserQueries.AbsentBlocksChangeNothing | handlers/user_handlers.go:202-236 | absent fields add no clause and bind nothing |
| UserQueries.ClausePlaceholders | handlers/user_handlers.go:203 | an assignment on `$k` holds exactly placeholder `k` |
| UserQueries.AppendNumber | handlers/user_handlers.go:203 | appending text holding only `$k` to text holding `$1..$(k-1)` gives `$1..$k` |
| UserQueries.AssignAllPlaceholders | handlers/user_handlers.go:202-236 | the blocks keep the placeholders numbered `$1..$(argIndex-1)` without gaps |
| UserQueries.AssignAllExtends | handlers/user_handlers.go:202-236 | the blocks only ever append to the text |
| UserQueries.AssignAllIgnoresValues | handlers/user_handlers.go:202-236 | the text and counter depend only on which fields are present |
| UserQueries.NumberBetween | handlers/user_handlers.go:238 | one `$k` between texts without `$` is the only placeholder |
| UserQueries.WhereTextSplit | handlers/user_handlers.go:238 | the WHERE tail is the condition, `$k`, then the returned columns |
| UserQueries.WhereStartsClear | handlers/user_handlers.go:238 | the WHERE tail cannot extend a preceding number |
| UserQueries.WherePlaceholders | handlers/user_handlers.go:238 | the WHERE tail holds exactly the id's placeholder |
| UserQueries.WhereSplitPlaceholders | handlers/user_handlers.go:238 | the WHERE tail holds exactly the id's placeholder |
| UserQueries.FinishPlaceholders | handlers/user_handlers.go:238 | closing a numbered draft adds the last placeholder, `argIndex` |
| UserQueries.UpdatePlaceholders | handlers/user_handlers.go:197-239 | the update statement numbers `$1..$n` without gaps, `n` is the number of arguments, and the last argument is the id |
| UserQueries.UpdateBindsPresentFields | handlers/user_handlers.go:202-236 | every field sent has its value among the arguments |
| UserQueries.UpdateTextIgnoresValues | handlers/user_handlers.go:202-238 | two patches with the same fields present give the same text |
| UserQueries.EmptyPatchTouchesUpdatedAt | handlers/user_handlers.go:198 | the empty patch still sets `updated_at`, with the id on `$1` as its only argument |
| UserQueries.UpdateTextStartsWithRefresh | handlers/user_handlers.go:198 | every update statement starts with the `updated_at` refresh |
| UserQueries.RunAssignments | handlers/user_handlers.go:199-236 | the loop of blocks yields the text, counter and arguments the specification functions give |
| UserQueries.BuildUpdateUser | handlers/user_handlers.go:197-239 | the statement is the specified update text with the specified arguments |
| UserQueries.BuildListQuery | handlers/user_handlers.go:24-32 | the public-only condition and its one argument `true` only for "true"; always ordered newest first; placeholders match the arguments |
| UserQueries.PublicOnlyPlaceholders | handlers/user_handlers.go:28 | the condition holds exactly `$1` |
| UserQueries.ListPlaceholders | handlers/user_handlers.go:24-32 | the list statement numbers one placeholder or none |
| UserQueries.FramedPlaceholders | handlers/user_handlers.go:24-32 | fixed text around a numbered middle keeps its numbering |
| UserQueries.Scanned | handlers/user_handlers.go:42-67 | rows that fail to scan are skipped, skills are reset, no row is lost when all scan |
| UserQueries.CollectUsers | handlers/user_handlers.go:42-67 | the scan loop returns `Scanned` of the rows |
| UserQueries.GetUsers | handlers/user_handlers.go:21-73 | the statement sent is the list query: the newest-first select, filtered to public users with one `true` argument iff `is_public` is exactly `true`; 500 "Failed to fetch users" iff the query fails; otherwise 200 with the scanned users and their number |
| UserQueries.GetUserByID | handlers/user_handlers.go:85-117 | the path text is bound unparsed, so never 400; 404 "User not found" iff no row is read; otherwise the row with skills reset |
| UserQueries.CreateUser | handlers/user_handlers.go:130-173 | 400 with no statement sent iff the body is missing or breaks the binding rules (name, e-mail and role required, e-mail well formed); otherwise the insert with its nine arguments is sent; 500 iff it fails; otherwise 201 with the request's fields, empty skills and the database's id and times; a valid body whose insert returns a row always gets 201 |
| UserQueries.InsertArgs | handlers/user_handlers.go:143-154 | nine arguments, skills always the empty JSON array, `is_public` last |
| UserQueries.ValueListPlaceholders | handlers/user_handlers.go:139 | the value list of `n` values names `$1..$n` in order |
| UserQueries.InsertPlaceholders | handlers/user_handlers.go:137-154 | the insert, laid out as the raw string is (each line opened by a newline and two tabs), names exactly `$1..$9`, one placeholder per bound argument |
| UserQueries.UpdateUser | handlers/user_handlers.go:188-268 | 400 with no statement iff the body does not bind; otherwise the specified update statement, then 404 iff no row comes back; a body that binds and a returned row always give 200 with that row and empty skills |
| UserQueries.DeleteUser | handlers/user_handlers.go:279-296 | 500 iff the statement fails; 404 iff it deletes nothing; 204 otherwise |
| ServerlessRoutes.Route | api/index.go:23-34 | a match names the endpoint whose path is exactly the text; no match means no endpoint has that path |
| ServerlessRoutes.QueryTextRoutesNowhere | api/index.js:14-31 | text containing `?` matches no endpoint |
| ServerlessRoutes.Serve | api/index.go:37-123 | health iff the health endpoint, with "healthy", "1.0.0", the platform and the clock; lists of 1, 2 and 4 entries with `count` equal to their length |
| GoRouter.NotFoundResponse | api/index.go:125-134 | 404 with error "Endpoint not found" and the request path; the handler's headers are the CORS ones only, since the JSON content type is set after the status |
| GoRouter.Handle | api/index.go:10-35 | CORS headers first on every response; OPTIONS 200 with no body; otherwise 404 iff the path is not an endpoint; routed answers carry the JSON content type; every list well counted |
| GoRouter.MethodIgnored | api/index.go:23-34 | apart from OPTIONS the method never changes the answer |
| GoRouter.QueryIgnored | api/index.go:23 | the query string never changes the answer |
| GoRouter.PreflightAnyPath | api/index.go:17-20 | OPTIONS gets 200 and no body whatever the path |
| GoRouter.UnknownPathEchoed | api/index.go:32-33 | any other path is a 404 that echoes it |
| GoRouter.EndpointReached | api/index.go:23-31 | each endpoint is served at its own path with any method but OPTIONS |
| NodeRouter.Url | api/index.js:14 | the url is the path alone without a query, and otherwise holds `?` right after the path |
| NodeRouter.Handle | api/index.js:2-38 | CORS headers first; OPTIONS 200 with no body; otherwise 404 iff the url is not an endpoint path, echoing the url; every list well counted |
| NodeRouter.MethodIgnored | api/index.js:17-31 | apart from OPTIONS the method never changes the answer |
| NodeRouter.QueryStringNotRouted | api/index.js:14-37 | a known path followed by `?` and any query, the empty one included, is a 404 echoing the url, while the Go entry point serves it |
| NodeRouter.AgreesWithGoWithoutQuery | api/index.js:14-46 | when the url is exactly the path the two agree on status and body, except the health platform; on 404 their headers differ only in the JSON content type |

## Left out

- Database I/O (database/database.go, database/supabase.go): connecting, schema setup and seed inserts are not part of this model. In handlers/user_handlers.go the outcomes of `Query`, `QueryRow().Scan` and `Exec`/`RowsAffected` are parameters.
- main.go: router wiring, middleware configuration, Swagger and the listener are framework set-up, not logic.
- Clock and randomness: `time.Now()` is the parameter `now`. The `rand.Intn` draws of generateTimeStats are a parameter sequence.
- getViewStats: left out. Its totals are random offsets from constants and its page and country lists are literals. Only the generateTimeStats part is modelled.
- PortfolioHandlers.GenerateTimeStats: dates are day numbers, not `2006-01-02` text.
- TechStackStat percentage: left out. It is floating-point division of a technology's count by the number of projects.
- Tech counts follow the code: each occurrence in a stack counts, including a technology repeated within one project, rather than the number of projects using it.
- JSON encoding: the model does not distinguish an empty slice (`[]`) from a nil slice (`null`). A filter that matches nothing sends `"data": null`.
- ShouldBindJSON error texts: these are the single value `BindError`. The e-mail format check is the parameter `isEmail`.
- Numbers.Atoi: assumes a 64-bit Go `int`.
- ServerlessRoutes.Serve: list entries keep only their id and display name. The other literal fields decide nothing.
- Concurrency: the handlers mutate package-level slices without locks. The model is sequential.
- Two user handler sets:
  - handlers/users.go and handlers/user_handlers.go declare the same handler names in one package.
  - user_handlers.go uses `AvatarURL` and `IsPublic`, which models/user.go does not declare.
  - Each set is modelled on its own (`UserStore`, `UserQueries`) with the fields it reads.
- UserQueries.RunAssignments: the seven `if` blocks of UpdateUser are modelled as one loop over (column, present, value) triples in the same order.
- PortfolioHandlers.Portfolio.CreateProject: assigns the corrected id (one more than the largest in use), not `len(projects) + 1`; see Findings.
- PortfolioHandlers.Portfolio.AddSkill: assigns the corrected id, not `len(skills) + 1`; see Findings.
- UserStore.UserDirectory.CreateUser: assigns the corrected id, not `len(users) + 1`; see Findings.
- Contacts and visits are never deleted, so their `len + 1` ids stay fresh and are modelled as written.
- GoRouter.NotFoundResponse: gives the handler's headers only. The content type the Go server then derives from the body is not part of this model.
- NodeRouter.AgreesWithGoWithoutQuery: covers urls that are exactly the path. Go routes on the percent-decoded path, so `/api/v1/%75sers` reaches the users list there and is a 404 in Node. A bare trailing `?` (`/health?`) is covered by NodeRouter.QueryStringNotRouted. Percent-decoding itself is not modelled: `GoRouter.Request` takes the decoded path.

## Findings

| source | as written | input that shows it | evidently intended | confidence | as-written member | corrected member |
|---|---|---|---|---|---|---|
| handlers/handlers.go:149 | a new project's id is `len(projects) + 1`, while delete splices (handlers/handlers.go:234) | seeded ids [1, 2]: delete 1, then create | ids unique, the new record reachable by its id | not executed | PortfolioHandlers.LengthIdReusedAfterDelete | PortfolioHandlers.FreshCreateThenGet |
| handlers/handlers.go:284 | a new skill's id is `len(skills) + 1`, while remove splices (handlers/handlers.go:309) | ids [1, 2]: remove 1, then add | ids unique, a DELETE of the new id removes the new skill | not executed | PortfolioHandlers.SkillIdReusedAfterDelete | PortfolioHandlers.FreshAddSkill |
| handlers/users.go:62 | a new user's id is `len(users) + 1`, while delete splices (handlers/users.go:189) | ids [1, 2]: delete 1, then create | ids unique, the new user reachable by its id | not executed | UserStore.UserIdReusedAfterDelete | UserStore.FreshCreateUserThenGet |

The corrected rule (one more than the largest id in use) keeps ids unique but can still hand out again an id whose record was deleted, when that record held the largest id: from [1, 2], delete 2, then create gives 2 again. A lookup then finds the new record, because the old one is gone.
