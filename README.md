# go-form in Dafny

A model of the server core of go-form, a Go web application built on echo, htmx and
templ. It serves paged tables and edit forms for "resources" (users, assignments). It signs
users in with a login link and keeps them signed in with a JWT session cookie. It stores
uploads on a local disk and logs through a context-scoped slog logger that writes Google
Cloud Logging records.

The model follows the Go packages one module per file:

- **Foundations.** `Wrappers` (Option, Result) and `GoInt` (int32/int64 wrap-around).
  `Strings` covers `strings` and `strconv`. `Errors` covers Go error values: sentinels,
  `%w` wrapping, `errors.Is`, and the two resource error types.
- **Data and the database layer.** `Models`, `Forms`, `Resources`, `TableConfigs` and
  `Dates` (the "2006-01-02" layout). `Database` is the hand-written queries.
  `AssignmentStore` is the generated assignment queries, run against a class holding the
  table.
- **Resources.** `UserResource` and `AssignmentResource`.
- **Tokens, environment and disk.** `Jwt`, `AuthJwt` and `SignJwt` for tokens. `EnvPkg`
  and `EnvMain` for the environment. `LocalDisk` for the local disk.
- **Response helpers.** `Http` is the response writer, as a class. `Json` is the JSON
  string encoding. `Sse` is the server-sent-event wire format. `HandlerUtils` holds the
  helpers.
- **Handlers.** `Handlers` has validate, create, update, index, view and create-form.
  `HandlersSession` has the cookie and the login link. `HandlersStream` has the streamed
  index. `HandlersUpload` has uploads.
- **Routing.** `Routes` covers the middlewares, the authenticated group, the route table
  and the error handler.
- **Logging.** `Slog` covers levels, attributes and records. `LoggerSetup` is the Cloud
  Logging handler and echo middleware. `Logging` is the context-scoped logger.

Storage, the clock, token signing and verification, the uuid generator, templates and the
disk are oracles. They are passed in as function-valued parameters or as fields of the
`Resource` record.

Code that changes state step by step is written imperatively:

- the response writer, the assignment table, the request store, the logger setup and the
  loggers are classes;
- the field loop, the stream loop, the upload-url retry loop, the attribute scans, the
  handler derivation and the handler dispatch are methods with loop invariants, each proved
  against a recursive specification function.

## Model

| member | source | states |
|---|---|---|
| GoInt.ToInt32 | database/users.go:48-50 | Go's `int32(x)`: the result is congruent to x modulo 2^32 and equals x when x fits |
| GoInt.NarrowAfterWrap | database/users.go:49 | narrowing an int64 product to int32 gives the same as narrowing the exact product |
| Strings.TrimSpaceIdempotent | pkg/env/env.go:38-45 | trimming an already trimmed value changes nothing |
| Strings.TrimSpaceShape | pkg/env/env.go:39-41 | the trimmed value is a slice of the input with only white space cut at both ends and none left at its edges |
| Strings.ParseIntRoundTrip | handlers.go:411 | `strconv.Atoi` reads back every int64 that `strconv.Itoa` prints |
| Strings.SplitLast | handlers.go:303-306 | the last part of a split is the text after the last separator |
| Strings.SplitCount | handlers.go:303-306 | a split has more than one part exactly when the separator occurs |
| Strings.TakeUntilFirst | pkg/logger/setup.go:29-31 | the first part of a split is the text before the first separator |
| Strings.ContainsAt | database/users.go:29 | a string contains every substring placed inside it |
| Errors.WrappingAndIs | handlers.go:399 | `%w` wrapping keeps every target visible to `errors.Is`; `%s` formatting and a stray argument hide it |
| Dates.ParseDate | resources/user_resource.go:63-70 | a parsed date is exactly four digits, a dash, two digits, a dash, two digits, naming an existing day; its year is the value of the four digits, with no sign |
| Dates.ParseDateFormatsBack | resources/user_resource.go:63-70 | every text the layout accepts is the zero-padded form of the date it yields, so parsing is injective on accepted text |
| Dates.SignedYearRefused | resources/user_resource.go:63-70 | a year written with a sign ("-123", "+123") is refused |
| Dates.DateRoundTrip | resources/user_resource.go:124 | parsing a formatted date of a four-digit year gives the date back |
| Dates.ZeroDateRoundTrip | resources/user_resource.go:63 | Go's zero time formats as "0001-01-01" and reads back |
| Dates.LeapDayChecks | resources/user_resource.go:63 | February 29 is accepted in a leap year and refused otherwise |
| Dates.CenturyCheck | resources/user_resource.go:63 | 1900 is not a leap year |
| Dates.MonthChecks | resources/user_resource.go:63 | a one-digit month and month 13 are refused |
| Resources.MessageNotPrinted | resources/resource.go:16-28 | the error text of a validation or parsing error names the field and the reason, never the user-facing message |
| Resources.NilReasonNotPrintable | resources/resource.go:16-28 | an error with a nil reason panics when printed |
| Resources.NilReasonThroughFmt | resources/resource.go:16-28 | a reason that is itself a record without a reason panics too, but one wrapped by `fmt.Errorf` prints fmt's "%!v(PANIC=Error method: ...)" text |
| Resources.FieldErrorTextRoundTrip | resources/resource.go:16-28 | the field name and error kind can be read back from the printed text |
| TableConfigs.TableConfig.Build | interfaces/table_config.go:43-49 | returns the config unchanged and reports a missing row url |
| TableConfigs.TableConfig.RowUrl | interfaces/table_config.go:57-64 | "error" without a row url, the row url's value otherwise |
| TableConfigs.TableConfig.WithTitle | interfaces/table_config.go:66-69 | sets the title and keeps every other setting |
| TableConfigs.TableConfig.WithStreamUrl | interfaces/table_config.go:71-74 | sets the stream url and keeps every other setting |
| TableConfigs.TableConfig.WithColumns | interfaces/table_config.go:76-79 | sets the columns and keeps every other setting |
| TableConfigs.TableConfig.WithCreate | interfaces/table_config.go:81-85 | sets the create label and url and keeps every other setting |
| TableConfigs.NewTableConfig | interfaces/table_config.go:87-91 | a config holding only the row url |
| TableConfigs.ChainKeepsRowUrl | interfaces/table_config.go:66-85 | no chain of builder calls changes the row url |
| TableConfigs.ChainLastTitleWins | interfaces/table_config.go:66-69 | after a chain of builder calls the title is the last one set |
| TableConfigs.TitleAfterFirst | interfaces/table_config.go:66-69 | the title after a chain follows from its first call and the rest of the chain |
| Database.CheckDuplicateEmailErr | database/users.go:28-34 | nil stays nil; an error whose text holds the unique-email violation becomes `ErrDuplicateEmail`; any other error is kept |
| Database.CheckDuplicateEmailIdempotent | database/users.go:28-34 | mapping the error twice is the same as once |
| Database.InsertUser | database/users.go:36-39 | the generated insert's id, and its error mapped for duplicate emails |
| Database.ConsumeReloginToken | database/users.go:17-26 | a query error is returned; no deleted row is `ErrNotFound`; otherwise success |
| Database.PageWindow | database/users.go:48-50 | limit is the page size and offset the product page*pageSize, both narrowed to int32 |
| Database.GetUsersPage | database/users.go:48-50 | the generated page query with that window |
| Database.GetAssignmentsPage | database/assignments.go:5-7 | the generated page query with that window |
| Database.FirstPageWindow | database/users.go:49 | page 0 starts at offset 0 |
| Database.AdjacentWindows | database/users.go:49 | without overflow, page p+1 starts where page p ends |
| Database.OffsetWrapsAround | database/users.go:49 | page 2^31 of size 1 asks for offset -2^31 |
| Database.UpdateUserAsWrittenNeverReturns | database/users.go:43-46 | `UpdateUser` as written calls itself first, so it ends in stack exhaustion at every stack depth |
| Database.UpdateUser | database/users.go:43-46 | corrected: the generated update's error mapped for duplicate emails |
| AssignmentStore.MaxOrder | database/assignments.sql.go:34-39 | the `coalesce(max("order"), 0)` of the table fits an int32 |
| AssignmentStore.MaxOrderIsMax | database/assignments.sql.go:34-39 | every row's order is at most that value, some row has it, and an empty table gives 0 |
| AssignmentStore.ConsecutivePages | database/assignments.sql.go:79-84 | pages p and p+1 together are one contiguous slice of the table |
| AssignmentStore.SlicesAdjacent | database/assignments.sql.go:79-84 | two limit/offset slices that meet form one contiguous slice |
| AssignmentStore.AssignmentTable.constructor | database/assignments.sql.go:12-17 | an empty table whose next id is 1 |
| AssignmentStore.AssignmentTable.GetAssignment | database/assignments.sql.go:19-31 | the row with the id, or `ErrNotFound` and the zero row when there is none |
| AssignmentStore.AssignmentTable.MaxOrderQuery | database/assignments.sql.go:34-39 | a scan of the table computes the largest order |
| AssignmentStore.AssignmentTable.InsertAssignment | database/assignments.sql.go:33-52 | appends a row with the next id and order max+1; an exhausted sequence fails first and takes no id, while an order overflow fails with IntegerOutOfRange after an id was taken; a failed insert adds no row |
| AssignmentStore.AssignmentTable.UpdateAssignment | database/assignments.sql.go:54-77 | rows with the id get the new name, type and order (the type parameter is never null); other rows and the next id are unchanged |
| AssignmentStore.AssignmentTable.GetAssignmentsPage | database/assignments.sql.go:79-111 | the loop collects the rows from offset up to offset+limit (cut at the end of the table), or the error for a negative offset or limit |
| AssignmentStore.UpdateAlwaysSetsOrder | database/assignments.sql.go:54-77 | the Go parameter's type is never null, so the update always sets the order; only a null type would keep it |
| UserResource.FetchRow | resources/user_resource.go:35-42 | the user and no error, or no user and the query's error |
| UserResource.ParseRow | resources/user_resource.go:44-79 | id, name and email from the form. Then, in order: a lookup error is wrapped; a taken email is a validation error; an unparsable date is a parsing error; an age below 18 is a validation error |
| UserResource.ParsedUserRoundTrip | resources/user_resource.go:63-79 | an accepted user has a parsed birth date at least 18 years back, and the form value of that date is exactly the submitted text and parses back to the same date |
| UserResource.ParseRowErrorPrintable | resources/user_resource.go:44-79 | every error the parse returns can be printed |
| UserResource.CreateRow | resources/user_resource.go:81-83 | inserts name, email and birth date |
| UserResource.UpdateRow | resources/user_resource.go:85-92 | updates id, name, email and birth date |
| UserResource.Location | resources/user_resource.go:131-137 | "/users" for no row or id 0, "/users/<id>" otherwise |
| UserResource.LocationIdRoundTrip | resources/user_resource.go:131-137 | the id can be read back from a row's location |
| UserResource.FormConfig | resources/user_resource.go:94-129 | the required fields name, email (type email) and date_of_birth (type date), saved to the row's location |
| UserResource.TableConfig | resources/user_resource.go:139-148 | the columns Id, Name, Email and Age, with the age printed as "<n> years" |
| UserResource.NewUserResource | resources/user_resource.go:21-33 | a resource titled "Users" whose parse and location are the ones above |
| AssignmentResource.Columns | resources/assignment_resource.go:24-30 | the columns Id, Name, Type and Order, without links |
| AssignmentResource.NewAssignmentResource | resources/assignment_resource.go:20-34 | the table config with those columns and every other setting of the base |
| AssignmentResource.FetchRow | resources/assignment_resource.go:44-51 | the assignment and no error, or none and the query's error |
| AssignmentResource.ParseRow | resources/assignment_resource.go:53-68 | id, name and type from the form; exactly the type "sound" is refused with a validation error |
| AssignmentResource.CreateRow | resources/assignment_resource.go:70-72 | inserts name and type |
| AssignmentResource.UpdateRowParams | resources/assignment_resource.go:74-81 | each field is null exactly when it is empty (order: not positive) |
| AssignmentResource.UpdateRow | resources/assignment_resource.go:74-81 | runs the update with those parameters |
| AssignmentResource.FormUpdateSendsNullOrder | resources/assignment_resource.go:53-81 | a row parsed from the form never carries an order to the update |
| AssignmentResource.Location | resources/assignment_resource.go:121-127 | "/assignments" for no row or id 0, "/assignments/<id>" otherwise |
| AssignmentResource.LocationIdRoundTrip | resources/assignment_resource.go:121-127 | the id can be read back from a row's location |
| AssignmentResource.FormConfig | resources/assignment_resource.go:83-119 | a required text field "name" and a required select "type" offering sound and text |
| AssignmentResource.OfferedTypeRefused | resources/assignment_resource.go:100-113 | the form offers "sound", which the parse then refuses |
| AssignmentResource.AsResource | resources/assignment_resource.go:36-38 | a resource titled "Assignments" whose parse and location are the ones above |
| Jwt.UnixShift | auth/jwt.go:63-67 | adding whole seconds to a time adds them to its Unix seconds |
| AuthJwt.ParseJwt | auth/jwt.go:29-39 | an expired token gives its claims and `ErrTokenExpired`; another error gives no claims; success gives the claims |
| AuthJwt.ParseJwtClaimsPresent | auth/jwt.go:29-39 | claims are returned exactly for valid or expired tokens |
| AuthJwt.Lifetime | auth/jwt.go:63-67 | a positive ValidFor, else five minutes |
| AuthJwt.Claims | auth/jwt.go:48-70 | iss "go-form", iat, exp; aud, sub and extra exactly when given |
| AuthJwt.ClaimsOf | auth/jwt.go:48-70 | the map built claim by claim equals that claim set |
| AuthJwt.ExpiryAfterIssue | auth/jwt.go:63-67 | exp is iat plus the lifetime in seconds (300 by default), never before iat |
| AuthJwt.CreateJwt | auth/jwt.go:72-85 | a nil options value signs an empty claim set; a signing error is wrapped with "failed to sign jwt: " |
| SignJwt.Claims | sign/jwt.go:32-44 | iss "go-form", iat, exp ten minutes on, sub exactly when given |
| SignJwt.ClaimsOf | sign/jwt.go:32-44 | the map built claim by claim equals that claim set |
| SignJwt.TenMinuteLifetime | sign/jwt.go:36 | exp is iat + 600 and there is no audience |
| SignJwt.CreateJwt | sign/jwt.go:46-59 | a signing error is wrapped with "failed to sign jwt: " |
| SignJwt.ParseJwt | sign/jwt.go:24-26 | the verifier's answer, unchanged |
| EnvPkg.ErrMissingEnv | pkg/env/env.go:13-19 | prints "env variable `KEY` is missing" |
| EnvPkg.Lookup | pkg/env/env.go:38-45 | the trimmed value, or the fallback when it is unset or blank |
| EnvPkg.MustLookup | pkg/env/env.go:29-36 | the trimmed value, or a panic with `ErrMissingEnv` exactly when it is unset or blank |
| EnvPkg.LookupsAgree | pkg/env/env.go:29-45 | both lookups agree on present values, which are already trimmed |
| EnvPkg.LoadDotEnv | pkg/env/env.go:21-27 | success or a missing file is no error; any other error is wrapped |
| EnvMain.LookupEnv | env.go:18-25 | the trimmed value, or the fallback |
| EnvMain.MustLookupEnv | env.go:9-16 | the trimmed value, or a fatal exit exactly when it is unset or blank |
| EnvMain.SameAsEnvPackage | env.go:9-25 | the main package's helpers behave like the env package's |
| LocalDisk.NewLocal | disks/local.go:25-35 | mode 0755 for a public disk, 0700 otherwise; the base url is dropped |
| LocalDisk.IsValidLocation | disks/local.go:37-45 | refused exactly when it holds ".." (checked first) or starts with "/" |
| LocalDisk.ClimbingRefused | disks/local.go:38-40 | any location holding ".." is refused as climbing |
| LocalDisk.RelativeAccepted | disks/local.go:37-45 | a relative location without ".." is accepted, its absolute form refused |
| LocalDisk.PathTo | disks/local.go:47-57 | root, separator, location, or the check's error |
| LocalDisk.Url | disks/local.go:82-92 | root + "/" + location, or the check's error wrapped with the location |
| LocalDisk.PutPrecheck | disks/local.go:59-63 | Put fails before touching the disk exactly when the location is invalid |
| LocalDisk.PathAndUrlAgree | disks/local.go:47-92 | path and url accept the same locations and agree when the separator is "/" |
| LocalDisk.UrlIgnoresBaseUrl | disks/local.go:25-35 | the url does not depend on the base url given to `NewLocal` |
| Http.CanonicalKey | handler_utils.go:58 | header keys are canonicalised without changing their length |
| Http.CanonicalKeyIdempotent | handler_utils.go:58 | canonicalising twice is canonicalising once |
| Http.Response.constructor | handler_utils.go:62-64 | an empty, uncommitted 200 response |
| Http.Response.SetHeader | handler_utils.go:58 | sets the canonical key and changes nothing else |
| Http.Response.WriteHeader | handler_utils.go:64 | the first call fixes status and sent headers; later calls change nothing |
| Http.Response.Write | handler_utils.go:87 | appends to the body and commits the headers if not yet sent |
| Http.Response.Flush | handler_utils.go:88 | everything written so far is flushed |
| Json.EscapeRoundTrip | handler_utils.go:52-54 | every JSON string encoding decodes back to the original string |
| Sse.FrameDecodes | handler_utils.go:86-89 | an "event:/data:" frame is read back by an event-stream parser as that event |
| Sse.FramesDecode | handler_utils.go:86-102 | a sequence of single-line events reads back as the same sequence |
| HandlerUtils.InLayout | handler_utils.go:12-14 | the children wrapped in the layout for the tab |
| HandlerUtils.VariantString | handler_utils.go:24-33 | "error", "success", and "info" for every other value |
| HandlerUtils.ToastPayload | handler_utils.go:44-51 | target, message and variant, plus durationMs exactly when positive |
| HandlerUtils.PayloadSorted | handler_utils.go:52-54 | the payload's keys are in the order `json.Marshal` writes them |
| HandlerUtils.OuterText | handler_utils.go:52-58 | the HX-Trigger value is {"show-toast": payload} |
| HandlerUtils.TriggerToast | handler_utils.go:43-60 | sets only HX-Trigger and never fails |
| HandlerUtils.RenderAllNoError | handler_utils.go:65-77 | with no render error every output is written in order |
| HandlerUtils.RenderAllFirstError | handler_utils.go:65-77 | rendering stops at the first failing template, whose error is wrapped |
| HandlerUtils.Template | handler_utils.go:62-78 | HTML content type, status once, body plus the rendered output, and the first render error |
| HandlerUtils.StartSseStream | handler_utils.go:80-84 | no-store, event-stream and status 200 |
| HandlerUtils.SendSseEvent | handler_utils.go:86-89 | appends one frame and flushes |
| HandlerUtils.TemplateEvent | handler_utils.go:91-102 | appends one frame holding the rendered template and flushes |
| HandlerUtils.HtmxRedirect | handler_utils.go:104-107 | HX-Location and a 204 with no body |
| HandlerUtils.BindInt | handler_utils.go:112-115 | an absent parameter keeps the default; a malformed one names the parameter |
| HandlerUtils.PaginationParams | handler_utils.go:109-121 | defaults 0 and 20; fails exactly when a given value does not parse |
| HandlerUtils.PaginationRoundTrip | handler_utils.go:109-121 | printed page numbers read back unchanged |
| Handlers.FormSourceReads | handlers.go:490 | `FormValue` reads the posted form before the query |
| Handlers.CollectFields | handlers.go:447-454 | the loop collects the value of every field, and the validator's message for every field whose message is non-empty |
| Handlers.FieldValuesExact | handlers.go:447-450 | one value per field name, each read from the request |
| Handlers.FieldErrorsSound | handlers.go:450-453 | every recorded message is non-empty and belongs to a field |
| Handlers.FieldErrorsExact | handlers.go:450-453 | with distinct names, a field has an error exactly when its validator complains, and the error is that message |
| Handlers.FieldErrorsEmpty | handlers.go:450-453 | no errors exactly when no validator complains |
| Handlers.IndexReply | handlers.go:386-407 | 400 on bad pagination; a fetch error other than a deadline is wrapped; otherwise 200 with the overview and the extra templates |
| Handlers.IndexPages | handlers.go:386-407 | the default and any printed page are served from the right page |
| Handlers.ViewReply | handlers.go:409-425 | 400 for a bad id; 404 exactly for `ErrNotFound`; else the view, in the layout unless htmx |
| Handlers.WrappedNotFoundRendersRow | handlers.go:416 | a wrapped `ErrNotFound` is not recognised and is shown as a 200 view |
| Handlers.CreateFormReply | handlers.go:427-435 | the empty create form, in the layout unless htmx |
| Handlers.ValidateDecision | handlers.go:455-480 | the handler panics exactly on a validation or parsing error whose `Error()` reaches a nil `Reason` through a chain of such errors (a reason wrapped by `fmt.Errorf` prints, since fmt recovers); otherwise 200 exactly with no error and no messages, or an error of another kind; a validation error adds its message; a parsing error replaces the messages |
| Handlers.HandleValidateResource | handlers.go:437-481 | the handler's loop and decision give the specified reply, including the panic on a field error that reaches a nil reason |
| Handlers.ValidateAcceptsExactly | handlers.go:437-481 | accepted exactly when the parse and every validator accept (or the parse fails with an error of another kind), panics exactly on a field error that reaches a nil reason along `Reason.Error()` calls, and each complaint is reported under its field |
| Handlers.CreateDecision | handlers.go:496-535 | only the parsed row is ever stored; the handler panics, storing nothing, exactly when the parse error is a field error that reaches a nil reason along `Reason.Error()` calls; a printable parsing error re-renders the form with status 400 |
| Handlers.HandleCreateResource | handlers.go:483-536 | the handler's loop and decision give the specified reply, including the panic on a field error that reaches a nil reason |
| Handlers.CreateStoresOnlyValid | handlers.go:496-518 | a row is inserted exactly when the parse and every validator accept |
| Handlers.CreateOutcomes | handlers.go:518-534 | a duplicate email re-renders the form with the message; success shows the index with a success toast |
| Handlers.UpdateDecision | handlers.go:555-592 | only the parsed row is ever stored; the handler panics, storing nothing, exactly when the parse error is a field error that reaches a nil reason along `Reason.Error()` calls |
| Handlers.Store | handlers.go:577-592 | the row is handed to the update; a duplicate e-mail shows the row with "Email already used" (200), another error is returned wrapped with "failed to update row: ", and success pushes the resource's url ahead of the index's headers and shows the index with the "Sucessfully updated" toast |
| Handlers.UpdateStoresExactly | handlers.go:538-592 | as written, `UpdateRow` runs exactly when the id is an integer and either the parse and every validator accept, or the parse fails with a printable `ValidationError` |
| Handlers.UpdateOutcomes | handlers.go:555-592 | as written: duplicate e-mail, other update error and success replies after `UpdateRow`; without it, collected messages give 200 with the view and an error toast, a printable parsing error gives 400 with the form, and another parse error is returned formatted with "failed to parse row: " |
| Handlers.HandleUpdateResource | handlers.go:538-594 | the handler's loop and decision give the specified reply (whose outcomes `Handlers.UpdateOutcomes` and `Handlers.UpdateStoresExactly` state), including the panic on a field error that reaches a nil reason; a bad id is a 400 |
| Handlers.UpdateStoresRejectedRow | handlers.go:555-577 | as written, a row refused by a validation error is stored anyway |
| Handlers.UpdateDecisionChecked | handlers.go:555-575 | corrected: only the parsed row is ever stored, and it panics exactly where the handler as written does (a field error reaching a nil reason) |
| Handlers.WrappedNilReasonAnswered | handlers.go:457-462 | a reason that wraps a record without a reason through `fmt.Errorf` is printed, so validation answers 422 with the message instead of panicking |
| Handlers.UpdateCheckedStoresOnlyValid | handlers.go:555-577 | corrected: a row is updated exactly when the parse and every validator accept, and otherwise the corrected update behaves as written |
| HandlersSession.Store | handlers.go:228-260 | a cookie with a negative max age removes the entry; any other sets it; other cookies are untouched |
| HandlersSession.AtoiRefusesBySyntaxOrSize | handlers.go:40-43 | Atoi accepts only decimal syntax; a refused decimal is out of range, and malformed text under 20 characters is a syntax error |
| HandlersSession.AtoiRangeBeforeSyntax | handlers.go:40-43 | digits that overflow 64 unsigned bits followed by a non-digit are refused as out of range, since `ParseUint` checks overflow before the bad character |
| HandlersSession.TwentyNinesOverflow | handlers.go:40-43 | "99999999999999999999x" is an out-of-range error, printed as it is |
| HandlersSession.PlainErrorText | handlers.go:40-43 | the error prints plain input between quotes unchanged |
| HandlersSession.AtoiPlainSyntaxError | handlers.go:40-43 | a short malformed plain subject such as "abc" fails with `strconv.Atoi: parsing "abc": invalid syntax` |
| HandlersSession.AtoiQuotesInput | handlers.go:40-43 | the input is quoted with `strconv.Quote`, so `a"b` prints as `"a\"b"` |
| Strings.QuotedChar | handlers.go:40-43 | `strconv.Quote` copies a character exactly when it is printable ASCII other than a quote or backslash, or beyond ASCII |
| Strings.PlainQuoted | handlers.go:40-43 | quoting plain text only adds the surrounding quotes |
| Strings.QuoteEscapesQuote | handlers.go:40-43 | a quote inside the text gets a backslash |
| HandlersSession.UserIdFromCookie | handlers.go:28-45 | no cookie gives `ErrNoCookie`; a user id needs a valid (or, if allowed, expired) token with audience "go-form" and a numeric subject, narrowed to int32 |
| HandlersSession.SetUserLoggedInCookie | handlers.go:241-263 | a one-hour token for audience "go-form" and the user id, in an HTTP-only cookie kept for a week, secure in production |
| HandlersSession.SessionClaims | handlers.go:242-246 | the session token carries audience "go-form" and the user id as subject |
| HandlersSession.SessionRoundTrip | handlers.go:241-263 | the cookie that sign-in sets reads back as the same user id |
| HandlersSession.ExpiredSession | handlers.go:33-36 | an expired token is accepted only when allowed |
| HandlersSession.ClearedSession | handlers.go:220-239 | after logout no user is read from the cookie |
| HandlersSession.HandleLoginLink | handlers.go:167-218 | no token flags unauthenticated; a signing failure is wrapped; a sign-in redirects to /users, by HX-Location for htmx |
| HandlersSession.LoginLinkSignsIn | handlers.go:182-216 | signs in exactly when the token is valid, meant for "loginlink", has a numeric subject of an existing user and signing succeeds; the cookie then names a user |
| HandlersSession.TokensNotInterchangeable | handlers.go:37-39 | a login-link token is no session, and a session token opens no login link |
| HandlersStream.StreamStep | handlers.go:342-373 | a fetched page sends one "row" event and the stream goes on with the next page |
| HandlersStream.StreamStops | handlers.go:343-357 | a fetch error or a closed request stops the stream without an end event; only a non-cancel error is reported, wrapped |
| HandlersStream.StreamEnds | handlers.go:342-374 | after the last page one "end" event is sent |
| HandlersStream.HandleResourceIndexStream | handlers.go:331-378 | a wrong Accept header is reported; otherwise the stream headers and the stream's frames, and its error |
| HandlersStream.SendPages | handlers.go:339-374 | the page loop writes exactly the frames of the stream and returns its error |
| HandlersStream.StreamShape | handlers.go:342-374 | at most three events, only the last of which may be "end", which means no error |
| HandlersStream.ShortFirstPage | handlers.go:350-351 | a short first page gives one row event and the end |
| HandlersStream.TwoFullPages | handlers.go:342 | two full pages give two row events and the end, never a third page |
| HandlersStream.CancelledStreamIsEmpty | handlers.go:345-356 | a cancelled first fetch or a closed request sends nothing and reports nothing |
| HandlersStream.ClientReadsStream | handlers.go:358-374 | an event-stream client reads back exactly the events sent |
| HandlersUpload.ExtensionOf | handlers.go:302-306 | the extension is the text after the last dot, none without a dot |
| HandlersUpload.UploadLocationShape | handlers.go:312-316 | id, or id "." extension when there is one |
| HandlersUpload.UploadKeepsExtension | handlers.go:302-316 | the stored location keeps the uploaded file's extension |
| HandlersUpload.UploadLocationValidOnLocalDisk | handlers.go:312-317 | a uuid-based location always passes the local disk's check |
| HandlersUpload.HandleUploadFile | handlers.go:292-330 | 406 without a multipart form; 400 without a file; 201 with id and url exactly when open, put and url succeed |
| HandlersUpload.HandleGetUploadUrl | handlers.go:265-290 | the retry loop stops at the first draw whose location is free or whose check fails, and answers for it |
| HandlersUpload.UploadUrlForFreeLocation | handlers.go:269-288 | a signed url is for a location found free, different from every taken one |
| Routes.RequestState.constructor | routes.go:125-128 | the request's store and context values |
| Routes.RequestState.Set | routes.go:129 | sets one store key |
| Routes.RequestState.WithValue | routes.go:128 | sets one context key |
| Routes.SetIsHtmx | routes.go:125-140 | records "isHtmx" exactly as HX-Request == "true", and "currentUrl" only for htmx requests whose URL parses |
| Routes.HandleUnauthenticated | routes.go:147-169 | unflagged requests pass their error through; flagged ones get a 302 or, for htmx, a login redirect or the 422 relogin prompt |
| Routes.FlagValueIgnored | routes.go:150 | only the presence of the flag counts, not its value or the handler's error |
| Routes.AuthenticatedGate | routes.go:171-178 | proceeds exactly with an unexpired session, with that user id |
| Routes.NoCookieGoesToLogin | routes.go:171-178 | without a cookie every authenticated route leads to the login page |
| Routes.ExpiredSessionPromptsRelogin | routes.go:156-162 | an expired session gets the relogin prompt on htmx requests outside /logout |
| Routes.ValidSessionReachesHandler | routes.go:174-193 | a valid session reaches the handler, whose error comes back unchanged |
| Routes.GetUserAsWritten | routes.go:183-192 | as written, the getter with its empty cache panics |
| Routes.GetUserAlwaysPanics | routes.go:183-192 | as written, no call yields the user, even when the query succeeds |
| Routes.UserGetter.constructor | routes.go:183 | a getter for the user id with nothing loaded |
| Routes.UserGetter.Get | routes.go:184-192 | corrected: returns the kept user, or loads it, keeping it only on success; never panics |
| Routes.GetUserTwice | routes.go:184-192 | corrected: once loaded, later calls give the same user |
| Routes.GetUserFunc | routes.go:196-202 | a load error is wrapped with "failed to get user: " and stays visible to `errors.Is` |
| Routes.RegisterResource | routes.go:206-216 | the eight routes, mounted under the resource's location |
| Routes.ResourceRoutesDistinct | routes.go:207-215 | no two routes clash, every handler is reachable, validation is served with and without an id |
| Routes.ErrorPage | routes.go:87-96 | an `*echo.HTTPError` keeps its code; anything else is a reported 500 |
| Routes.WrappedHttpErrorIs500 | routes.go:88-95 | a wrapped HTTP error is shown as a 500, though `errors.Is` still finds it |
| Slog.NamedLevels | pkg/logger/setup.go:17-19 | the four slog levels print their names; the critical level prints "ERROR+4" |
| LoggerSetup.TraceOfHeader | pkg/logger/setup.go:28-32 | the trace is "projects/<p>/traces/<id>" for the part before the first "/", empty when that part is empty |
| LoggerSetup.TraceFromContext | pkg/logger/setup.go:38-44 | "" without a trace, the trace otherwise |
| LoggerSetup.ReplaceAttr | pkg/logger/setup.go:54-67 | as written: msg, source and level renamed, CRITICAL for the critical level, a panic for a level attribute that holds no level |
| LoggerSetup.UserLevelAttrPanics | pkg/logger/setup.go:59-61 | as written, a caller's "level" attribute holding a string or a number panics |
| LoggerSetup.ReplaceAttrChecked | pkg/logger/setup.go:54-67 | corrected: a "level" attribute is renamed to severity whatever it holds; everything else as written |
| LoggerSetup.ReplaceAttrCheckedAgrees | pkg/logger/setup.go:54-67 | corrected: agrees with the original wherever that does not panic, and no built-in key is left behind |
| LoggerSetup.Written | pkg/logger/setup.go:50-68 | one entry for the level, one for the message and one per attribute |
| LoggerSetup.WrittenSeverity | pkg/logger/setup.go:55-64 | severity first (CRITICAL for level 12), then the message |
| LoggerSetup.RecordContainsAttr | pkg/logger/setup.go:75-85 | the scan finds the key exactly when some attribute has it |
| LoggerSetup.RecordContainsAttrWithValue | pkg/logger/setup.go:87-97 | the scan compares the value of the first attribute with the key ("" when none) |
| LoggerSetup.FirstValueFound | pkg/logger/setup.go:89-96 | that value is "" without the key, the first match's text otherwise |
| LoggerSetup.CloudRecord | pkg/logger/setup.go:99-114 | level, message and attributes kept; the trace is added exactly when non-empty; an exception is present exactly when the record has an error or exception attribute |
| LoggerSetup.Handle | pkg/logger/setup.go:99-114 | the handler produces that record |
| LoggerSetup.Setup.constructor | pkg/logger/setup.go:124 | not initialised, no middleware |
| LoggerSetup.Setup.InitGoogleCloudLogger | pkg/logger/setup.go:126-133 | the first call installs the Cloud handler; a second one panics |
| LoggerSetup.Setup.SetupEchoGoogleCloudLogger | pkg/logger/setup.go:135-150 | panics before initialisation; otherwise adds trace, recover and request-log middleware in that order |
| LoggerSetup.RequestLog | pkg/logger/setup.go:156-169 | an error other than a 404 is logged at error level with uri, status and error, and panics exactly when its `Error()` reaches a nil reason; everything else is a successful request at info level |
| LoggerSetup.FailedRequestsCarryException | pkg/logger/setup.go:157-162 | exactly the failed-request records get an exception |
| LoggerSetup.RecoverLog | pkg/logger/setup.go:142-148 | a critical record with the panic, its uri, error and stack trace |
| Logging.Logger.constructor | pkg/logger/logger.go:18-22 | a logger with the given handlers |
| Logging.Logger.Clone | pkg/logger/logger.go:24-28 | a new logger with the same handlers |
| Logging.RegisterHandler | pkg/logger/logger.go:30-32 | appends the handler to the global logger |
| Logging.LoggerFromContext | pkg/logger/logger.go:84-90 | the context's logger, or the global one |
| Logging.Derived | pkg/logger/logger.go:44-47 | the i-th new handler is derived from the i-th old one |
| Logging.DeriveAll | pkg/logger/logger.go:44-48 | the loop fills a fresh slice with exactly those handlers |
| Logging.WithAttrs | pkg/logger/logger.go:39-50 | no attributes leave the context unchanged; otherwise a new logger derived handler by handler |
| Logging.WithGroup | pkg/logger/logger.go:57-65 | always a new logger derived handler by handler |
| Logging.EnabledAtExact | pkg/logger/logger.go:75-79 | a handler receives a record exactly when it is in the list and enabled, as often as it occurs |
| Logging.Handle | pkg/logger/logger.go:71-82 | no handlers: slog's default handler; otherwise the enabled handlers in list order |
| Logging.LogAttrsWrapped | pkg/logger/logger.go:92-126 | nothing is logged unless the default logger is enabled at the level, whatever the context's handlers say |
| Logging.ErrorEntryFor | pkg/logger/logger.go:128-133 | message "msg: err" ("%!s(<nil>)" for nil); an "error" attribute exactly for a non-nil error; a panic exactly when `err.Error()` reaches a nil reason |
| Logging.WrappedErrorLogged | pkg/logger/logger.go:128-133 | an error wrapping an unprintable record is logged with fmt's panic text; the record itself panics |
| Logging.LogError | pkg/logger/logger.go:128-154 | Error and Critical log that entry at their level, received by the default handler alone, the enabled handlers of the context's logger, or no one when the default logger is disabled; or panic on an unprintable error, logging nothing |
| Logging.ErrorAttributeRule | pkg/logger/logger.go:129-131 | with the Cloud handler, an exception is attached exactly for a non-nil error |

## Left out

- The network, TLS, echo's router internals and its route priority are not modelled. A
  route is a verb, a path and a handler kind.
- The clock, token signing and verification (Ed25519 keys, leeway, issuer and issued-at
  checks), uuid generation, templ rendering, SMTP mail, S3/Spaces disks and Sentry spans
  are not modelled. Where an operation depends on one of them, it is a parameter.
- HandleLogin, HandlePostLogin and tryGetUserFromCookie (they send mail and render
  templates), RegisterMailhogProxy, and the static, "/" and `RouteNotFound("/*")` (404 page) routes
  of RegisterRoutes are not modelled.
- The text of a `time.Parse` error is one simplified form naming the value and the layout.
  Go's exact wording depends on which part failed, and it names no layout for a range error.
- The 20 ms index timeout and the 16 ms stream throttle are not modelled. A deadline is
  an error the fetch oracle can return.
- Server-sent events carry only an event type and data. The id and retry fields are not
  modelled.
- The JSON encoder is modelled only for strings, integers and objects with sorted keys.
- Go `time.Time` is a civil date or an integer instant.
- `LocalDisk.Put` is modelled up to its location check. File creation and copying are
  I/O.
- `Logging.Handle` reports which handlers receive a record instead of calling them. The
  program counter and time stamp of a record are not modelled.
- The `Echo*` logger variants and `EchoWithAttrs` and `EchoWithGroup` do what their plain
  counterparts do with the request's context.
- Strings.QuotedChar: a character beyond ASCII is copied. `strconv.Quote` escapes the
  ones `unicode.IsPrint` rejects as `\u` or `\U`, and the Unicode tables are not modelled.
- HandlersUpload.HandleGetUploadUrl: the uuid draws are a finite sequence that contains a
  draw ending the search. The unbounded retry of the source is not modelled.
- HandlersStream.HandleResourceIndexStream: "the request is done" is an oracle asked
  after each page.
- Database.UpdateUserAsWritten: stack exhaustion is modelled by a depth bound. Go's
  runtime ends the process instead of returning.
- AssignmentStore.ConsecutivePages, AssignmentStore.AssignmentTable.UpdateAssignment,
  AssignmentStore.AssignmentTable.GetAssignmentsPage: the table keeps its rows in insertion
  order, and an update keeps a row in its place. The page query has no `order by`, so
  PostgreSQL promises no such order, and the facts about page contents and adjacent pages
  rest on this chosen order.
- Strings are sequences of code points, not UTF-8 bytes. Byte lengths, invalid UTF-8 and
  `json.Marshal`'s replacement of invalid bytes by U+FFFD are not modelled.

## Findings

| source | as written | input that shows it | evidently intended | confidence | as-written member | corrected member |
|---|---|---|---|---|---|---|
| database/users.go:43-46 | `UpdateUser` calls itself instead of the generated `updateUser` | any update of a user | run the generated update and map its error with `checkDuplicateEmailErr` | high, not executed | Database.UpdateUserAsWrittenNeverReturns | Database.UpdateUser |
| handlers.go:555-577 | after a `ValidationError` the update handler falls through to `UpdateRow` | an update whose email belongs to another user, or a birth date under 18 years | answer without updating: the edit view (200) with the reason's text kept under its field and a "Not all fields are valid" toast, as the branch for validator complaints does | high, not executed | Handlers.UpdateStoresRejectedRow | Handlers.UpdateCheckedStoresOnlyValid |
| routes.go:183-192 | the user getter stores through a nil `*DisplayableUser` | any call of the getter, e.g. GET /users/me with a valid session | load the user once and keep it | high, not executed | Routes.GetUserAlwaysPanics | Routes.UserGetter.Get |
| pkg/logger/setup.go:59-61 | the level attribute is type-asserted without the comma-ok form | a log call with an attribute named "level" holding a string | rename it to "severity" and keep its value | medium, not executed | LoggerSetup.UserLevelAttrPanics | LoggerSetup.ReplaceAttrChecked |
