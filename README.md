# minder, modelled in Dafny

minder is a small dating service written in Go. A user registers, logs in and asks for a
candidate to look at. At most ten candidates a day are shown, unless the account is
upgraded. The user then likes or passes the candidate. This project models that core:

- the MySQL repository, as an in-memory store: the users table, the swipe log, today's date
  and whether the database is reachable;
- the use case, with its quota rule and the order of its repository calls;
- the HTTP handlers, the router and the request validation rules;
- the token helpers in the auth package;
- the string and number helpers in the utils package;
- the viper configuration wrapper;
- the MySQL connection configuration.

Each file is one module that follows one package of the program:

| file | module | package |
|---|---|---|
| wrappers.dfy | Wrappers | `Option` |
| strings.dfy | Strings | Go's `strings.Split`, `Cut`, `Index` and `Join` |
| numbers.dfy | Numbers | Go's `strconv.ParseUint`, `ParseInt`, `Atoi` and `Itoa` |
| dates.dfy | Dates | Go's `time.Parse` for the layouts "2006-01-02" and "02/01/2006" |
| model.dfy | Model | minder/model, validator-fmt and the validator tags |
| common.dfy | Common | common |
| repository.dfy | Repository | minder/repository |
| usecase.dfy | Usecase | minder/usecase |
| headers.dfy | Headers | header lookup |
| router.dfy | Router | delivery/http/router.go |
| handler.dfy | Handler | minder/delivery/http |
| auth.dfy | Auth | auth |
| utils.dfy | Utils | utils |
| viper.dfy | Viper | config/viper |
| mysql.dfy | Mysql | mysql |

## The model

**The store.** The repository is the class `Repository.MinderStore`. It holds the users
table and the swipe log as sequences, the next auto-increment id, today's date and an
`online` flag. When the flag is down, every statement fails, which stands for a database
that cannot be reached. Each method is proved equal to a function over a snapshot
`Tables`; the functions say what the SQL statement does. A ghost log `calls` records
every repository call. So the use case can state in order which calls it makes, and that
it makes no others.

**Affected rows.** MySQL reports changed rows, not matched rows, unless the DSN asks for
`clientFoundRows`, and the DSN built in mysql/mysql.go does not. So when a swipe sets an
action the row already has, `UpdateSwipe` affects 0 rows. When the user is already
upgraded, `UpgradeAccount` also affects 0 rows. Both then answer 500.

**Candidate choice.** The candidate query has `LIMIT 1` and no `ORDER BY`, so the model
takes the first eligible user in table order. A user is eligible when:

- they are of the other gender;
- they are not the viewer;
- they were not shown to the viewer today.

**The quota check shadows `err`.** In minder/usecase/minder_usecase_impl.go:101-113 the
view count is read with `:=`, which declares a new `err`. When the quota is used up, the
use case returns that `err`, and it is nil. `Usecase.QuotaDenialHasNoError` states this:
the answer is 500 with no error, and the handler writes it with the response's own 500 status.

**Handlers.** A handler receives the decoded request struct. Validation follows the tags
in minder/model/minder.go. Path ids go through `strconv.ParseUint(s, 0, 64)`. With base 0,
"010" reads as octal 8, and "09" fails and becomes 0 (`Handler.OctalPathIds`).

## Model

| member | source | states |
|---|---|---|
| Model.DateFormatValidator | validator-fmt/validatorfmt.go:9-13 | a date passes exactly when it is a real calendar date written "YYYY-MM-DD" |
| Dates.IsoParse | validator-fmt/validatorfmt.go:11 | parsing with the layout "2006-01-02" succeeds exactly on well-formed calendar dates, and yields that year, month and day |
| Dates.SlashParse | utils/utils.go:66-70 | parsing with the layout "02/01/2006" succeeds exactly on well-formed calendar dates, and yields that day, month and year |
| Model.RequiredTag | minder/model/minder.go:15-16 | `required` holds exactly when the field is not its zero value |
| Model.RequiredOneOfTags | minder/model/minder.go:9 | `required,oneof=…` holds exactly when the string is non-empty and one of the options |
| Model.DateOfBirthTagsMean | minder/model/minder.go:10 | the date-of-birth tags hold exactly when the value is non-empty and passes the date validator |
| Model.RegisterValidMeans | minder/model/minder.go:3-12 | a registration is valid exactly when every field is non-empty, the gender is "male" or "female" and the birth date is an ISO calendar date |
| Model.LoginValidMeans | minder/model/minder.go:14-17 | a login is valid exactly when the username and password are non-empty |
| Model.SwipeValidMeans | minder/model/minder.go:19-23 | a swipe is valid exactly when both ids are non-zero and the action is "like" or "pass" |
| Repository.FirstWhere | minder/repository/minder_repository_impl.go:31-44 | the index found is the first row satisfying the condition; none is found only when no row satisfies it |
| Repository.SelectLogin | minder/repository/minder_repository_impl.go:75-112 | a user comes back exactly when there is no error, and it matches the username and password; when the database is up and nothing matches, the error is "no user found" (with lines 23-24 of minder_repository_impl.go) |
| Repository.SelectUpgradeStatus | minder/repository/minder_repository_impl.go:132-161 | the lookup succeeds exactly when the database is up and the id exists, and the flag is that user's (with line 27 of minder_repository_impl.go) |
| Repository.SelectViewCount | minder/repository/minder_repository_impl.go:163-189 | when the database is up, the count is the number of swipe rows logged by the viewer today; otherwise there is an error and no count (with line 29 of minder_repository_impl.go) |
| Repository.ViewerGender | minder/repository/minder_repository_impl.go:31-44 | the viewer's gender is found exactly when some user has the id, and it is that user's gender |
| Repository.SelectTargetUser | minder/repository/minder_repository_impl.go:190-229 | a candidate comes back exactly when there is no error, and it is the first eligible user; when the database is up and the viewer exists, no candidate means no user is eligible (with lines 31-44 of minder_repository_impl.go) |
| Repository.UpgradeAll | minder/repository/minder_repository_impl.go:25 | the upgrade statement keeps the table's length and gives each row as `UpgradeEffect` says |
| Repository.DecideAll | minder/repository/minder_repository_impl.go:49 | the swipe update keeps the log's length and gives each entry as `UpdateSwipeEffect` says |
| Repository.MinderStore.constructor | minder/repository/minder_repository_impl.go:12-18 | a new store over an empty database: no rows, reachable, ids starting at 1 |
| Repository.MinderStore.Register | minder/repository/minder_repository_impl.go:58-73 | the reply and the new tables are those of inserting the user, and one register call is logged (with lines 21-22 of minder_repository_impl.go) |
| Repository.MinderStore.Login | minder/repository/minder_repository_impl.go:75-112 | the reply is the login select over the current tables, and one login call is logged |
| Repository.UpgradeRows | minder/repository/minder_repository_impl.go:113-130 | the pass over the user rows yields every row with the flag set where the id matches, and counts the rows whose flag was false (with line 25 of minder_repository_impl.go) |
| Repository.UpgradeKeepsValid | minder/repository/minder_repository_impl.go:25 | the upgrade keeps every id, so the ids stay positive, below the next id and increasing |
| Repository.MinderStore.UpgradeAccount | minder/repository/minder_repository_impl.go:113-130 | the changed-rows count and the new tables are those of the upgrade statement, and one upgrade call is logged (with line 25 of minder_repository_impl.go) |
| Repository.MinderStore.GetUserUpgradeStatus | minder/repository/minder_repository_impl.go:132-161 | the reply is the status select over the current tables, and one status call is logged |
| Repository.MinderStore.GetUserViewCount | minder/repository/minder_repository_impl.go:163-189 | the reply is today's view count, and one count call is logged |
| Repository.MinderStore.GetTargetUser | minder/repository/minder_repository_impl.go:190-229 | the reply is the candidate select, and one candidate call is logged |
| Repository.MinderStore.InsertSwipe | minder/repository/minder_repository_impl.go:231-245 | a pending row for the pair, dated today, is appended, and one insert call is logged (with lines 46-47 of minder_repository_impl.go) |
| Repository.DecideRows | minder/repository/minder_repository_impl.go:247-261 | the pass over the swipe rows sets the action on every row of the pair, and counts the rows whose action was different (with line 49 of minder_repository_impl.go) |
| Repository.MinderStore.UpdateSwipe | minder/repository/minder_repository_impl.go:247-261 | the changed-rows count and the new log are those of the update statement, and one update call is logged (with line 49 of minder_repository_impl.go) |
| Repository.TargetNotShownToday | minder/repository/minder_repository_impl.go:31-44 | a candidate was not shown to the viewer today |
| Repository.TargetNeverViewer | minder/repository/minder_repository_impl.go:31-44 | with unique ids, a candidate is never the viewer and is of the other gender |
| Repository.InsertExcludesTarget | minder/repository/minder_repository_impl.go:46-47 | after the insert, the same target is no longer eligible today |
| Repository.CountShownAppend | minder/repository/minder_repository_impl.go:29 | the view count of a longer log is the old count plus one exactly when the new row is the viewer's from today |
| Repository.InsertCountsOnce | minder/repository/minder_repository_impl.go:46-47 | an insert raises the inserting user's count for today by one and leaves other users' counts alone (with line 29 of minder_repository_impl.go) |
| Repository.CountShownDecideAll | minder/repository/minder_repository_impl.go:49 | setting actions does not change any view count (with line 29 of minder_repository_impl.go) |
| Repository.DecisionKeepsViewCount | minder/repository/minder_repository_impl.go:247-261 | a swipe update leaves every view count as it was |
| Repository.UpdateSwipeEffect | minder/repository/minder_repository_impl.go:247-261 | after the update, every row of the pair carries the action, and the other rows are unchanged (with line 49 of minder_repository_impl.go) |
| Repository.CountDecidableZero | minder/repository/minder_repository_impl.go:49 | when every row of the pair already has the action, no row changes |
| Repository.CountDecidablePositive | minder/repository/minder_repository_impl.go:49 | a row of the pair with another action makes the count at least one |
| Repository.DecisionWithoutRow | minder/repository/minder_repository_impl.go:247-261 | a swipe with no logged row affects nothing and changes nothing |
| Repository.RepeatedDecision | minder/repository/minder_repository_impl.go:247-261 | repeating the same swipe affects 0 rows |
| Repository.DecisionOverwrites | minder/repository/minder_repository_impl.go:49 | a row with another action is overwritten and counted |
| Repository.CountUpgradableZero | minder/repository/minder_repository_impl.go:25 | when the user is already upgraded, no row changes |
| Repository.CountUpgradableUnique | minder/repository/minder_repository_impl.go:25 | for a unique id, the count is 1 exactly when the user was not upgraded |
| Repository.UpgradeCountsOnce | minder/repository/minder_repository_impl.go:113-130 | upgrading a user who is not yet upgraded affects exactly one row |
| Repository.UpgradeEffect | minder/repository/minder_repository_impl.go:113-130 | the user with the id is upgraded, every other row is unchanged, and a second upgrade affects 0 rows |
| Repository.RegisterEffect | minder/repository/minder_repository_impl.go:58-73 | registering appends one user, with the next id and the request's fields, not upgraded, and the tables stay well-formed (with lines 21-22 of minder_repository_impl.go) |
| Repository.RegisterThenLogin | minder/repository/minder_repository_impl.go:58-112 | a fresh registration can log in with its username and password, and gets the new user's data back |
| Usecase.RowsAnswer | minder/usecase/minder_usecase_impl.go:23-43 | the answer is 200 exactly when there is no error and some row was affected, and 500 otherwise; the error is passed on (with lines 67-87 and 147-167 of minder_usecase_impl.go) |
| Usecase.LoginAnswer | minder/usecase/minder_usecase_impl.go:45-66 | the answer is 200 with the user exactly when the select found one without error, and 500 otherwise |
| Usecase.MinderUsecase.constructor | minder/usecase/minder_usecase_impl.go:15-21 | the use case keeps the store it is given |
| Usecase.MinderUsecase.Register | minder/usecase/minder_usecase_impl.go:23-43 | the answer comes from the insert's affected rows, and only the register call is made |
| Usecase.MinderUsecase.Login | minder/usecase/minder_usecase_impl.go:45-66 | the answer comes from the login select, and only the login call is made |
| Usecase.MinderUsecase.UpgradeAccount | minder/usecase/minder_usecase_impl.go:67-87 | the answer comes from the upgrade's changed rows, and only the upgrade call is made |
| Usecase.MinderUsecase.GetTargetUser | minder/usecase/minder_usecase_impl.go:88-146 | the answer, the new tables and the repository calls are those of the discovery function |
| Usecase.MinderUsecase.ServeCandidate | minder/usecase/minder_usecase_impl.go:115-145 | the candidate select, then the pending insert as the discovery function describes |
| Usecase.MinderUsecase.Swipe | minder/usecase/minder_usecase_impl.go:147-167 | the answer comes from the swipe update's changed rows, and only the update call is made |
| Usecase.DiscoverShape | minder/usecase/minder_usecase_impl.go:88-146 | a discovery answers 200 or 500, leaves the users alone, and starts with the status call |
| Usecase.StatusFailureStops | minder/usecase/minder_usecase_impl.go:89-99 | a failed status lookup answers 500 with its error, after that one call |
| Usecase.UpgradedSkipsQuota | minder/usecase/minder_usecase_impl.go:101-115 | an upgraded user's view count is never read, and the candidate select comes second |
| Usecase.QuotaDenies | minder/usecase/minder_usecase_impl.go:101-113 | a free user whose count is refused gets 500 after the status and count calls, and nothing is written |
| Usecase.QuotaDenialHasNoError | minder/usecase/minder_usecase_impl.go:101-113 | a free user already shown ten candidates today gets 500 with no error, and the tables stay as they were |
| Usecase.InsertOnlyForCandidate | minder/usecase/minder_usecase_impl.go:115-137 | a pending row is inserted only for the candidate that was just selected, and only right after the select |
| Usecase.PassedGates | minder/usecase/minder_usecase_impl.go:88-115 | once the status read succeeds and, for a free user, the quota lets the viewer through, the calls so far are the status call, plus the count call for a free user, and the rest is the target stage |
| Usecase.TargetStageCalls | minder/usecase/minder_usecase_impl.go:115-137 | the target stage first looks a candidate up and then makes at most one more call, the insert of a pending swipe for that candidate |
| Usecase.SuccessfulDiscovery | minder/usecase/minder_usecase_impl.go:115-145 | a 200 discovery found a candidate on a reachable database, and its tables are those after inserting that pair |
| Usecase.SuccessIsRecordedCandidate | minder/usecase/minder_usecase_impl.go:115-145 | a 200 answer carries the first eligible candidate, and that pair is now in the log |
| Usecase.DiscoveryKeepsQuota | minder/usecase/minder_usecase_impl.go:101-145 | for a free user, success means fewer than ten views before, one more after, and still at most ten |
| Usecase.NoRepeatSameDay | minder/usecase/minder_usecase_impl.go:115-137 | after a success, the same candidate is not eligible again today |
| Usecase.SwipeWithoutRowFails | minder/usecase/minder_usecase_impl.go:147-167 | a swipe on a pair that was never shown answers 500 with no error |
| Usecase.RepeatedSwipeFails | minder/usecase/minder_usecase_impl.go:147-167 | repeating a swipe answers 500 with no error |
| Usecase.ChangedSwipeSucceeds | minder/usecase/minder_usecase_impl.go:147-167 | a swipe that changes a logged row answers 200 |
| Usecase.UpgradeOnce | minder/usecase/minder_usecase_impl.go:67-87 | the first upgrade answers 200 and a second one 500 |
| Usecase.RegisterSucceeds | minder/usecase/minder_usecase_impl.go:23-43 | with the database up, a registration answers 200 |
| Headers.Get | delivery/http/router.go:110-119 | a header is the value stored under the canonical form of the name asked for, or "" when there is none |
| Headers.Canonical | delivery/http/router.go:111 | canonicalising keeps the length, and leaves a name holding a character outside the token set as it is |
| Headers.GetIgnoresCase | delivery/http/router.go:110-119 | names made of token characters that differ only in letter case read the same header |
| Headers.CanonicalIdempotent | delivery/http/router.go:111 | a canonical name is its own canonical form |
| Headers.LowerWordCanonical | auth/auth.go:100 | a lower-case word such as "authorization" is looked up with only its first letter upper case |
| Router.RoutePattern | delivery/http/router.go:56-58 | a route's expression is "^/minder", then the pattern, then "$" |
| Router.GetIPAddress | delivery/http/router.go:110-119 | X-Real-Ip when set, else X-Forwarded-For when set, else the remote address |
| Router.Param | delivery/http/router.go:61-71 | "" without captures, otherwise the capture at that index |
| Router.Router.constructor | delivery/http/router.go:19-34 | no routes, and the request variables are empty (with line 43 of router.go) |
| Router.Router.Route | delivery/http/router.go:56-59 | one route is appended, with the anchored "/minder" expression |
| Router.Router.Serve | delivery/http/router.go:73-108 | the dispatch, the last action and endpoint are those of the route scan; the client address and body are recorded |
| Router.ScanDispatches | delivery/http/router.go:84-107 | from route `i` on, dispatch happens exactly when a later route serves the request, to the first such route, with the captures after the whole match |
| Router.ScanRefuses | delivery/http/router.go:84-107 | without a dispatch the answer is 405 with the methods collected so far and those of the later routes whose path matched, or 404 when there are none |
| Router.ScanOutcome | delivery/http/router.go:84-107 | dispatch happens exactly when some route matches the path and method, to the first such route, with the captures after the whole match; otherwise 405, allowing the methods of the routes whose path matched, in order, or 404 when none matched |
| Router.AllowFromEmpty | delivery/http/router.go:86-95 | no method is allowed exactly when no remaining route matches the path |
| Router.NotFoundExactly | delivery/http/router.go:102-107 | the answer is 404 exactly when no route matches the path |
| Router.LaterExactMatchWins | delivery/http/router.go:86-98 | a route with a matching path but another method does not stop a later route that serves the request |
| Handler.GetParamUint64 | minder/delivery/http/minder_handler.go:172-179 | the id fits 64 bits; it is the parsed value, or 0 when parsing fails |
| Handler.Respond | minder/delivery/http/minder_handler.go:33-62 | the body is the use case's response; the status is 500 when there is an error, and the response's own status otherwise |
| Handler.MinderHandler.constructor | minder/delivery/http/minder_handler.go:21-31 | the handler keeps its use case |
| Handler.MinderHandler.Register | minder/delivery/http/minder_handler.go:33-62 | what is written, the new tables and the repository calls are those of the register handler function |
| Handler.MinderHandler.Login | minder/delivery/http/minder_handler.go:64-92 | the same, for the login handler function |
| Handler.MinderHandler.UpgradeAccount | minder/delivery/http/minder_handler.go:94-116 | the same, for the upgrade handler function |
| Handler.MinderHandler.GetTargetUser | minder/delivery/http/minder_handler.go:118-140 | the same, for the discovery handler function |
| Handler.MinderHandler.Swipe | minder/delivery/http/minder_handler.go:142-170 | the same, for the swipe handler function |
| Handler.NewMinderHandler | minder/delivery/http/minder_handler.go:21-31 | the five routes are appended in order with their methods, patterns and action names, after the existing routes |
| Handler.InvalidBodiesRejected | minder/delivery/http/minder_handler.go:33-62 | an invalid register, login or swipe body is answered 400 with no repository call (with lines 64-92 and 142-170 of minder_handler.go) |
| Handler.ZeroIdRejected | minder/delivery/http/minder_handler.go:94-140 | a path id that does not parse, or is 0, is answered 400 with no repository call |
| Handler.OctalPathIds | minder/delivery/http/minder_handler.go:172-179 | "010" reads as 8, "09" and "0" as 0, "12" as 12, and a missing capture as 0 |
| Handler.RespondWellWritten | minder/delivery/http/minder_handler.go:33-62 | an answer that is 200 or 500 is written with a matching status and code |
| Handler.BodyHandlerStatuses | minder/delivery/http/minder_handler.go:33-92 | the register, login and swipe handlers write 200 with the success envelope, 400 or 500 (with lines 145-170 of minder_handler.go) |
| Handler.PathHandlerStatuses | minder/delivery/http/minder_handler.go:94-143 | the upgrade and discovery handlers write 200 with the success envelope, 400 or 500 |
| Handler.HandlerStatuses | minder/delivery/http/minder_handler.go:33-170 | every handler writes 200, 400 or 500 with the matching response code and message |
| Handler.DiscoveryWritten | minder/delivery/http/minder_handler.go:118-140 | a 200 from the discovery handler carries the first eligible candidate for the parsed id |
| Auth.ExtractTokenFromAuthHeader | auth/auth.go:32-40 | a token exists exactly when the header has a space and the scheme before it is "bearer" in any case; the token is the rest after the first space |
| Auth.ExtractPayloadFromToken | auth/auth.go:42-49 | a payload exists exactly when the token has three dot-separated segments, and it is the middle one |
| Auth.WithUserInfoClaims | auth/auth.go:51-64 | claims that decode are stored in the context; otherwise the context is unchanged |
| Auth.UserInfoRoundTrip | auth/auth.go:126-140 | stored user info reads back as is; an empty context reads as the zero value and false |
| Auth.BearerTokenPayload | auth/auth.go:32-49 | "Bearer head.payload.sig" yields the token and then exactly its middle segment |
| Auth.BearerToken | auth/auth.go:32-40 | a bearer scheme, a space and a token yield exactly that token |
| Auth.ThreeSegments | auth/auth.go:42-49 | three dot-free segments joined by dots yield the middle one |
| Auth.JwtPayloadHeaderFirst | auth/auth.go:96-104 | when `Get` finds a non-empty jwtpayload header, that value is decoded verbatim, whatever the authorization header says |
| Auth.StoredJwtPayloadFirst | auth/auth.go:96-104 | a non-empty header stored as net/http stores it, "Jwtpayload", is decoded verbatim |
| Auth.AuthHeaderNames | auth/auth.go:100-104 | the two names are read from the canonical keys "Jwtpayload" and "Authorization" |
| Auth.PayloadHeaderName | auth/auth.go:100 | "jwtpayload" canonicalises to "Jwtpayload" |
| Auth.AuthorizationHeaderName | auth/auth.go:104 | "authorization" canonicalises to "Authorization" |
| Auth.CanonicalBearerRequest | auth/auth.go:95-122 | a request with a canonical "Authorization: Bearer h.p.s" header and no payload header gets the decoded middle segment |
| Auth.WithUserInfoRequestContext | auth/auth.go:95-122 | the headers and the metadata stay; the user info stays or becomes something the decoder produced |
| Auth.WithUserInfoContext | auth/auth.go:66-92 | the metadata stays; the user info stays or becomes something the decoder produced; only the entry that is read must have a value |
| Auth.UserInfoFromContext | auth/auth.go:125-134 | true exactly when user info is stored, with that info; otherwise the zero value |
| Auth.WithUserInfo | auth/auth.go:137-139 | the context then holds the given user info, and the metadata stays |
| Auth.MalformedHeadersKeepRequest | auth/auth.go:96-123 | without a usable header, or with claims that do not decode, the request is unchanged |
| Auth.MetadataOtherSchemeDecodesEmpty | auth/auth.go:66-92 | in the metadata variant, a non-bearer authorization value leads to decoding an empty payload |
| Numbers.ParseUint | minder/delivery/http/minder_handler.go:172-179 | the value fits 64 bits; on error it is 0 or the maximum; the empty string is a syntax error |
| Numbers.ParseUintDecimal | minder/delivery/http/minder_handler.go:172-179 | a digit string not starting with '0' reads as its decimal value, or as the maximum with a range error when too large |
| Numbers.ParseUintOctal | minder/delivery/http/minder_handler.go:172-179 | a '0' followed by octal digits reads in base 8, or as the maximum with a range error |
| Numbers.ParseInt | utils/utils.go:48 | the value is within int64; a syntax error gives 0 and a range error a limit; a negative value needs a leading '-' (with line 62 of utils.go) |
| Numbers.Atoi | utils/utils.go:48 | the value is within int64; a syntax error gives 0 and a range error a limit; a negative value needs a leading '-' (with line 62 of utils.go) |
| Numbers.Itoa | utils/utils.go:54 | non-empty decimal digits, after a '-' exactly when the number is negative |
| Numbers.AtoiItoa | utils/utils.go:82-84 | reading any 64-bit integer's decimal text gives it back |
| Numbers.AtoiDigits | utils/utils.go:48 | a digit string reads as its value, or as the maximum with a range error when too large (with line 62 of utils.go) |
| Numbers.AtoiRejectsStray | utils/utils.go:48 | a character that is not a digit, away from a leading sign, makes the conversion fail (with line 62 of utils.go) |
| Numbers.DecimalOfDigits | utils/utils.go:54 | formatting the value of a digit string without a leading zero gives the string back |
| Utils.TrimPhoneNumberZeroPrefix | utils/utils.go:46-57 | an error comes with ""; a number not starting with '0' is kept; otherwise the result is "62" followed by digits |
| Utils.ConvertStringToInt | utils/utils.go:59-64 | the value is never negative and at most the int64 maximum; a syntax error gives 0 and a range error the maximum |
| Utils.PhoneWithoutZeroKept | utils/utils.go:46-57 | a number that does not start with '0' is returned as is |
| Utils.PhoneZerosReplaced | utils/utils.go:46-57 | leading zeros become "62", followed by the rest ("0" when only zeros were given) |
| Utils.PhoneWithStrayFails | utils/utils.go:46-57 | a number with a zero prefix and a non-digit fails with "" |
| Utils.PhoneOverflowFails | utils/utils.go:46-57 | a zero-prefixed number beyond 64 bits fails with a range error |
| Utils.DigitsAndDots | utils/utils.go:60-61 | only digits and dots remain, and nothing is added |
| Utils.DigitsAndDotsAppend | utils/utils.go:60-61 | the filter works piece by piece |
| Utils.ConvertWithDotFails | utils/utils.go:59-64 | a dot in the input makes the conversion fail |
| Utils.ConvertWithoutDigitsFails | utils/utils.go:59-64 | an input with no digit or dot is 0 with a syntax error |
| Utils.ConvertDigitsOnly | utils/utils.go:59-64 | the digits alone decide the result, which is never negative |
| Utils.ValidationTransactionDate | utils/utils.go:66-70 | a date passes exactly when it is a real calendar date written "DD/MM/YYYY" |
| Utils.ConvertInt64ToString | utils/utils.go:82-84 | reading the text back gives the number |
| Utils.GetStringInBetween | utils/utils.go:113-124 | "" when the start marker is absent, and "" when the end marker does not follow it |
| Utils.FirstOccurrence | utils/utils.go:113-124 | the index of a marker is its earliest occurrence |
| Utils.TakeBetween | utils/utils.go:113-124 | the result is the text after the start marker up to the end marker's first occurrence in what follows |
| Utils.InBetween | utils/utils.go:113-124 | the text between the first start marker and the first end marker after it |
| Utils.CheckStringInSlice | utils/utils.go:126-134 | true exactly when the string is an element |
| Utils.CheckSliceInSlice | utils/utils.go:136-146 | true exactly when the slices share an element |
| Utils.OverlapSymmetric | utils/utils.go:136-146 | the answer does not depend on the order of the arguments |
| Viper.CombineAllPath | config/viper/viper.go:93-99 | the lists, one after another |
| Viper.FlattenTwo | config/viper/viper.go:78-81 | two lists combine into the first followed by the second |
| Viper.Config.constructor | config/viper/viper.go:70-72 | the loaded settings, with no root key, format or additional paths (with line 86 of viper.go) |
| Viper.Config.Apply | config/viper/viper.go:38-68 | one option changes the config as `ApplyOption` says, and the data stays |
| Viper.NewConfig | config/viper/viper.go:70-90 | the options are applied in order, and the files are the given path followed by the additional paths |
| Viper.ApplyOptionRootKey | config/viper/viper.go:38-44 | one option extends the root key by its prefix and a dot, or by nothing |
| Viper.RootKeyAccumulates | config/viper/viper.go:38-44 | the root key is each non-empty prefix followed by a dot, in option order |
| Viper.KVVersion2Prefix | config/viper/viper.go:57-59 | `WithKVVersion2` adds "data." to the root key |
| Viper.EmptyOptionsChangeNothing | config/viper/viper.go:38-68 | an empty prefix, path list or format changes nothing |
| Viper.Config.Get | config/viper/viper.go:162-164 | a value is found exactly when one is stored under the root key plus the key |
| Viper.Config.GetString | config/viper/viper.go:172-174 | the string under the root key plus the key, or "" when absent |
| Viper.Config.GetInt | config/viper/viper.go:167-169 | the integer under the root key plus the key, or 0 when absent |
| Viper.Config.GetBool | config/viper/viper.go:177-179 | the flag under the root key plus the key, or false when absent |
| Viper.Config.GetFloat | config/viper/viper.go:182-184 | the number under the root key plus the key, or 0 when absent |
| Viper.Config.GetArray | config/viper/viper.go:206-214 | nothing for an empty value; otherwise pieces without ',' that join back to the value, one more than its commas |
| Viper.Config.GetMap | config/viper/viper.go:218-232 | the map built from the ','-separated elements of the string `GetString` finds under the root key plus the key |
| Viper.MapUnderDoubleRootKey | config/viper/viper.go:219 | the string is the one stored under the root key twice, then the key; an absent key gives an empty map (with lines 172-174 of viper.go) |
| Viper.MapElementSplitsAtFirstColon | config/viper/viper.go:226-228 | "k:v" maps k to everything after the first ':', even when v has ':' in it |
| Viper.MapLaterWins | config/viper/viper.go:225-230 | a later element overwrites an earlier one with the same key |
| Viper.MapSkipsWithoutColon | config/viper/viper.go:225-230 | an element without ':' adds nothing to the map |
| Viper.EmptyMap | config/viper/viper.go:219-231 | an empty setting gives an empty map |
| Viper.MapKeyOfLast | config/viper/viper.go:225-230 | the last element adds its key, when it names one, to the keys of the earlier elements |
| Viper.MapKeyNamed | config/viper/viper.go:225-230 | an element with a ':' puts the text before its first ':' among the map's keys |
| Viper.MapKeyWitness | config/viper/viper.go:225-230 | every key of the map comes from an element that names it |
| Viper.MapKeys | config/viper/viper.go:225-230 | a key is in the map exactly when some element has it before its first ':' |
| Viper.Config.GetCredentials | config/viper/viper.go:248-256 | the user and password strings under "key.user" and "key.password" |
| Mysql.Config.constructor | mysql/mysql.go:22-35 | the caller's connection fields, and every other field zero |
| Mysql.Config.SetDefaults | mysql/mysql.go:84-90 | the configuration after `defaults` |
| Mysql.Config.Apply | mysql/mysql.go:92-116 | one option changes the configuration as `ApplyOption` says |
| Mysql.DB | mysql/mysql.go:38-63 | defaults, then the options in order; a set error returns before opening; otherwise the pool gets the final driver, DSN and limits |
| Mysql.DefaultsSet | mysql/mysql.go:84-90 | limits 10, 10 and three minutes, driver "mysql", and a DSN ending "?loc=Asia%2FJakarta&parseTime=1" (with lines 11-20 of mysql.go) |
| Mysql.ConnectionOverridesPositive | mysql/mysql.go:92-107 | each limit is replaced exactly when its argument is positive, and nothing else changes |
| Mysql.MysqlIgnoresServerName | mysql/mysql.go:109-116 | the server name plays no part, and the DSN is rebuilt from the connection fields |
| Mysql.MysqlDSN | mysql/mysql.go:65-80 | the DSN starts with the connection string; it is exactly that when there is no query, and otherwise '?' follows it |
| Mysql.DSNParseTimeOnly | mysql/mysql.go:65-80 | with parseTime and no location the query is exactly "parseTime=1" |
| Mysql.DSNLocationOnly | mysql/mysql.go:65-80 | with a location and no parseTime the query is "loc=" and the escaped location |
| Mysql.DSNBoth | mysql/mysql.go:65-80 | with both, "loc" and the escaped location come before "&parseTime=1" |
| Mysql.DSNShapes | mysql/mysql.go:65-80 | "user:password@tcp(host:port)/name", with no '?' when there is no query, and otherwise "loc" before "parseTime" |
| Mysql.KeysUnreserved | mysql/mysql.go:65-80 | the query keys "loc" and "parseTime" and the value "1" escape to themselves |
| Mysql.EscapeUnreserved | mysql/mysql.go:79 | letters, digits and "-_.~" escape to themselves |
| Mysql.QueryEscapeAppend | mysql/mysql.go:79 | escaping works piece by piece |
| Mysql.DefaultLocationEscaped | mysql/mysql.go:89 | the default location is written "Asia%2FJakarta" |
| Mysql.OptionsKeepErrAndConnection | mysql/mysql.go:92-116 | no option sets the error or changes the connection fields |
| Mysql.OpenWithoutError | mysql/mysql.go:45-62 | with no error set, `DB` fails only when opening does; otherwise it returns the pool with its final settings |
| Mysql.LastMysqlWins | mysql/mysql.go:109-116 | the last `WithMysql` decides the DSN |

## Left out

- The database driver, prepared statements, row scanning and `sql.Open` are not modelled. The
  tables are sequences. A failure to reach the database is the `online` flag, and it fails
  every statement alike.
- `CURDATE()` becomes the store's `today` field, set with `SetToday`. Time zones are not modelled.
- Concurrency is not modelled: no races between requests, no viper goroutines or watchers
  (`init`, `updateConfig`, `Watch`, `Close`). The router's package variables are plain fields.
- The regular expression engine is a `matcher` parameter of `Router.Router.Serve`.
- Base64 and JSON decoding of token claims are a `decode` parameter of the auth functions.
- JSON decoding of request bodies is not modelled: a handler receives the decoded struct.
  The source only logs a decoding error and validates whatever was decoded, so the struct
  given to the model stands for that.
- Headers.Get: the map holds one value per name, the first, as `Header.Get` returns it.
  Repeated headers are not modelled.
- The writing of HTTP responses, logging, `ResponseWrite` and the middleware are not modelled.
- Router.Param: the source panics when the index is past the captures. The model requires an
  index in range instead.
- Auth.WithUserInfoContext: the source panics when the entry it indexes has no values: the
  "jwtpayload" entry when present, and otherwise the "authorization" entry. The model requires
  a value in that entry only.
- Viper.Config.Get, GetString, GetInt, GetBool, GetFloat, GetArray, GetMap and GetCredentials:
  viper lower-cases the key it looks up, and its stored keys are lower case. The model looks up
  the root key plus the key exactly, so it stands for keys already written in lower case.
- Viper.Config.GetString, GetInt, GetBool and GetFloat: a value stored as another kind reads
  as the zero value. Viper's cross-kind casts are not modelled.
- `GetBinary` (base64 decoding) and `GetTLSCertificate` are not part of this model.
- Loading configuration files is not modelled: `NewConfig` receives the settings viper
  delivers first.
- Mysql.DB: opening the database is an `openError` parameter. `maxIdleTime` is kept in the
  configuration but never reaches the `Pool` value, as in the source.
- The time helpers (`ConvertStringToTime`, `RemoveDetailTime`, `ConvertTimeToString`,
  `ConvertTimeToDateString`, `ConvertDateTimeGray`, `ConvertStringToDate`,
  `ConvertTimeToDateStringSlash`) and `GenerateRandom` use clocks, randomness or time
  formatting, and are not modelled.
- Numbers: `int` is taken to be 64 bits, as on the platforms the service targets.
- main.go, config/secret.go and the interface files are context and are not modelled beyond
  the repository calls they declare.
