# Dashboard client core in Dafny

This project models the logic of a React learning-platform dashboard and proves properties of that model. At its centre is `AuthService`, the authenticated HTTP client:

- two cookie slots hold the access and refresh tokens;
- an expiry check with a five-minute margin decides when the access token must be renewed;
- a single-flight refresh sends at most one `POST /auth/refresh` at a time, however many callers need it;
- a request interceptor attaches or refreshes the bearer token before a request leaves;
- a response interceptor refreshes and retries once after a 401;
- `request` maps errors, and the `get`/`post`/`put`/`delete`/`postFormData` facade methods sit on top.

Beside the client, the project models small pieces of logic from the feature pages:

- the course-content page: the duration label, the video and duration totals, and the accordion toggle;
- the chat page: the message and group updaters, sending, acknowledgements, and grouping by day;
- the create-course form: the schema rules, the `FormData` fields, and the check of the server's reply;
- the sign-in page: OTP normalisation and the send-OTP, verify and complete-profile flow;
- the video player's URL builder;
- the sidebar's role filter.

Modules:

- `Wrappers`: the `Option` and `Result` types.
- `Seqs`: a model of `Array.prototype.filter` with its lemmas, plus `reduce` as a sum and the subsequence relation.
- `Strings`: a model of the JavaScript string operations the code uses. These are the `\d` digit class, `${n}` rendering of integers, `trim`, `startsWith`, `split(',')` and `join`.
- `AuthTokens`: the credential state machine, written over values. It covers the cookie store, `isTokenExpired`, and the `refreshPromise` slot with its begin, attach and settle transitions.
- `AuthPipeline`: the two interceptors, the error mapping and the facade configs. It also follows the life of one caller-issued request through these stages, as a sequence of events.
- `AuthClient`: the `AuthService` class. Its fields are the cookies, `refreshPromise` and the redirect flag. Each method's contract is the matching `AuthTokens`/`AuthPipeline` transition, and each method keeps the single-flight invariant `Valid()`.
- `CourseContent`, `Chats`, `CreateCourse`, `SignIn`, `VideoPlayer`, `AppSidebar`: one module per feature file.

The model follows the code of `src/services/AxiosInterceptor.tsx` as written. Five of its behaviours are easy to misread:

- **A refresh with no refresh token leaves the slot occupied.** The executor passed to `new Promise(...)` (line 109) throws at line 113 before its first `await`. Its `catch` (lines 131-134) and `finally` (line 136) therefore run while the constructor is still running, and only then does the assignment on line 109 store the already rejected promise. Every later refresh attaches to that promise (line 103) and fails with its error without sending an exchange. `AuthTokens.BeginRefresh` and `AuthTokens.MissingRefreshTokenSticks` model this. It is the second row of "## Findings".
- **A caller that attaches to a pending refresh does not get its token.** Line 106 returns `await this.refreshPromise`, which reads the field after the `finally` of line 136 has set it to `null`. `AuthTokens.Received` models this. It is the first row of "## Findings".
- **After a 401, a failed refresh rejects with the refresh error.** The `catch` of lines 73-75 logs out and rejects with `refreshError`, not with the original 401.
- **`request` maps only two statuses.** Status 404 and status 500 get their own message (lines 188-193). Every other error, 502 included, is rethrown unchanged (line 195).
- **The retry passes through the request interceptor again.** `this.api(originalRequest)` (line 71) re-reads the cookie in the request interceptor (line 40). An `exp` of 0 counts as missing, because line 86 tests `!decoded.exp`.

## Model

| member | source | states |
|---|---|---|
| AuthTokens.StoreRoundTrip | src/services/AxiosInterceptor.tsx:143-179 | from any state, `setTokens(a, r)` makes the getters return `a` and `r`, and `getToken()` holds iff `a` is non-empty; a `logout()` after it empties both cookies so `getToken()` is false; a `logout()` before it leaves no trace in what `setTokens` stores |
| AuthTokens.IsTokenExpired | src/services/AxiosInterceptor.tsx:83-100 | a token that does not decode is expired; the token is not expired exactly when `exp` is present, non-zero and `exp >= now + 300` seconds, so the comparison is strict |
| AuthTokens.ExpiryIsMonotonic | src/services/AxiosInterceptor.tsx:88-89 | a token that counts as expired at some time also counts as expired at any later time |
| AuthTokens.ExpiryMarginExample | src/services/AxiosInterceptor.tsx:89 | `exp = 1000` is expired at second 800 and not at second 600; second 700 sits exactly on the strict boundary |
| AuthTokens.WithTokens | src/services/AxiosInterceptor.tsx:143-152 | `setTokens` overwrites both cookies and touches nothing else |
| AuthTokens.Logout | src/services/AxiosInterceptor.tsx:175-179 | `logout` empties both cookies, sets the redirect, and leaves the refresh slot alone |
| AuthTokens.LogoutIdempotent | src/services/AxiosInterceptor.tsx:170-179 | logging out twice is logging out once |
| AuthTokens.BeginRefresh | src/services/AxiosInterceptor.tsx:102-141 | an exchange is sent iff the slot is empty and a truthy refresh token is stored, and it uses that token; a pending slot is joined without an exchange; a rejected slot fails with its error; a missing refresh token logs out and leaves a rejected promise in the slot; the single-flight invariant is kept |
| AuthTokens.SettleRefresh | src/services/AxiosInterceptor.tsx:116-137 | success iff the reply carries both tokens, which are then stored, with the access token as the result; otherwise nothing is stored, both cookies are cleared, the page is sent to login, and the error is the request error or "Invalid response …"; the slot is emptied either way |
| AuthTokens.Received | src/services/AxiosInterceptor.tsx:103-106 | what one waiting caller's `refreshAccessToken()` yields: the caller that sent the exchange gets the shared outcome; a caller that attached gets the same rejection, but on success it gets `null`, a falsy token |
| AuthTokens.BeginRefreshCleared | src/services/AxiosInterceptor.tsx:109-138 | corrected begin step: with no refresh token the caller logs out and fails, and the slot is left empty; every other case is `BeginRefresh`; the invariant is kept |
| AuthTokens.PendingAbsorbsCallers | src/services/AxiosInterceptor.tsx:103-107 | any number of callers arriving while a refresh is pending all attach to it, and no exchange is sent |
| AuthTokens.SingleFlight | src/services/AxiosInterceptor.tsx:102-141 | of `n` callers needing a refresh while none runs, exactly one exchange is sent, by the first caller; the other `n - 1` attach to it |
| AuthTokens.BeginMany | src/services/AxiosInterceptor.tsx:102-141 | `n` callers reaching `refreshAccessToken` one after another each get a begin; the exchanges sent never decrease, and from a state satisfying the invariant at most one is added and the invariant is kept |
| AuthTokens.MissingRefreshTokenSticks | src/services/AxiosInterceptor.tsx:109-138 | with no refresh token, the slot keeps the rejected promise; even after new tokens are stored, the next refresh fails with the same error and sends nothing |
| AuthTokens.ClearedSlotRecovers | src/services/AxiosInterceptor.tsx:109-138 | with the corrected begin step, a missing refresh token fails only that call: once new tokens are stored, the next call sends an exchange with the new refresh token |
| AuthPipeline.WithAuthorization | src/services/AxiosInterceptor.tsx:45-48 | attaching a token sets `Authorization: Bearer <token>` and changes nothing else in the config |
| AuthPipeline.RequestInterceptor | src/services/AxiosInterceptor.tsx:38-54 | the pre-flight stage sends an exchange only for a stored, truthy, expired token; a config that proceeds is the same request, with at most its Authorization header changed; a waiting config is unchanged and the slot is pending; the single-flight invariant is kept |
| AuthPipeline.PreFlightCases | src/services/AxiosInterceptor.tsx:40-51 | no stored token: the config goes out unchanged and nothing is refreshed; a valid token: it goes out as bearer and nothing is refreshed; an expired token: a refresh begins or is joined, and the request fails exactly when that begin fails |
| AuthPipeline.ResumeRequest | src/services/AxiosInterceptor.tsx:43-46 | after the awaited refresh, a failure fails the request with the refresh error; a truthy new token is attached as bearer, and the request is otherwise unchanged |
| AuthPipeline.ResponseInterceptor | src/services/AxiosInterceptor.tsx:56-80 | a success passes through unchanged; the retry cycle starts iff the reply is a 401, `_retry` is unset, and the refresh does not fail at once; the retried config has `_retry` set; other errors, and 401s on already-retried configs, are rejected unchanged; when the refresh fails at once the service logs out and rejects with the refresh error |
| AuthPipeline.ResumeResponse | src/services/AxiosInterceptor.tsx:64-78 | the request is re-sent iff the refresh yields a truthy token, and it goes with that bearer and is otherwise the same request; a failed refresh logs out and rejects with the refresh error |
| AuthPipeline.MapError | src/services/AxiosInterceptor.tsx:182-197 | status 404 becomes "Resource not found", exactly 500 becomes "Internal server error", and every other error is rethrown unchanged |
| AuthPipeline.OnlyTwoStatusesMapped | src/services/AxiosInterceptor.tsx:187-195 | 502, 401, an error without a response, and plain errors all reach the caller unchanged |
| AuthPipeline.WithDefaults | src/services/AxiosInterceptor.tsx:27-32 | the instance's JSON content type applies only where the config sets none; the config's own headers win |
| AuthPipeline.Enter | src/services/AxiosInterceptor.tsx:38-54 | a config that proceeds goes on the wire with one more send; a waiting config keeps the sends and records whether the refresh was joined; a failed pre-flight rejects with `MapError` of the error |
| AuthPipeline.NewAttempt | src/services/AxiosInterceptor.tsx:182-184 | a new request starts undispatched with zero sends, and its config is the caller's with the instance defaults applied |
| AuthPipeline.Step | src/services/AxiosInterceptor.tsx:38-80 | a settled request stays settled; on the wire, a 2xx reply resolves with its body and any error other than a first 401 rejects with `MapError` of it; a first 401 either logs out and rejects with the refresh error when the refresh fails at once, or waits for the refresh with `_retry` set, noting whether it joined one already pending; after a pre-flight wait a failure rejects with the refresh error and a success sends the request once more; after a retry wait a failure logs out and rejects, and `null` rejects with the original 401; every step keeps the single-flight invariant |
| AuthPipeline.StepKeepsAttemptInv | src/services/AxiosInterceptor.tsx:62-71 | each step keeps the send budget: one send until `_retry` is set, two after |
| AuthPipeline.Run | src/services/AxiosInterceptor.tsx:182-196 | a request that has settled ignores further events, and running any events keeps the single-flight invariant |
| AuthPipeline.AtMostTwoSends | src/services/AxiosInterceptor.tsx:62-78 | whatever the server and the refresh endpoint answer, a caller-issued request is sent at most twice, and the single-flight invariant holds throughout |
| AuthPipeline.SecondUnauthorizedIsFinal | src/services/AxiosInterceptor.tsx:62-78 | a 401 on an already-retried request ends it with that 401, with no state change and no further send |
| AuthPipeline.StepAll | src/services/AxiosInterceptor.tsx:38-80 | one event delivered to each of several requests in turn gives one new state per request and keeps the single-flight invariant |
| AuthPipeline.RequestResolvesWithReply | src/services/AxiosInterceptor.tsx:182-196 | a request dispatched with a missing or valid token and then answered: a 2xx reply resolves with its body after one send and no state change; any error but a first 401 rejects with `MapError` of it; 404 gives "Resource not found" and 500 "Internal server error" |
| AuthPipeline.DispatchWhilePending | src/services/AxiosInterceptor.tsx:40-43 | callers dispatching with an expired token while a refresh is pending all wait for it; none is sent, and no exchange is added |
| AuthPipeline.SettleWaiters | src/services/AxiosInterceptor.tsx:102-141 | as written: the shared refresh settles and each waiting request resumes, in turn, with what its own `refreshAccessToken()` returns; one result per request, invariant kept |
| AuthPipeline.SettleWaitersShared | src/services/AxiosInterceptor.tsx:102-141 | corrected handoff: every waiting request resumes with the outcome of the shared promise; one result per request, invariant kept |
| AuthPipeline.JoinersMissToken | src/services/AxiosInterceptor.tsx:43-46 | as written, after a successful refresh: the waiting request that sent the exchange goes on the wire with the new token as bearer; every request that joined it goes on the wire with its config unchanged, so with no new Authorization header |
| AuthPipeline.SharedTokenReachesAll | src/services/AxiosInterceptor.tsx:43-46 | with the corrected handoff, every request waiting on one successful refresh goes on the wire with the new token as bearer, otherwise the same request |
| AuthPipeline.ConcurrentExpiredCallers | src/services/AxiosInterceptor.tsx:38-141 | `n >= 1` concurrent callers with an expired stored token: the first sends the one exchange and waits for it, and the others join it; the exchange's own request then finds the same expired token and joins that refresh too, at any later time |
| AuthPipeline.UnauthorizedWhilePending | src/services/AxiosInterceptor.tsx:62-65 | requests answered 401 while a refresh is pending all set `_retry`, join it and wait; no exchange is added |
| AuthPipeline.FirstUnauthorizedSendsOthersJoin | src/services/AxiosInterceptor.tsx:62-65 | requests answered 401 while no refresh runs: the first sends the one exchange and waits for it; the others set `_retry` and join it |
| AuthPipeline.RetryJoinersGiveUp | src/services/AxiosInterceptor.tsx:65-78 | as written: requests that joined the refresh after a 401 get `null` when it succeeds and are rejected with their own 401 |
| AuthPipeline.PosterRetriesOthersGiveUp | src/services/AxiosInterceptor.tsx:65-78 | as written, once the refresh succeeds: the request that sent the exchange is sent again with the new bearer; every other request is rejected with its own 401; the state does not change |
| AuthPipeline.RefreshSettlesRetryCycle | src/services/AxiosInterceptor.tsx:102-141 | from the state the 401s left, a successful exchange makes the first request go out a second time with the new bearer and rejects every other one with its 401 after one send |
| AuthPipeline.ConcurrentUnauthorizedCallers | src/services/AxiosInterceptor.tsx:56-141 | as written, concurrent requests all answered 401: one exchange is sent, and its own request goes out when the stored token is missing or valid; after it succeeds, the first request is sent again with the new bearer and every other request is rejected with its own 401 |
| AuthPipeline.RefreshExchangeWaitsOnItself | src/services/AxiosInterceptor.tsx:38-80 | while its own refresh is pending, the refresh `POST` waits on that refresh: its pre-flight joins it exactly when the stored token is truthy and expired, and a 401 answer joins it as well |
| AuthPipeline.GetConfig | src/services/AxiosInterceptor.tsx:200-202 | `get` sets the method and url and keeps everything else in the caller's config |
| AuthPipeline.PostConfig | src/services/AxiosInterceptor.tsx:204-210 | `post` sets the method, url and body, and keeps the caller's headers and retry flag |
| AuthPipeline.PutConfig | src/services/AxiosInterceptor.tsx:212-218 | `put` sets the method, url and body, and keeps the caller's headers and retry flag |
| AuthPipeline.DeleteConfig | src/services/AxiosInterceptor.tsx:220-222 | `delete` sets the method and url and keeps everything else in the caller's config |
| AuthPipeline.PostFormDataConfig | src/services/AxiosInterceptor.tsx:235-253 | `postFormData` is `post` of the form, except that its headers are the caller's with `Content-Type` set to multipart |
| AuthPipeline.FormUploadIsMultipartPost | src/services/AxiosInterceptor.tsx:235-253 | `postFormData` is `post` with a multipart content type that beats the JSON default; the caller's other headers are kept |
| AuthPipeline.FormUploadWithoutToken | src/services/AxiosInterceptor.tsx:235-253 | with no stored token, a form upload is sent at once, with no Authorization header and no refresh |
| AuthClient.AuthService.constructor | src/services/AxiosInterceptor.tsx:22-35 | a new service has empty cookies, an empty slot, and satisfies the invariant |
| AuthClient.AuthService.SetTokens | src/services/AxiosInterceptor.tsx:143-168 | the fields become `WithTokens` of the old state; afterwards the getters return the pair, and `getToken()` holds iff the access token is non-empty |
| AuthClient.AuthService.GetAccessToken | src/services/AxiosInterceptor.tsx:154-156 | `getAccessToken()` is the stored access cookie, absent when there is none |
| AuthClient.AuthService.GetRefreshToken | src/services/AxiosInterceptor.tsx:158-160 | `getRefreshToken()` is the stored refresh cookie, absent when there is none |
| AuthClient.AuthService.GetToken | src/services/AxiosInterceptor.tsx:162-168 | `getToken()` holds iff an access cookie is stored and it is non-empty |
| AuthClient.AuthService.ClearTokens | src/services/AxiosInterceptor.tsx:154-173 | both cookies are removed, the getters return nothing, `getToken()` is false, and nothing else changes |
| AuthClient.AuthService.Logout | src/services/AxiosInterceptor.tsx:175-179 | the fields become `Logout` of the old state |
| AuthClient.AuthService.RefreshAccessToken | src/services/AxiosInterceptor.tsx:102-141 | the fields and the result are `BeginRefresh` of the old state; on the no-refresh-token path the slot is emptied and then overwritten with the rejected promise; the invariant is kept |
| AuthClient.AuthService.SettleRefresh | src/services/AxiosInterceptor.tsx:116-137 | the fields and the outcome are `SettleRefresh` of the old state and the reply |
| AuthClient.AuthService.RequestInterceptor | src/services/AxiosInterceptor.tsx:38-54 | the fields and the result are the pre-flight transition of the old state |
| AuthClient.AuthService.ResponseInterceptor | src/services/AxiosInterceptor.tsx:56-80 | the fields and the result are the post-flight transition of the old state |
| AuthClient.AuthService.ResumeResponse | src/services/AxiosInterceptor.tsx:64-78 | the fields and the result are the retry continuation of the old state |
| CourseContent.TotalVideos | src/features/enrolledCourse/Content/components/Content.tsx:80-82 | `totalVideos` equals the number of videos of each chapter, added up over every chapter of every subject |
| CourseContent.ChapterVideosCount | src/features/enrolledCourse/Content/components/Content.tsx:81 | flattening the chapters keeps every video: the length is the sum of the chapters' video counts |
| CourseContent.ChapterTotals | src/features/enrolledCourse/Content/components/Content.tsx:86-88 | the inner `flatMap` yields one total per chapter |
| CourseContent.TotalDuration | src/features/enrolledCourse/Content/components/Content.tsx:84-90 | `totalDuration` (per-chapter sums, added up) equals the sum of `duration` over every video of every chapter of every subject |
| CourseContent.DurationParts | src/features/enrolledCourse/Content/components/Content.tsx:358-360 | minutes and seconds are below 60, and `h*3600 + m*60 + r` is the input |
| CourseContent.FormatDuration | src/features/enrolledCourse/Content/components/Content.tsx:357-366 | the label always ends with the seconds field; under a minute it is exactly `"{s}s"` |
| CourseContent.SecondsLabel | src/features/enrolledCourse/Content/components/Content.tsx:365 | a `"{r}s"` label reads back as `r` and has neither the hour shape nor the minute shape |
| CourseContent.MinutesLabel | src/features/enrolledCourse/Content/components/Content.tsx:364 | a `"{m}m {r}s"` label reads back as minutes `m` and seconds `r` and does not have the hour shape |
| CourseContent.HoursLabel | src/features/enrolledCourse/Content/components/Content.tsx:362 | an `"{h}h {m}m {r}s"` label reads back as `h`, `m` and `r` and does not have the minute shape |
| CourseContent.DurationPartsShown | src/features/enrolledCourse/Content/components/Content.tsx:358-365 | the hour field is non-zero iff the duration is at least 3600 seconds; with no hours, the minute field is non-zero iff it is at least 60 |
| CourseContent.FormatFieldsRoundTrip | src/features/enrolledCourse/Content/components/Content.tsx:362-365 | for any fields, the label reads back as exactly those fields; it has the hour shape iff `h > 0` and the minute shape iff `h == 0 && m > 0` |
| CourseContent.FormatDurationRoundTrip | src/features/enrolledCourse/Content/components/Content.tsx:357-366 | the label reads back as the hours, minutes and seconds `formatDuration` computed; it has the hour shape iff `s >= 3600` and the minute shape iff `60 <= s < 3600` |
| CourseContent.FormatDurationReadsBack | src/features/enrolledCourse/Content/components/Content.tsx:357-366 | the number of seconds the label stands for is the input |
| CourseContent.FormatDurationInjective | src/features/enrolledCourse/Content/components/Content.tsx:357-366 | different durations get different labels |
| CourseContent.ToggleAccordion | src/features/enrolledCourse/Content/components/Content.tsx:234-240 | after the toggle, `v` is open iff it was closed; an absent `v` is appended at the end |
| CourseContent.ToggleKeepsOthers | src/features/enrolledCourse/Content/components/Content.tsx:235-238 | with `v` filtered out, the list is the same before and after the toggle, so no other item is dropped, altered or reordered |
| CourseContent.ToggleTwiceRestores | src/features/enrolledCourse/Content/components/Content.tsx:235-238 | toggling an absent value twice restores the original list |
| Chats.OnNewMessage | src/features/chats/index.tsx:92-101 | the message is appended iff its `chatGroupId` equals the selected group's id (both undefined counts as equal) and no message has its id; otherwise the list is unchanged |
| Chats.OnNewMessageIdempotent | src/features/chats/index.tsx:93-100 | delivering the same message twice has the effect of delivering it once |
| Chats.OnNewMessageKeepsIdsDistinct | src/features/chats/index.tsx:94-98 | if no two messages share an id, none do after a delivery |
| Chats.UpdateGroups | src/features/chats/index.tsx:105-115 | the groups keep their length and order, and each is updated on its own |
| Chats.UpdateGroup | src/features/chats/index.tsx:107-112 | only `lastMessage` can change; the message's own group gets its content as `lastMessage`, and any other group is returned unchanged |
| Chats.UpdateGroupsTouchesOnlyItsGroup | src/features/chats/index.tsx:106-114 | only the group whose id is the message's `chatGroupId` gets `lastMessage = content`; every other group is unchanged |
| Chats.UpdateGroupsWithoutGroup | src/features/chats/index.tsx:107 | a message without a `chatGroupId` changes no group |
| Chats.HandleSend | src/features/chats/index.tsx:190-211 | nothing happens iff the trimmed input is empty or the group, socket or user is missing; otherwise the payload is built from the input, the user and the group, exactly one temporary message is appended at the end, and the input is cleared |
| Chats.TempMessage | src/features/chats/index.tsx:194-208 | the temporary message has the given id and time and no receiver; its content, sender id, group and sender are exactly the payload's |
| Chats.BlankInputIsNoOp | src/features/chats/index.tsx:192 | an input made only of white space never sends |
| Chats.SentContentIsUntrimmed | src/features/chats/index.tsx:194-209 | the sent and displayed text is the input as typed; trimming only decides whether to send |
| Chats.Replace | src/features/chats/index.tsx:215-219 | every message with the temporary id is replaced by the response, and every other message stays in place |
| Chats.Ack | src/features/chats/index.tsx:213-229 | a response replaces every message with the temporary id and keeps the rest in place; no response leaves no message with that id, only messages from the list, and every message with another id |
| Chats.AckSuccessAroundOthers | src/features/chats/index.tsx:213-219 | a successful acknowledgement puts the server's message where the temporary one was, and messages arriving in between keep their places |
| Chats.AckFailureAroundOthers | src/features/chats/index.tsx:221-229 | a failed acknowledgement removes the temporary message and keeps all others in order |
| Chats.SendThenFailedAckRestores | src/features/chats/index.tsx:204-229 | a send followed by a failed acknowledgement leaves the message list as it was, when no earlier message has the temporary id |
| Chats.Bucket | src/features/chats/index.tsx:238-248 | every message in the bucket for a day has that day as its key |
| Chats.BucketsPartition | src/features/chats/index.tsx:238-248 | a message lies in the bucket for a day iff that day is its key, and each bucket keeps the original relative order |
| Chats.GroupByDate | src/features/chats/index.tsx:238-248 | the day keys are exactly the keys of the messages, and each day's list is that day's bucket |
| CreateCourse.ValidPriceIsShape | src/features/createcourse/components/CreateCourse.tsx:41 | a price passes iff it is one or more digits, optionally followed by `.` and 1 or 2 digits |
| CreateCourse.ValidPrice | src/features/createcourse/components/CreateCourse.tsx:41 | a valid price starts and ends with a digit and holds only digits and `.`; every non-empty run of digits is valid |
| CreateCourse.ImageAccepted | src/features/createcourse/components/CreateCourse.tsx:44-53 | a missing image passes; a file over `5*1024*1024` bytes fails; an accepted file has an `image/` MIME type |
| CreateCourse.CourseIssues | src/features/createcourse/components/CreateCourse.tsx:38-55 | no issue iff title and description are non-empty, the price is valid, and the image is absent or both small enough (at most `5*1024*1024` bytes) and of one of the four MIME types; "Title is required" iff the title is empty; the price message iff the price is invalid |
| CreateCourse.Validate | src/features/createcourse/components/CreateCourse.tsx:38-55 | the form is accepted unchanged iff it has no issue; a rejection carries at least one message |
| CreateCourse.TagsArray | src/features/createcourse/components/CreateCourse.tsx:84 | the tags give one trimmed piece per comma plus one, empty pieces included |
| CreateCourse.TagFields | src/features/createcourse/components/CreateCourse.tsx:85-87 | piece `i` becomes field `tags[i]` |
| CreateCourse.FormData.constructor | src/features/createcourse/components/CreateCourse.tsx:78 | a new `FormData` is empty |
| CreateCourse.FormData.Append | src/features/createcourse/components/CreateCourse.tsx:79 | `append` adds one entry at the end |
| CreateCourse.AppendTags | src/features/createcourse/components/CreateCourse.tsx:85-87 | the `forEach` loop appends exactly the tag fields, in order, after what the `FormData` already held |
| CreateCourse.TagFieldsSnoc | src/features/createcourse/components/CreateCourse.tsx:85-87 | one more loop step appends field `tags[i]` |
| CreateCourse.BuildFormData | src/features/createcourse/components/CreateCourse.tsx:78-92 | the `FormData` built step by step holds exactly `FormFields`: title, description and price, then the category, the tag fields and the image, each only when present |
| CreateCourse.FormFields | src/features/createcourse/components/CreateCourse.tsx:78-92 | the entries start with title, description and price, in that order; the last entry is a file exactly when an image was chosen, and it is then that image |
| CreateCourse.FormFieldsLayout | src/features/createcourse/components/CreateCourse.tsx:79-92 | title, description and price always come first, in that order; the field count is 3, plus 1 for a category, plus commas + 1 for non-empty tags, plus 1 for an image |
| CreateCourse.FormFieldsOptional | src/features/createcourse/components/CreateCourse.tsx:82-92 | there is a `category` field iff the category is non-empty, and an `image` field iff a file was chosen |
| CreateCourse.NamesAppend | src/features/createcourse/components/CreateCourse.tsx:78-92 | a field name occurs in appended field lists iff it occurs in one of them |
| CreateCourse.TagPartNames | src/features/createcourse/components/CreateCourse.tsx:86 | no tag field is named `category` or `image` |
| CreateCourse.TagNameInjective | src/features/createcourse/components/CreateCourse.tsx:86 | different indices give different `tags[i]` names |
| CreateCourse.TagFieldsFollowPieces | src/features/createcourse/components/CreateCourse.tsx:84-87 | tag fields have distinct names, and field `i` holds the `i`th piece, trimmed |
| CreateCourse.SubmitConfig | src/features/createcourse/components/CreateCourse.tsx:95 | the form is posted to `/courses` as a multipart POST |
| CreateCourse.SubmitToast | src/features/createcourse/components/CreateCourse.tsx:94-111 | success is reported iff the request succeeds and `response.message` is exactly "Course created successfully" |
| SignIn.Characters | src/features/auth/sign-in/index.tsx:237 | `split('')` gives one single-character string per character |
| SignIn.NormaliseOtp | src/features/auth/sign-in/index.tsx:235-240 | the result always has 6 entries; the first `min(len, 6)` are the typed characters and the rest are `''` |
| SignIn.JoinWithoutSeparator | src/features/auth/sign-in/index.tsx:82 | `join('')` is plain concatenation |
| SignIn.ConcatOfBoxes | src/features/auth/sign-in/index.tsx:82 | boxes holding a tail of the input followed by empty boxes concatenate to that tail |
| SignIn.JoinedOtp | src/features/auth/sign-in/index.tsx:236-239 | the joined OTP is what was typed, cut to six characters |
| SignIn.OtpGate | src/features/auth/sign-in/index.tsx:82-83 | the joined OTP has length 6 iff at least six characters were typed |
| SignIn.ValidPhone | src/features/auth/sign-in/index.tsx:36 | a phone number passes iff it has 10 characters and the digits read from its front stop only at its end |
| SignIn.Submit | src/features/auth/sign-in/index.tsx:54-130 | `handleSubmit` always ends with `isLoading` false; tokens are stored only by a verify request; the e-mail and OTP boxes are untouched |
| SignIn.Resend | src/features/auth/sign-in/index.tsx:132-152 | resending always posts `/auth/resend-otp` for the e-mail, stores nothing, shows the success or failure alert, and resets loading |
| SignIn.CompleteProfile | src/features/auth/sign-in/index.tsx:154-192 | the profile update is posted iff the phone number is exactly 10 digits, with the form's name and number; loading is reset; nothing is stored |
| SignIn.InvalidEmailStops | src/features/auth/sign-in/index.tsx:59-69 | an e-mail that fails validation raises the toast, resets `isLoading`, posts nothing and stores nothing |
| SignIn.FirstSubmitSendsOtp | src/features/auth/sign-in/index.tsx:72-80 | the first submit posts `/auth/send-otp`, and the OTP boxes appear iff that succeeds |
| SignIn.VerifyNeedsSixCharacters | src/features/auth/sign-in/index.tsx:81-118 | with the boxes shown, verify is posted iff six characters were typed, carrying those six; otherwise "Invalid OTP" is shown and nothing is stored |
| SignIn.VerifiedStoresTokens | src/features/auth/sign-in/index.tsx:89-111 | a successful verify stores the returned pair; the profile form follows iff the user is new, and otherwise the page heads to `/` |
| SignIn.FailureKeepsStep | src/features/auth/sign-in/index.tsx:120-126 | a failed request stores nothing and leaves the step where it was |
| SignIn.LoginForm.constructor | src/features/auth/sign-in/index.tsx:39-50 | the page starts with six empty OTP boxes, no alert, and the e-mail step |
| SignIn.LoginForm.OnOtpChange | src/features/auth/sign-in/index.tsx:235-241 | the OTP boxes become the normalisation of the typed value, and nothing else changes |
| SignIn.LoginForm.HandleSubmit | src/features/auth/sign-in/index.tsx:54-130 | the fields and the request are `Submit` of the old screen; the service gets `setTokens` with the returned pair exactly when `Submit` stores one, and keeps its invariant |
| SignIn.LoginForm.HandleResendOtp | src/features/auth/sign-in/index.tsx:132-152 | the fields and the request are `Resend` of the old screen |
| SignIn.LoginForm.HandleCompleteProfile | src/features/auth/sign-in/index.tsx:154-192 | the fields and the request are `CompleteProfile` of the old screen |
| VideoPlayer.FullUrl | src/features/enrolledCourse/Content/components/VideoPlayer.tsx:45-47 | a url starting with `http` is kept; any other url is prefixed with `http://localhost:4000`, plus a `/` only when it does not start with one |
| VideoPlayer.FullUrlIsHttp | src/features/enrolledCourse/Content/components/VideoPlayer.tsx:45-47 | the result always starts with `http` |
| VideoPlayer.FullUrlJoinsPath | src/features/enrolledCourse/Content/components/VideoPlayer.tsx:47 | for a non-http url, the result is the server, one `/`, and the path with at most one leading `/` dropped; it ends with the original url |
| VideoPlayer.SingleSeparator | src/features/enrolledCourse/Content/components/VideoPlayer.tsx:47 | the character after the host is `/`, and the next one is also `/` iff the url itself starts with `//` |
| AppSidebar.FilterNavGroups | src/components/layout/app-sidebar.tsx:19-21 | every group not flagged admin-only is kept, and only configured groups appear |
| AppSidebar.FilteredIsSubsequence | src/components/layout/app-sidebar.tsx:19-21 | the shown groups are a subsequence of the configured groups, in the same order |
| AppSidebar.AdminGroupNeedsTeacher | src/components/layout/app-sidebar.tsx:20 | an admin-only group is shown iff a user is present and their role is `TEACHER` |
| AppSidebar.TeacherSeesAll | src/components/layout/app-sidebar.tsx:20 | a teacher sees every group |
| AppSidebar.OthersSeeNonAdminGroups | src/components/layout/app-sidebar.tsx:20 | with no user, or one of another role, the result is exactly the groups not flagged admin-only |

## Findings

The rest of the model follows the code as written; each corrected member sits beside the as-written one.

| source | as written | input that shows it | evidently intended | confidence | as-written member | corrected member |
|---|---|---|---|---|---|---|
| src/services/AxiosInterceptor.tsx:103-106 | a caller that finds a refresh pending returns `await this.refreshPromise`, which is `null` once the `finally` of line 136 has run | two requests answered 401 at once while no refresh runs, followed by a successful refresh: the second gets `null` and is rejected with its 401 | every caller waiting on the refresh receives its token and is sent with it | not executed | AuthPipeline.ConcurrentUnauthorizedCallers | AuthPipeline.SharedTokenReachesAll |
| src/services/AxiosInterceptor.tsx:109-138 | with no refresh token the executor rejects synchronously, so the `finally` empties the slot before line 109 stores the rejected promise in it | no refresh cookie; `refreshAccessToken()` fails; `setTokens(a, r)`; the next `refreshAccessToken()` fails again with "No refresh token available" and sends nothing | the slot is empty after a failed refresh, so the next refresh uses the new refresh token | not executed | AuthTokens.MissingRefreshTokenSticks | AuthTokens.ClearedSlotRecovers |

## Left out

- **Transport libraries.** The axios transport, the `js-cookie` store and the `jwt-decode` parser are not modelled. Cookies are two optional strings. Decoding is a function parameter that yields an optional `exp`, or `None` where `jwtDecode` throws.
- **The refresh exchange's own trip through the interceptors.** The refresh `POST` (line 116) is sent through `this.api`, so it passes through both interceptors while its own refresh is pending. When the stored access token is truthy and expired, its request interceptor joins that refresh (lines 41-43). When it is answered 401, its response interceptor joins it too (lines 62-65). In both cases the source waits forever. The model treats the exchange as a direct call whose reply (`ExchangeReply`) is an input, so `SettleRefresh` can settle an exchange that the source would never complete. `AuthPipeline.RefreshExchangeWaitsOnItself` states when the source deadlocks. `AuthPipeline.ConcurrentExpiredCallers` shows that the exchange of a pre-flight refresh always joins its own refresh.
- **What follows an acknowledgement.** After a successful acknowledgement, `fetchMessages()` reloads the whole list (chat page, line 220). A failed one shows the "Failed to send message" toast (lines 222-226). `Ack` and the lemmas about it describe the list between the acknowledgement and that reload. The reload and the toast are not modelled.
- **Header names.** Headers are a map from names to values, and names are compared exactly. Axios treats `Content-Type` and `content-type` as the same header; `WithDefaults` and `PostFormDataConfig` treat them as two.
- **Concurrency.** Callers are interleaved as explicit event sequences (`Step`, `StepAll`, `BeginMany`), not as threads or promises.
- **The login redirect.** The redirect (line 178) is the flag `loggedOut`. A real navigation reloads the page and would also reset `refreshPromise`; the model keeps the service alive across it.
- **The clock.** `Date.now()/1000` is a float; the current time is an integer number of milliseconds passed as a parameter.
- **Console logging, the unused imports of the service file, and `isAdmin`.** `isAdmin` reads arbitrary claims and returns the value of `console.log`.
- **Configs as values.** The interceptors mutate the request config's `_retry` flag and headers in place. The model returns a new config value, so aliasing of the config object is not modelled.
- **Raw JavaScript values.** `request` resolves with `response.data`; the body is an opaque string and is not tied to a type parameter.
- **Socket.io.** Connecting, joining and leaving rooms, and the emit are left out. The socket is a presence flag, and the acknowledgement is an input to `Ack`.
- **date-fns and the bucket-key sort.** The day key of a message is a function parameter. The date-based sort of the bucket keys (chat page, line 250) is left out.
- **zod's `.email()` rule.** Its verdict is the `emailValid` parameter.
- **Request replies on the sign-in and create-course pages.** The server's replies are inputs. The navigation timer is the `goingHome` flag, and toasts record only their title.
- **Numeric fields.** Durations and file sizes are natural numbers. Negative or fractional durations are not modelled.
- **Strings.** They are sequences of characters. `split('')` and the string lengths are taken per character, not per UTF-16 code unit.
- **Rendering.** JSX rendering, the Plyr player set-up, the skeletons and the pages that only render or wire data are not part of this model.
