# cloudflix-ui: session, refresh and feed logic in Dafny

This project models the client-side session layer of the cloudflix-ui single-page video app, together with the pure decisions around it:

- **ApiClient** (`api_client.dfy`, src/api/api.ts). The shared HTTP client.
  - A request interceptor puts `Bearer <token>` in the Authorization header when the stored token is truthy.
  - A response interceptor answers a request's first 401 by refreshing the session once. Other 401s that arrive meanwhile wait in a FIFO queue. Afterwards every waiter is resumed and retries.
  - The coordinator state is the class `Client`: `isRefreshing`, `queue`, the per-request `_retry` mark, and the log of requests handed to the transport. Each method is proved against a step function on the value `Coord`, and the invariant `Inv` is preserved by every step.
  - The refresh the coordinator starts and the store's logout are requests of this same client.
- **SessionStore** (`session_store.dfy`, src/store/auth.ts). The `{user, accessToken, loading}` store with its actions.
  - Every async action is split at its `await` into a `...Start` and a `...Settle` method; the server's answer is a parameter.
  - Persistence is the `Partialize`/`Rehydrate` pair.
- **Guard** (`guard.dfy`, src/components/AuthGuard.tsx). The redirect-or-render decision.
- **App** (`app.dfy`, src/App.tsx). The start-up sequence (refresh, then me, with logout when either call reports a failure) and the route table with its guards. The start-up calls take their answers as parameters and do not pass through the refresh coordinator of `ApiClient` (see "## Left out").
- **Validators** and **Upload** (`validators.dfy`, `upload.dfy`, src/lib/validators.ts and src/pages/Upload.tsx).
  - The login, signup and upload schemas, each as a parser to a normalised form or the set of problems found.
  - The upload page's `submitting`/`progress` state as a class.
- **Home** (`home.dfy`, src/pages/Home.tsx).
  - Feed paging and the flattening of pages into items.
  - The optimistic rating update over a query cache: a `map` of entries plus a set of invalidated keys.
  - The comment-delete permission and the comment schema.

Some behaviours of the code are easy to get wrong, and the model follows the code in each case:

- **Refresh failure.** Queued waiters are resumed and retry their requests; they are not rejected. The request that started the refresh is rejected with the refresh's error, not its own 401.
- **A 401 on /auth/refresh itself.** It arrives while `isRefreshing` is set, so it is a first 401 like any other and joins the queue behind the refresh it belongs to. Nothing ever resolves that state (`RefreshDeadlockReachable`, `StuckStaysStuck`).
- **A rejected rating.** The captured previous detail is never put back; only the refetch after settling replaces the optimistic value.
- **Two ratings before the refetch.** The optimistic average is computed from the feed item, which does not change until the refetch. A second rating therefore writes the same value again and does not count twice (`RateTwiceCountsOnce`).
- **The empty role list.** `roles` is checked for truthiness, and an empty array is truthy, so a guard given `[]` admits nobody.

## Model

| member | source | states |
|---|---|---|
| ApiClient.AttachToken | src/api/api.ts:14-18 | a truthy token sets the header to "Bearer " + token and keeps the retry mark; otherwise the config is returned unchanged |
| ApiClient.AttachTokenIdempotent | src/api/api.ts:14-18 | running the interceptor twice with one token equals running it once |
| ApiClient.RetryAuthorization | src/api/api.ts:46-47 | a retried request's header is built from the token read after the refresh, and is absent exactly when that token is not truthy |
| ApiClient.InterceptorKeepsRetryHeader | src/api/api.ts:55-57 | a retried config passes through the request interceptor with the header it was given |
| ApiClient.OutcomeOf | src/api/api.ts:24-25 | the caller receives the reply on success and the very error on failure |
| ApiClient.RespondKeepsInv | src/api/api.ts:24-66 | every answer to an in-flight request preserves the coordinator invariant (ids, single flight, queue, retry counts) |
| ApiClient.StartKeepsInv | src/api/api.ts:14-18 | sending a new request preserves the coordinator invariant |
| ApiClient.SingleFlight | src/api/api.ts:43-53 | any two unsettled refreshes started by the coordinator are the same request, and one exists only while `isRefreshing` is set |
| ApiClient.RetriedAtMostOnce | src/api/api.ts:30-32 | every request is handed to the transport once or twice, and twice only with its retry mark set |
| ApiClient.PassThrough | src/api/api.ts:64 | an answer that is not a first 401 settles the request with that reply or error unchanged; nothing is sent, and the queue, the flag and other requests are unchanged |
| ApiClient.FirstUnauthorizedParks | src/api/api.ts:43-53 | a first 401 marks its request; during a refresh it joins the back of the queue and sends nothing; otherwise it sets the flag, owns the refresh and sends exactly one /auth/refresh with the user's id hint |
| ApiClient.RefreshAnswer | src/api/api.ts:51-60 | the refresh request's success is the refresh-succeeded step, and its non-401 failure is the refresh-failed step |
| ApiClient.RefreshSuccessRetriesAll | src/api/api.ts:53-57 | after a successful refresh the flag is clear and the queue is empty; the owner and every waiter are in flight again, marked, with the new token's header |
| ApiClient.RefreshSuccessLog | src/api/api.ts:36-39 | a successful refresh sends the owner again first, then every waiter in enqueue order, each with the new token's header |
| ApiClient.RefreshFailureResumesWaiters | src/api/api.ts:58-60 | after a failed refresh the owner is rejected with the refresh's error, logout is in flight, every waiter is in flight retrying, the queue is empty and the flag clear |
| ApiClient.RefreshFailureLog | src/api/api.ts:36-41 | a failed refresh sends the logout request first, then every waiter in enqueue order |
| ApiClient.RefreshQueuedBehindItself | src/api/api.ts:43-45 | a first 401 on the refresh request while refreshing queues it behind its own refresh; the flag stays set and nothing is sent |
| ApiClient.StuckStaysStuck | src/api/api.ts:43-45 | once the refresh request waits in its own queue, no answer to any request releases it |
| ApiClient.StuckStartStaysStuck | src/api/api.ts:43-45 | once stuck, no new request releases the refresh either |
| ApiClient.RefreshDeadlockReachable | src/api/auth.ts:18-21 | from a fresh client, one 401 followed by a 401 on the refresh it starts reaches the stuck state, with no request left in flight |
| ApiClient.Client.constructor | src/api/api.ts:21-22 | the client starts with the flag clear, an empty queue and no requests; the invariant holds |
| ApiClient.Client.Dispatch | src/api/api.ts:14-18 | hands a request to the transport with the header the interceptor sets from the store's token |
| ApiClient.Client.StartRequest | src/api/api.ts:14-18 | creates an unmarked request under the next id and sends it |
| ApiClient.Client.ResumeQueued | src/api/api.ts:36-39 | resumes the waiters in queue order, each retrying with the current token's header; the queue ends empty and the flag clear |
| ApiClient.Client.SettleFinal | src/api/api.ts:60-64 | delivers a final outcome; a logout's outcome clears the session whatever it is, and an application request's leaves the store alone |
| ApiClient.Client.Issue | src/api/api.ts:14-18 | application code sends a request; the invariant is kept |
| ApiClient.Client.Logout | src/api/auth.ts:28-31 | the store's logout sends its request through the same client; the invariant is kept |
| ApiClient.Client.Park | src/api/api.ts:43-53 | a first 401 joins the queue during a refresh, and otherwise starts one |
| ApiClient.Client.RefreshOk | src/api/api.ts:53-57 | a successful refresh installs the reply in the store, then retries the owner and resumes every waiter |
| ApiClient.Client.RefreshErr | src/api/api.ts:58-60 | a failed refresh leaves the store as it was, starts logout, resumes the waiters and rejects the owner with the refresh's error |
| ApiClient.Client.Deliver | src/api/api.ts:24-66 | one network answer: the new state is the `Respond` step and the new session is `SessionAfter`; the invariant is kept |
| ApiClient.ConcurrentUnauthorized | src/api/api.ts:43-57 | n requests answered 401 during one refresh: exactly one /auth/refresh goes out, then all n go out again, first request first and the rest in arrival order, with the new token's header |
| ApiClient.ConcurrentLog | src/api/api.ts:36-57 | the log after that refresh succeeds has 2n+1 entries in the order above |
| SessionStore.PersistRoundTrip | src/store/auth.ts:69-70 | persisting and restoring gives back user and token, with `loading` reset |
| SessionStore.LoadingNotPersisted | src/store/auth.ts:70 | `loading` never reaches storage |
| SessionStore.RefreshHint | src/store/auth.ts:56 | the `{userId}` body is sent exactly when the id is present and not 0 |
| SessionStore.UserId | src/App.tsx:23 | `user?.id` is absent exactly when there is no user |
| SessionStore.AuthStore.constructor | src/store/auth.ts:22-25 | the store starts from the restored snapshot, or empty |
| SessionStore.AuthStore.SetAccessToken | src/store/auth.ts:27 | changes only the token |
| SessionStore.AuthStore.SetUser | src/store/auth.ts:28 | changes only the user |
| SessionStore.AuthStore.LoginStart | src/store/auth.ts:31 | `loading` is set while login is pending; the session is unchanged |
| SessionStore.AuthStore.LoginSettle | src/store/auth.ts:32-37 | success replaces both user and token; failure leaves them and rethrows; `loading` ends false either way |
| SessionStore.AuthStore.SignupStart | src/store/auth.ts:41 | `loading` is set while signup is pending |
| SessionStore.AuthStore.SignupSettle | src/store/auth.ts:42-47 | same replace-or-rethrow as login; `loading` ends false |
| SessionStore.AuthStore.MeSettle | src/store/auth.ts:50-53 | success replaces only the user; failure changes nothing |
| SessionStore.AuthStore.RefreshSettle | src/store/auth.ts:55-58 | success overwrites token and user; failure changes nothing |
| SessionStore.AuthStore.LogoutSettle | src/store/auth.ts:60-66 | user and token are cleared whatever the server answered, and a failure still propagates |
| SessionStore.LogoutWhenLoggedOut | src/store/auth.ts:60-66 | logging out when already logged out leaves an empty snapshot |
| SessionStore.OverlappingLogins | src/store/auth.ts:30-37 | two overlapping logins share one flag: the first to settle clears `loading` while the second is pending |
| Guard.AuthGuard | src/components/AuthGuard.tsx:15-35 | renders iff the token is truthy, the user exists and the roles admit them; without a session it sends a replace-redirect to /login carrying the path; a role not admitted gets a replace-redirect to /feed |
| Guard.AnonymousNeverSentToFeed | src/components/AuthGuard.tsx:19-32 | a visitor without a session always goes to /login, never to /feed |
| Guard.NoRolesAdmitsEveryone | src/components/AuthGuard.tsx:29-34 | without a role list every signed-in user sees the page |
| Guard.EmptyRolesAdmitNobody | src/components/AuthGuard.tsx:29-31 | an empty role list renders for nobody |
| Guard.MoreRolesAdmitMore | src/components/AuthGuard.tsx:29-34 | widening the role list never turns a render into a redirect |
| Guard.PathOnlyInLoginState | src/components/AuthGuard.tsx:19-27 | the path affects only the state of the login redirect |
| App.Bootstrap | src/App.tsx:18-30 | with no truthy token nothing is called and the session is unchanged; otherwise refresh is called with `user?.id` before me; a failure of either calls logout and clears the session; success installs the new token and user |
| App.StartupFrom | src/App.tsx:18-30 | start-up from a restored snapshot ends in `SessionAfterStartup`; logout is called iff a call failed, and me iff refresh succeeded |
| App.FailedStartupSignsOut | src/App.tsx:26-28 | after a failed start-up every guard redirects to /login |
| App.Route | src/App.tsx:35-61 | "/", "/login", "/signup" and "/feed" render Landing, Login, Signup and the feed unguarded; /upload is guarded for creators and /me for any signed-in user, and these two are the only guarded paths; exactly /home navigates, replacing the entry with /feed; every path that is not a listed route or a `/v/:id` path renders not-found |
| App.UploadOnlyForCreators | src/App.tsx:41-48 | /upload shows the upload page exactly to signed-in creators; signed-in consumers are sent to /feed |
| App.MeForAnySignedInUser | src/App.tsx:50-57 | /me shows the profile exactly to signed-in users; others go to /login |
| App.OtherPathsIgnoreSession | src/App.tsx:37-60 | every unguarded path looks the same with or without a session |
| App.VideoLinks | src/App.tsx:58 | "/v/" followed by one segment shows that video's page |
| Validators.ValidateLogin | src/lib/validators.ts:3-6 | accepted iff the identifier has at least 1 character and the password at least 6; each problem is reported exactly when it occurs |
| Validators.ParseRole | src/lib/validators.ts:14 | a role is accepted iff it is exactly "creator" or "consumer" |
| Validators.ParseEmail | src/lib/validators.ts:12 | an absent email, an address, or "" (which becomes absent) are accepted; anything else is rejected |
| Validators.ValidateSignup | src/lib/validators.ts:10-15 | accepted iff username ≥ 3, password ≥ 6, the email parses and the role parses; the parsed form carries those values; each problem is reported exactly when it occurs |
| Validators.SignupIdempotent | src/lib/validators.ts:10-15 | a parsed signup, written back to the fields, parses to itself |
| Validators.EmptyEmailDropped | src/lib/validators.ts:12 | an empty email is accepted and normalised to absent |
| Validators.ShortestAccepted | src/lib/validators.ts:3-13 | a username of exactly 3 and a password of exactly 6 characters are accepted |
| Upload.OptionalText | src/pages/Upload.tsx:23-26 | an optional field is accepted iff absent or within its maximum; "" becomes absent and any other value is kept |
| Upload.ParseVisibility | src/pages/Upload.tsx:27 | public/unlisted/private are accepted, and absent defaults to public |
| Upload.FileIssues | src/pages/Upload.tsx:28-31 | only file problems are reported; no problem iff a file is present with an accepted type and size ≤ MAX_BYTES; a missing file reports exactly "file required"; otherwise type and size are reported independently |
| Upload.ValidateUpload | src/pages/Upload.tsx:21-32 | accepted iff title ≥ 3, every optional field within its maximum (2000/120/120/20), the visibility parses and the file passes; the parsed form carries the normalised values; on rejection each problem kind is reported exactly when its field fails |
| Upload.UploadIdempotent | src/pages/Upload.tsx:21-32 | a parsed upload, written back to the fields, parses to itself |
| Upload.SizeBoundInclusive | src/pages/Upload.tsx:11-12 | MAX_BYTES is 524288000; a file of exactly that size passes and one byte more is too large |
| Upload.DefaultsRejected | src/pages/Upload.tsx:49-56 | the default values, to which a successful upload resets the form, fail with exactly "title too short" and "file required" |
| Upload.UploadPage.constructor | src/pages/Upload.tsx:38-39 | the page starts not submitting, at progress 0, with the default form |
| Upload.UploadPage.SubmitStart | src/pages/Upload.tsx:61-62 | submitting is set and progress reset to 0 before the upload; the form is unchanged |
| Upload.UploadPage.OnProgress | src/pages/Upload.tsx:74 | the progress callback sets the progress and nothing else |
| Upload.UploadPage.SubmitSettle | src/pages/Upload.tsx:77-98 | success resets the form and replaces the page with the new video's; failure keeps the form and does not navigate; submitting ends false either way |
| Upload.SubmitOnce | src/pages/Upload.tsx:59-99 | a submission is submitting while the upload runs and not afterwards, and navigates exactly when the upload succeeded |
| Home.NextPageParam | src/pages/Home.tsx:31 | a next page exists iff the last page says `hasMore`, and it is that page's number plus one, or 2 when the number is missing |
| Home.FollowsServerNumbering | src/pages/Home.tsx:29-31 | a server that numbers its pages is asked for the next number while it has more, and for nothing afterwards |
| Home.Items | src/pages/Home.tsx:43-46 | no pages loaded shows nothing; otherwise a video is shown iff some loaded page's data holds it (missing data counts as none) |
| Home.ItemsNextPage | src/pages/Home.tsx:43-46 | loading one more page keeps the items shown before in place and appends that page's videos |
| Home.FlattenConcat | src/pages/Home.tsx:44 | the items of two runs of pages are the first run's followed by the second's |
| Home.NextPageAppends | src/pages/Home.tsx:43-46 | loading one more page appends its videos and keeps earlier items in place |
| Home.ShownIffOnSomePage | src/pages/Home.tsx:43-46 | a video is shown iff some loaded page contains it |
| Home.AddRating | src/pages/Home.tsx:134-135 | the new count is the old count plus one, and the new average times the new count is the old total plus the rating |
| Home.AddRatingBounded | src/pages/Home.tsx:134-135 | an average within a range stays within it when a rating within that range is added |
| Home.AddRatingExample | src/pages/Home.tsx:134-135 | ten ratings averaging 4 plus a rating of 5 give eleven ratings averaging 45/11 |
| Home.RateDetailEffect | src/pages/Home.tsx:132-142 | only the video's detail entry changes, and only if it holds a video; that video keeps every other field, and its aggregate comes from the feed item |
| Home.RateTwiceCountsOnce | src/pages/Home.tsx:133-142 | two ratings from the same feed item before a refetch leave the same detail as one |
| Home.QueryCache.OnRateMutate | src/pages/Home.tsx:130-144 | returns the previous detail entry and writes the optimistic detail; invalidations are unchanged |
| Home.QueryCache.OnRateSettled | src/pages/Home.tsx:153-156 | invalidates the feed and the video's detail, and writes nothing |
| Home.QueryCache.OnCommentChanged | src/pages/Home.tsx:252-270 | adding or deleting a comment invalidates that video's comment list |
| Home.RatingRejected | src/pages/Home.tsx:143-156 | after a rejected rating the optimistic detail stays in the cache, and both keys are invalidated |
| Home.LikeRating | src/pages/Home.tsx:178 | Like submits rating 5, and only with a truthy token |
| Home.CanDelete | src/pages/Home.tsx:352 | delete is offered iff the viewer is signed in and uploaded the video or wrote the comment |
| Home.DeletePermission | src/pages/Home.tsx:95 | a signed-out viewer can delete nothing, and the uploader can delete every comment |
| Home.ValidateComment | src/pages/Home.tsx:220-222 | a comment is accepted iff it has 1 to 500 characters; empty and too long are told apart |

## Left out

- App.Bootstrap: the start-up refresh, me and logout calls are not sent through `ApiClient.Client`; their answers are parameters. So the model does not capture two things. First, a start-up `/auth/refresh` answered 401 makes the coordinator start a second refresh. Second, if that one is answered 401 as well, the client is stuck (`RefreshQueuedBehindItself`) and start-up never reaches `logout`. Login and signup requests are likewise not sent through the client.
- ApiClient.SingleFlight: covers refreshes the coordinator starts (`RefreshOf` callers). A start-up refresh issued by application code can be unsettled at the same time as a coordinator refresh, and this is not modelled (see App.Bootstrap above).
- Asynchronous scheduling, timeouts and liveness. Each network answer is one `Deliver` call, so interleavings are sequences of calls. No claim is made that every request eventually settles.
- The owner's retry and `runQueued` are treated as one step: between them only microtasks run, and no network answer can arrive before they drain.
- Axios internals. This covers config merging beyond the retry mark and the Authorization header, the base URL and credentials from src/config/env.ts, and response bodies beyond the session reply.
- The HTTP wrappers in src/api/auth.ts, videos.ts, comments.ts and ratings.ts. Their answers are parameters.
- `uploadVideo`: it is not part of this model. Its outcome (the new video's id, or an error) and its progress reports are parameters.
- zustand's persistence I/O. `Partialize` and `Rehydrate` are the only persistence modelled, with storage holding a snapshot or nothing.
- Validators.ParseEmail: the address check is a parameter `isEmail`, not zod's regular expression.
- Validators.ValidateLogin: lengths are counted in Dafny characters, where zod counts UTF-16 code units. The same holds for every other length bound in Validators, Upload and Home.
- Upload.FileIssues: a value that is not a File object stops the file checks, so only "file required" is reported. The type and size refinements run only on a present file.
- Upload.ValidateUpload: zod's problem messages and paths are reduced to the `UploadIssue` kinds.
- react-hook-form's submission gate. Only validated values reach `onSubmit`.
- The form reset of the comment sheet, and the lazy `enabled` flag of the comment queries.
- Route matching is by exact string. React-router's trailing-slash, case and URL-decoding rules are not modelled.
- App.Route: `/v/:id` takes any one non-empty segment without a slash as the id.
- Home.AddRating: computes over exact reals, not IEEE doubles.
- Also left out: `round1`, the scroll threshold, the IntersectionObserver ratio, and the percentage arithmetic of the upload progress.
- Home.QueryCache.OnRateMutate: `cancelQueries` on the feed is not modelled. The cache holds entries and invalidations only; refetching is not modelled.
- The SweetAlert dialogs, including the awaited success dialog before the upload page resets, and the feed's error dialog.
- Navigation history beyond the upload page's replace.
- Navbar, the presentational pages (Landing, NotFound, VideoDetail, Me, Login, Signup) and styling.
