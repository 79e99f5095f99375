# GoGreenX: a verified model of the client and server core

GoGreenX is a fitness and sustainability site. It has a React frontend and a Django REST backend. This project models the parts of both that decide state. It proves properties of that model in Dafny.

On the frontend, the model covers:
- the stored-token lifecycle: login, logout, the bearer interceptor, and refresh-and-retry after a 401 on the fitness-plan and profile pages;
- the notification socket with its capped exponential back-off;
- the notification store: list plus unread counter;
- like/unlike and comment handling on the post card, the comment card and the groups page;
- task replacement, grouping and ordering in TaskList;
- filtering, dedupe, ingredient extraction and pagination on the nutrition and training pages;
- the error texts and request bodies built by the fetch helpers.

On the backend, the model covers:
- the points and badge signal receivers;
- the gamification list and mark-as-read views;
- group membership, moderators and likes in the community views;
- the community serializers' validation and read-only fields;
- the notification consumer;
- task endpoints and the structure of the generated fitness plan;
- the sustainability points table.

Conventions:
- Each source file becomes one module.
- Where the source changes state, the model has a `class` whose methods are proved equal to a pure step function of the old state. The step functions carry the properties, and lemmas relate them (idempotence, inverse operations, preserved invariants).
- HTTP answers, refresh-endpoint answers, image loads and clock readings are parameters.
- `localStorage` is a `map<string, string>`.
- Database tables are sequences, maps or sets.
- Many-to-many relations are sets.

Modules: `Common`, `Text`, `Sequences`, `Sorting`, `Paging`, `LocalStorage`, `TokenRefresh` (shared helpers); `NotificationSocket`, `NotificationStore`, `ApiClient`, `AuthProvider`, `FitnessPlanPage`, `ProfilePage`, `ApiServices`, `PostInteractions`, `PostComponent`, `CommentComponent`, `GroupsPage`, `TaskListComponent`, `NutritionPage`, `TrainingPage` (frontend); `GamificationSignals`, `GamificationViews`, `CommunitySerializers`, `CommunityViews`, `NotificationConsumer`, `PlanGenerator`, `TaskViews`, `SustainabilityViews` (backend).

## Model

| member | source | states |
|---|---|---|
| Common.OrElse | frontend/src/pages/FitnessPlan.jsx:93 | JavaScript's logical or on an optional text: the first value when it is present and non-empty, otherwise the fallback |
| Text.Trim | frontend/src/pages/Nutrition.jsx:114-115 | the result is no longer than the input and neither starts nor ends with white space |
| Text.TrimIsWindow | frontend/src/pages/Nutrition.jsx:114-115 | the trimmed text is the input with its leading and trailing white space cut off, and only white space |
| Text.BlankIffAllSpace | frontend/src/pages/Groups.jsx:144 | `!s.trim()` holds exactly when every character is white space |
| Text.Lower | frontend/src/pages/Nutrition.jsx:74 | lower-casing keeps the length and maps each character on its own |
| Text.Join | frontend/src/services/api.js:110-113 | `join` gives "" for no parts, the part itself for one, and starts with the first part otherwise |
| Text.JoinSnoc | frontend/src/services/api.js:113 | joining one more part adds the separator and that part to the end |
| Text.NatToString | backend/community/consumers.py:12 | the decimal text of a number: non-empty, digits only, no leading zero, at least two digits from 10 on |
| Text.NatToStringRoundTrip | backend/community/consumers.py:12 | reading the digits back gives the number |
| Text.IntToString | backend/tasks/services.py:62-65 | the decimal text of an integer: "-" first exactly when it is negative, digits after that |
| Text.IntToStringRoundTrip | backend/tasks/services.py:62-65 | reading the sign and digits back gives the integer |
| Paging.CeilDiv | frontend/src/pages/FitnessPlan.jsx:116 | `Math.ceil(n / k)`: the least page count whose pages hold n items; zero exactly for no items |
| Paging.Resolve | frontend/src/pages/FitnessPlan.jsx:113 | how `slice` clamps an index to the list |
| Paging.JsSlice | frontend/src/pages/FitnessPlan.jsx:113 | `slice(a, b)` with 0 <= a <= b is the clamped window, never longer than the list |
| Paging.PageOneBasedWindow | frontend/src/pages/FitnessPlan.jsx:111-113 | page p is items (p-1)k .. pk-1, cut at the end; at most k items; non-empty exactly when p <= the page count |
| Paging.ZeroBasedIsShiftedOneBased | frontend/src/pages/Training.jsx:48-50 | zero-based page p equals one-based page p+1 |
| Paging.PagesUpToIsPrefix | frontend/src/pages/FitnessPlan.jsx:111-116 | the first m pages laid end to end are the list's prefix of m*k items |
| Paging.PagesCoverList | frontend/src/pages/FitnessPlan.jsx:111-116 | all pages in order give back the whole list, nothing lost or repeated |
| LocalStorage.SetItem | frontend/src/contexts/AuthContext.jsx:38 | `setItem` stores the value under the key and leaves every other key as it was |
| LocalStorage.RemoveItem | frontend/src/contexts/AuthContext.jsx:43 | `removeItem` drops the key and leaves every other key as it was |
| NotificationSocket.ReconnectDelay | frontend/src/services/websocket.js:35 | the reconnect delay always lies between 1000 and 30000 ms |
| NotificationSocket.DelayMonotone | frontend/src/services/websocket.js:35 | the delay never shrinks as attempts grow, and each delay doubles the previous one up to the cap |
| NotificationSocket.DelaySchedule | frontend/src/services/websocket.js:35 | the delays for attempts 0..5 are 1000, 2000, 4000, 8000, 16000 and 30000 ms |
| NotificationSocket.Init | frontend/src/services/websocket.js:2-10 | a new client has no socket, no attempts, no pending timer, nothing sent |
| NotificationSocket.ConnectStep | frontend/src/services/websocket.js:12-13 | `connect` replaces the socket with a connecting one and changes nothing else |
| NotificationSocket.OpenStep | frontend/src/services/websocket.js:15-23 | on open the counter resets to 0 and exactly one authenticate frame carrying the user id goes out |
| NotificationSocket.MessageStep | frontend/src/services/websocket.js:25-30 | a frame reaches the callback exactly when its `type` is "notification"; nothing else changes |
| NotificationSocket.CloseStep | frontend/src/services/websocket.js:32-42 | a reconnect with delay `ReconnectDelay(attempts)` is scheduled exactly when the close was unclean and attempts < 5 |
| NotificationSocket.FireStep | frontend/src/services/websocket.js:37-40 | the timer counts one attempt, drops itself and connects again |
| NotificationSocket.DisconnectStep | frontend/src/services/websocket.js:49-54 | `disconnect` drops the socket; attempts and a scheduled timer stay |
| NotificationSocket.StartIsBackoffInv | frontend/src/services/websocket.js:2-13 | a freshly connected client satisfies the back-off invariant: at most one pending timer, and attempts plus pending <= 5 |
| NotificationSocket.BackoffInvStep | frontend/src/services/websocket.js:32-42 | every event other than open and manual connect keeps the invariant; only a timer raises the counter, by one |
| NotificationSocket.ReconnectsBounded | frontend/src/services/websocket.js:34-40 | without a successful open, any sequence of closes, timers, messages and disconnects reconnects at most 5 - attempts times |
| NotificationSocket.RunRounds | frontend/src/services/websocket.js:32-40 | each unclean close followed by its timer performs exactly one reconnection |
| NotificationSocket.FiveAttemptsThenGiveUp | frontend/src/services/websocket.js:34 | after five close-and-retry rounds the counter is 5 and a sixth unclean close schedules nothing |
| NotificationSocket.NotificationWebSocket.constructor | frontend/src/services/websocket.js:2-10 | the client starts in the `Init` state |
| NotificationSocket.NotificationWebSocket.Connect | frontend/src/services/websocket.js:12-13 | the fields change as `ConnectStep` says |
| NotificationSocket.NotificationWebSocket.OnOpen | frontend/src/services/websocket.js:15-23 | the fields change as `OpenStep` says |
| NotificationSocket.NotificationWebSocket.OnMessage | frontend/src/services/websocket.js:25-30 | the fields change as `MessageStep` says |
| NotificationSocket.NotificationWebSocket.OnClose | frontend/src/services/websocket.js:32-42 | the fields change as `CloseStep` says |
| NotificationSocket.NotificationWebSocket.OnTimer | frontend/src/services/websocket.js:37-40 | the fields change as `FireStep` says |
| NotificationSocket.NotificationWebSocket.Disconnect | frontend/src/services/websocket.js:49-54 | the fields change as `DisconnectStep` says |
| NotificationStore.CountUnread | frontend/src/contexts/NotificationContext.js:39-42 | the unread count is at most the list length; it is 0 exactly when all are read and the full length exactly when none are |
| NotificationStore.MarkRead | frontend/src/contexts/NotificationContext.js:70-72 | exactly the entries with the id become read; the others and the order stay |
| NotificationStore.MarkAll | frontend/src/contexts/NotificationContext.js:82-84 | every entry becomes read and nothing else changes |
| NotificationStore.MarkReadCount | frontend/src/contexts/NotificationContext.js:70-72 | marking an id read lowers the unread count by the number of unread entries carrying that id |
| NotificationStore.MarkReadIdempotent | frontend/src/contexts/NotificationContext.js:70-72 | marking twice equals marking once, and afterwards no unread entry has the id |
| NotificationStore.Initial | frontend/src/contexts/NotificationContext.js:9-11 | the provider starts empty, loading, and with a counter that agrees with its list |
| NotificationStore.FetchStep | frontend/src/contexts/NotificationContext.js:27-37 | a successful fetch replaces the list and recounts; a failure keeps the list; loading ends either way |
| NotificationStore.PushStep | frontend/src/contexts/NotificationContext.js:54-58 | a pushed frame is prepended and the counter rises by one; a consistent counter stays consistent exactly when the frame is unread |
| NotificationStore.MarkAsReadStep | frontend/src/contexts/NotificationContext.js:67-77 | as written: after the server acknowledges, the id's entries are marked read and the counter drops by one unconditionally |
| NotificationStore.MarkAsReadConsistentExactlyWhenOneUnread | frontend/src/contexts/NotificationContext.js:73 | the as-written step keeps the counter right exactly when one unread entry carried the id |
| NotificationStore.MarkAsReadDrifts | frontend/src/contexts/NotificationContext.js:73 | marking an already-read notification sends the counter to -1 while the list has no unread entry |
| NotificationStore.MarkAsReadRecount | frontend/src/contexts/NotificationContext.js:67-77 | corrected step: the counter drops by the number of unread entries that were marked, so a consistent view stays consistent and non-negative |
| NotificationStore.MarkAllStep | frontend/src/contexts/NotificationContext.js:79-89 | after acknowledgement every entry is read and the counter is 0, which agrees with the list |
| NotificationStore.NotificationProvider.constructor | frontend/src/contexts/NotificationContext.js:9-11 | the state cells start as `Initial` |
| NotificationStore.NotificationProvider.FetchNotifications | frontend/src/contexts/NotificationContext.js:27-37 | the cells change as `FetchStep` says |
| NotificationStore.NotificationProvider.OnPush | frontend/src/contexts/NotificationContext.js:54-58 | the cells change as `PushStep` says |
| NotificationStore.NotificationProvider.MarkAsRead | frontend/src/contexts/NotificationContext.js:67-77 | the cells change as the as-written `MarkAsReadStep` says |
| NotificationStore.NotificationProvider.MarkAllAsRead | frontend/src/contexts/NotificationContext.js:79-89 | the cells change as `MarkAllStep` says |
| ApiClient.Defaults | frontend/src/contexts/api.js:3-9 | the client's base URL is `/api`, it sends credentials, and its only header is the JSON content type |
| ApiClient.Bearer | frontend/src/contexts/api.js:15 | the header value is "Bearer " followed by exactly the token |
| ApiClient.ParseBearer | frontend/src/contexts/api.js:15 | credentials read back from a header value (section 2.1 of RFC 6750) rebuild that value |
| ApiClient.BearerRoundTrip | frontend/src/contexts/api.js:15 | header and parser are inverse on `b64token` values, and parsing rejects every other token |
| ApiClient.JwtIsB64Token | frontend/src/contexts/api.js:13-15 | a non-empty token made of base64url characters and dots, a JSON web token among them, is a valid `b64token` |
| ApiClient.InterceptRequest | frontend/src/contexts/api.js:12-18 | with a stored access token the request gains `Authorization: Bearer <token>`; otherwise it is unchanged; other headers and settings are kept |
| ApiClient.InterceptedTokenReadsBack | frontend/src/contexts/api.js:12-18 | the server reads back exactly the stored token from the header |
| ApiClient.InterceptResponse | frontend/src/contexts/api.js:21-29 | responses and errors, 401 included, pass through unchanged, and storage is untouched |
| ApiClient.InterceptRequestIdempotent | frontend/src/pages/Groups.jsx:15-23 | applying the interceptor twice equals applying it once |
| AuthProvider.Initial | frontend/src/contexts/AuthContext.jsx:8-9 | the provider starts with no user and loading |
| AuthProvider.FetchCurrentUserStep | frontend/src/contexts/AuthContext.jsx:11-31 | a request is made exactly when an access token is stored, and carries it; success sets the user; failure removes only the access token; loading ends |
| AuthProvider.LoginStep | frontend/src/contexts/AuthContext.jsx:37-40 | login stores the token and then fetches with it; an empty token makes no request |
| AuthProvider.LogoutStep | frontend/src/contexts/AuthContext.jsx:42-45 | logout removes the access token and the user and changes nothing else |
| AuthProvider.LogoutIdempotent | frontend/src/contexts/AuthContext.jsx:11-45 | logging out twice equals logging out once, and a user fetch after logout makes no request |
| AuthProvider.Auth.constructor | frontend/src/contexts/AuthContext.jsx:8-9 | the cells start as `Initial` |
| AuthProvider.Auth.FetchCurrentUser | frontend/src/contexts/AuthContext.jsx:11-31 | the cells and the token sent are as `FetchCurrentUserStep` says |
| AuthProvider.Auth.Login | frontend/src/contexts/AuthContext.jsx:37-40 | the cells and the token sent are as `LoginStep` says |
| AuthProvider.Auth.Logout | frontend/src/contexts/AuthContext.jsx:42-45 | the cells change as `LogoutStep` says |
| TokenRefresh.RefreshToken | frontend/src/pages/FitnessPlan.jsx:36-54 | a refresh request is made exactly when a refresh token is stored; a new token is returned and stored exactly on success; otherwise both tokens are removed and the page goes to login |
| TokenRefresh.RefreshRenewsOrEndsSession | frontend/src/pages/Profile.jsx:14-33 | afterwards the session is either renewed (refresh token kept, new access token stored and returned) or ended (neither token left); no other key changes |
| FitnessPlanPage.Initial | frontend/src/pages/FitnessPlan.jsx:26-33 | the page starts loading on page 1 with no tasks and no error |
| FitnessPlanPage.FetchTasksStep | frontend/src/pages/FitnessPlan.jsx:56-98 | no token gives the fallback error without a request; a success replaces the list; a non-401 error shows the server text or the fallback; a 401 refreshes and retries once, and a failed retry shows its error and goes to login; at most two requests; loading ends |
| FitnessPlanPage.UnauthorizedWithoutRefreshEndsSession | frontend/src/pages/FitnessPlan.jsx:71-91 | a 401 with no usable refresh token removes both tokens, goes to login and leaves list and error as they were |
| FitnessPlanPage.CurrentTasksWindow | frontend/src/pages/FitnessPlan.jsx:110-116 | page p shows tasks 5(p-1) .. 5p-1, at most five, and is non-empty exactly up to the last page |
| FitnessPlanPage.ShowsPaginationIffSeveralPages | frontend/src/pages/FitnessPlan.jsx:289 | the page bar appears exactly when there are at least two pages |
| FitnessPlanPage.PrevPage | frontend/src/pages/FitnessPlan.jsx:129 | the previous button goes back one page, never below 1 |
| FitnessPlanPage.NextPage | frontend/src/pages/FitnessPlan.jsx:189 | the next button goes on one page, never past the last |
| FitnessPlanPage.RenderPaginationItems | frontend/src/pages/FitnessPlan.jsx:122-195 | the loop builds exactly the bar `PaginationBar` describes |
| FitnessPlanPage.PaginationBarShape | frontend/src/pages/FitnessPlan.jsx:122-195 | the bar starts with Prev and page 1 and ends with Next, each disabled exactly at its end; for an existing page exactly one item is active |
| FitnessPlanPage.PlanGeneratedStep | frontend/src/pages/FitnessPlan.jsx:100-103 | a generated plan replaces the tasks and returns to page 1 |
| FitnessPlanPage.FitnessPlan.constructor | frontend/src/pages/FitnessPlan.jsx:26-33 | the cells start as `Initial` |
| FitnessPlanPage.FitnessPlan.RefreshAccessToken | frontend/src/pages/FitnessPlan.jsx:36-54 | token, storage and navigation are as `RefreshToken` says; the list, error, loading flag and page stay |
| FitnessPlanPage.FitnessPlan.FetchTasks | frontend/src/pages/FitnessPlan.jsx:56-98 | the cells and the tokens sent are as `FetchTasksStep` says |
| FitnessPlanPage.FitnessPlan.HandlePlanGenerated | frontend/src/pages/FitnessPlan.jsx:100-103 | the cells change as `PlanGeneratedStep` says |
| FitnessPlanPage.FitnessPlan.OnUpdateTask | frontend/src/pages/FitnessPlan.jsx:279-285 | tasks with the updated id are replaced and nothing else changes |
| FitnessPlanPage.FitnessPlan.ClickPrev | frontend/src/pages/FitnessPlan.jsx:129 | the page becomes `PrevPage` of the old page |
| FitnessPlanPage.FitnessPlan.ClickNext | frontend/src/pages/FitnessPlan.jsx:189 | the page becomes `NextPage` of the old page |
| FitnessPlanPage.FitnessPlan.ClickPage | frontend/src/pages/FitnessPlan.jsx:119 | the page becomes the number clicked |
| ProfilePage.Initial | frontend/src/pages/Profile.jsx:9-11 | the page starts loading with no data and no error |
| ProfilePage.FetchProfileStep | frontend/src/pages/Profile.jsx:35-76 | like the fitness page, with two differences: a successful retry keeps an earlier error, and a failed retry stays on the page with its own message; loading ends |
| ProfilePage.MergeProfile | frontend/src/pages/Profile.jsx:92 | `{ ...prev, ...data }`: the response's fields win, the other previous fields stay, and spreading `null` adds nothing |
| ProfilePage.MergeProfileIdempotent | frontend/src/pages/Profile.jsx:92 | merging the same update twice equals merging it once |
| ProfilePage.UpdateHeader | frontend/src/pages/Profile.jsx:80-86 | the update request carries the stored token, or the text `null` when none is stored |
| ProfilePage.UpdateProfileStep | frontend/src/pages/Profile.jsx:78-100 | it returns true exactly on success; success merges and clears the error; failure shows the detail or the fallback |
| ProfilePage.Profile.constructor | frontend/src/pages/Profile.jsx:9-11 | the cells start as `Initial` |
| ProfilePage.Profile.RefreshAccessToken | frontend/src/pages/Profile.jsx:14-33 | token, storage and navigation are as `RefreshToken` says; data, error and loading stay |
| ProfilePage.Profile.FetchProfile | frontend/src/pages/Profile.jsx:35-76 | the cells and the tokens sent are as `FetchProfileStep` says |
| ProfilePage.Profile.HandleUpdateProfile | frontend/src/pages/Profile.jsx:78-100 | the cells and the result are as `UpdateProfileStep` says, and the header is `UpdateHeader` |
| ApiServices.FetchCurrentUser | frontend/src/services/api.js:3-21 | a request is made exactly when a token is stored; the user is returned exactly for an OK status with a readable body |
| ApiServices.EntryLine | frontend/src/services/api.js:110 | an array of messages gives `field: m1, m2`, the messages joined by ", "; a string value gives the `TypeError` "errors.join is not a function" |
| ApiServices.EntryLines | frontend/src/services/api.js:109-111 | one line per error entry, in order |
| ApiServices.FormatValidationErrors | frontend/src/services/api.js:103-114 | the loop gives `PostErrorMessage`: the `TypeError` text once a value is not an array, else the lines joined by a vertical-bar separator, or "Invalid post data" when there are none |
| ApiServices.PostErrorFallbackIffNoEntries | frontend/src/services/api.js:109-113 | the fallback text appears exactly when the server listed no field; a value that is not an array gives the `TypeError` text; otherwise the message starts with the first field's line |
| ApiServices.CreatePost | frontend/src/services/api.js:89-121 | no token fails before any request; a created post is returned; a rejection carries `PostErrorMessage` of its body; a network failure carries its reason |
| ApiServices.ServerRejectionHiddenAsWritten | frontend/src/services/api.js:110 | as written: the post view's rejection `{detail: "<text>"}` gives the `TypeError` text instead of the server's message |
| ApiServices.EntryLineCorrected | frontend/src/services/api.js:110 | corrected: a string value gives `field: text`; arrays give what `EntryLine` gives |
| ApiServices.PostErrorMessageCorrected | frontend/src/services/api.js:103-114 | corrected: on bodies of arrays it equals the as-written message |
| ApiServices.ServerRejectionShown | frontend/src/services/api.js:103-114 | corrected: the post view's rejection reads "detail: <text>" |
| ApiServices.CommentBody | frontend/src/services/api.js:184-187 | the comment body has exactly `content` and `post` |
| ApiServices.CreateComment | frontend/src/services/api.js:173-200 | no token fails without a request; otherwise the body is sent, and a rejection reports `detail`, or the whole body as JSON; a network failure is rethrown with its own reason |
| ApiServices.GetPostGroupNameAsWritten | frontend/src/services/api.js:148-170 | as written: 404 gives null; any other non-OK status fails; an OK status is always parsed, so an empty body fails |
| ApiServices.NoGroupAnswerFailsAsWritten | frontend/src/services/api.js:158-168 | 204 counts as OK, so the 204 test cannot succeed, and the server's 204 answer makes the call fail |
| ApiServices.GetPostGroupName | frontend/src/services/api.js:148-170 | corrected: 204 and 404 give null, and every other status behaves as written |
| ApiServices.GroupNameServerAnswers | frontend/src/services/api.js:158-169 | with the correction, both answers the server gives for an existing post succeed: 200 with a name, and 204 for no group |
| ApiServices.CreateGroupBody | frontend/src/services/api.js:273-278 | the group body has description (default ""), is_private (default false) and the name, which is dropped when it is `undefined` |
| PostInteractions.CountOrZero | frontend/src/components/Post/Post.jsx:31 | the count when present, otherwise 0 |
| PostInteractions.InitialLikeState | frontend/src/components/Post/Post.jsx:28-31 | the card starts liked exactly when the `id` read from some like equals the user's id (`undefined` matching `undefined`); the same rule holds in the comment card and the groups page |
| PostInteractions.SeenLikeIds | backend/community/serializers.py:36-48 | the likes the server sends are bare user keys, so every `like?.id` the cards read is `undefined` |
| PostInteractions.ServerLikesHiddenAsWritten | frontend/src/components/Post/Post.jsx:30 | as written, on server data a signed-in user's card never shows their like, and their click sends a second like and raises the count by one; a visitor sees every liked post as liked |
| PostInteractions.InitialLikeStateByKey | frontend/src/components/Post/Post.jsx:30 | corrected: liked exactly when the user's key is among the likes |
| PostInteractions.LikerUnlikesCorrected | frontend/src/components/Post/Post.jsx:30 | with the correction a liker's click sends an unlike and lowers the count, and a visitor sees nothing liked |
| PostInteractions.Toggle | frontend/src/components/Post/Post.jsx:77-84 | an accepted click flips the flag and moves the count by one in the direction of the old flag |
| PostInteractions.ToggleTwiceRestores | frontend/src/components/Post/Post.jsx:77-84 | like then unlike restores flag and count |
| PostInteractions.HandleLikeStep | frontend/src/components/Post/Post.jsx:70-89 | no request is made without a truthy target and user id, and each case has its own error; the request is unlike iff liked; a failure keeps the state and shows its message; success toggles |
| PostInteractions.SubmitComment | frontend/src/components/Post/Post.jsx:91-112 | blank input is refused without a call; a created comment goes first and the input clears; a failure keeps both and shows the message or the fallback; the groups page's card does the same |
| PostComponent.PostCard.constructor | frontend/src/components/Post/Post.jsx:15-31 | the card starts in `InitialLikeState`, with no error and no comments |
| PostComponent.PostCard.HandleLike | frontend/src/components/Post/Post.jsx:70-89 | the like cells, error and request are as `HandleLikeStep` says; the comment cells stay |
| PostComponent.PostCard.HandleCommentSubmit | frontend/src/components/Post/Post.jsx:91-112 | the comment cells are as `SubmitComment` says; the like cells stay |
| PostComponent.PostCard.ToggleComments | frontend/src/components/Post/Post.jsx:28-41 | the comments button flips `showComments`, the effect reads the like cells from the props again, and comments are fetched exactly when shown, none loaded and the post has an id |
| CommentComponent.BadgeAfterToggle | frontend/src/components/Comment/Comment.jsx:111-115 | from a non-negative count, an accepted like always shows the badge, and an accepted unlike hides it exactly when it was the last like |
| CommentComponent.CommentCard.constructor | frontend/src/components/Comment/Comment.jsx:8-22 | the card starts in `InitialLikeState`, with no error and no animation |
| CommentComponent.CommentCard.HandleLike | frontend/src/components/Comment/Comment.jsx:24-46 | like cells, error and request are as `HandleLikeStep` with the comment's messages, and the animation starts |
| CommentComponent.CommentCard.OnAnimationTimer | frontend/src/components/Comment/Comment.jsx:44 | the timer ends the animation and changes nothing else |
| GroupsPage.RemoveLikes | frontend/src/pages/Groups.jsx:1011 | the filter removes every like of the user and keeps every other like |
| GroupsPage.RemoveAbsentLike | frontend/src/pages/Groups.jsx:1011 | removing a user who has no like changes nothing |
| GroupsPage.RemoveAppendedLike | frontend/src/pages/Groups.jsx:1011-1022 | removing a like just appended gives back the original list |
| GroupsPage.RolesNeedGroupAndUser | frontend/src/pages/Groups.jsx:882-900 | no group, no user or user id 0 has no role; otherwise member and moderator test the id lists, and the creator test holds exactly when `creator` is that very number |
| GroupsPage.CreatorNeverRecognizedAsWritten | frontend/src/pages/Groups.jsx:891-894 | as written: with `creator` the nested profile the serializer sends, nobody is the creator |
| GroupsPage.CreatorRecognizedById | frontend/src/pages/Groups.jsx:891-894 | corrected, comparing `creator.id`: a user is the creator exactly when the ids agree |
| GroupsPage.NewPostBody | frontend/src/pages/Groups.jsx:981-985 | the body has content and group, and a title exactly when the title is not blank |
| GroupsPage.CreatePostStep | frontend/src/pages/Groups.jsx:975-1000 | a created post goes first and the form clears; a 401 gives the authentication error; any other failure gives the detail or the fallback |
| GroupsPage.FindPost | frontend/src/pages/Groups.jsx:1004 | `find` returns a post with the id, and nothing exactly when none has it |
| GroupsPage.LikedPost | frontend/src/pages/Groups.jsx:1018-1026 | a like appends the user and adds one to the count |
| GroupsPage.UnlikedPost | frontend/src/pages/Groups.jsx:1007-1015 | an unlike filters the user out and subtracts one from the count |
| GroupsPage.MapPosts | frontend/src/pages/Groups.jsx:1007-1026 | only posts with the id change |
| GroupsPage.LikePostStep | frontend/src/pages/Groups.jsx:1002-1032 | the first post with the id decides between like and unlike; only posts with that id change; a missing post or a failed call sets the error and keeps the list |
| GroupsPage.LikeThenUnlikeRestoresPost | frontend/src/pages/Groups.jsx:1007-1026 | a like then an unlike restores a post the user had not liked |
| GroupsPage.LikeThenUnlikeRestoresList | frontend/src/pages/Groups.jsx:1002-1032 | on a list with distinct ids, two accepted clicks restore the list |
| GroupsPage.CreateCommentStep | frontend/src/pages/Groups.jsx:1034-1047 | the comment goes first in the matching posts' lists (a missing list counts as empty); a failure keeps the posts and reports the error |
| GroupsPage.LoadCommentsStep | frontend/src/pages/Groups.jsx:1049-1060 | the matching posts get the loaded list; a failure keeps the posts |
| GroupsPage.MapComments | frontend/src/pages/Groups.jsx:181-189 | only comments with the id change |
| GroupsPage.LikeCommentStep | frontend/src/pages/Groups.jsx:178-193 | after an accepted call the matching comments gain the user's like and one count; a failure changes nothing |
| GroupsPage.UnlikeCommentStep | frontend/src/pages/Groups.jsx:195-210 | after an accepted call the matching comments lose every like of the user and one count |
| TaskListComponent.ReplaceTask | frontend/src/components/TaskList.jsx:33 | tasks with the id become the replacement; the others stay in place |
| TaskListComponent.ReplaceTaskIdempotent | frontend/src/components/TaskList.jsx:33 | replacing twice equals replacing once, and a list without the id is unchanged |
| TaskListComponent.ToggleComplete | frontend/src/components/TaskList.jsx:25-40 | it sends the negated flag; success replaces and forwards the updated task; failure keeps the list and sets the error |
| TaskListComponent.DistinctDates | frontend/src/components/TaskList.jsx:43-52 | the group keys are distinct and are exactly the tasks' due dates |
| TaskListComponent.TasksOn | frontend/src/components/TaskList.jsx:43-52 | a group holds exactly the tasks due that day |
| TaskListComponent.GroupByDay | frontend/src/components/TaskList.jsx:43-52 | the reduce loop yields keys in first-seen order, and under each key exactly the tasks of that day in input order |
| TaskListComponent.EachTaskInExactlyOneGroup | frontend/src/components/TaskList.jsx:43-52 | each task is in the group of its own date and in no other |
| TaskListComponent.CompareCategory | frontend/src/components/TaskList.jsx:56-60 | the comparator returns -1 exactly for exercise before nutrition and 1 exactly for the reverse |
| TaskListComponent.CompareCategoryAntisymmetric | frontend/src/components/TaskList.jsx:56-60 | swapping the arguments negates the result |
| TaskListComponent.ThirdCategoryBreaksComparator | frontend/src/components/TaskList.jsx:56-60 | with a third category the comparator's "equal" is not transitive |
| TaskListComponent.OrderWithinDaySorted | frontend/src/components/TaskList.jsx:55-61 | exercises first, then the rest, is a permutation of the day that the comparator accepts |
| TaskListComponent.SortedDays | frontend/src/components/TaskList.jsx:64-68 | the days are a permutation of the keys in ascending order |
| TaskListComponent.FetchTasksError | frontend/src/components/TaskList.jsx:9-23 | no `token` key gives the fallback error; a success returns the list; the not-found message appears exactly for a 404 |
| NutritionPage.FilterMealsSpec | frontend/src/pages/Nutrition.jsx:69-85 | the filtered list is the in-order selection of the meals that `Keep` accepts (lower-cased name contains the lower-cased query, category equal or "All"), so it is a subsequence of the meals |
| NutritionPage.LoadedMeals | frontend/src/pages/Nutrition.jsx:55-60 | `null` meals count as none; the categories are distinct, are exactly those of the meals, and come in the order their first meal appears |
| NutritionPage.IngredientLines | frontend/src/pages/Nutrition.jsx:108-119 | at most one line per ingredient slot |
| NutritionPage.GetIngredients | frontend/src/pages/Nutrition.jsx:108-119 | the loop over slots 1..20 yields the lines of the present ingredients in slot order, and nothing for no meal |
| NutritionPage.IngredientLinesNotBlank | frontend/src/pages/Nutrition.jsx:114-115 | no ingredient line is blank |
| NutritionPage.IngredientLinesSkipEmptySlots | frontend/src/pages/Nutrition.jsx:114 | a slot with no ingredient adds no line, whatever its measure |
| NutritionPage.CurrentMealsWindow | frontend/src/pages/Nutrition.jsx:126-130 | page p shows meals 8(p-1) .. 8p-1 of the filtered list |
| NutritionPage.Nutrition.constructor | frontend/src/pages/Nutrition.jsx:25-34 | the page starts empty on page 1 with no query, category "All" and no error |
| NutritionPage.Nutrition.FetchMeals | frontend/src/pages/Nutrition.jsx:48-67 | success loads meals and categories as `LoadedMeals` says and keeps the shown list in step with the filters; failure keeps them and sets "Failed to load meals. Please try again."; loading ends |
| NutritionPage.Nutrition.LoadMeals | frontend/src/pages/Nutrition.jsx:55-60 | a successful load sets meals and categories as `LoadedMeals` says and runs the filter on them; the filters, page, loading flag and error stay |
| NutritionPage.Nutrition.SetSearchQuery | frontend/src/pages/Nutrition.jsx:40-46 | the list is refiltered, and the page returns to 1 exactly when the query changed |
| NutritionPage.Nutrition.SetCategory | frontend/src/pages/Nutrition.jsx:40-46 | the list is refiltered, and the page returns to 1 exactly when the category changed |
| NutritionPage.Nutrition.SetPage | frontend/src/pages/Nutrition.jsx:313-340 | the page becomes the number the button passes (one below, one above, or its own), and every other cell stays |
| NutritionPage.Nutrition.ClearFilters | frontend/src/pages/Nutrition.jsx:121-124 | no query and category "All"; the shown list becomes every meal |
| TrainingPage.ValidExercisesSpec | frontend/src/pages/Training.jsx:30-33 | the kept list is an order-preserving selection of exactly the exercises whose image loads |
| TrainingPage.CurrentExercisesWindow | frontend/src/pages/Training.jsx:47-50 | zero-based page p shows exercises 8p .. 8p+7, at most eight, non-empty exactly below the page count |
| TrainingPage.CheckImages | frontend/src/pages/Training.jsx:28-34 | the loop checks each exercise in order and keeps exactly the valid ones |
| TrainingPage.Training.constructor | frontend/src/pages/Training.jsx:11-15 | the page starts loading on page 0 with no exercises |
| TrainingPage.Training.FilterValidExercises | frontend/src/pages/Training.jsx:26-38 | the valid list becomes `ValidExercises`, loading ends, and the page stays |
| TrainingPage.Training.HandlePageClick | frontend/src/pages/Training.jsx:43-45 | the selected index becomes the page |
| GamificationSignals.Credit | backend/gamification/signals.py:14-24 | the user's total rises by the amount (accounts are created at 0), one transaction is logged, and other users are untouched |
| GamificationSignals.AwardsFor | backend/gamification/signals.py:57-58 | one user badge per badge found, in order |
| GamificationSignals.BadgeNotices | backend/gamification/signals.py:60-75 | one congratulation per new user badge, naming the badge |
| GamificationSignals.HeldAfterAwards | backend/gamification/signals.py:51-58 | after awarding, the user holds the earlier badges plus the new ones |
| GamificationSignals.AwardHoldsEveryReachedBadge | backend/gamification/signals.py:51-58 | afterwards the user holds exactly the earlier badges plus every badge whose threshold the total reaches |
| GamificationSignals.EligibleDistinct | backend/gamification/signals.py:53-55 | the badge query returns no badge twice when the catalog's ids are distinct |
| GamificationSignals.AwardKeepsUnique | backend/gamification/signals.py:51-58 | awarding never creates a second (user, badge) row, as `unique_together` demands |
| GamificationSignals.OneNoticePerNewBadge | backend/gamification/signals.py:60-75 | corrected award: as many new notifications as new user badges, all for that user, and the earlier notifications stay |
| GamificationSignals.AwardIdempotent | backend/gamification/signals.py:51-58 | awarding again straight afterwards adds nothing |
| GamificationSignals.AwardBadgesAsWritten | backend/gamification/signals.py:51-81 | as written: the same badge rows as the intended award, and no notification; totals and transactions stay |
| GamificationSignals.AwardIdempotentAsWritten | backend/gamification/signals.py:51-58 | as written too, awarding again straight afterwards adds nothing |
| GamificationSignals.EarnedBadgeUnnoticedAsWritten | backend/gamification/signals.py:60-81 | as written, a user who reaches a badge gets the badge row but no notification |
| GamificationSignals.TaskSaveStep | backend/gamification/signals.py:8-28 | a completed, unprocessed task without `points_rewarded` raises before anything is written; with an amount it credits its user and no one else, logs a task transaction, awards the badges the new total reaches, writes no notification and is marked processed; any other save changes nothing |
| GamificationSignals.DeclaredTaskCompletionRaises | backend/gamification/signals.py:13 | with the Task model as declared (no `points_rewarded`), a completing save raises, and an open task's save changes nothing |
| GamificationSignals.TaskResaveAddsNothing | backend/gamification/signals.py:27-28 | the receiver's own re-save of the processed task adds nothing |
| GamificationSignals.ActionSaveStep | backend/gamification/signals.py:30-49 | only a newly created, unprocessed action fires; without `points_rewarded` it raises before anything is written; with an amount it credits it, logs a sustainability transaction, awards the reached badges and writes no notification |
| GamificationSignals.DeclaredActionCreationRaises | backend/gamification/signals.py:34 | with the SustainabilityAction model as declared (no `points_rewarded`), creating an action raises |
| GamificationSignals.ActionAwardedOnce | backend/gamification/signals.py:30-49 | once an action's points are credited, any later save adds nothing |
| GamificationSignals.TaskSaveAwardsReachedBadges | backend/gamification/signals.py:19-28 | a credited task lifts its owner to every badge the new total reaches, and only to such badges |
| GamificationSignals.UserCreatedStep | backend/gamification/signals.py:77-81 | a new user gets an account with 0 points; other saves change nothing |
| GamificationSignals.PointsSignals.CheckAndAwardBadges | backend/gamification/signals.py:51-58 | the loop leaves the tables as `AwardBadgesAsWritten` says (badge rows, no notification) and keeps the uniqueness invariant |
| GamificationSignals.PointsSignals.OnTaskSaved | backend/gamification/signals.py:8-28 | the outcome is `TaskSaveStep`; the tables change only when nothing was raised |
| GamificationSignals.PointsSignals.OnSustainabilityActionSaved | backend/gamification/signals.py:30-49 | the outcome is `ActionSaveStep`; the tables change only when nothing was raised |
| GamificationSignals.PointsSignals.OnUserSaved | backend/gamification/signals.py:77-81 | the tables are as `UserCreatedStep` says |
| GamificationViews.LeaderboardIsTopTen | backend/gamification/views.py:70-71 | at most ten accounts, sorted by descending points, all taken from the input; no account left out has more points than the last one shown |
| GamificationViews.OwnListsAreOwn | backend/gamification/views.py:46-104 | each "my" list holds exactly the requester's rows; transactions and notifications come newest first |
| GamificationViews.MarkAsReadStep | backend/gamification/views.py:115-123 | someone else's notification, or a missing one, gives 404; otherwise exactly the requester's notification with that id becomes read and is returned |
| GamificationViews.MarkAsReadIdempotent | backend/gamification/views.py:115-123 | marking the same notification twice equals marking it once |
| GamificationViews.MarkAllStep | backend/gamification/views.py:133-141 | all of the requester's notifications become read, others' stay, and the reply is the fixed status text |
| GamificationViews.MarkAllLeavesNoneUnread | backend/gamification/views.py:133-141 | afterwards the requester has no unread notification |
| GamificationViews.GamificationApi.MarkAsRead | backend/gamification/views.py:115-123 | the table and the reply are as `MarkAsReadStep` says |
| GamificationViews.GamificationApi.MarkAllAsRead | backend/gamification/views.py:133-141 | the table and the reply are as `MarkAllStep` says |
| CommunitySerializers.ProfileOf | backend/community/serializers.py:11 | a user's public profile has exactly id, username and email |
| CommunitySerializers.ProfileHidesPrivateFields | backend/community/serializers.py:7-11 | the password and staff flag never affect the profile |
| CommunitySerializers.ValidateName | backend/community/serializers.py:30-33 | a blank name is rejected with "Group name cannot be empty"; otherwise the trimmed, non-empty name is kept |
| CommunitySerializers.ValidateNameIdempotent | backend/community/serializers.py:30-33 | validating an accepted name again gives the same name |
| CommunitySerializers.ValidatePostContent | backend/community/serializers.py:53-59 | missing or blank content is rejected with "Post content cannot be empty"; other content passes unchanged |
| CommunitySerializers.LikeCount | backend/community/serializers.py:50-51 | the like count is zero exactly when nobody likes the post or comment |
| CommunitySerializers.LikeCountOnAdd | backend/community/serializers.py:50-51 | adding a like raises the count by one, unless it was already there |
| CommunitySerializers.CharField | backend/community/serializers.py:16-48 | DRF's string field: absent gives "This field is required." when required; blank after stripping gives "This field may not be blank." unless blank is allowed; otherwise the stripped value, refused with the max-length message when too long |
| CommunitySerializers.CharFieldIdempotent | backend/community/serializers.py:16-48 | a value the field accepted passes it again unchanged |
| CommunitySerializers.ReprNamesFirstField | backend/community/views.py:76-79 | the detail text opens with the first failing field's name, quoted as Python prints it |
| CommunitySerializers.CleanName | backend/community/serializers.py:30-33 | the name passes exactly when present, not blank and at most 100 characters once stripped, and is kept stripped; the error is the field's |
| CommunitySerializers.GroupNameMessageUnreachable | backend/community/serializers.py:30-33 | every message of a rejected group body is DRF's own, so "Group name cannot be empty" is never sent |
| CommunitySerializers.DeserializeGroup | backend/community/serializers.py:16-33 | a group body is accepted exactly when the name is present, not blank and at most 100 characters once stripped and the description is present and not blank; the values are kept stripped; otherwise the errors are DRF's, name first |
| CommunitySerializers.GroupReadOnlyFieldsIgnored | backend/community/serializers.py:24-28 | creator, members and moderators sent by a client are ignored |
| CommunitySerializers.CleanGroup | backend/community/serializers.py:40-48 | a group key passes exactly when absent or naming an existing group; otherwise DRF's "Invalid pk" message |
| CommunitySerializers.DeserializePost | backend/community/serializers.py:40-59 | a post body is accepted exactly when the title (optional, blank allowed) fits 200 characters, the content is present and not blank, and the group is absent or exists; the values are kept stripped; otherwise the errors are DRF's in field order |
| CommunitySerializers.PostReadOnlyFieldsIgnored | backend/community/serializers.py:43-48 | an author or likes sent by a client are ignored |
| CommunitySerializers.PostContentMessageUnreachable | backend/community/serializers.py:53-59 | every error of a rejected post names title, content or group, so "Post content cannot be empty" is never sent |
| CommunitySerializers.DeserializeComment | backend/community/serializers.py:62-73 | a comment body is accepted exactly when its content is present and not blank, and the content is kept stripped; otherwise DRF's error on content |
| CommunityViews.CreateGroupStep | backend/community/views.py:28-30 | a rejected body gives 400 with the serializer's errors and changes nothing; otherwise a new group with the stripped name and description, the requester as creator and no members is added, and the other groups stay |
| CommunityViews.JoinStep | backend/community/views.py:32-36 | a missing group gives 404; otherwise the user is added to its members, only that group changes, and the reply is "joined" |
| CommunityViews.LeaveStep | backend/community/views.py:38-42 | a missing group gives 404; otherwise the user is removed from its members, only that group changes, and the reply is "left" |
| CommunityViews.JoinIdempotent | backend/community/views.py:32-36 | joining twice equals joining once |
| CommunityViews.LeaveNonMemberNoop | backend/community/views.py:38-42 | leaving a group one is not in changes nothing |
| CommunityViews.JoinThenLeave | backend/community/views.py:32-42 | a non-member who joins and then leaves restores the tables |
| CommunityViews.AddModeratorStep | backend/community/views.py:44-54 | 404 for a missing group; 403 for anyone but the creator; 500 for a missing user; otherwise the user joins the moderators |
| CommunityViews.ModeratorsChangeOnlyByCreator | backend/community/views.py:44-54 | whoever asks, a group's moderators change only when its creator asks |
| CommunityViews.GroupPosts | backend/community/views.py:56-61 | nothing exactly for a missing group |
| CommunityViews.GroupPostsNewestFirst | backend/community/views.py:56-61 | the listing holds exactly the group's posts, newest first |
| CommunityViews.FindPost | backend/community/views.py:87 | a post is found exactly when one has the id |
| CommunityViews.CreatePostStep | backend/community/views.py:69-84 | a rejected body gives 400 whose detail is the Python text of the serializer's errors and changes nothing; otherwise the post is appended with its stripped content, the requester as author and no likes |
| CommunityViews.CreatePostKeepsGroupsExist | backend/community/views.py:69-84 | every post's group still exists after a create, since the key is checked |
| CommunityViews.GroupStepsKeepGroupsExist | backend/community/views.py:28-54 | creating, joining and leaving a group and adding a moderator keep every post's group existing |
| CommunityViews.LikeStepsKeepGroupsExist | backend/community/views.py:85-151 | liking and unliking a post, commenting and liking a comment keep every post's group existing |
| CommunityViews.SetPostLike | backend/community/views.py:88-95 | the user is added to or removed from the likes of exactly the posts with the id |
| CommunityViews.LikePostStep | backend/community/views.py:85-90 | a missing post gives 404; otherwise the user is in its likes and the reply is "liked" |
| CommunityViews.UnlikePostStep | backend/community/views.py:92-96 | a missing post gives 404; otherwise the user is out of its likes and the reply is "unliked" |
| CommunityViews.PostLikeIdempotent | backend/community/views.py:85-96 | liking twice equals liking once, and unliking twice equals unliking once |
| CommunityViews.LikeThenUnlikePost | backend/community/views.py:85-96 | a like followed by an unlike from someone who had not liked restores the posts |
| CommunityViews.PostComments | backend/community/views.py:98-103 | nothing exactly for a missing post |
| CommunityViews.PostCommentsNewestFirst | backend/community/views.py:98-103 | the listing holds exactly the post's comments, newest first |
| CommunityViews.GroupNameStep | backend/community/views.py:105-118 | a missing post gives 404; a post without a group gives 204 with a detail; otherwise 200 with the name of that post's own group |
| CommunityViews.CreatedPostGroupName | backend/community/views.py:69-84 | a post just created in a group reports that group's name, and one created without a group reports 204 |
| CommunityViews.CreateCommentStep | backend/community/views.py:127-136 | a rejected body gives 400 with the errors; then a missing or unknown post gives 404; otherwise the comment is appended with its stripped content, the requester and that post |
| CommunityViews.CommentReadOnlyFieldsIgnored | backend/community/views.py:132-136 | author and likes in the body are ignored; a created comment has the requester, no likes and the post named in the body, which exists |
| CommunityViews.SetCommentLike | backend/community/views.py:142-150 | the user is added to or removed from the likes of exactly the comments with the id |
| CommunityViews.LikeCommentStep | backend/community/views.py:139-151 | a missing comment gives 404; otherwise the like is added or removed and the matching status text is returned |
| CommunityViews.CommentLikeIdempotent | backend/community/views.py:139-151 | after a like the user is in every matching comment's likes, after an unlike in none, and repeating the call changes nothing |
| CommunityViews.CommunityApi.CreateGroup | backend/community/views.py:28-30 | the tables and the reply are as `CreateGroupStep` says |
| CommunityViews.CommunityApi.Join | backend/community/views.py:32-36 | the tables and the reply are as `JoinStep` says |
| CommunityViews.CommunityApi.Leave | backend/community/views.py:38-42 | the tables and the reply are as `LeaveStep` says |
| CommunityViews.CommunityApi.AddModerator | backend/community/views.py:44-54 | the tables and the reply are as `AddModeratorStep` says |
| CommunityViews.CommunityApi.CreatePost | backend/community/views.py:69-84 | the tables and the reply are as `CreatePostStep` says |
| CommunityViews.CommunityApi.LikePost | backend/community/views.py:85-90 | the tables and the reply are as `LikePostStep` says |
| CommunityViews.CommunityApi.UnlikePost | backend/community/views.py:92-96 | the tables and the reply are as `UnlikePostStep` says |
| CommunityViews.CommunityApi.CreateComment | backend/community/views.py:132-136 | the tables and the reply are as `CreateCommentStep` says |
| CommunityViews.CommunityApi.LikeComment | backend/community/views.py:139-151 | the tables and the reply are as `LikeCommentStep` says |
| NotificationConsumer.GroupNamesDistinct | backend/community/consumers.py:12 | different users get different channel groups |
| NotificationConsumer.GroupAdd | backend/community/consumers.py:13-16 | the channel joins the group and the other groups stay |
| NotificationConsumer.GroupDiscard | backend/community/consumers.py:21-24 | the channel leaves the group (a missing group is left alone) and the other groups stay |
| NotificationConsumer.ConnectStep | backend/community/consumers.py:7-17 | an anonymous user is closed and joins nothing; a signed-in user joins `notifications_<id>` and is accepted |
| NotificationConsumer.DisconnectStep | backend/community/consumers.py:19-24 | an anonymous user's disconnect changes nothing; a user's channel leaves their group |
| NotificationConsumer.ConnectThenDisconnect | backend/community/consumers.py:7-24 | connecting and then disconnecting a channel that was in no group leaves it in no group |
| NotificationConsumer.NotificationMessage | backend/community/consumers.py:42-53 | the message of each known type names the sender as the chain says; other types give "New notification"; a group invitation without a group raises `AttributeError`, and nothing else does |
| NotificationConsumer.KnownMessagesNameSender | backend/community/consumers.py:42-52 | every known type's message, when one is produced, starts with the sender's name |
| NotificationConsumer.NotificationData | backend/community/consumers.py:30-40 | the record has exactly the six fields, its `type` is the notification type and its message is `NotificationMessage`; the message's `AttributeError` is raised through it and is the only failure |
| NotificationConsumer.SendNotificationAsWritten | backend/community/consumers.py:26-28 | as written: the event's record goes out unchanged |
| NotificationConsumer.KnownNotificationDroppedAsWritten | backend/community/consumers.py:26-28 | as written, the client ignores a pushed record of any known type whenever one is built |
| NotificationConsumer.SendNotification | backend/community/consumers.py:26-28 | corrected: the frame is typed "notification", keeps the record's type as `notification_type`, and keeps every other field |
| NotificationConsumer.PushedNotificationDelivered | backend/community/consumers.py:26-28 | with the correction, every record that is built reaches the client's callback |
| NotificationConsumer.Consumer.Connect | backend/community/consumers.py:7-17 | the fields and the channel layer are as `ConnectStep` says |
| NotificationConsumer.Consumer.Disconnect | backend/community/consumers.py:19-24 | the channel layer is as `DisconnectStep` says |
| NotificationConsumer.Consumer.SendNotificationEvent | backend/community/consumers.py:26-28 | one frame goes out: the event's record, unchanged, as `SendNotificationAsWritten` gives it; the layer, the user, the group and the accepted and closed flags stay |
| PlanGenerator.ExerciseTitles | backend/tasks/services.py:35-50 | five titles for "bulking" and for "dieting"; nothing for any other goal |
| PlanGenerator.MealPlan | backend/tasks/services.py:61-66 | four meal titles |
| PlanGenerator.PlanTasks | backend/tasks/services.py:51-75 | the plan has 33 tasks |
| PlanGenerator.GenerateFitnessPlan | backend/tasks/services.py:31-79 | an unknown goal is the KeyError; otherwise the result is exactly `Plan` |
| PlanGenerator.AddPlanTasks | backend/tasks/services.py:51-75 | the exercise loop and the day-by-meal loop build exactly `PlanTasks` |
| PlanGenerator.PlanTasksShape | backend/tasks/services.py:51-75 | for any five titles and four meals: exercise `i` on day `i`, then meal `m` of day `d` at position `5 + 4d + m`; all open, for the user, created today, with distinct ids |
| PlanGenerator.PlanShape | backend/tasks/services.py:51-79 | an unknown goal fails. Otherwise: 5 exercise tasks on days 0..4 with the goal's titles, then 7 days of the 4 meal titles; all open, for the user, created today, with distinct ids |
| TaskViews.FirstMissing | backend/tasks/views.py:19-28 | the first missing field in reading order, and none exactly when all are present |
| TaskViews.PlanFieldsPresent | backend/tasks/views.py:19-28 | when nothing is missing, all five fields are present |
| TaskViews.MissingFieldWritesNothing | backend/tasks/views.py:42-43 | a missing field gives 400 "Missing field: '<name>'" and writes nothing, not even the fitness input |
| TaskViews.SaveError | backend/users/models.py:28-31 | the first figure (weight, height, age) the save cannot convert, with Django's "expected a number" message; none exactly when all three convert |
| TaskViews.UnconvertedFigureWritesNothing | backend/tasks/views.py:19-28 | a figure that does not convert gives 500 with that message and writes nothing |
| TaskViews.BmrError | backend/tasks/services.py:15-18 | the `TypeError` the BMR formula raises when a figure is still a string, with Python's message for each case; none exactly when all three are numbers |
| TaskViews.NoneLeftOwnedBy | backend/tasks/views.py:31 | after the delete the user owns no task |
| TaskViews.PlanRequestDeletesFirst | backend/tasks/views.py:17-45 | once the input is saved the requester's old tasks are gone and others' kept, even when generating then fails: 500 with the `TypeError` text for a string figure, 400 for an unknown goal |
| TaskViews.PlanReplacesTasks | backend/tasks/views.py:13-41 | with numbers for figures and a known goal the reply is 201 with the 33 planned tasks, and the user's tasks are exactly those |
| TaskViews.PlanIsAllTheyOwn | backend/tasks/views.py:31-34 | a plan of the requester's appended after the delete is all they own |
| TaskViews.FormFiguresFailAsWritten | backend/tasks/views.py:19-45 | as written: figures sent as numeric strings are saved, the requester's tasks are deleted and the reply is 500 "can't multiply sequence by non-int of type 'float'" |
| TaskViews.FormFiguresPlannedCorrected | backend/tasks/views.py:19-45 | corrected, using the saved numbers: the same request gets 201 with the 33 tasks, which are all the requester owns |
| TaskViews.ListTasksStep | backend/tasks/views.py:50-53 | 200 with exactly the requester's tasks |
| TaskViews.CreateTaskStep | backend/tasks/views.py:55-69 | title, category and due_date are checked in that order and the first missing one gives 400; otherwise an open task is added and returned with 201 |
| TaskViews.PatchTaskStep | backend/tasks/views.py:74-81 | a task that is missing or not the requester's gives 404 "Task not found"; otherwise only that task's flag changes and it is returned with 200 |
| TaskViews.PatchIdempotent | backend/tasks/views.py:74-81 | the same patch twice equals once, and a patch without the flag changes nothing |
| TaskViews.TaskApi.PostPlan | backend/tasks/views.py:13-45 | the tables and the reply are as `PostPlanStep` says, 500 outcomes included |
| TaskViews.TaskApi.ListTasks | backend/tasks/views.py:50-53 | the reply is `ListTasksStep` |
| TaskViews.TaskApi.CreateTask | backend/tasks/views.py:55-69 | the tables and the reply are as `CreateTaskStep` says |
| TaskViews.TaskApi.PatchTask | backend/tasks/views.py:74-81 | the tables and the reply are as `PatchTaskStep` says |
| SustainabilityViews.Rate | backend/sustainability/views.py:25-30 | 10 for recycle, 5 for bike, 2 for public transport, 1 otherwise |
| SustainabilityViews.TruncateTowardZero | backend/sustainability/views.py:30 | Python's `int()` on a float: the integer part, rounded toward zero |
| SustainabilityViews.PointsBounds | backend/sustainability/views.py:23-30 | for a non-negative value the points lie between 0 and value times the rate; negating the value negates the points |
| SustainabilityViews.WholeUnitsEarnExactly | backend/sustainability/views.py:23-30 | a whole number of units earns exactly units times the rate |
| SustainabilityViews.ActionStore.ListActions | backend/sustainability/views.py:12-14 | the list holds exactly the requester's actions |
| SustainabilityViews.ActionStore.PerformCreate | backend/sustainability/views.py:16-21 | the saved action is appended with its points computed by `CalculatePoints` |

## Left out

- Transport: axios, fetch, WebSocket frames, the Django ORM, channel layers and Redis are not modelled. Each HTTP answer, refresh answer and image load is a parameter. The channel layer is a field of the consumer.
- JSON parsing (`JSON.parse`, `response.json()`) is not modelled. Frames and bodies are decoded records, and an unreadable body is `None`.
- Timers and dates: `setTimeout` is a list of pending delays, and the 300 ms animation timer is a method. Dates are day numbers, and weekday names from `toLocaleDateString` are not modelled.
- Concurrency: React batching, interleaved async handlers and request races are not modelled. Every handler runs to completion.
- Stale closures: React handlers read state captured at render time. The model reads the current state.
- PlanGenerator.MealPlan: the BMR, TDEE and macro arithmetic (backend/tasks/services.py:15-28) is floating point. The gram figures are an input, and the model states only the four titles.
- PlanGenerator.PlanTasks: ids are `firstId + k` in place of UUIDs, and `today + d` stands for `today + timedelta(days=d)`.
- SustainabilityViews.TruncateTowardZero: `value` is a real number, not an IEEE double, so float rounding is not modelled.
- Text.Trim and Text.Lower: only ASCII white space and ASCII letters are handled, with no Unicode case folding or white-space classes.
- NotificationSocket: the socket's URL, protocol choice and `onerror` logging are not modelled. The trace model covers only events the current socket can deliver. So it leaves out the old socket's `onclose` after `disconnect()`: `close()` on a socket still connecting ends it uncleanly, and that handler (frontend/src/services/websocket.js:32-41) then schedules a reconnect after a manual disconnect (websocket.js:49-54).
- NotificationStore: `setupWebSocket` (frontend/src/contexts/NotificationContext.js:44-65) opens a second, unauthenticated socket. The model covers only what its `onmessage` does to the state. The import of a default export from services/api.js, which has none, is not modelled.
- ApiServices: the other fetch wrappers in frontend/src/services/api.js (fetchPosts, likePost, unlikePost, likeComment, unlikeComment, notification and group helpers) only forward a call and throw on a non-OK status. They are not modelled one by one.
- AuthProvider: `loading` stays false after a fetch; re-entry while a fetch is pending is not modelled.
- TaskListComponent.OrderWithinDaySorted: this proves, for any day, that exercises first and then the rest in their order is a permutation the comparator accepts. It does not prove that this is the order the engine's `sort` returns: once a third category (backend/tasks/models.py:11) is present the comparator is inconsistent (ThirdCategoryBreaksComparator), and the engine's result is then unspecified.
- TaskListComponent: `fetchTasks` reads the key `token`, which nothing in the core writes; the model keeps that key. Tasks are matched by due date alone, since the weekday is a function of the date.
- GroupsPage: a post's or comment's `likes` are the `like.id` values the page reads. Entries from the server read as `undefined` (see Findings), and only entries the page appends itself carry the user's id.
- GroupsPage: the group-level handlers for join, leave, add-moderator and delete (frontend/src/pages/Groups.jsx:901-973) only call the API and reload the group. `fetchGroupDetails` and rendering are UI.
- GamificationSignals: neither Task (backend/tasks/models.py) nor SustainabilityAction (backend/sustainability/models.py:5-13) declares `points_rewarded`. With the receivers connected, a save that completes a task raises AttributeError at backend/gamification/signals.py:13, and so does the first save of a new action at signals.py:34; the request then fails with 500. TaskSaveStep and ActionSaveStep model this through `DeclaredTask`, `DeclaredAction` and `MissingAttribute`. TaskViews.PatchTaskStep and SustainabilityViews.ActionStore.PerformCreate do not run the receivers, so they answer as if none were connected: neither the 500 nor the points are captured there.
- GamificationSignals: the sustainability receiver fires at the first `serializer.save` (backend/sustainability/views.py:17), before `points_earned` is set. The model takes whatever amount the instance carries at that save.
- GamificationSignals.AwardBadges: the badge query's order is unspecified, so the model uses catalog order.
- GamificationSignals.AwardKeepsUnique: `UserPoints.objects.get` raising for a user without an account is not modelled. The award functions require the account to exist, as both receivers guarantee.
- NotificationConsumer: `group_send` is never called anywhere in the repository, so nothing triggers `send_notification`. The model states what it would send.
- NotificationConsumer: the `Notification` model imported from community/models.py does not exist there. The record fields are modelled as an input record.
- CommunitySerializers: of DRF's field checks the model has the string fields' (required, blank, stripping, `max_length`) and the group key's existence. Type checks on non-string values, `is_private` parsing and unknown keys are not modelled.
- CommunitySerializers.ErrorsRepr: Python's `repr` is modelled for messages without single quotes, backslashes or non-ASCII characters, which it would escape; every message the model produces is of that kind.
- CommunityViews.CreateCommentStep: the `post` of a comment body is a whole number or absent. A non-numeric string, which `get_object_or_404` rejects with an error the view does not catch, is not modelled.
- CommunityViews.AddModeratorStep: the missing-user case is modelled as a 500 reply, standing in for the uncaught `DoesNotExist`.
- TaskViews.PatchTaskStep: an explicit `null` for `is_completed` is not modelled; the flag is present or absent.
- TaskViews: a figure is a whole JSON number or a string. Fractional numbers, `null` and booleans are not modelled.
- TaskViews.SaveError: a string converts when it is an optional sign and digits with at most one point (`IsFloatText`), or sign and digits alone for the age (`IsIntText`). Python's `float` and `int` also take surrounding white space and underscores, and `float` takes exponents, `inf` and `nan`; the model refuses those strings. The message quotes the string without Python's escaping.
- PostComponent.PostCard.ToggleComments: the effect's group-name fetch and the comment fetch are I/O; the method reports only whether comments are fetched.
- ProfilePage: when a successful retry follows an earlier error, the page keeps showing that error, as the source does.
- NutritionPage.Nutrition.SetPage: the arrow buttons call `setCurrentPage(currentPage - 1)` and `setCurrentPage(currentPage + 1)` whatever the page (frontend/src/pages/Nutrition.jsx:313, 340). Only the Bootstrap `disabled` class on their list item stops clicks on the first or last page, and that CSS is not modelled, so the model lets the page go below 1 or past the last.
- Wearables (backend/wearables/services.py, backend/wearables/views.py) are not part of this model: they are OAuth and network clients averaging floats.
- backend/users/views.py is not part of this model: it wraps Django authentication.
- Pure UI files (Footer, Navbar, App, Home, Dashboard, forms, Login and Register) are not part of this model.

## Findings

| source | as written | input that shows it | evidently intended | confidence | as-written member | corrected member |
|---|---|---|---|---|---|---|
| frontend/src/contexts/NotificationContext.js:73 | `markAsRead` lowers the unread counter by one after every acknowledged call | marking a notification that is already read: the list `[{id 1, read}]` with counter 0 goes to counter -1. The defect is latent as the repository stands: nothing under frontend/src mounts `NotificationProvider`, and its `import api from '../services/api'` names a default export that file lacks, so no call is ever acknowledged | lower the counter by the number of unread entries that were marked | medium, not executed | NotificationStore.MarkAsReadStep, NotificationStore.MarkAsReadDrifts | NotificationStore.MarkAsReadRecount |
| frontend/src/services/api.js:158-166 | the 204 test sits inside `if (!response.ok)`, but 204 counts as ok, so the branch is dead and the empty 204 body is parsed | the server's answer for a post without a group (backend/community/views.py:109-113): status 204, no body, so `response.json()` rejects | test 204 before the body is read and return null | high, not executed | ApiServices.GetPostGroupNameAsWritten, ApiServices.NoGroupAnswerFailsAsWritten | ApiServices.GetPostGroupName, ApiServices.GroupNameServerAnswers |
| backend/community/consumers.py:26-28 | `send_notification` sends the record as it is, and its `type` is the notification type (for example "like_post") | any record built by `get_notification_data`: the client keeps only frames typed "notification" (frontend/src/services/websocket.js:27), so it drops every such record | send a frame typed "notification" that carries the record and its kind | medium, not executed | NotificationConsumer.SendNotificationAsWritten, NotificationConsumer.KnownNotificationDroppedAsWritten | NotificationConsumer.SendNotification, NotificationConsumer.PushedNotificationDelivered |
| backend/gamification/signals.py:77-78 | the User receiver reuses the name `notify_user_about_new_badge`; the module name is rebound, the signal holds receivers weakly, and the badge receiver is collected | a user whose total reaches a 50-point badge with 100 points: the badge row is created and no notification follows | keep both receivers, so each new badge yields its congratulation; the kept receiver must also drop its `badge=` argument, since Notification (backend/gamification/models.py:46-51) has no such field and the call would raise TypeError | medium, not executed | GamificationSignals.AwardBadgesAsWritten, GamificationSignals.EarnedBadgeUnnoticedAsWritten | GamificationSignals.AwardBadges, GamificationSignals.OneNoticePerNewBadge |
| frontend/src/services/api.js:110 | every value of a rejection body is joined with `errors.join` | the post view's answer for any rejected body, `{detail: "<text>"}` (backend/community/views.py:77-80): the string has no `join`, so the thrown message is "errors.join is not a function" and the server's text is lost | show a string value as it is | high, not executed | ApiServices.PostErrorMessage, ApiServices.ServerRejectionHiddenAsWritten | ApiServices.PostErrorMessageCorrected, ApiServices.ServerRejectionShown |
| frontend/src/pages/Groups.jsx:893 | `isGroupCreator` compares `group.creator` with the user id using `===` | any group as the server sends it: `creator` is a nested profile (backend/community/serializers.py:18), an object, never equal to a number, so the creator is never recognised | compare `group.creator.id` | high, not executed | GroupsPage.IsGroupCreator, GroupsPage.CreatorNeverRecognizedAsWritten | GroupsPage.IsGroupCreatorById, GroupsPage.CreatorRecognizedById |
| backend/tasks/services.py:16-18 | the BMR formula reads the figures from the saved instance, whose attributes still hold the values sent, not the numbers stored | the fitness form's body `{weight: "70", height: "175", sex: "male", age: "30", goal: "bulking"}` (frontend/src/components/FitnessForm.jsx:5-22): the save converts, the requester's tasks are deleted, and `6.25 * "175"` raises, so the reply is 500 | compute with the converted numbers, so the request gets its plan | medium, not executed | TaskViews.PostPlanStep, TaskViews.FormFiguresFailAsWritten | TaskViews.PostPlanStepCorrected, TaskViews.FormFiguresPlannedCorrected |
| frontend/src/components/Post/Post.jsx:30 | the cards test `like?.id === currentUser?.id` on each like (also frontend/src/components/Comment/Comment.jsx:20 and frontend/src/pages/Groups.jsx:129 and 1005) | a post the user 7 has liked, as the server sends it: `likes: [7]` (backend/community/serializers.py:42 lists the many-to-many field by its keys). `7?.id` is `undefined`, so the card shows it unliked, a click sends a second like that the server ignores (backend/community/views.py:85-90), and the count shown rises by one; a visitor, whose id is `undefined` as well, sees it liked | compare the key itself: `likes.includes(currentUser?.id)` | high, not executed | PostInteractions.ServerLikesHiddenAsWritten | PostInteractions.LikerUnlikesCorrected |
