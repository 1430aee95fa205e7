# Safe Traveler Guardian — a verified model of its location and safety core

This project is a Dafny model of the parts of the Safe Traveler Guardian
tourist-safety application that make decisions. The application has a
backend (Express routes) and a frontend (React components and hooks).

On the backend side, the model covers:
- the places router: three caches with a 24-hour lifetime, the
  coordinate-to-state resolver that fails open to `"Unknown"`, the
  `asyncPool` throttle, the rating-based ranking of attractions and their
  enrichment, and the `/place-geocode` and `/location-info` handlers;
- the safety-analytics handler built on that router;
- the place-information handler's validation ladder and result mapping;
- the bearer-token middleware.

On the frontend side, it covers the state machines and the pure rules of:
- the two chat widgets (a streamed `data:` line parser with a flush
  buffer, and a typing indicator);
- the incident-report form;
- the authentication context and its role hierarchy;
- the profile page and its completion score;
- the digital ID card;
- the weather card, the safety dashboard and the crowd card;
- the admin dashboard, the map view and the page layout.

Every server reply, clock reading and `Math.random()` draw is a parameter.
The stateful parts (the router's caches, each component's `useState`
fields, the auth context) are classes whose methods state their whole new
state. Those methods are proved against specification functions. The
properties the source relies on are lemmas about those functions.

Three behaviours of the places router are easy to misread:
- **A reply without a state is cached.** The resolver caches `"Unknown"`
  when the reverse-geocoding reply has no `address.state`. Only a thrown
  request skips the cache (`PlacesRoutes.UnknownIsCached`).
- **Empty place lists are not cached.** The empty list for a region
  without geoname coordinates is returned but not cached
  (`PlacesRoutes.FailuresAreNotCached`).
- **The search key is not trimmed.** The `/place-geocode` cache key is
  the lower-cased name, without trimming (`PlacesRoutes.SearchKeyIsNotTrimmed`).

Files: `wrappers.dfy` (Option), `text.dfy` (JavaScript string helpers),
`ttl_cache.dfy`, `async_pool.dfy`, `places.dfy` and `places_routes.dfy`
(the places router), and one file per other source file.

## Model

| member | source | states |
|---|---|---|
| TtlCache.Store | backend/src/routes/placesRoutes.ts:51 | storing sets the entry under its key and leaves every other key as it was |
| TtlCache.ServedWhileYoung | backend/src/routes/placesRoutes.ts:13 | a stored value is served at every time `now` with `t <= now < t + 24h` |
| TtlCache.MissFromTtlOn | backend/src/routes/placesRoutes.ts:42 | an entry aged exactly 24 hours or more is a miss (strict comparison) |
| TtlCache.ExpiryIsPermanent | backend/src/routes/placesRoutes.ts:64 | once an entry has expired it stays expired at every later time |
| TtlCache.StoreIsolated | backend/src/routes/placesRoutes.ts:141 | storing under one key never changes what another key reads |
| AsyncPool.Pending | backend/src/routes/placesRoutes.ts:22-26 | the number of unsettled workers is bounded by the started ones and is zero iff all have settled |
| AsyncPool.PendingAppend | backend/src/routes/placesRoutes.ts:25-26 | pushing a new promise adds one unsettled worker |
| AsyncPool.PendingSettle | backend/src/routes/placesRoutes.ts:28 | a settling worker lowers the in-flight count by exactly one |
| AsyncPool.Push | backend/src/routes/placesRoutes.ts:29 | pushing the new promise on `executing` keeps `executing` equal to the set of unsettled workers |
| AsyncPool.Settle | backend/src/routes/placesRoutes.ts:28 | a worker that settles and splices itself out keeps that bookkeeping, with its own item's value in its slot |
| AsyncPool.Race | backend/src/routes/placesRoutes.ts:30 | `Promise.race` lets at least one executing worker settle and keeps the bookkeeping |
| AsyncPool.AwaitAll | backend/src/routes/placesRoutes.ts:33 | `Promise.all` yields each item's worker value at the item's index, whatever order the rest settle in |
| AsyncPool.Run | backend/src/routes/placesRoutes.ts:21-34 | one result per item, in input order; the most workers in flight at once is exactly the ceiling (`poolLimit`, or one for a non-positive limit), or the item count when there are fewer items |
| Places.OrElse | backend/src/routes/placesRoutes.ts:111-112 | `a \|\| b` on coordinates: `a` when present and non-zero, else `b` |
| Places.Keep | backend/src/routes/placesRoutes.ts:94 | the kept candidates are exactly those with a truthy name and rating |
| Places.KeepAppend | backend/src/routes/placesRoutes.ts:94 | the filter works element by element: filtering a concatenation concatenates the filtered parts |
| Places.KeepInOrder | backend/src/routes/placesRoutes.ts:94 | each kept candidate sits right after the kept candidates before it, so upstream order and duplicates are kept |
| Places.InsertByRate | backend/src/routes/placesRoutes.ts:95 | one insertion step of the sort adds exactly the new candidate (as a multiset) |
| Places.InsertSorted | backend/src/routes/placesRoutes.ts:95 | inserting into a list sorted by descending rating keeps it sorted |
| Places.SortByRate | backend/src/routes/placesRoutes.ts:95 | the sort is a permutation of its input, sorted by descending rating |
| Places.InsertKeepsTies | backend/src/routes/placesRoutes.ts:95 | an insertion places the new candidate before the candidates of equal rating it meets |
| Places.SortIsStable | backend/src/routes/placesRoutes.ts:95 | candidates of equal rating keep their upstream order |
| Places.Take | backend/src/routes/placesRoutes.ts:96 | `slice(0, n)` is the first `min(n, length)` elements |
| Places.RankSpec | backend/src/routes/placesRoutes.ts:93-96 | at most ten kept candidates, sorted by descending rating, and none left out rates higher than one taken |
| Places.WithRateAppend | backend/src/routes/placesRoutes.ts:95-96 | the candidates of one rating in a concatenation are those of each part, in order |
| Places.RankIsStable | backend/src/routes/placesRoutes.ts:93-96 | the ranked candidates of any one rating are the first ones of that rating among the kept candidates, in upstream order, and all of them when nothing is cut |
| Places.Enrich | backend/src/routes/placesRoutes.ts:100-120 | a place results iff the candidate has an xid and the detail reply has a name; its name and xid are the detail's and the candidate's, its coordinates the detail's falling back to the candidate's, `img` the preview or none, and the description the Wikipedia text |
| Places.Present | backend/src/routes/placesRoutes.ts:123 | `filter(Boolean)` keeps exactly the present values |
| Places.PresentAppend | backend/src/routes/placesRoutes.ts:123 | `filter(Boolean)` works element by element: filtering a concatenation concatenates the filtered parts |
| Places.PresentInOrder | backend/src/routes/placesRoutes.ts:123 | each present value sits right after the present values before it, so order and duplicates are kept |
| Places.PresentCount | backend/src/routes/placesRoutes.ts:123 | failures are dropped, not padded: the result is shorter by the number of failures |
| Places.EnrichAll | backend/src/routes/placesRoutes.ts:99-123 | no more places than candidates, each with a name and an xid |
| PlacesRoutes.ResolveState | backend/src/routes/placesRoutes.ts:39-57 | a live entry is served unchanged; a thrown request answers `"Unknown"` and writes nothing; a reply answers its state, or `"Unknown"` when the state is missing, and caches that answer; the answer is never empty |
| PlacesRoutes.UnknownIsCached | backend/src/routes/placesRoutes.ts:50-56 | a reply without a state caches `"Unknown"`, while a thrown request leaves the cache unchanged |
| PlacesRoutes.ResolvedStateIsReused | backend/src/routes/placesRoutes.ts:41-42 | within the lifetime a later call answers the cached state whatever upstream says |
| PlacesRoutes.LookUpPlaces | backend/src/routes/placesRoutes.ts:73-123 | the lookup succeeds iff the geoname reply has truthy lat and lon and the radius reply is an array; its places are at most ten named ones |
| PlacesRoutes.FamousPlaces | backend/src/routes/placesRoutes.ts:62-130 | a live entry is served unchanged; a miss caches exactly the successful lookups; the answer and the cache stay well formed |
| PlacesRoutes.FailuresAreNotCached | backend/src/routes/placesRoutes.ts:72-129 | missing coordinates, a non-array reply or a thrown request answer `[]` and leave the cache unchanged |
| PlacesRoutes.PlacesDropFailures | backend/src/routes/placesRoutes.ts:99-125 | the answer is the enriched ranked candidates without the failed ones: shorter by the number of failures, and each place right after the places of the candidates ranked before it |
| PlacesRoutes.Locate | backend/src/routes/placesRoutes.ts:145-189 | 404 iff geoname lacks a truthy lat or lon; a result iff the radius body is falsy or a list, with the raw name, the coordinates and the ranked attractions; otherwise 500 |
| PlacesRoutes.PlaceGeocode | backend/src/routes/placesRoutes.ts:135-190 | 400 for a missing name; a live entry under the lower-cased name is served; a miss caches only a result; cached names match their keys ignoring case |
| PlacesRoutes.SearchIgnoresCase | backend/src/routes/placesRoutes.ts:139-143 | a later search differing only in letter case is served the cached result without asking upstream |
| PlacesRoutes.SearchKeyIsNotTrimmed | backend/src/routes/placesRoutes.ts:139 | a leading space gives a different cache key though trimming would not |
| PlacesRoutes.NotFoundIsNotCached | backend/src/routes/placesRoutes.ts:152-154 | a place without coordinates is answered 404 and the cache is unchanged |
| PlacesRoutes.BothPathsRankAlike | backend/src/routes/placesRoutes.ts:172-175 | the name path and the state path rank a radius reply by the same rule |
| PlacesRoutes.PlacesService.constructor | backend/src/routes/placesRoutes.ts:14-16 | the three caches start empty |
| PlacesRoutes.PlacesService.GetStateFromCoordinates | backend/src/routes/placesRoutes.ts:39-57 | the answer and the new resolver cache are those of `ResolveState`: the reply's state or `"Unknown"`, never empty |
| PlacesRoutes.EnrichRanked | backend/src/routes/placesRoutes.ts:99-123 | running the worker through the pool of three and dropping the failures gives exactly the enriched ranked places |
| PlacesRoutes.PlacesService.GetFamousPlacesForState | backend/src/routes/placesRoutes.ts:62-130 | the answer and the new places cache are those of `FamousPlaces`, with the detail requests run through `asyncPool(3, ...)` |
| PlacesRoutes.PlacesService.PlaceGeocodeHandler | backend/src/routes/placesRoutes.ts:135-190 | the reply and the new search cache are those of `PlaceGeocode` |
| PlacesRoutes.PlacesService.LocationInfo | backend/src/routes/placesRoutes.ts:195-211 | 400 with no change unless both parameters are present; otherwise the resolved state and its places, through both caches |
| PlacesRoutes.LocationInfoWellFormed | backend/src/routes/placesRoutes.ts:203-206 | the state answered is never empty and its places are at most ten named ones |
| SafetyAnalytics.RandomBetween | backend/src/routes/safetyAnalyticsRoutes.ts:16 | for `min <= max` and a draw in [0,1) the value lies in [min, max] |
| SafetyAnalytics.ScaledFloorBelow | backend/src/routes/safetyAnalyticsRoutes.ts:16 | `floor(u * n)` lies in [0, n) for a draw in [0,1) |
| SafetyAnalytics.Hotspots | backend/src/routes/safetyAnalyticsRoutes.ts:41-45 | `min(5, |places|)` hotspots named by the first places, with 1..20 incidents and a known trend |
| SafetyAnalytics.RecentIncidents | backend/src/routes/safetyAnalyticsRoutes.ts:48-53 | exactly five incidents, each type, status and severity drawn from its list |
| SafetyAnalytics.InsightSubject | backend/src/routes/safetyAnalyticsRoutes.ts:59 | the first hotspot's location when truthy, else the state |
| SafetyAnalytics.Analyze | backend/src/routes/safetyAnalyticsRoutes.ts:34-72 | total in [100,300], resolved in [80,total], score `max(50, 100-(total-resolved))` in [50,100], weekly in [5,20], three insights |
| SafetyAnalytics.HotspotsNameFirstPlaces | backend/src/routes/safetyAnalyticsRoutes.ts:41-42 | the hotspots name the first places, in order, at most five |
| SafetyAnalytics.FirstInsightSubject | backend/src/routes/safetyAnalyticsRoutes.ts:59 | the first insight opens with the first place's name, or the state when there is none |
| SafetyAnalytics.SafetyAnalyticsHandler | backend/src/routes/safetyAnalyticsRoutes.ts:19-92 | 400 with no change unless both parameters are present; otherwise the analytics of the state and places the cached lookups give |
| PlaceInfo.ToResult | backend/src/routes/placeInfo.ts:86-95 | name falls back to the feature's; description to `info.descr` then `""`; img is the preview or null; bestTime null; photos the image sources or `[]` |
| PlaceInfo.PlaceInfoHandler | backend/src/routes/placeInfo.ts:39-102 | 400 iff the name is missing, not a string or empty; 500 iff, with a name, the key is unset or the search or detail request throws; 404 iff features are missing, empty or start with null; 502 iff details are not ok; otherwise the mapped record |
| PlaceInfo.OnlyFirstFeatureMatters | backend/src/routes/placeInfo.ts:63-68 | only the first feature's xid is asked for |
| PlaceInfo.NameCheckedBeforeKey | backend/src/routes/placeInfo.ts:43-50 | an instance of the ladder's order: a missing name is 400 even without an API key, and a given name without a key is 500 |
| AuthMiddleware.HeaderToken | backend/src/middlewares/auth.ts:10 | the token is the second field of the header split on single spaces, when non-empty |
| AuthMiddleware.AnySchemeWord | backend/src/middlewares/auth.ts:10-12 | any first word followed by a token yields that token; the scheme word is never checked |
| AuthMiddleware.MissingToken | backend/src/middlewares/auth.ts:11 | a scheme word alone, or a double space, yields no token |
| AuthMiddleware.Decide | backend/src/middlewares/auth.ts:6-17 | 401 without a header or token; 403 iff verification fails; otherwise the verified user |
| AuthMiddleware.Exchange.constructor | backend/src/middlewares/auth.ts:6 | no user, no status, `next` not yet called |
| AuthMiddleware.Exchange.Authenticate | backend/src/middlewares/auth.ts:6-17 | a rejection sends its status without calling `next`; an acceptance stores the user and calls `next` exactly once |
| Text.TrimEmptyIffBlank | src/components/ChatbotWidget.tsx:47 | a string trims to `""` iff it is all whitespace |
| Text.JoinSplit | backend/src/middlewares/auth.ts:10 | splitting on a separator and joining back gives the string |
| ChatbotWidget.Turns | src/components/ChatbotWidget.tsx:77-81 | each message becomes a turn with role "user" or "assistant" and its content, in order |
| ChatbotWidget.History | src/components/ChatbotWidget.tsx:77-82 | the history has one more entry than the messages, the last being the new user turn |
| ChatbotWidget.HistoryUserTurns | src/components/ChatbotWidget.tsx:77-82 | the history holds one user turn per user message, plus one |
| ChatbotWidget.UpdateBotMessage | src/components/ChatbotWidget.tsx:98-104 | only messages with the placeholder's id change, and only their content; the length is kept |
| ChatbotWidget.UpdateTwice | src/components/ChatbotWidget.tsx:98-104 | a later update of the placeholder overrides an earlier one |
| ChatbotWidget.StripData | src/components/ChatbotWidget.tsx:120 | one leading `"data: "` (with one space) is removed; other lines are kept |
| ChatbotWidget.ParseLine | src/components/ChatbotWidget.tsx:117-121 | a line gives a payload iff its trimmed form starts with `data:` and what is left after stripping `data: ` and trimming is not `[DONE]`; the payload is that remainder |
| ChatbotWidget.DataLinePayload | src/components/ChatbotWidget.tsx:117-121 | a standard `data: ` line yields its payload unchanged |
| ChatbotWidget.NoSpaceKeepsPrefix | src/components/ChatbotWidget.tsx:120 | without the space after the colon the payload keeps the `data:` prefix |
| ChatbotWidget.UnparsableAddsNothing | src/components/ChatbotWidget.tsx:123-138 | a payload that fails to parse adds no text |
| ChatbotWidget.ChunkWithoutBreak | src/components/ChatbotWidget.tsx:114-116 | each read is split on its own: a chunk without a line break is one line |
| ChatbotWidget.FlushShows | src/components/ChatbotWidget.tsx:129-133 | a flush of non-empty text replaces what the placeholder showed |
| ChatbotWidget.Chatbot.constructor | src/components/ChatbotWidget.tsx:25-35 | the greeting alone, empty input, not loading |
| ChatbotWidget.Chatbot.ReadLine | src/components/ChatbotWidget.tsx:117-135 | `botContent ++ buffer` grows by exactly the line's delta, and the placeholder shows `botContent` |
| ChatbotWidget.Chatbot.ReadLines | src/components/ChatbotWidget.tsx:116-139 | `botContent ++ buffer` grows by the chunk's deltas in order |
| ChatbotWidget.Chatbot.ReadStream | src/components/ChatbotWidget.tsx:110-140 | after the read loop `botContent ++ buffer` is all the streamed text, in order |
| ChatbotWidget.Chatbot.FinishReply | src/components/ChatbotWidget.tsx:142-154 | after the final flush the placeholder holds the whole text; on failure it holds the error text |
| ChatbotWidget.Chatbot.HandleSendMessage | src/components/ChatbotWidget.tsx:46-158 | no change for a blank input or while loading; otherwise the user message (id from the first clock reading) and the placeholder (id from the second reading plus one) are added, the history is posted, the input is cleared and loading ends |
| ChatbotWidget.FailureShowsErrorText | src/components/ChatbotWidget.tsx:146-154 | a failed send shows the fixed error text in the placeholder |
| ChatbotWidget.CompleteStreamShowsAllText | src/components/ChatbotWidget.tsx:142-145 | a complete stream leaves all the streamed text in the placeholder |
| EnhancedChatbotWidget.WithoutTyping | src/components/EnhancedChatbotWidget.tsx:105 | exactly the messages whose id is not `"typing"` remain |
| EnhancedChatbotWidget.WithoutTypingAppend | src/components/EnhancedChatbotWidget.tsx:105 | the filter distributes over appended lists |
| EnhancedChatbotWidget.BotText | src/components/EnhancedChatbotWidget.tsx:107-141 | the response when ok and truthy; the fallback advice when not ok or empty; the technical-issues text when thrown |
| EnhancedChatbotWidget.QuickQuestions | src/components/EnhancedChatbotWidget.tsx:313-321 | shown iff at most two non-typing messages: the first six when expanded, else four |
| EnhancedChatbotWidget.Assistant.constructor | src/components/EnhancedChatbotWidget.tsx:40-52 | the greeting alone, empty input, not loading, not expanded |
| EnhancedChatbotWidget.Assistant.HandleSendMessage | src/components/EnhancedChatbotWidget.tsx:65-153 | no change for a blank input or while loading; otherwise the indicator is gone and exactly one user message (id from the clock at the send) and one bot message (id from the clock after the reply, plus one) are appended; loading ends |
| EnhancedChatbotWidget.NumericIdIsNotTyping | src/components/EnhancedChatbotWidget.tsx:69 | an id made from a clock reading is never `"typing"` |
| EnhancedChatbotWidget.IndicatorRemoved | src/components/EnhancedChatbotWidget.tsx:87-105 | removing the indicator keeps the filtered earlier messages and the user message |
| EnhancedChatbotWidget.NoTypingAfterSend | src/components/EnhancedChatbotWidget.tsx:87-134 | after a finished send no message has id `"typing"` |
| EnhancedChatbotWidget.QuickQuestionsAroundFirstExchange | src/components/EnhancedChatbotWidget.tsx:313 | the typing indicator does not count: questions stay while the first answer is pending and go once it arrives |
| IncidentReport.SubmitError | src/components/IncidentReport.tsx:77-85 | the content error iff blank description and no media; the GPS error iff content but no location; none otherwise |
| IncidentReport.SeverityColor | src/components/IncidentReport.tsx:94-105 | low, medium and high map to success, warning and danger; anything else to muted |
| IncidentReport.MediaIsContent | src/components/IncidentReport.tsx:77 | an attachment alone passes the content check |
| IncidentReport.BlankIsNoContent | src/components/IncidentReport.tsx:77 | whitespace alone is not content |
| IncidentReport.IncidentForm.constructor | src/components/IncidentReport.tsx:31-41 | a draft with empty fields, no location and no error |
| IncidentReport.IncidentForm.PositionChanged | src/components/IncidentReport.tsx:47-52 | the watcher's position becomes the location |
| IncidentReport.IncidentForm.PositionFailed | src/components/IncidentReport.tsx:53-56 | a watcher error sets the location error and keeps the last location |
| IncidentReport.IncidentForm.DescriptionChanged | src/components/IncidentReport.tsx:36 | the description is replaced |
| IncidentReport.IncidentForm.FileChange | src/components/IncidentReport.tsx:66-71 | a selection replaces the media, not appends; no selection keeps them |
| IncidentReport.IncidentForm.Submit | src/components/IncidentReport.tsx:73-92 | a failing check sets its error and keeps the status; a passing one clears the error, moves to submitting and schedules the callback |
| IncidentReport.IncidentForm.TimerFires | src/components/IncidentReport.tsx:89-91 | the callback moves to submitted |
| IncidentReport.IncidentForm.SubmitAnother | src/components/IncidentReport.tsx:146-152 | back to a draft with empty media, description, type and severity |
| IncidentReport.IncidentForm.Clear | src/components/IncidentReport.tsx:354-360 | type, severity, description, media and error are emptied |
| IncidentReport.SubmitScenario | src/components/IncidentReport.tsx:73-92 | with content and a position, a submit and the callback reach submitted with no error |
| UseAuth.Rank | src/hooks/useAuth.tsx:171-175 | each role ranks 1 to 3 |
| UseAuth.HasRole | src/hooks/useAuth.tsx:170 | no role satisfies no requirement |
| UseAuth.HasRoleIffCovers | src/hooks/useAuth.tsx:169-177 | the check holds iff the held role covers the required one: itself, super admin covers all, admin covers normal user |
| UseAuth.HasRoleIsAnOrder | src/hooks/useAuth.tsx:171-176 | reflexive, transitive and antisymmetric; super admin satisfies every role; normal user only its own |
| UseAuth.AuthContext.constructor | src/hooks/useAuth.tsx:37-39 | no user or role, loading |
| UseAuth.AuthContext.FetchUserData | src/hooks/useAuth.tsx:43-67 | without a token nothing changes but loading; an ok reply sets user and role; any other outcome clears them; loading ends |
| UseAuth.AuthContext.SignIn | src/hooks/useAuth.tsx:73-105 | success iff the reply is ok, then storing token, user and role; otherwise nothing changes |
| UseAuth.AuthContext.SignOut | src/hooks/useAuth.tsx:137-152 | the token, user and role are cleared |
| UseAuth.AuthContext.HandleOAuthToken | src/hooks/useAuth.tsx:154-163 | the token is stored, the profile fetched with it, loading ends |
| UseAuth.AuthContext.UpdateUser | src/hooks/useAuth.tsx:165-167 | only the user is replaced |
| UseAuth.AuthContext.HasRequiredRole | src/hooks/useAuth.tsx:169-177 | the hierarchy check applied to the context's current role |
| UseAuth.SignOutRevokesRoles | src/hooks/useAuth.tsx:137-170 | after signing out no role check passes |
| Profiles.WeightedSumFull | src/pages/Profiles.tsx:52-60 | with positive weights the full total is reached iff every term is truthy |
| Profiles.Completion | src/pages/Profiles.tsx:52-60 | the score is at most 100, a multiple of five, and 100 iff every term is truthy |
| Profiles.CompletionMonotone | src/pages/Profiles.tsx:52-60 | filling a field never lowers the score |
| Profiles.AvatarAloneGivesTen | src/pages/Profiles.tsx:60 | the avatar term alone gives ten |
| Profiles.ProfilePage.Filled | src/pages/Profiles.tsx:52-60 | one truthiness flag per score term |
| Profiles.ProfilePage.Score | src/pages/Profiles.tsx:52-60 | the shown score is at most 100, a multiple of five, and at least ten while the avatar URL is non-empty |
| Profiles.ProfilePage.constructor | src/pages/Profiles.tsx:11-20 | empty fields, the default avatar, no picked file |
| Profiles.ProfilePage.FetchProfile | src/pages/Profiles.tsx:23-46 | only a successful reply copies the fields, `""` for missing ones, the default avatar for a missing URL, and updates the context |
| Profiles.ProfilePage.AvatarChange | src/pages/Profiles.tsx:62-66 | the pick becomes `dp`; only a file changes the avatar URL |
| Profiles.ProfilePage.Save | src/pages/Profiles.tsx:68-101 | success clears `dp`, takes the returned URL or keeps the current one, and updates the context; failure changes nothing |
| DigitalId.WithoutDashes | src/components/DigitalID.tsx:57 | the dashes are removed and nothing is added |
| DigitalId.DigitsOf | src/components/DigitalID.tsx:63 | only digits remain |
| DigitalId.Substring | src/components/DigitalID.tsx:57-64 | `substring` clamps both bounds to the string |
| DigitalId.AddressShape | src/components/DigitalID.tsx:56-59 | the address has at most 13 characters and no dash |
| DigitalId.AddressShowsHash | src/components/DigitalID.tsx:56-59 | with eight non-dash characters the address is `0x` + four + `...` + four |
| DigitalId.AddressOfUuid | src/components/DigitalID.tsx:56-59 | for a UUID the address shows its first block |
| DigitalId.MaskedDigits | src/components/DigitalID.tsx:64 | around the five bullets every character is a digit |
| DigitalId.PassportShape | src/components/DigitalID.tsx:62-65 | the number has at most 13 characters and every non-bullet is a digit |
| DigitalId.PassportShowsDigits | src/components/DigitalID.tsx:62-65 | with eight digits in the id the number shows the first four and next four around five bullets |
| DigitalId.PassportOfDigits | src/components/DigitalID.tsx:63 | an instance: for `"ab-"` followed by eight digits the number shows exactly those digits around the bullets |
| DigitalId.Traveler | src/components/DigitalID.tsx:67-116 | the placeholder while the user or profile is missing; otherwise the name falls back to the email, nationality to "Digital Citizen", status "Verified" |
| DigitalId.VerifiedIffLoaded | src/components/DigitalID.tsx:68-113 | the card is verified iff both records are present |
| EnhancedWeatherWidget.WeatherIconIgnoresCase | src/components/EnhancedWeatherWidget.tsx:104-122 | the icon depends only on the lower-cased condition, each non-sun icon iff its words, sun otherwise |
| EnhancedWeatherWidget.UpperCaseRain | src/components/EnhancedWeatherWidget.tsx:105 | an instance of `WeatherIconIgnoresCase`: `"RAIN"` gets the rain icon |
| EnhancedWeatherWidget.ConditionText | src/components/EnhancedWeatherWidget.tsx:124-125 | only the first character is upper-cased |
| EnhancedWeatherWidget.ConditionTextIgnoresCondition | src/components/EnhancedWeatherWidget.tsx:124 | the condition argument is not used |
| EnhancedWeatherWidget.UvLevelOf | src/components/EnhancedWeatherWidget.tsx:127-133 | each of the five bands as an iff: Low up to 2, Moderate above 2 up to 5, High above 5 up to 7, Very High above 7 up to 10, Extreme above 10 |
| EnhancedWeatherWidget.UvColor | src/components/EnhancedWeatherWidget.tsx:128-132 | "success" iff Low, "warning" iff Moderate, "error" iff High, Very High or Extreme |
| EnhancedWeatherWidget.UvLevelMonotone | src/components/EnhancedWeatherWidget.tsx:127-133 | a higher index never gives a lower level |
| EnhancedWeatherWidget.TravelAdvice | src/components/EnhancedWeatherWidget.tsx:135-143 | at most five tips |
| EnhancedWeatherWidget.TravelAdviceExact | src/components/EnhancedWeatherWidget.tsx:137-141 | each tip iff its condition holds, umbrella first and low visibility last |
| EnhancedWeatherWidget.FallbackNeedsNoAdvice | src/components/EnhancedWeatherWidget.tsx:77-89 | the fallback record gives no advice and a High UV level |
| EnhancedWeatherWidget.FetchError | src/components/EnhancedWeatherWidget.tsx:55-67 | no error iff the reply carries weather; an error text is never empty |
| Wrappers.Truthy | src/components/EnhancedWeatherWidget.tsx:47 | a coordinate is truthy iff present and non-zero |
| EnhancedWeatherWidget.WeatherWidget.constructor | src/components/EnhancedWeatherWidget.tsx:41-43 | no weather, not loading, no error |
| EnhancedWeatherWidget.WeatherWidget.FetchWeatherData | src/components/EnhancedWeatherWidget.tsx:46-94 | nothing for a falsy coordinate; otherwise the reply's weather, or the error with the fallback installed only if none was held; loading ends |
| EnhancedWeatherWidget.FetchAlwaysShowsWeather | src/components/EnhancedWeatherWidget.tsx:76-90 | after a fetch with truthy coordinates some weather is held |
| SafetyDashboard.StatusFor | src/components/SafetyDashboard.tsx:51-53 | safe iff more than 100 tourists, warning iff 51 to 100, danger iff at most 50 |
| SafetyDashboard.StatusMonotone | src/components/SafetyDashboard.tsx:51-53 | more tourists never give a less safe status |
| SafetyDashboard.ConfigFor | src/components/SafetyDashboard.tsx:56-63 | All Clear 98, Caution Advised 72, High Alert 31 |
| SafetyDashboard.PercentFollowsSafety | src/components/SafetyDashboard.tsx:56-63 | the percentage rises with the status |
| SafetyDashboard.LocationText | src/components/SafetyDashboard.tsx:84-88 | loading first, then the error, then the address, the city or "Unknown location", each when truthy |
| SafetyDashboard.EmptyAddressShowsCity | src/components/SafetyDashboard.tsx:87 | an empty address falls through to the city |
| SafetyDashboard.OpenCompanions | src/components/SafetyDashboard.tsx:170 | the filter never grows the list |
| SafetyDashboard.OpenCompanionsAppend | src/components/SafetyDashboard.tsx:170 | the filter works element by element: filtering a concatenation concatenates the filtered parts |
| SafetyDashboard.OpenCompanionsExact | src/components/SafetyDashboard.tsx:170-178 | exactly the open companions are listed, each right after the open companions before it (list order, duplicates kept), and the list is empty iff none is open |
| SafetyDashboard.NearbyOpenCompanions | src/components/SafetyDashboard.tsx:76-81 | an instance of `OpenCompanionsExact`: of the fixed companions, Alice and Sara show, in order |
| SafetyDashboard.Dashboard.constructor | src/components/SafetyDashboard.tsx:36-42 | safe, no tourists, panel closed, no companions |
| SafetyDashboard.Dashboard.LocationChanged | src/components/SafetyDashboard.tsx:45-54 | without a location nothing changes; otherwise the count and its status are stored |
| SafetyDashboard.Dashboard.FindCompanions | src/components/SafetyDashboard.tsx:74-82 | the panel opens with the fixed companions |
| CrowdWidget.ClockNumber | src/components/CrowdWidget.tsx:71 | the clock number lies in 1..12 and agrees with the hour modulo 12 |
| CrowdWidget.Suffix | src/components/CrowdWidget.tsx:71 | "AM" iff the hour is before noon |
| CrowdWidget.ClockRoundTrip | src/components/CrowdWidget.tsx:71 | the clock number and suffix give back the hour |
| CrowdWidget.MidnightAndNoon | src/components/CrowdWidget.tsx:71 | 0 is 12AM and 12 is 12PM |
| CrowdWidget.ForecastHours | src/components/CrowdWidget.tsx:69-70 | six hours, `(currentHour + i) mod 24` |
| CrowdWidget.ForecastConsecutive | src/components/CrowdWidget.tsx:70 | consecutive forecast hours are one hour apart, wrapping at midnight |
| CrowdWidget.Forecast | src/components/CrowdWidget.tsx:69-77 | six predictions labelled by their hours |
| CrowdWidget.Tips | src/components/CrowdWidget.tsx:204-225 | off-peak iff high, growing iff increasing, great-time iff low, best-times always and last |
| CrowdWidget.TipsExclusive | src/components/CrowdWidget.tsx:204-221 | the off-peak and great-time tips never show together; at most three tips |
| CrowdWidget.Crowd.constructor | src/components/CrowdWidget.tsx:43-51 | the initial reading |
| CrowdWidget.Crowd.Update | src/components/CrowdWidget.tsx:57-92 | only with truthy coordinates is the reading replaced by the simulated one for the current hour |
| AdminDashboard.CountRole | src/components/AdminDashboard.tsx:131-133 | a role count never exceeds the number of users |
| AdminDashboard.RoleCountsAddUp | src/components/AdminDashboard.tsx:129-134 | the three role counts add up to the total |
| AdminDashboard.CountRoleAppend | src/components/AdminDashboard.tsx:131-133 | adding a user adds one to its own role's count only |
| AdminDashboard.BadgeVariant | src/components/AdminDashboard.tsx:107-116 | super_admin is destructive, admin default, anything else secondary |
| AdminDashboard.ReplaceFirst | src/components/AdminDashboard.tsx:250 | the replacement keeps the length |
| AdminDashboard.ReplaceFirstAbsent | src/components/AdminDashboard.tsx:250 | without an underscore the text is kept |
| AdminDashboard.ReplaceFirstAfter | src/components/AdminDashboard.tsx:250 | only the first occurrence is replaced; the rest is kept |
| AdminDashboard.NormalUserText | src/components/AdminDashboard.tsx:250 | normal_user shows as "normal user" |
| AdminDashboard.AdminText | src/components/AdminDashboard.tsx:250 | admin shows as "admin" |
| AdminDashboard.SuperAdminText | src/components/AdminDashboard.tsx:250 | super_admin shows as "super admin" |
| AdminDashboard.OnlyFirstUnderscore | src/components/AdminDashboard.tsx:250 | a second underscore is kept |
| AdminDashboard.ViewFor | src/components/AdminDashboard.tsx:136-253 | access is denied iff the viewer is not an admin; the role selector is shown iff the viewer is a super admin |
| AdminDashboard.DisplayName | src/components/AdminDashboard.tsx:236 | the shown name is never empty |
| AdminDashboard.AdminPage.constructor | src/components/AdminDashboard.tsx:38-39 | no users, loading |
| AdminDashboard.AdminPage.FetchUsers | src/components/AdminDashboard.tsx:43-67 | an ok reply replaces the users; a failure keeps them; loading ends |
| AdminDashboard.AdminPage.UpdateUserRole | src/components/AdminDashboard.tsx:73-105 | success iff the update is ok, and only then are the users reloaded |
| MapView.SwapAll | src/components/MapView.tsx:198 | each pair is swapped, the length kept |
| MapView.SwapTwice | src/components/MapView.tsx:198 | swapping twice gives the route back |
| MapView.SwapAllAppend | src/components/MapView.tsx:198 | swapping distributes over joined routes |
| MapView.ZoneColor | src/components/MapView.tsx:220-227 | safe, moderate and warning get green, amber and red; anything else grey |
| MapView.SeverityColor | src/components/MapView.tsx:229-236 | low, medium and high get green, amber and red; anything else grey |
| MapView.PalettesAgree | src/components/MapView.tsx:220-236 | the two palettes agree level by level |
| MapView.SafetyMap.constructor | src/components/MapView.tsx:89-102 | centred on the default point; empty query, suggestions, result, route and distance; sidebar closed |
| MapView.SafetyMap.FetchSuggestions | src/components/MapView.tsx:166-176 | an empty query clears the suggestions; a reply gives its first six in order; a failure keeps them |
| MapView.SafetyMap.SelectSuggestion | src/components/MapView.tsx:178-187 | the pick becomes the result and the centre; suggestions, route and distance are cleared; the sidebar closes |
| MapView.SafetyMap.FetchRoute | src/components/MapView.tsx:189-206 | only a reply with coordinates sets the route, swapped; the distance in kilometres follows when the summary is present |
| Layout.BackgroundFor | src/components/Layout.tsx:33-39 | "/" exactly is the hero; then the dashboard, analytics and home prefixes in order; "none" iff no rule matches |
| Layout.HeroOnlyAtRoot | src/components/Layout.tsx:34 | the hero belongs to "/" alone, never as a prefix |
| Layout.SectionBackgrounds | src/components/Layout.tsx:35-38 | sub-paths keep their section's background; an unknown page has none |
| Layout.Render | src/components/Layout.tsx:21-59 | the loading screen while loading; a redirect to /signin for a protected route without a user; otherwise navigation iff signed in and footer iff signed in and at least 400 wide |
| Layout.FooterNeedsNavigation | src/components/Layout.tsx:52-59 | the footer never shows without the navigation bar |

## Left out

- HTTP, Express, `fetch`/axios, JSON parsing, toasts, alerts, JSX and local storage are not modelled. Each reply is a datatype parameter, and each handler answers a status code or a body.
- JavaScript `trim`, `toLowerCase` and `toUpperCase` are modelled on ASCII whitespace and ASCII letters only, because Unicode case mapping is outside the model.
- The coordinate cache key (`toFixed(5)`) and `parseFloat` of query parameters are not modelled; the key is a string parameter, because floating-point formatting is outside the model.
- AsyncPool.Run: the event loop is a sequential step machine. Workers settle only at `Promise.race` and `Promise.all`, and a worker that rejects is not modelled, because every caller catches inside its worker.
- `Date.now()`, `new Date()`, `setTimeout` and `setInterval` are not modelled; clock readings are parameters, and each cache write carries its own arrival time.
- SafetyAnalytics.Analyze: `avgResponseTime` is the number before `toFixed(1) + " mins"`. The incidents' "hours ago" text and the placeholder trends are not modelled, because they are formatting.
- The two 500 answers of `/location-info` and of the analytics handler are not modelled. Their helpers catch every error, so those answers cannot happen.
- PlacesRoutes.Locate: a `res.json` that throws after the cache write is not modelled, because the reply is a value here.
- UseAuth: `signUp` (src/hooks/useAuth.tsx:107-135) is not modelled, because it changes no state. The logout request is not modelled either, because its failure is ignored.
- UseAuth.HasRole: a role string outside the three known roles is not modelled, because roles are a datatype.
- CrowdWidget.Crowd.Update: the random level, count, trend, peak time and forecast figures are parameters. The fixed nearby-hotspot list is not modelled.
- EnhancedWeatherWidget.WeatherWidget.FetchWeatherData: the fallback test reads the current weather. The source reads the value captured when the fetch started, and a send racing another fetch is not modelled.
- DigitalId.Traveler: the issue and expiry dates are not modelled, because they come from the clock. The profile fetch effect is not modelled, because it only stores the reply.
- IncidentReport: the "geolocation not supported" branch is not modelled, because it is a browser capability. Incident type and severity changes are plain field writes.
- AdminDashboard.AdminPage.UpdateUserRole: the reload is not awaited in the source; the model runs it to completion before returning. The header's upper-casing of the role text is not modelled.
- MapView.SafetyMap.FetchRoute: a summary without a `distance` field gives `NaN` in the source; the model has no `NaN` and treats it like a missing summary, which keeps the old distance.
- PlaceInfo.PlaceInfoHandler: a first feature without `properties` makes the source throw and answer 500; the model's replies are typed records, so those malformed bodies are not modelled.
- Places.Keep: a `null` element in the radius reply makes the source's filter throw; the model's candidates are typed records, so that body is not modelled.
- MapView: the tourist-spot effect and `handleStartRoute` are not modelled. `fetchRoute`'s `!start || !end` guard is not modelled either, because an array is always truthy.
- Layout.Render: the window width is a parameter, because the resize listener that updates it is not modelled.
- ChatbotWidget: the clock readings that decide a flush are a parameter. A stream that fails after some flushes shows the error text, as the source does. `TextDecoder` is not modelled; chunks are strings.
