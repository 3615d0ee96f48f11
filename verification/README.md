# SnapFood core, modelled in Dafny

SnapFood is a React app. The user photographs a meal, and the app shows condition-aware health advice. In offline mode it queues each analysis locally for a later sync. This project models the app's decision logic as pure Dafny functions and proves properties about them:

- **Advice engine** (`HealthAdvice`, file `health_advice.dfy`): `generateHealthAdvice` turns a nutrient profile and one of six health conditions into an ordered list of green/yellow/red flags and a list of recommendations. Amounts are exact `real`s. A nutrient missing from the profile makes every comparison false, as JavaScript does with `undefined`.
- **Camera page** (`Camera`): builds the analysis record, which appends two general recommendations. The record is queued only in offline mode. The module also models the 10 MiB upload guard.
- **Offline context** (`Offline`): covers connectivity, the offline-mode preference and the pending-scan queue. The queue is mirrored into an abstract key-value store (`Storage`). The module models start-up reload, toggle, add, clear, the all-or-nothing sync, and the host's online/offline events.
- **Auth context** (`Auth`): covers the demo login by e-mail, Google login, signup, logout, condition and profile updates, session restore, and the `isAdmin`/`isClinician` flags.
- **Route guard** (`Routes`): decides whether a page shows the spinner, access denied, insufficient permissions, or its children.
- **Traffic-light panel** (`NutritionPanel`): covers the six rows, the advice table with its fallback, the top-three advice list, the status counts, the 0–100 score and its colour band.
- **Dashboards** (`DashboardPage`, `ScoreBadges`): cover risk colours, relative times, the pending-sync alert, the two flag badges, and score colours and badge variants.

Each asynchronous handler is modelled as one atomic step. Results the app cannot compute itself are parameters:

- the outcome of the submission that a production build would make during sync (the code only waits on a timer, so for the code as written it always succeeds);
- the clock (milliseconds, and ISO text);
- the numeric stamp used in ids and tokens;
- whether the host is online at start-up.

`localStorage` is a `map<string, Value>`. JSON is abstract: a stored `Value` is either plain `Text` or the encoding of a scan list or of a user. Decoding an encoding gives its value back, and plain text never decodes. An empty `Text` is falsy, as an empty string is in JavaScript.

Facts about the code that the model keeps:

- Flag levels are `green`, `yellow` and `red`.
- A missing nutrient is not treated as zero. For example, without a `calories` key the default branch's `calories < 600` is false.
- Adding a scan appends it, even when a scan with the same id is already queued.
- Sync waits on a 2-second timer where a production build would submit the queue, logs the queue, and then clears all of it. Nothing is submitted, so the catch-and-rethrow cannot be reached as written. There are no per-record states, no stop-on-first-failure, and no retries.
- The two general recommendations are appended by the record builder, not by the advice engine.

`clearPendingScans` removes the stored key. The new (empty) queue value then triggers the persistence effect, which writes the empty list back. So once the effect has run, the stored snapshot again encodes the queue. `ClearHandler` models the handler alone, and `ClearPendingScans` models the handler followed by the effect. On mount, the first effect reads the snapshot before the second writes anything. The second effect then writes the loaded queue back, so an unparsable snapshot is replaced by the empty list.

## Model

| member | source | states |
|---|---|---|
| HealthAdvice.GenerateHealthAdvice | src/pages/Camera.tsx:65-153 | between one and three flags; recommendations are the rule recommendations; the flags are exactly the default green flag iff no rule guard of the condition holds, and otherwise exactly the rule flags |
| HealthAdvice.RuleFlagsBound | src/pages/Camera.tsx:72-145 | each condition's rules raise at most three flags, and none iff no guard holds |
| HealthAdvice.RuleFlagsNotDefault | src/pages/Camera.tsx:72-150 | no rule flag equals the default "Suitable for your health condition" flag |
| HealthAdvice.NonGreenCount | src/pages/Camera.tsx:66 | the number of yellow or red flags never exceeds the number of flags |
| HealthAdvice.NonGreenCountAppend | src/pages/Camera.tsx:69-145 | counting yellow and red flags distributes over appending rule outputs |
| HealthAdvice.RecommendationsMatchWarnings | src/pages/Camera.tsx:72-145 | for every condition but pregnancy, the number of recommendations equals the number of yellow and red flags |
| HealthAdvice.PraiseOnlyConditions | src/pages/Camera.tsx:113-144 | pregnancy and the default branch raise only green flags; pregnancy always gives exactly the hydration and variety recommendations, the default branch none |
| HealthAdvice.HypertensiveSodium | src/pages/Camera.tsx:87-98 | sodium above 800 gives a red first flag and the low-sodium advice; above 400 up to 800 a yellow first flag and the monitoring advice; at most 400 with no potassium above 300 only the default flag; never two sodium warnings |
| HealthAdvice.DiabeticRuleOrder | src/pages/Camera.tsx:72-85 | diabetic flags run red, yellow, green in rule order; the first flag is red iff carbs exceed 45; the sugar flag appears iff sugar exceeds 10; the fiber flag appears iff fiber is at least 5; the portion advice appears iff carbs exceed 45 and the sugar advice iff sugar exceeds 10 |
| HealthAdvice.FlagsNotSortedBySeverity | src/pages/Camera.tsx:126-138 | flags keep evaluation order: under cholesterol watch the yellow fat flag precedes the red cholesterol flag |
| HealthAdvice.MockProfileAdvice | src/pages/Camera.tsx:163-176 | the fixed mock profile gives exactly one red carbohydrate flag when diabetic, one red sodium flag when hypertensive, and the listed flags for the other conditions |
| HealthAdvice.AbsentIsNotZero | src/pages/Camera.tsx:140-144 | no profile without a calories key counts as well balanced, whatever its other nutrients; a protein-only profile gets the default flag, while the same profile with an explicit zero calories is well balanced |
| HealthAdvice.EmptyProfile | src/pages/Camera.tsx:72-150 | an empty profile fires no rule under any condition |
| Camera.ScanOwner | src/pages/Camera.tsx:180 | a scan's owner is never empty; it is the user's id when there is a non-empty one, "anonymous" otherwise |
| Camera.BuildRecord | src/pages/Camera.tsx:176-193 | the record carries the engine's flags, and its recommendations are the engine's followed by exactly the two general ones |
| Camera.AnalyzeImage | src/pages/Camera.tsx:176-200 | the mock profile is analysed; in offline mode the record is added to the queue, otherwise the offline state is unchanged |
| Camera.QueuedIffOfflineMode | src/pages/Camera.tsx:197-200 | the queue grows by one iff offline mode is on, and then the new last entry is the record; earlier entries stay |
| Camera.RecordRecommendations | src/pages/Camera.tsx:186-190 | every record ends with "Add vegetables to increase fiber content" then "Drink plenty of water with meals"; outside pregnancy it has two more recommendations than yellow and red flags |
| Camera.HandleFileUpload | src/pages/Camera.tsx:209-224 | the alert is raised iff a file over 10 MiB is given; the captured image changes only for a file within the limit |
| Camera.UploadGuard | src/pages/Camera.tsx:212-215 | a file of at most 10485760 bytes becomes the captured image; a larger one leaves it and alerts |
| Storage.GetItem | src/contexts/OfflineContext.tsx:41 | a lookup is present iff the key is stored, with the stored value |
| Storage.SetItem | src/contexts/OfflineContext.tsx:62 | writing a key sets it and leaves every other key as it was |
| Storage.RemoveItem | src/contexts/OfflineContext.tsx:77 | removing a key drops it, leaves every other key, and changes nothing for a missing key |
| Storage.ParseScans | src/contexts/OfflineContext.tsx:44 | the snapshot parses iff it is the encoding of a scan list |
| Storage.ParseUser | src/contexts/AuthContext.tsx:45 | the stored user parses iff it is the encoding of a user |
| Storage.ParseRoundTrip | src/contexts/OfflineContext.tsx:60-63 | decoding an encoding gives back the value; plain text never decodes; encodings are truthy |
| Offline.Persist | src/contexts/OfflineContext.tsx:60-63 | after the persistence effect the stored snapshot encodes the queue, and only that key changed |
| Offline.LoadPending | src/contexts/OfflineContext.tsx:40-48 | a stored scan list becomes the queue; anything else (missing, empty, unparsable) gives the empty queue |
| Offline.Mount | src/contexts/OfflineContext.tsx:28-63 | at start-up the queue is the loaded one and is written back; offline mode is on iff the stored text is exactly "true"; connectivity is the host's; other keys are untouched |
| Offline.GoOnline | src/contexts/OfflineContext.tsx:34 | the online event sets online and leaves the queue, the store and the mode |
| Offline.GoOffline | src/contexts/OfflineContext.tsx:35 | the offline event clears online and leaves the queue, the store and the mode |
| Offline.ToggleOfflineMode | src/contexts/OfflineContext.tsx:65-69 | the mode flips and the stored text, read back, gives the new mode; the queue and other keys are unchanged |
| Offline.AddPendingScan | src/contexts/OfflineContext.tsx:71-73 | the scan is appended at the end, one more copy of it is queued, earlier entries stay, the snapshot encodes the new queue, and every other store key is unchanged |
| Offline.ClearHandler | src/contexts/OfflineContext.tsx:75-78 | the queue is empty and the stored snapshot key is removed |
| Offline.ClearPendingScans | src/contexts/OfflineContext.tsx:60-78 | after the handler and the persistence effect the queue is empty and the snapshot reloads as empty; other keys are unchanged |
| Offline.SyncPendingData | src/contexts/OfflineContext.tsx:80-95 | offline or with an empty queue nothing changes; after the await the queue is cleared and the snapshot encodes the empty list; the `Failed` outcome (a rejected submission, which the code as written cannot produce) leaves the state unchanged |
| Offline.SyncAllOrNothing | src/contexts/OfflineContext.tsx:80-95 | after a sync the queue is either empty or exactly as before; it reports success iff online, non-empty and accepted |
| Offline.SnapshotInvariant | src/contexts/OfflineContext.tsx:60-63 | add, clear, sync, toggle and both connectivity events keep the stored snapshot equal to the encoding of the queue |
| Offline.ReloadRestoresQueue | src/contexts/OfflineContext.tsx:40-63 | reloading from any persisted state's store gives back the same queue |
| Offline.CorruptSnapshotIsReset | src/contexts/OfflineContext.tsx:42-48 | an unparsable snapshot reloads as the empty queue, without error, and is overwritten with the empty list |
| Offline.ToggleTwice | src/contexts/OfflineContext.tsx:65-69 | toggling twice restores the mode, the queue and the stored preference |
| Offline.NoDeduplication | src/contexts/OfflineContext.tsx:71-73 | adding the same scan twice queues it twice |
| Auth.RoleFlags | src/contexts/AuthContext.tsx:217-218 | isAdmin iff the role is admin; isClinician iff the role is clinician or admin; isAdmin implies isClinician; both false without a user |
| Auth.StartSession | src/contexts/AuthContext.tsx:105-107 | the user and a non-empty token are stored, the user becomes current, loading ends, and other keys are untouched |
| Auth.DemoUser | src/contexts/AuthContext.tsx:64-101 | the demo account keeps the given e-mail and the login time |
| Auth.Login | src/contexts/AuthContext.tsx:58-113 | a session is stored for the demo account of the e-mail, which becomes current; store keys other than the user and the token are unchanged |
| Auth.LoginChoosesByEmail | src/contexts/AuthContext.tsx:68-101 | admin@snapfood.com logs in as admin/normal, clinician@snapfood.com as clinician/normal, every other address as user/diabetic; the password does not matter |
| Auth.LoginWithGoogle | src/contexts/AuthContext.tsx:115-142 | a session is stored for a plain Google user with the normal condition; other store keys are unchanged |
| Auth.Signup | src/contexts/AuthContext.tsx:144-170 | a session is stored for a plain user with the normal condition, keeping the given e-mail and name; other store keys are unchanged |
| Auth.Logout | src/contexts/AuthContext.tsx:172-176 | both session keys are removed, no user is current, other keys are untouched |
| Auth.LogoutSurvivesReload | src/contexts/AuthContext.tsx:38-56 | mounting on the store a logout leaves restores no user and changes nothing in the store |
| Auth.UpdateHealthCondition | src/contexts/AuthContext.tsx:178-191 | without a user nothing changes; otherwise only the condition changes, the stored user is the new user, and the loading flag and every other store key (the token included) are unchanged |
| Auth.UpdateProfile | src/contexts/AuthContext.tsx:193-206 | without a user nothing changes; otherwise the stored user is the new current user, and the loading flag and every other store key (the token included) are unchanged |
| Auth.UpdateProfileFields | src/contexts/AuthContext.tsx:200 | each field present in the update wins, each absent one keeps its value; the empty update changes nothing |
| Auth.ConditionUpdateIsProfileUpdate | src/contexts/AuthContext.tsx:178-206 | a condition change equals the profile update that carries only the condition |
| Auth.CheckAuth | src/contexts/AuthContext.tsx:39-56 | loading is over afterwards in every case |
| Auth.Mount | src/contexts/AuthContext.tsx:31-56 | a user is restored only from a stored user encoding with a truthy (present, non-empty) token |
| Auth.MountCases | src/contexts/AuthContext.tsx:39-56 | a missing key leaves no user and the store untouched; an unparsable stored user with both stored texts non-empty removes both keys and leaves no user |
| Auth.SessionSurvivesReload | src/contexts/AuthContext.tsx:39-48 | mounting on a stored session restores exactly its user and leaves the store as it was |
| Auth.UpdatesKeepSession | src/contexts/AuthContext.tsx:178-206 | condition and profile updates keep a stored session consistent with the current user |
| Routes.ProtectedRoute | src/components/ProtectedRoute.tsx:10-63 | the children show only when not loading and logged in; the spinner shows iff loading |
| Routes.GuardDecisions | src/components/ProtectedRoute.tsx:13-31 | loading gives the spinner; no user gives access denied; no required role grants every user; admin pages open only to admins; clinician pages to clinicians and admins; admins pass everything; plain users only pages with no required role |
| Routes.PermissionMonotone | src/components/ProtectedRoute.tsx:28-31 | a page open to a role is open to every higher role |
| Routes.GuardMatchesRoleFlags | src/components/ProtectedRoute.tsx:29-31 | admin pages open iff isAdmin, clinician pages iff isClinician |
| ScoreBadges.ScoreBands | src/components/Dashboard.tsx:38-48 | score at least 80 is good/default, 60 to 79 warning/secondary, below 60 danger/destructive, and nothing else |
| ScoreBadges.ColorAndBadgeAgree | src/components/Dashboard.tsx:38-48 | colour and badge agree band for band |
| ScoreBadges.ScoreColorMonotone | src/components/Dashboard.tsx:38-42 | a higher score never lands in a worse band |
| NutritionPanel.Rows | src/components/NutritionAnalysis.tsx:88-95 | six rows, named calories, protein, carbs, fat, sodium, sugar in that order |
| NutritionPanel.StatusColorsDistinct | src/components/NutritionAnalysis.tsx:32-39 | the three statuses get three distinct colour classes |
| NutritionPanel.HealthAdviceText | src/components/NutritionAnalysis.tsx:50-85 | a name outside the table gets "Monitor intake based on your health goals."; the advice is never empty |
| NutritionPanel.AdviceTableLookup | src/components/NutritionAnalysis.tsx:50-84 | each of the six nutrients and three statuses gets its own table entry, never the fallback |
| NutritionPanel.RowNamesHaveAdvice | src/components/NutritionAnalysis.tsx:161 | every row name, lower-cased, is a table key, so rendering never reaches the fallback |
| NutritionPanel.CountStatus | src/components/NutritionAnalysis.tsx:175-177 | a status count never exceeds the number of rows |
| NutritionPanel.CountsPartition | src/components/NutritionAnalysis.tsx:175-177 | good, warning and danger counts add up to the number of rows |
| NutritionPanel.CountAll | src/components/NutritionAnalysis.tsx:175-177 | a status counts every row iff every row has that status |
| NutritionPanel.TallyStatuses | src/components/NutritionAnalysis.tsx:175-177 | an alternative one-pass computation of the three `filter(...).length` counts, proved equal to `CountStatus` for each status and summing to the number of rows |
| NutritionPanel.HealthScore | src/components/NutritionAnalysis.tsx:178 | six times the score is 100 per good row plus 60 per warning row, and the score lies in 0 to 100 |
| NutritionPanel.ScoreExtremes | src/components/NutritionAnalysis.tsx:178 | the score is 100 iff all rows are good and 0 iff all rows are danger |
| NutritionPanel.AllWarningBand | src/components/NutritionAnalysis.tsx:189-191 | an all-warning meal scores exactly 60 and is in the warning band |
| NutritionPanel.BandMatchesDashboardColor | src/components/NutritionAnalysis.tsx:189-191 | on whole-number scores the panel's band and the dashboard's score colour agree |
| NutritionPanel.NotGood | src/components/NutritionAnalysis.tsx:141 | the filtered rows are all warning or danger, one per row that is not good |
| NutritionPanel.NotGoodFromInput | src/components/NutritionAnalysis.tsx:141 | every filtered row is a row of the table and is not good |
| NutritionPanel.NotGoodIsSubsequence | src/components/NutritionAnalysis.tsx:140-141 | the rows that are not good keep table order |
| NutritionPanel.NotGoodAppend | src/components/NutritionAnalysis.tsx:141 | filtering a concatenation is the concatenation of the filtered parts |
| NutritionPanel.PanelMembership | src/components/NutritionAnalysis.tsx:140-143 | with distinct row names, a row is listed iff it is not good and fewer than three rows before it are not good |
| NutritionPanel.AdvicePanelShape | src/components/NutritionAnalysis.tsx:140-143 | the advice list holds min(3, number of rows that are not good) rows, all warning or danger, in table order |
| NutritionPanel.AdvicePanelFirstThree | src/components/NutritionAnalysis.tsx:140-143 | each of the six rows is listed iff it is not good and fewer than three earlier rows are not good, so the list is the first three rows that are not good |
| DashboardPage.RiskColorByLevel | src/pages/Dashboard.tsx:221-230 | red and yellow levels get their own classes; green and any other text get the green classes; distinct levels get distinct classes |
| DashboardPage.HoursSince | src/pages/Dashboard.tsx:235 | the hour count is the floor of the elapsed time in hours, also for a time in the future |
| DashboardPage.TimeAgoBands | src/pages/Dashboard.tsx:232-240 | under an hour elapsed (including the future) is "just now"; under a day is whole hours from 1 to 23; otherwise whole days, at least one, bracketing the elapsed time |
| DashboardPage.NatToString | src/pages/Dashboard.tsx:238-239 | a number is written as a non-empty string of decimal digits |
| DashboardPage.SyncNowButton | src/pages/Dashboard.tsx:290-306 | with the alert shown and the button enabled, an accepted sync removes the alert; while disabled, a sync changes nothing |
| DashboardPage.FlagBadgesPrefix | src/pages/Dashboard.tsx:412 | at most two badges, the first flags in order; a generated analysis always shows its first flag |

## Left out

- Camera, canvas, `FileReader`, service workers, text-to-speech, export and chart rendering are device I/O or presentation and are not modelled. Reading an accepted upload is taken to succeed at once.
- Simulated delays, React render timing, StrictMode's double effects, and the stale `pendingScans` closure in `syncPendingData` are not modelled. Each handler is one atomic step, and the outcome of the submission a production sync would make is a parameter.
- The loading flag shown while a login or signup is in flight is not modelled. The model has only the state after the step.
- The errors "Invalid credentials", "Signup failed", "Google login failed" and the update failures are not modelled. They are reached only when a `localStorage.setItem` inside those handlers throws.
- Store writes always succeed in the model. `QuotaExceededError` is not modelled, although a queued scan carries its whole image data URL and can exceed the usual quota. When it does, the persistence effect's write throws and the snapshot is not written. `Offline.ReloadRestoresQueue` holds only for writes that succeed.
- Concrete JSON and `localStorage` string encoding are not modelled. A stored text that is valid JSON of a different shape counts as unparsable. So does a scan list stored under the user key, which JavaScript would accept.
- `Date.now()`, ISO timestamps and `new Date` parsing are not modelled. Times are integers, ISO texts and id stamps are parameters, and an unparsable timestamp (NaN) is not modelled. Google login and signup take one ISO text for both `createdAt` and `lastLogin`, where the code reads the clock twice and the two readings can differ.
- A `Partial<User>` carrying an explicit `undefined` field is not modelled. Each update field is either absent or a value.
- NaN nutrient amounts are not modelled. Amounts are exact reals.
- Offline.SyncPendingData: the `Failed` outcome stands for a production submission that rejects. The code as written submits nothing and cannot fail, so only `remoteOk = true` describes it.
- NutritionPanel.HealthScore: the score is exact rational arithmetic, not JavaScript's binary floating point. `Math.round` of the displayed score and the confidence percentage are not modelled.
- ScoreBadges.ScoreBands: scores are whole numbers, as in the page's data; fractional scores are not modelled.
- DashboardPage.NatToString: only the digit alphabet is stated, not that the digits spell the number. `Describe` has no contract of its own.
- Not in the code, so not modelled: idempotent enqueue, per-record drain with stop-on-first-failure, per-record sync states, retries with backoff, coalesced sync triggers, and validation errors for negative nutrients.
- The camera page's condition selector, `saveAnalysis`, and the pages and components outside the files above (navigation, login form, landing page, scanner mock, routing tables) hold no rules of their own and are not modelled.
