# e3 — a verified model of the performance decision engine and its neighbours

This project models in Dafny the core of e3, a marketing web application.

- **Server: the decision engine and the tables it works on.**
  - The decision engine grades a publication's latest metrics snapshot against threshold rules. For every rule that fires it records one recommendation per (publication, rule) pair. It also resolves recommendations, lists them and counts them.
  - The eight rules seeded at start-up.
  - How the publication controller derives rates from a metrics report, creates publications and numbers creative versions.
  - The ecosystem generator's budget and piece arithmetic.
  - The ecosystems route: its validation, its newline codec and its stage grouping.
  - The error-to-HTTP-status table.
  - The CORS origin decision.
- **Client: the rules the pages apply to the same metrics.**
  - The publication flow: getters, filters, sorting, lanes, correlation buckets and metric classes.
  - The performance dashboard: the recommendation panel and the quick averages.
  - The performance tree.
  - The router.
  - The key/value store, the theme manager, the chat history and the onboarding tour.

How the source is represented:
- The database becomes the class `Tables.Db` (`tables.dfy`), with one sequence per table and a serial id counter that stands for the random UUIDs.
- Clocks, random numbers and the environment are parameters.
- Metric values are `real`.
- Mutable client objects are classes whose methods state their whole new state.
- Pure rules are functions.
- Each function has lemmas for the properties the code promises.

Shared helpers:
- `Sorting` is a stable insertion sort by an ascending pair key. It stands for `Array.prototype.sort` and for SQL `ORDER BY`.
- `Strings` holds split/join, `trim` and substring tests.
- `Listeners` holds listener lists.
- `Wrappers` holds `Option`.

## Model

| member | source | states |
|---|---|---|
| DecisionEngine.EvaluateRule | server/services/decisionEngine.js:66-90 | a rule fires only when its metric is present, and then exactly when the value's position relative to the threshold is one its operator accepts ('=' as '==', an unknown operator none) |
| DecisionEngine.Percentage | server/services/decisionEngine.js:147-150 | the overshoot percentage in IEEE terms: finite with `p * t == |v - t| * 100` for a non-zero threshold, Infinity exactly when a non-zero distance meets a zero threshold, NaN for a missing metric |
| DecisionEngine.CalculateSeverity | server/services/decisionEngine.js:146-161 | a priority-1 rule is never graded low and any other priority is never graded critical |
| DecisionEngine.SeverityBands | server/services/decisionEngine.js:150-160 | for a positive threshold the grade is fixed by comparing twice and four times the distance with the threshold, so an overshoot of exactly 50% is not in the top band |
| DecisionEngine.SeverityMonotone | server/services/decisionEngine.js:146-161 | a metric further from a positive threshold is never graded less severe |
| DecisionEngine.SeverityPriorityShift | server/services/decisionEngine.js:152-160 | on every input, another priority grades exactly one step below priority 1 for the same metric and threshold |
| DecisionEngine.MetricDisplayName | server/services/decisionEngine.js:176-191 | the table's name for a known metric, the metric key itself otherwise |
| DecisionEngine.MetricUnit | server/services/decisionEngine.js:196-207 | the table's unit for a known metric, '' otherwise |
| DecisionEngine.ActionDescription | server/services/decisionEngine.js:212-227 | the table's text for a known action, 'Revisar y optimizar' otherwise |
| DecisionEngine.GenerateMessage | server/services/decisionEngine.js:166-171 | the message starts with "<rule name>: <metric name>" and ends with ", threshold es <threshold><unit>" |
| DecisionEngine.EngineRowTexts | server/services/decisionEngine.js:96-109 | with the engine's own tables a new row's action text is the action's description or the default, and its message starts with the rule name and the metric's display name or key |
| DecisionEngine.LatestMetrics | server/services/decisionEngine.js:11-23 | None exactly when the publication has no metrics row; otherwise one of its rows with no later date |
| DecisionEngine.ActiveOnly | server/services/decisionEngine.js:26-29 | exactly the active rules |
| DecisionEngine.ActiveByPriority | server/services/decisionEngine.js:26-33 | exactly the active rules, in ascending priority |
| DecisionEngine.Create | server/services/decisionEngine.js:95-141 | with an unresolved row for the pair nothing changes and null is returned (the old row keeps its severity and message); otherwise exactly one unresolved row with the next id is appended and returned; afterwards the pair has an unresolved row and the table invariant (distinct ids below the counter, at most one unresolved row per pair) holds |
| DecisionEngine.RunRules | server/services/decisionEngine.js:37-48 | one entry per rule that fires; earlier rows are kept, every appended row is an unresolved row of this publication, and the table invariant is kept |
| DecisionEngine.RunRulesOrigin | server/services/decisionEngine.js:37-48 | every appended row comes from a rule that fired |
| DecisionEngine.RunRulesCovers | server/services/decisionEngine.js:37-48 | after the loop every rule that fired has an unresolved row for the publication |
| DecisionEngine.RunRulesSettled | server/services/decisionEngine.js:111-121 | when every rule that fires already has an unresolved row, the loop changes nothing and yields only nulls |
| DecisionEngine.RunRulesIdempotent | server/services/decisionEngine.js:111-121 | running the rules again on the same snapshot creates nothing |
| DecisionEngine.Evaluate | server/services/decisionEngine.js:8-56 | without a metrics row nothing changes and the result is "No metrics found"; otherwise the active rules run in ascending priority on the latest row, and recommendationsCreated equals the number of rules that fired, deduplicated ones included |
| DecisionEngine.EvaluateCovers | server/services/decisionEngine.js:26-48 | every active rule that fires on the latest snapshot has an unresolved recommendation afterwards |
| DecisionEngine.EvaluateOnlyActive | server/services/decisionEngine.js:26-48 | every appended row belongs to the publication, is unresolved, and comes from an active rule that fires |
| DecisionEngine.EvaluateIdempotent | server/services/decisionEngine.js:8-56 | evaluating twice without new metrics adds nothing the second time |
| DecisionEngine.CreateRecommendation | server/services/decisionEngine.js:95-141 | the store changes exactly as `Create` says and keeps its invariant |
| DecisionEngine.ApplyRules | server/services/decisionEngine.js:37-48 | the store's loop leaves the recommendations table and the result that `RunRules` computes |
| DecisionEngine.ApplyRule | server/services/decisionEngine.js:38-47 | a rule that does not fire changes nothing; one that fires goes through `Create` |
| DecisionEngine.EvaluatePublication | server/services/decisionEngine.js:8-56 | the store changes exactly as `Evaluate` says; rules, publications and metrics are untouched |
| DecisionEngine.ActivePublicationIds | server/services/decisionEngine.js:233-237 | exactly the ids of the campaign's publications whose status is 'active' |
| DecisionEngine.RunCampaign | server/services/decisionEngine.js:242-245 | one evaluation per publication id |
| DecisionEngine.RunCampaignIds | server/services/decisionEngine.js:242-245 | evaluation i is of publication ids[i] |
| DecisionEngine.RunCampaignKeepsValid | server/services/decisionEngine.js:242-245 | the campaign loop keeps the table invariant |
| DecisionEngine.CampaignEvaluatesActiveOnly | server/services/decisionEngine.js:232-245 | only active publications of the campaign are evaluated |
| DecisionEngine.EvaluateCampaign | server/services/decisionEngine.js:232-252 | evaluatedCount equals the number of results, and the store changes as `RunCampaign` over the active ids says |
| DecisionEngine.Resolve | server/services/decisionEngine.js:258-263 | the rows with the id become resolved at the given time; every other field and every other row is unchanged |
| DecisionEngine.ResolveKeepsValid | server/services/decisionEngine.js:257-266 | resolving keeps the table invariant |
| DecisionEngine.ResolveFreesPair | server/services/decisionEngine.js:257-266 | resolving a pair's unresolved row leaves the pair without one, so the next firing records a new recommendation |
| DecisionEngine.ResolveRecommendation | server/services/decisionEngine.js:257-266 | always success with the id, even when no row matches; only the recommendations table changes |
| DecisionEngine.JoinRule | server/services/decisionEngine.js:273-275 | exactly the joined rows of the recommendation with each rule of its rule id |
| DecisionEngine.JoinRules | server/services/decisionEngine.js:272-281 | exactly the joined rows of the publication's recommendations, unresolved only unless resolved ones are asked for |
| DecisionEngine.GetPublicationRecommendations | server/services/decisionEngine.js:271-297 | a permutation of the joined rows; ordered critical, high, medium, low and newest first within a severity, or newest first overall when resolved rows are included |
| DecisionEngine.CampaignRows | server/services/decisionEngine.js:311-313 | exactly the recommendations of publications in the campaign |
| DecisionEngine.CountOpenPartition | server/services/decisionEngine.js:306-310 | the four severity counts add up to the unresolved count, which is at most the row count |
| DecisionEngine.GetRecommendationStats | server/services/decisionEngine.js:302-325 | total counts resolved and unresolved rows alike; active is the number of unresolved campaign rows and each severity count the number of unresolved rows of that severity (`CountOpen`), and they add up to active; with no rows every SUM is NULL |
| SeedDecisionRules.SeedShape | server/models/seedDecisionRules.js:4-109 | eight rules with distinct ids, all active, each with operator '<' or '>' and a strictly positive threshold |
| SeedDecisionRules.SeedTablesCovered | server/models/seedDecisionRules.js:9-103 | every seeded metric has a display name and a unit, and every seeded action has a description |
| SeedDecisionRules.SeedPriorities | server/models/seedDecisionRules.js:13-104 | priority 1 for the vtr, cpa and roas rules, 2 for ctr and engagement rate, 3 for cpm |
| SeedDecisionRules.SeedOppositeRulesExclusive | server/models/seedDecisionRules.js:9-102 | the two vtr rules never both fire on one snapshot, nor do the two roas rules |
| SeedDecisionRules.ZeroRoasIsCritical | server/models/seedDecisionRules.js:48-52 | a roas of 0 fires 'ROAS Bajo' at critical severity |
| PublicationController.OrZero | server/controllers/publicationController.js:300-304 | a raw count defaults to 0 when absent or null |
| PublicationController.Rate | server/controllers/publicationController.js:289-293 | a rate is 0 unless numerator and denominator are non-zero numbers, and then its product with the denominator is numerator times scale |
| PublicationController.EngagementRate | server/controllers/publicationController.js:294 | (clicks + views) / impressions · 100, or 0 when that sum (NaN when a field is absent) or impressions is 0 |
| PublicationController.DerivedSnapshot | server/controllers/publicationController.js:288-313 | the stored row has exactly the twelve metric columns, and roas is always 0 |
| PublicationController.NoImpressionsNoRates | server/controllers/publicationController.js:289-294 | without impressions every per-impression rate is 0 |
| PublicationController.EngagementIsVtrPlusCtr | server/controllers/publicationController.js:289-294 | when clicks and views are sent, the engagement rate is vtr + ctr |
| PublicationController.CpmFromCpcAndCtr | server/controllers/publicationController.js:290-292 | with spend, clicks and impressions non-zero, cpm == 10 · cpc · ctr |
| PublicationController.StoredRowIsLowRoas | server/controllers/publicationController.js:310 | every stored row fires the seeded low-ROAS rule at critical severity |
| PublicationController.EvaluationAlwaysFlagsLowRoas | server/controllers/publicationController.js:339-340 | when every metrics row came from the server and the seeded rule is present, each evaluation leaves an unresolved low-ROAS recommendation |
| PublicationController.InsertMetrics | server/controllers/publicationController.js:315-337 | one row with a fresh id is appended to the metrics table; nothing else changes |
| PublicationController.UpdatePerformanceMetrics | server/controllers/publicationController.js:269-345 | a publication that is unknown or belongs to another user's campaign (the access join) changes nothing; otherwise one row with the derived rates (dated by the report or now) is stored, then the publication is evaluated and always finds a row |
| PublicationController.NewPublication | server/controllers/publicationController.js:38-56 | a new publication is active, version 2 with a parent and 1 without |
| PublicationController.CreatePublication | server/controllers/publicationController.js:38-81 | that row is appended with a fresh id |
| PublicationController.FindPublication | server/controllers/publicationController.js:419-432 | None exactly when no row has the id within the user's campaigns, otherwise such a row |
| PublicationController.MaxVersion | server/controllers/publicationController.js:435-440 | NULL exactly when no row is in the family `id = ? OR parent_id = ?`, otherwise the largest version in the family: no family row exceeds it and some family row has it |
| PublicationController.VersionAfter | server/controllers/publicationController.js:442 | `(max || 1) + 1` is above the maximum and at least 2 unless the maximum is negative |
| PublicationController.AsWrittenVersionRepeats | server/controllers/publicationController.js:435-460 | copying version 2 of a lineage after version 3 exists numbers the copy 3 again |
| PublicationController.NextVersion | server/controllers/publicationController.js:435-442 | the corrected number is above every version in the lineage the copy joins |
| PublicationController.NewVersion | server/controllers/publicationController.js:445-463 | the copy is active, joins the lineage `parent_id \|\| id`, carries the version, and is named "<name> - v…" |
| PublicationController.Pause | server/controllers/publicationController.js:491-494 | the rows with the id become paused at the time; every other row is unchanged |
| PublicationController.PauseAppend | server/controllers/publicationController.js:465-494 | pausing after the insert touches only old rows and keeps every id below the counter |
| PublicationController.CreateCreativeVersion | server/controllers/publicationController.js:414-501 | not found exactly when the id is unknown or another user's (nothing changes); otherwise the copy numbered as written, from the copied row's own family, is appended and the original paused |
| PublicationController.CreateCreativeVersionFixed | server/controllers/publicationController.js:414-501 | the same operation with the corrected numbering: the copy's number differs from every version already in the lineage it joins |
| PublicationController.AddVersion | server/controllers/publicationController.js:445-495 | the copy with the next id is appended and the original paused, nothing else changes |
| PublicationController.NewVersionIsFresh | server/controllers/publicationController.js:442-459 | the new version number differs from every version already in the lineage |
| Router.RunLength | client/src/utils/router.js:62 | the longest prefix without '/', the run `[^/]+` can take |
| Router.Names | client/src/utils/router.js:61-65 | a pattern has at most as many parameter names as tokens |
| Router.MatchSound | client/src/utils/router.js:62-70 | a pattern match yields one non-empty, slash-free capture per parameter, and filling the pattern with them gives back the path |
| Router.MatchComplete | client/src/utils/router.js:62-70 | conversely, every path obtained by filling the pattern with non-empty, slash-free values matches |
| Router.ParamMapBinds | client/src/utils/router.js:71-74 | the params object has exactly the parameter names as keys, and a name that is not repeated later is bound to its own capture |
| Router.BindParams | client/src/utils/router.js:71-74 | the forEach loop builds that params object |
| Router.Lookup | client/src/utils/router.js:55-57 | a view is found exactly when some route has the key, and it is that route's view |
| Router.MatchRouteLoop | client/src/utils/router.js:53-80 | the exact-key test followed by the pattern loop returns the specified match |
| Router.ExactKeyWins | client/src/utils/router.js:55-57 | a path that is a key of the table gets that view with empty params, whatever the patterns |
| Router.FirstPatternWins | client/src/utils/router.js:60-76 | a pattern match comes from the first route in table order whose pattern matches |
| Router.NoPatternNoView | client/src/utils/router.js:79 | when no pattern matches, the view is null with empty params |
| Router.ParameterRoute | client/src/utils/router.js:62-75 | '/:id' matches '/' followed by any non-empty slash-free value and captures that value |
| Router.Guard | client/src/utils/router.js:31-50 | an unauthenticated visit to a private path ends at '/login', an authenticated visit to a public path at '/dashboard', every other visit keeps its path |
| Router.GuardOutcomes | client/src/utils/router.js:31-50 | an unauthenticated user always ends on a public path and an authenticated one on a private path; a path that passes the guard without a matching view loads the '/' view |
| Router.AppRouter.constructor | client/src/utils/router.js:2-5 | the table is kept and no view is loaded |
| Router.AppRouter.Route | client/src/utils/router.js:26-51 | the address and the loaded view become what `Guard` decides for the current address |
| Router.AppRouter.Navigate | client/src/utils/router.js:21-24 | the pushed path goes through `Guard` in the same way: address and view are what `Guard` decides, and the previous view stays when nothing loads |
| Cors.TrimAll | server/config/cors.js:10 | every configured piece is trimmed, and there are as many pieces as before |
| Cors.TrimmedPieces | server/config/cors.js:10 | the trimmed pieces of `CORS_ORIGIN` split at ',' |
| Cors.OriginList.constructor | server/config/cors.js:1-12 | the four built-in origins, followed by the configured ones when `CORS_ORIGIN` is set |
| Cors.ConfiguredOriginsAppended | server/config/cors.js:9-12 | the built-in origins stay first, and entry 4 + i is the i-th trimmed piece |
| Cors.SingleConfiguredOrigin | server/config/cors.js:10 | a setting without commas or surrounding blanks adds exactly itself |
| Cors.CheckOrigin | server/config/cors.js:15-28 | a request is allowed exactly when it has no origin, the origin is listed, or the origin contains ".vercel.app" anywhere; otherwise it is refused with "Not allowed by CORS" |
| Cors.ForeignHostAdmitted | server/config/cors.js:23 | "https://e3.vercel.app.evil.example" is admitted |
| Cors.CheckOriginFixed | server/config/cors.js:19-27 | the corrected rule admits a request exactly when it has no origin, the origin is listed, or the origin ends with ".vercel.app" |
| Cors.ForeignHostDenied | server/config/cors.js:23 | the corrected rule refuses that host |
| Cors.FixedRuleNarrows | server/config/cors.js:19-27 | the corrected rule admits nothing the original refuses and still admits every listed origin |
| Cors.ListedOriginsAdmitted | server/config/cors.js:1-20 | every built-in or configured origin is admitted |
| ErrorHandler.NewAppError | server/middleware/errorHandler.js:41-46 | an AppError has name 'AppError', the message, and the given status (500 by default) |
| ErrorHandler.HandleError | server/middleware/errorHandler.js:1-38 | the status follows the mapping (SQLITE_CONSTRAINT 409 over token errors 401 over ValidationError 400 over the error's own status or 500); each mapped case has its fixed message, ValidationError joins its messages with ", ", and a stack appears exactly in development |
| ErrorHandler.StatusIsFixedOrOwn | server/middleware/errorHandler.js:5-29 | the status sent is 400, 401, 409, 500 or the error's own |
| ErrorHandler.AppErrorKeepsStatus | server/middleware/errorHandler.js:5-46 | an AppError is answered with its message and its status (500 when that is 0 or defaulted) |
| ErrorHandler.EnvironmentOnlyAddsStack | server/middleware/errorHandler.js:36 | the environment changes only whether the stack is sent |
| Listeners.WithoutMembers | client/src/utils/theme.js:31-33 | unsubscribing removes every occurrence of the callback and keeps every other listener |
| Listeners.SubscribeThenUnsubscribe | client/src/utils/theme.js:29-33 | subscribing a new callback and calling the returned function restores the list |
| Listeners.Calls | client/src/utils/theme.js:36-38 | one call per listener, in order, each with the same value |
| Listeners.Notify | client/src/utils/theme.js:36-38 | the forEach loop makes exactly those calls |
| Store.Notified | client/src/utils/store.js:35-39 | a key without listeners notifies nobody; otherwise each of its listeners is called once, in order, with the value |
| Store.Store.constructor | client/src/utils/store.js:2-12 | the initial state and no listeners |
| Store.InitialStore | client/src/utils/store.js:3-10 | the initial state has exactly the six keys, signed out, not loading, with no user or project and empty lists |
| Store.Store.Get | client/src/utils/store.js:14-16 | the value stored under the key, undefined for a key never set |
| Store.Store.Set | client/src/utils/store.js:18-21 | only the key's value changes, and the key's listeners are called with the new value |
| Store.Store.NotifyKey | client/src/utils/store.js:35-39 | calls exactly the key's listeners |
| Store.Store.Subscribe | client/src/utils/store.js:23-28 | the callback is appended to the key's list, which is created if missing; the state is unchanged |
| Store.Store.Unsubscribe | client/src/utils/store.js:30-32 | only the key's list changes, losing the callback |
| Store.NotifiedAfterUnsubscribe | client/src/utils/store.js:23-39 | after subscribe and unsubscribe a key notifies its old listeners minus the callback, and exactly its old listeners when the callback was new |
| Theme.InitialTheme | client/src/utils/theme.js:3 | the stored theme when present and non-empty, 'dark' otherwise |
| Theme.Toggled | client/src/utils/theme.js:20 | light exactly from dark; dark from anything else |
| Theme.ToggleTwice | client/src/utils/theme.js:19-23 | toggling twice is the identity exactly on 'dark' and 'light'; any other theme ends up light |
| Theme.ThemeManager.constructor | client/src/utils/theme.js:2-10 | the initial theme is applied to storage and to the document, with no listeners |
| Theme.ThemeManager.ApplyTheme | client/src/utils/theme.js:12-17 | attribute, storage and field all hold the theme, and every listener is called with it |
| Theme.ThemeManager.Toggle | client/src/utils/theme.js:19-23 | the other theme is applied, returned and announced to every listener |
| Theme.ThemeManager.Subscribe | client/src/utils/theme.js:29-30 | appends the callback; the theme is untouched |
| Theme.ThemeManager.Unsubscribe | client/src/utils/theme.js:31-33 | the returned function removes the callback; the theme is untouched |
| AiChat.Chat.constructor | client/src/components/AIChat.js:6-11 | closed, with an empty history and no widget built |
| AiChat.Chat.Render | client/src/components/AIChat.js:17-20 | the widget is built only the first time |
| AiChat.Chat.Toggle | client/src/components/AIChat.js:135-143 | flips the open state |
| AiChat.Chat.Open | client/src/components/AIChat.js:145-149 | the widget ends open, whatever it was |
| AiChat.Chat.Close | client/src/components/AIChat.js:151-155 | the widget ends closed, whatever it was |
| AiChat.Appended | client/src/components/AIChat.js:179-187 | the history never exceeds twenty entries; it is the old history plus the exchange whenever that fits, and exactly twenty entries otherwise |
| AiChat.AppendedShape | client/src/components/AIChat.js:179-187 | the history ends with the question and its answer and is a suffix of the old history followed by them |
| AiChat.AppendedKeepsPairs | client/src/components/AIChat.js:179-187 | a history of whole question/answer exchanges stays one, because the cut removes an even number of entries |
| AiChat.Chat.HandleSubmit | client/src/components/AIChat.js:157-203 | a blank message sends nothing; otherwise the trimmed message is sent with the history as it was, a reply extends the history by `Appended`, and a failure leaves it unchanged |
| AiChat.Chat.ClearHistory | client/src/components/AIChat.js:290-291 | the history becomes empty |
| Onboarding.Buttons | client/src/components/Onboarding.js:93-98 | 'Anterior' exactly after the first step, 'Siguiente' exactly before the last, '¡Entendido!' exactly on the last, 'Saltar tutorial' always and last |
| Onboarding.TourButtons | client/src/components/Onboarding.js:7-32 | the four steps offer exactly these buttons |
| Onboarding.Tour.constructor | client/src/components/Onboarding.js:5-6 | starts at step 0 with nothing shown |
| Onboarding.Tour.Start | client/src/components/Onboarding.js:40-45 | a completed tour changes nothing; otherwise it restarts at step 0 and shows it once its target is found |
| Onboarding.Tour.ShowStep | client/src/components/Onboarding.js:47-60 | past the last step the tour completes and nothing is shown; otherwise the step is shown once its target is found |
| Onboarding.Tour.Next | client/src/components/Onboarding.js:190-193 | moves one step on; past the last step the tour completes with nothing shown, otherwise the completion flag stays and the new step is shown when its target is found |
| Onboarding.Tour.Prev | client/src/components/Onboarding.js:195-200 | moves one step back, keeping the completion flag and showing the new step when its target is found; does nothing at step 0 |
| Onboarding.Tour.Complete | client/src/components/Onboarding.js:206-209 | records completion and removes the overlay |
| Onboarding.Tour.Skip | client/src/components/Onboarding.js:202-204 | the same as completing |
| Onboarding.Tour.Reset | client/src/components/Onboarding.js:219-221 | clears the flag, so the tour shows again |
| EcosystemGenerator.Template | server/utils/ecosystemGenerator.js:2-147 | each stage offers four channels and four formats; see and do have four content types, think and care five |
| EcosystemGenerator.DistributionFor | server/utils/ecosystemGenerator.js:150-157 | every distribution has four positive shares that sum to exactly 1, and an unknown objective gets the 'lanzamiento' shares |
| EcosystemGenerator.OrElse | server/utils/ecosystemGenerator.js:165-174 | `a \|\| b` on strings: a when non-empty, b otherwise |
| EcosystemGenerator.TitleTemplate | server/utils/ecosystemGenerator.js:163-182 | a template exists exactly for the eighteen titled content types, and it is never empty |
| EcosystemGenerator.GenerateTitle | server/utils/ecosystemGenerator.js:184 | the template's title when there is one, "<type>: <product>" otherwise |
| EcosystemGenerator.EveryContentTypeTitled | server/utils/ecosystemGenerator.js:9-184 | every content type of the templates has a title template, so generated pieces never get the fallback title |
| EcosystemGenerator.NumPieces | server/utils/ecosystemGenerator.js:196 | at least one piece; above that, the number of whole 500s in the piece budget, so a budget of 1000 or more yields at least two |
| EcosystemGenerator.ShareFits | server/utils/ecosystemGenerator.js:212 | the pieces' floored shares together stay within the piece budget, and one unit more each would exceed it |
| EcosystemGenerator.FloorShareBounds | server/utils/ecosystemGenerator.js:212 | `n · ⌊p/n⌋ <= p < n · (⌊p/n⌋ + 1)` |
| EcosystemGenerator.Pick | server/utils/ecosystemGenerator.js:200 | `Math.floor(Math.random() * n)` is a valid index |
| EcosystemGenerator.PickFrom | server/utils/ecosystemGenerator.js:199-205 | the pain (gain) is null exactly when the list is empty, and otherwise one of its entries |
| EcosystemGenerator.Repeat | server/utils/ecosystemGenerator.js:198 | n copies of the content type |
| EcosystemGenerator.Slots | server/utils/ecosystemGenerator.js:194-198 | at least one slot per content type |
| EcosystemGenerator.ContentTypePieces | server/utils/ecosystemGenerator.js:195-219 | NumPieces pieces, each with the type's texts and title, the floored share, a template channel and format, a score in [70, 94], and a pain and gain from the lists |
| EcosystemGenerator.TemplatePieces | server/utils/ecosystemGenerator.js:190-223 | the pieces of each content type, in template order, each fitting its slot |
| EcosystemGenerator.GenerateStagePieces | server/utils/ecosystemGenerator.js:190-223 | the same for the template of a stage |
| EcosystemGenerator.StageHasPieces | server/utils/ecosystemGenerator.js:194-198 | a stage yields at least one piece per content type |
| EcosystemGenerator.RoasMultiplier | server/utils/ecosystemGenerator.js:239 | `1 + budget/100000` below 50000, the 1.5 cap exactly from 50000 on |
| EcosystemGenerator.CalculateRoas | server/utils/ecosystemGenerator.js:228-242 | the objective's base ROAS (3.0 when unknown) times the multiplier |
| EcosystemGenerator.RoasMonotone | server/utils/ecosystemGenerator.js:239-241 | a larger budget never projects a lower ROAS |
| EcosystemGenerator.CalculateTimeframe | server/utils/ecosystemGenerator.js:247-251 | '30 días' exactly below 5000, '60 días' exactly in [5000, 20000), '90 días' exactly from 20000 |
| EcosystemGenerator.TimeframeIgnoresObjective | server/utils/ecosystemGenerator.js:247 | the objective never changes the timeframe |
| EcosystemGenerator.ChannelCountBounds | server/utils/ecosystemGenerator.js:290 | between 1 and the number of pieces distinct channels, when there are pieces |
| EcosystemGenerator.GenerateEcosystem | server/utils/ecosystemGenerator.js:256-292 | the objective's distribution, each stage's pieces fitting its template and its share of the budget, totalPieces the number of pieces (at least 18), the rounded projected ROAS, the timeframe, and the number of distinct channels |
| EcosystemsRoute.DecodeList | server/routes/ecosystems.js:58-59 | an empty column decodes to [], and no item contains a newline |
| EcosystemsRoute.DecodeEncode | server/routes/ecosystems.js:58-59 | decoding an encoded list gives it back when no item holds a newline and the list is not [""] |
| EcosystemsRoute.SingleEmptyItemIsLost | server/routes/ecosystems.js:168-169 | the list [""] is stored as '' and read back as [] |
| EcosystemsRoute.EncodeDecode | server/routes/ecosystems.js:58-59 | encoding a decoded column gives the column back |
| EcosystemsRoute.FormLines | client/src/views/GeneratorView.js:158 | the client's lists have no newlines and no blank entries |
| EcosystemsRoute.NonBlank | client/src/views/GeneratorView.js:158 | keeps only lines that are not blank once trimmed |
| EcosystemsRoute.FormListsRoundTrip | server/routes/ecosystems.js:58-59 | every list the client submits survives the round trip through the column |
| EcosystemsRoute.OfStage | server/routes/ecosystems.js:63-66 | only rows of that stage, taken from the rows |
| EcosystemsRoute.OfStageMember | server/routes/ecosystems.js:63-66 | every row of the stage is in its group |
| EcosystemsRoute.OfStageKeepsOrder | server/routes/ecosystems.js:63-66 | the group keeps the query order |
| EcosystemsRoute.PiecesByStage | server/routes/ecosystems.js:62-67 | each group is the filter of the rows by its stage key |
| EcosystemsRoute.OtherStagesDropped | server/routes/ecosystems.js:62-67 | a row with any other stage is in no group |
| EcosystemsRoute.Ungrouped | server/routes/ecosystems.js:62-67 | the rows no group takes all have another stage |
| EcosystemsRoute.GroupSizes | server/routes/ecosystems.js:62-67 | the groups and the ungrouped rows together account for every row exactly once |
| EcosystemsRoute.Sanitize | server/routes/ecosystems.js:101-104 | only the text fields are trimmed; the other fields are kept |
| EcosystemsRoute.SanitizeIdempotent | server/routes/ecosystems.js:101-104 | trimming twice is trimming once |
| EcosystemsRoute.BlankProductRefused | server/routes/ecosystems.js:101 | a product of blanks fails validation |
| EcosystemsRoute.NullIfEmpty | server/routes/ecosystems.js:165-167 | `x \|\| null`: null exactly for the empty string |
| EcosystemsRoute.StageRows | server/routes/ecosystems.js:187-204 | one row per piece of the stage |
| EcosystemsRoute.StageRowAt | server/routes/ecosystems.js:188-203 | row i carries the i-th piece with the next serial id |
| EcosystemsRoute.StageRowsKey | server/routes/ecosystems.js:191 | every row is tagged with the key of the stage it came from |
| EcosystemsRoute.FirstIdAfter | server/routes/ecosystems.js:186-189 | each stage's ids start right after those of the stages before it |
| EcosystemsRoute.InsertedRows | server/routes/ecosystems.js:186-205 | the rows inserted are the see, think, do and care rows in that order, one per generated piece |
| EcosystemsRoute.GroupingRestoresStages | server/routes/ecosystems.js:62-67 | grouping the inserted rows, taken in the order they were inserted, by stage gives back each stage's rows (the GET's `ORDER BY` is not modelled) |
| EcosystemsRoute.GroupFour | server/routes/ecosystems.js:62-67 | grouping four single-stage runs returns them |
| EcosystemsRoute.OfStageAppend | server/routes/ecosystems.js:63-66 | filtering distributes over concatenation |
| EcosystemsRoute.OfStageUniform | server/routes/ecosystems.js:63-66 | filtering rows of one stage keeps all of them or none |
| EcosystemsRoute.EcosystemStore.constructor | server/routes/ecosystems.js:151-206 | an empty store over the given projects |
| EcosystemsRoute.CreateEcosystem | server/routes/ecosystems.js:97-208 | 400 exactly when validation fails and 404 exactly when a valid request names a project the user does not own, both changing nothing; otherwise the ecosystem is one `generateEcosystem` yields for the request's brief (distribution, fitting stage pieces, totals, ROAS, timeframe, channels), and its row and one row per piece are appended under fresh ids |
| EcosystemsRoute.InsertEcosystem | server/routes/ecosystems.js:151-206 | the transaction appends the ecosystem row and then every piece row |
| EcosystemsRoute.InsertPieces | server/routes/ecosystems.js:186-205 | the stage loop appends exactly the rows of all generated pieces |
| EcosystemsRoute.InsertStageAt | server/routes/ecosystems.js:186-205 | one pass of the stage loop extends the rows so far by the rows of the next stage |
| EcosystemsRoute.InsertStage | server/routes/ecosystems.js:187-204 | the piece loop appends exactly the stage's rows |
| PublicationFlow.VTR | client/src/components/PublicationFlow.js:762-764 | the latest snapshot's vtr, 0 without metrics |
| PublicationFlow.CPA | client/src/components/PublicationFlow.js:766-768 | the latest snapshot's cpa, 999999 without metrics |
| PublicationFlow.CPL | client/src/components/PublicationFlow.js:770-773 | always the CPA |
| PublicationFlow.ROAS | client/src/components/PublicationFlow.js:775-777 | the latest snapshot's roas, 0 without metrics |
| PublicationFlow.GetterDefaults | client/src/components/PublicationFlow.js:762-777 | a publication without metrics reads vtr 0, roas 0 and cpa = cpl = 999999 |
| PublicationFlow.ParseFilter | client/src/components/PublicationFlow.js:715-733 | exactly the five known filter names select a filter; every other value selects everything |
| PublicationFlow.Keep | client/src/components/PublicationFlow.js:714-735 | a filter never lengthens the list |
| PublicationFlow.KeepMembers | client/src/components/PublicationFlow.js:714-735 | a publication survives a filter exactly when it is in the list and passes the filter's test ('critical' is 0 < vtr < 10) |
| PublicationFlow.KeepAppend | client/src/components/PublicationFlow.js:714-735 | filtering works piece by piece, so it keeps the order |
| PublicationFlow.KeepAll | client/src/components/PublicationFlow.js:732-733 | the default filter returns the list itself |
| PublicationFlow.UnknownFilterShowsAll | client/src/components/PublicationFlow.js:732-733 | an unknown filter name returns every publication, in order |
| PublicationFlow.MetricsFiltersPartition | client/src/components/PublicationFlow.js:728-731 | 'has-metrics' and 'no-metrics' split the list: together they hold every publication exactly once |
| PublicationFlow.KeepSorted | client/src/components/PublicationFlow.js:205-208 | filtering a sorted list leaves it sorted, so each lane keeps the pipeline's order |
| PublicationFlow.LaneConditions | client/src/components/PublicationFlow.js:205-208 | no publication meets two lane conditions, and one meets some lane condition exactly when it has no metrics or its vtr is positive |
| PublicationFlow.LanesPartition | client/src/components/PublicationFlow.js:205-208 | the lanes are pairwise disjoint; a publication with no metrics or a positive vtr is in one of them; one with metrics and vtr <= 0 is in none |
| PublicationFlow.ParseSort | client/src/components/PublicationFlow.js:743-755 | exactly the five known sort keys choose an order; any other value keeps the input order |
| PublicationFlow.SortedMeaning | client/src/components/PublicationFlow.js:744-753 | sorted by VTR means vtr descending, by CPA or CPL cpa ascending, by ROAS roas descending, by recent created_at descending |
| PublicationFlow.InsertionSort | client/src/components/PublicationFlow.js:745-753 | the array ends sorted by the chosen key and is a permutation of what it held |
| PublicationFlow.Sift | client/src/components/PublicationFlow.js:745-753 | inserting element i into the sorted prefix extends the sorted prefix by one and permutes the array |
| PublicationFlow.Flow.Sorted | client/src/components/PublicationFlow.js:740-757 | the copy is sorted by the current key and is a permutation of the input; an unknown key returns the input order |
| PublicationFlow.Flow.Pipeline | client/src/components/PublicationFlow.js:200-208 | the sorted list is a permutation of the filtered one, and each lane is the sorted list filtered by its condition, so each lane is sorted too |
| PublicationFlow.Flow.constructor | client/src/components/PublicationFlow.js:8-13 | no publications, sorted by vtr, filter 'all' |
| PublicationFlow.Flow.Render | client/src/components/PublicationFlow.js:18-19 | takes the campaign's publications; the sort and filter stay |
| PublicationFlow.Flow.ChangeSort | client/src/components/PublicationFlow.js:819-821 | only the sort key changes |
| PublicationFlow.Flow.ChangeFilter | client/src/components/PublicationFlow.js:827-829 | only the filter changes |
| PublicationFlow.Segment | client/src/components/PublicationFlow.js:668-670 | a bucket holds only publications in its vtr band |
| PublicationFlow.SegmentsPartition | client/src/components/PublicationFlow.js:668-670 | the high, medium and low buckets together hold every publication with metrics exactly once, so their sizes add up |
| PublicationFlow.Values | client/src/components/PublicationFlow.js:661-662 | the chosen field of each publication's latest snapshot, in order |
| PublicationFlow.Avg | client/src/components/PublicationFlow.js:672-674 | the average of an empty bucket is 0 |
| PublicationFlow.Mean | client/src/components/PublicationFlow.js:672-674 | the mean of nothing is 0 |
| PublicationFlow.MeanAtLeast | client/src/components/PublicationFlow.js:672-674 | a mean is at least any lower bound of its values |
| PublicationFlow.MeanBelow | client/src/components/PublicationFlow.js:672-674 | a mean is below any strict upper bound of its values |
| PublicationFlow.SegmentAverage | client/src/components/PublicationFlow.js:668-674 | a non-empty bucket's average vtr lies in the bucket's band |
| PublicationFlow.CorrelationCounts | client/src/components/PublicationFlow.js:641-689 | sampleSize counts the publications with metrics, the three bucket counts add up to it, an empty bucket averages 0, and no publication with metrics gives exactly the all-zero record |
| PublicationFlow.CorrelationBandAverages | client/src/components/PublicationFlow.js:668-684 | each non-empty bucket's reported average vtr lies in its band |
| PublicationFlow.Pearson | client/src/components/PublicationFlow.js:694-709 | 0 when the lengths differ or are 0 |
| PublicationFlow.PearsonSymmetric | client/src/components/PublicationFlow.js:694-709 | the coefficient does not depend on the order of its two arguments |
| PublicationFlow.CovarianceSymmetric | client/src/components/PublicationFlow.js:704 | the numerator is symmetric |
| PublicationFlow.VtrToCpaRatio | client/src/components/PublicationFlow.js:782-786 | '∞' for a zero cpa, the formatted vtr/cpa otherwise |
| PublicationFlow.InfinityOnlyForZeroCost | client/src/components/PublicationFlow.js:782-786 | with a formatter that never writes '∞', the ratio reads '∞' exactly when cpa is 0 |
| PublicationFlow.MetricClass | client/src/components/PublicationFlow.js:791-808 | for vtr (25/10), ctr (3/1) and roas (5/2): good exactly at or above the first bound, warning exactly between, bad exactly below the second; '' for any other metric |
| PublicationFlow.MetricClassMonotone | client/src/components/PublicationFlow.js:791-808 | a larger value never gets a worse class |
| PerformanceDashboard.Shown | client/src/views/PerformanceDashboard.js:128 | `x \|\| 0`: a missing or null count is shown as 0 |
| PerformanceDashboard.StatCardsOf | client/src/views/PerformanceDashboard.js:124-146 | the critical (high) card is highlighted exactly when its count is positive |
| PerformanceDashboard.StatCardsConsistent | client/src/views/PerformanceDashboard.js:124-146 | the critical and high cards never add up to more than the total card, and a campaign without recommendations shows zeros and no highlight |
| PerformanceDashboard.LatestSnapshots | client/src/views/PerformanceDashboard.js:155-157 | at most one snapshot per publication |
| PerformanceDashboard.LatestSnapshotsFrom | client/src/views/PerformanceDashboard.js:155-157 | every snapshot averaged is metrics[0] of some publication with metrics |
| PerformanceDashboard.Column | client/src/views/PerformanceDashboard.js:171-174 | the metric read from each snapshot, in order |
| PerformanceDashboard.QuickMetrics | client/src/views/PerformanceDashboard.js:154-199 | the empty-state card exactly when no publication has metrics |
| PerformanceDashboard.QuickClass | client/src/views/PerformanceDashboard.js:180-192 | bad exactly below the lower bound, good exactly above the upper bound, no class in between, both bounds included |
| PerformanceDashboard.VtrBoundaryDiffers | client/src/views/PerformanceDashboard.js:180 | an average vtr of exactly 25 gets no class here, while the publication flow calls a vtr of 25 good |
| PerformanceDashboard.UniformSnapshotsClass | client/src/views/PerformanceDashboard.js:171-192 | when every snapshot is below the lower bound the average is bad, and when none is, the average is not bad |
| PerformanceDashboard.AllRecommendationsCollects | client/src/views/PerformanceDashboard.js:202-203 | every publication's recommendations are among those collected |
| PerformanceDashboard.ActiveRecommendations | client/src/views/PerformanceDashboard.js:201-249 | the all-clear card exactly when there are no recommendations; otherwise the panel counts all of them, shows min(count, 10), and its overflow note appears exactly above 10 and reports count − 10 |
| PerformanceDashboard.PanelShowsMostSevere | client/src/views/PerformanceDashboard.js:202-222 | the panel shows recommendations of the campaign, ordered critical, high, medium, low, and none left out is more severe than one shown; with at most 10 it shows all of them |
| PerformanceDashboard.PanelPrefix | client/src/views/PerformanceDashboard.js:222 | the panel is the first entries of the sorted list |
| PerformanceDashboard.ShownPrefix | client/src/views/PerformanceDashboard.js:204-222 | a prefix of a severity-sorted permutation is severity-ordered, and everything after it is at most as severe |
| PerformanceDashboard.SortedPrefix | client/src/views/PerformanceDashboard.js:204-222 | the same for a sorted list and one of its prefixes |
| PerformanceDashboard.PanelKeepsLoadOrder | client/src/views/PerformanceDashboard.js:204-207 | the sort is stable: recommendations of one severity keep the order in which they were loaded |
| PerformanceDashboard.FallbackActionOffersNoNewVersion | client/src/views/PerformanceDashboard.js:236 | a recommendation whose action has no description shows 'Revisar y optimizar', which offers no "new version" button |
| PerformanceDashboard.SeverityIcon | client/src/views/PerformanceDashboard.js:251-259 | an unknown severity gets '⚪' |
| PerformanceDashboard.EngineSeveritiesHaveIcons | client/src/views/PerformanceDashboard.js:251-259 | each of the engine's four severities has its own icon, never '⚪' |
| PerformanceDashboard.Dashboard.constructor | client/src/views/PerformanceDashboard.js:5-11 | the campaign id from the route, nothing loaded, the flow view |
| PerformanceDashboard.Dashboard.Render | client/src/views/PerformanceDashboard.js:13-99 | no campaign id gives the "required" page; a failed load gives the error page; otherwise the stat cards and, in the tree view, the quick averages and the recommendation panel of the loaded campaign |
| PerformanceDashboard.Dashboard.SwitchView | client/src/views/PerformanceDashboard.js:371-373 | only the view changes |
| PerformanceTree.AlertNodes | client/src/components/PerformanceTree.js:151-155 | one recommendation node per recommendation, in order, named by its action |
| PerformanceTree.TransformData | client/src/components/PerformanceTree.js:59-165 | the root is the campaign node, with exactly one child per publication, in input order, each built as the publication node |
| PerformanceTree.InfoOrder | client/src/components/PerformanceTree.js:77-109 | the info children are Format, Platform, then Buy type and Duration only when set, then Objective |
| PerformanceTree.Labels | client/src/components/PerformanceTree.js:77-109 | one label per node |
| PerformanceTree.PublicationChildren | client/src/components/PerformanceTree.js:76-158 | after the info children, a KPIs node built from metrics[0] exactly when there are metrics, and then a recommendations node with one child per recommendation exactly when there are recommendations |
| PerformanceTree.PublicationStatus | client/src/components/PerformanceTree.js:212-224 | with metrics: critical exactly when vtr < 10, warning exactly when 10 <= vtr < 25, success exactly when vtr >= 25; without metrics no status |
| PerformanceTree.KpiFlags | client/src/components/PerformanceTree.js:112-146 | four metric nodes; VTR is flagged exactly below 10, CTR below 1, ROAS below 2, and CPA, which has no threshold, never |
| PerformanceTree.CriticalIncludesNonPositive | client/src/components/PerformanceTree.js:214 | a publication is critical in the tree exactly when it is in the flow's low bucket, and critical here but outside the flow's 'critical' filter exactly when its vtr is at most 0 |
| PerformanceTree.LinesShape | client/src/components/PerformanceTree.js:197-275 | one line per node of the subtree, the node's own first, none indented less than level · 30 |
| PerformanceTree.ChildLinesShape | client/src/components/PerformanceTree.js:265-271 | the children's lines: one per node, each indented at least (level) · 30 |
| PerformanceTree.RenderNode | client/src/components/PerformanceTree.js:197-275 | the loop that appends each child's rendering at level + 1 yields exactly the subtree's lines |
| PerformanceTree.Tree.constructor | client/src/components/PerformanceTree.js:8-12 | no data |
| PerformanceTree.Tree.Render | client/src/components/PerformanceTree.js:18-19 | stores the `TransformData` root (the campaign's name, one publication node per publication in order) and renders it from level 0 |
| Sorting.Insert | client/src/components/PublicationFlow.js:745-753 | inserting adds exactly the one element |
| Sorting.InsertSorted | client/src/components/PublicationFlow.js:745-753 | inserting into a sorted list keeps it sorted |
| Sorting.SortBy | server/services/decisionEngine.js:29-31 | a sorted permutation of the input (the `ORDER BY` of the rules query and the comparator sorts of the client) |
| Sorting.SortByMembers | client/src/views/PerformanceDashboard.js:202-207 | sorting neither adds nor loses an element |
| Sorting.InsertWithKey | client/src/views/PerformanceDashboard.js:204-207 | inserting keeps the order of the elements with any one key |
| Sorting.SortByStable | client/src/views/PerformanceDashboard.js:204-207 | the sort is stable: elements with equal keys keep their relative order |
| Strings.Split | server/routes/ecosystems.js:58-59 | at least one piece, no piece contains the separator, and joining the pieces gives the string back |
| Strings.SplitWithoutSeparator | server/config/cors.js:10 | a string without the separator splits into itself |
| Strings.SplitAfterPiece | server/routes/ecosystems.js:58 | splitting after a separator-free first piece yields that piece and then the rest's pieces |
| Strings.SplitJoin | server/routes/ecosystems.js:58-59 | splitting a non-empty list joined with a separator none of its items contains gives back the list |
| Strings.ContainsInside | server/config/cors.js:23 | a string contains every infix |
| Strings.MissingCharNotContained | server/config/cors.js:23 | a string cannot contain a text with a character the string lacks |
| Strings.EndsWithContains | server/config/cors.js:23 | a suffix is contained |
| Strings.TrimStart | client/src/components/AIChat.js:161 | leading blanks are dropped and nothing else |
| Strings.TrimEnd | client/src/components/AIChat.js:161 | trailing blanks are dropped and nothing else |
| Strings.Trim | client/src/components/AIChat.js:161 | the text with blanks removed at both ends only, beginning and ending with a non-blank |
| Strings.BlankTrimsToEmpty | client/src/components/AIChat.js:161-163 | a blank string trims to the empty string |
| Strings.TrimIdempotent | server/routes/ecosystems.js:101-104 | trimming twice is trimming once |
| Strings.NatToString | server/controllers/publicationController.js:449 | a non-empty string of decimal digits |
| Tables.Db.constructor | server/services/decisionEngine.js:8-13 | the given rules, empty publications, metrics and recommendations, and the table invariant |

## Left out

- Storage. The tables are in-memory sequences in `Tables.Db`. The SQL text, prepared statements, the `db.execute` calls and the insert loop of server/models/seedDecisionRules.js are not modelled; `SUM` over no rows is an `Option`.
- Identity, clocks and randomness. UUIDs are serial `nat` ids from one counter, and `Date.now()` and `new Date()` are `now` parameters. `Math.random()` is an oracle `rnd: nat -> real` with values in [0, 1), consumed in order.
- Number formatting. `toFixed`, `toLocaleString` and number-to-text conversion are abstract functions. For the engine they are carried in `DecisionEngine.Rendering`, and `EngineTables` ties its name, unit and action tables to the source's constants. Messages are therefore described by their prefix and suffix. The ROAS `toFixed(1)` is the `round1` parameter of `GenerateEcosystem`, and the ratio's `toFixed(2)` is the `fixed2` parameter.
- The "creativo" button across the real action texts. The model proves that the fallback text offers no new-version button. It does not prove that, among the eight descriptions, only the change_creative text contains "creativo", because that would mean searching inside long literals.
- Metric values are exact reals. IEEE behaviour is kept only where the source reaches it: a zero rule threshold gives Infinity or NaN in `DecisionEngine.Percentage`. Overflow and rounding of doubles are not modelled.
- `Math.sqrt` in `pearsonCorrelation` is the parameter `sqrt`. Only the guard cases and the symmetry are proved.
- `created_at` is numeric. The recent-first comparator subtracts the two values, which the model reads as numbers.
- DecisionEngine.EvaluateCampaign: an exception thrown by one evaluation, which aborts the remaining ones in the source, is not modelled, because the model's evaluation cannot fail.
- Concurrency. Not modelled:
  - the read-then-insert race in `createRecommendation`;
  - the `Promise.all` publication loads of the dashboard, including the per-publication fallback to the summary row;
  - WebSocket events;
  - `setTimeout` and `setInterval`.
- Onboarding polls for the step's target element with `setInterval`. The result of that search is the `targetFound` parameter. Tooltip positioning and the text of the steps are not modelled; only their number and their buttons are.
- Router. Not modelled:
  - `loadView`: destroying the old view, rendering it and the `mounted` hook are the `currentView` field only;
  - the `popstate` and click listeners of `start()`;
  - history API calls, which are the `location` field;
  - the split of the address: `route()` reads `window.location.pathname`, which drops a query or fragment, while `Navigate` keeps its `path` argument whole, so paths are taken to hold no query and no fragment.
- Router.MatchRoute: pattern literals are matched character by character. Regular-expression metacharacters in a route key are taken literally, which matches the route table in client/src/main.js:41-51, whose keys hold none.
- Store and theme listeners. Callbacks are identities, and a notification yields the list of calls it makes. A callback that re-enters the store or the theme manager during a notification is not modelled.
- AiChat.Chat.HandleSubmit: the `context` sent with the question, the rendered messages and the typing indicator are not modelled. The reply is the `reply` parameter, `None` for a failed request.
- PerformanceDashboard.Dashboard.SwitchView: the `refresh()` re-render that follows is a fresh `Render`.
- HTML and charts. The HTML of every view is not modelled. The tree's HTML is reduced to one `Line` (node and indentation) per node. Chart.js and D3 setup are not modelled either.
- PublicationFlow.InsertionSort: the contract states sortedness and permutation, not the stability of `Array.prototype.sort`. Stability is proved for the functional sort `Sorting.SortBy` that specifies the engine's and the dashboard's orders.
- Ecosystems route. Not modelled:
  - of the GET handler, everything but the list decoding and the grouping by stage: its `ORDER BY stage, score DESC` is not modelled, so the group lemmas speak of whatever order the rows arrive in;
  - the DELETE handler;
  - the AI-insights generation and its table;
  - the WebSocket emit;
  - `JSON.stringify` of the distribution;
  - the re-reading of the inserted rows, whose result is the rows themselves.
- `isUUID` accepts any 8-4-4-4-12 hexadecimal string.
- Publication controller. Only `createPublication`, `updatePerformanceMetrics` and `createCreativeVersion` are modelled, and of `createPublication` only the row it inserts. The other handlers are plain CRUD.
- The session behind `req.user` is not modelled: the controller's operations take the user id as a parameter, and the joins campaigns, ecosystems, projects enter as a map from campaign id to owning user (`CampaignOwners`).
- The LLM services, authentication, Passport, the export route and the remaining routes and views are not part of this model.

## Findings

| source | as written | input that shows it | evidently intended | confidence | as-written member | corrected member |
|---|---|---|---|---|---|---|
| server/controllers/publicationController.js:435-442 | the next creative version is the maximum over the copied row and its direct children, plus one | root v1 (id 1), v2 (id 2, parent 1), v3 (id 3, parent 1); copying v2 looks only at v2 and rows whose parent is 2, and numbers the copy 3 again | the maximum over the whole lineage the copy joins (`parent_id \|\| id`), so numbers never repeat | high, not executed | PublicationController.AsWrittenVersionRepeats | PublicationController.CreateCreativeVersionFixed |
| server/config/cors.js:23 | any origin containing ".vercel.app" anywhere is admitted | "https://e3.vercel.app.evil.example" is admitted | only hosts under vercel.app, i.e. origins ending with ".vercel.app" | high, not executed | Cors.ForeignHostAdmitted | Cors.ForeignHostDenied |
