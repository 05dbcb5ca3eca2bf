# Are You AI Ready? — a Dafny model of the intake, backend and report logic

The application collects a business's answers in a ten-step wizard. It posts them to a
submission endpoint, which stores a *pending* request and notifies a workflow engine.
Once the workflow has written a report, a completion function marks the request
*completed*, asks the identity provider for a magic link and notifies a delivery
webhook. The report page then shows the stored report: a carousel of recommendations,
a type badge per recommendation, a roadmap numbered across three phases, and a few
derived counts and labels.

The model is organised by source file:

| module | file | models |
|---|---|---|
| `Values` | values.dfy | parsed JSON values and the JavaScript rules applied to them: truthiness, `x.key`, `?.`, `??`, `Array.isArray(x) ? x.length : 0` |
| `Text` | text.dfy | `String.prototype.trim` with the ECMAScript whitespace set, a string's `length` in UTF-16 code units, and ASCII `toLowerCase` |
| `Wizard` | wizard.dfy | `src/app/page.tsx`: steps, `canContinue`, `update`, `toggleGoal`, and the class `Home` for `stepIndex` / `form` / `error` |
| `Store`, `Http` | store.dfy, http.dfy | the `ai_readiness_requests` table, the log of identity-provider and webhook calls, and the responses |
| `Submission` | submission.dfy | `src/app/api/ai-readiness/route.ts` |
| `Completion` | completion.dfy | `supabase/functions/handle-report-completed/index.ts` |
| `SubmitEdge` | submit_edge.dfy | `supabase/functions/submit-ai-readiness/index.ts` |
| `Lifecycle` | lifecycle.dfy | what the two handlers do to a request together |
| `Carousel` | carousel.dfy | `src/app/report/RecommendationsCarousel.tsx` |
| `Badge` | badge.dfy | `src/app/report/RecommendationTypeBadge.tsx` |
| `Report` | report.dfy | `src/app/report/page.tsx` |

Each request handler has two forms:

- **A function.** `Submission.Submit` and `Completion.Complete` map the backend state, the parsed body and the outcome of every external call to the response and the new state. Their postconditions state what the handler promises.
- **A method.** `Submission.Post` and `Completion.Handle` run the same handler step by step against a `Store.Backend` object. Each is proved to produce exactly what its function says.

External calls are inputs, not state:

- the parsed body is `None` when `request.json()` throws;
- identity creation can succeed (with or without a user id), return an error, or throw;
- the insert, lookup and update can fail;
- link generation can succeed (with or without an action link) or fail.

Environment variables are strings, and the empty string means "not set". Webhook calls and identity-provider calls are appended to logs in the backend state.

## Model

| member | source | states |
|---|---|---|
| Wizard.StepsInOrder | src/app/page.tsx:58-69 | there are exactly ten distinct steps, the first is intro and the last is additionalContext |
| Wizard.CanContinue | src/app/page.tsx:113-146 | per step, if and only if: lengths are counted in UTF-16 code units, as `.length` counts them; intro needs a trimmed email longer than 3 containing "@" and consent; industry needs a trimmed industry longer than 1; website needs a non-blank URL or a trimmed company name longer than 1; each choice step needs a choice; businessGoals needs a goal; additionalContext always passes |
| Wizard.Updated | src/app/page.tsx:97-99 | the named field takes the new value and every other field keeps its value |
| Wizard.AstralIndustryContinues | src/app/page.tsx:122 | an industry made of one emoji, two code units long, lets the user continue |
| Wizard.Toggled | src/app/page.tsx:101-111 | a chosen goal is removed and the list gets shorter (`Wizard.ToggledRemovesAt`: the other goals keep their order); an unchosen goal is appended at the end, after the list unchanged |
| Wizard.Without | src/app/page.tsx:107 | the filter removes every occurrence of the goal, keeps the membership of every other goal, and changes nothing when the goal is absent |
| Wizard.WithoutRemovesAt | src/app/page.tsx:101-111 | on a list without duplicates, filtering out a chosen goal removes it from its position and keeps every other goal in its order |
| Wizard.ToggledRemovesAt | src/app/page.tsx:101-111 | toggling off a chosen goal gives the list with that one position removed, the other goals in their order |
| Wizard.ToggledMembership | src/app/page.tsx:101-111 | after a toggle the goal is chosen exactly when it was not chosen before; every other goal keeps its membership |
| Wizard.WithoutNoDuplicates | src/app/page.tsx:107 | filtering a list without duplicates leaves it without duplicates |
| Wizard.ToggledNoDuplicates | src/app/page.tsx:101-111 | toggling never introduces a duplicate goal |
| Wizard.ToggleTwiceRestores | src/app/page.tsx:101-111 | toggling an unchosen goal twice restores the original list, order included |
| Wizard.WithoutAppended | src/app/page.tsx:107-108 | removing a goal that was just appended to a list without it gives back the list |
| Wizard.ToggledStaysWithinOptions | src/app/page.tsx:25-31 | toggling an offered goal keeps the list within the offered goals |
| Wizard.Home.constructor | src/app/page.tsx:73-89 | the page starts at step 0 with the initial form, no error and nothing submitted |
| Wizard.Home.Update | src/app/page.tsx:97-99 | only the form changes, to the updated form |
| Wizard.Home.ToggleGoal | src/app/page.tsx:101-111 | only the goal list changes, to the toggled list |
| Wizard.Home.GoNext | src/app/page.tsx:174-183 | nothing changes when the step cannot be left; at the last step the form is submitted and the step stays; otherwise the step advances by exactly one; the error is cleared whenever the step can be left; the step stays in range |
| Wizard.Home.GoBack | src/app/page.tsx:185-189 | nothing changes at step 0; otherwise the step goes back by exactly one and the error is cleared; the step stays in range |
| Text.Trim | src/app/page.tsx:117-126 | the result is the slice of the input that starts after its leading whitespace; it neither starts nor ends with whitespace, what it drops at either end is whitespace, and it is empty exactly when the input is all whitespace |
| Text.Utf16Length | src/app/page.tsx:117-126 | `.length` counts between one and two code units per character, and is 0 exactly for the empty string; a single character counts two units exactly when it lies at or above U+10000 and one otherwise, which with `Text.Utf16LengthAppend` fixes the count of every string |
| Text.Utf16LengthAppend | src/app/page.tsx:117-126 | the length of a concatenation is the sum of the lengths |
| Text.Utf16LengthBmp | src/app/page.tsx:117-126 | on characters inside the Basic Multilingual Plane the length is the number of characters |
| Text.TrimShorter | src/app/page.tsx:117-126 | trimming never makes a string longer in code units |
| Text.Lower | src/app/report/RecommendationTypeBadge.tsx:39 | same length, and each character is lower-cased |
| Text.LowerIdempotent | src/app/report/RecommendationTypeBadge.tsx:39 | lower-casing twice equals lower-casing once |
| Values.Field | src/app/api/ai-readiness/route.ts:34-44 | reading a key gives the stored value of an object that has the key, and undefined for any other value, for the keys this model reads (a key that strings or arrays have, such as `length`, is not one of them) |
| Submission.ValidateAsWritten | src/app/api/ai-readiness/route.ts:25-51 | the checks as written throw exactly on the JSON body `null`, reject unparsable JSON first, and accept only the parsed body itself |
| Submission.NullBodyThrows | src/app/api/ai-readiness/route.ts:34 | as written, the JSON body `null` makes the email check throw |
| Submission.Validate | src/app/api/ai-readiness/route.ts:25-51 | checks run in order (JSON, then email and consent, then website or company name) and the first failure decides the response; acceptance holds exactly when all pass; it never throws and agrees with the code wherever the code does not throw |
| Submission.ResolvedUserId | src/app/api/ai-readiness/route.ts:56-73 | the user id is present exactly when creation returned a user with an id; an error or a throw leaves it null |
| Submission.RowFor | src/app/api/ai-readiness/route.ts:78-93 | the row is pending and linked to the user id; website and company name are null exactly when falsy; the columns with a `??` default hold the payload's value whenever it is present and non-null; the `?? null` columns are null exactly when absent or null and otherwise hold the payload's value; email and consent are copied |
| Submission.Submit | src/app/api/ai-readiness/route.ts:22-128 | built on the corrected checks of `Submission.Validate` (a null body is answered 400 where the code throws, see Findings): a 400 response changes nothing; every accepted body makes one identity request; 500 happens exactly when the insert fails, and then no row is added and no webhook fires; on 200 exactly one pending row with the resolved user id is added, its id is returned, and the webhook fires exactly when configured; completed rows stay completed |
| Submission.Post | src/app/api/ai-readiness/route.ts:22-128 | the step-by-step handler, on the same corrected checks (a null body gives 400 where the code throws), yields exactly the response and state of Submit, and it preserves the backend invariant |
| Completion.CheckAsWritten | supabase/functions/handle-report-completed/index.ts:29-51 | the checks as written throw exactly on a POST whose body is `null`, answer 405 to any other method, and accept only a truthy requestId read from the body |
| Completion.NullBodyThrows | supabase/functions/handle-report-completed/index.ts:43 | as written, the JSON body `null` makes the request-id check throw |
| Completion.CheckRequest | supabase/functions/handle-report-completed/index.ts:29-51 | 405 for a method other than POST, then 400 for bad JSON, then 400 for a falsy requestId; it never throws and agrees with the code wherever the code does not throw |
| Completion.Lookup | supabase/functions/handle-report-completed/index.ts:53-69 | a row is found exactly when the query succeeds and the request id is a stored id |
| Completion.RedirectOption | supabase/functions/handle-report-completed/index.ts:88-92 | `redirectTo` is passed exactly when REPORT_REDIRECT_URL is set, and then it is that URL |
| Completion.MagicLink | supabase/functions/handle-report-completed/index.ts:82-100 | the magic link is present exactly when the row has a user id and link generation returned an action link |
| Completion.Complete | supabase/functions/handle-report-completed/index.ts:28-126 | built on the corrected checks of `Completion.CheckRequest` (a null body is answered 400 where the code throws, see Findings): 405 and 400 change nothing; 404 happens exactly when the lookup finds nothing, and then nothing is written or sent; otherwise 200, the row becomes completed unless the update failed, a link is requested exactly for a row with a user, and the delivery webhook fires exactly when configured, even after a failed update or link; the set of rows never changes |
| Completion.Handle | supabase/functions/handle-report-completed/index.ts:28-126 | the step-by-step handler, on the same corrected checks (a null body gives 400 where the code throws), yields exactly the response and state of Complete, and it preserves the backend invariant |
| SubmitEdge.RespondAsWritten | supabase/functions/submit-ai-readiness/index.ts:29-62 | the handler as written throws exactly on a POST whose body is `null` or has email, consent and a truthy websiteUrl that is not a string; it answers 200 only with a non-blank website URL |
| SubmitEdge.AsWrittenThrows | supabase/functions/submit-ai-readiness/index.ts:44-54 | as written, the JSON body `null` throws, and so does a websiteUrl of 5 |
| SubmitEdge.Respond | supabase/functions/submit-ai-readiness/index.ts:29-77 | the checks run in order (method, JSON, email and consent, non-blank website URL); 200 happens exactly when all pass; it never throws and agrees with the code wherever the code does not throw |
| SubmitEdge.AcceptedByRoute | supabase/functions/submit-ai-readiness/index.ts:44-62 | every payload this function accepts is also accepted by the submission endpoint's validation |
| SubmitEdge.CompanyNameAloneRejected | supabase/functions/submit-ai-readiness/index.ts:54-62 | a body with email, consent and only a company name passes the submission endpoint but is rejected here |
| Lifecycle.SubmitThenComplete | supabase/functions/handle-report-completed/index.ts:71-79 | after a successful submission, completing the returned id answers 200 and turns the pending row completed; every other column is unchanged |
| Lifecycle.CompleteTwice | supabase/functions/handle-report-completed/index.ts:53-125 | a second completion of the same request answers 200 again and leaves the table unchanged |
| Lifecycle.UnknownIdNotFound | supabase/functions/handle-report-completed/index.ts:60-69 | completing an id that is not stored answers 404 and changes nothing |
| Lifecycle.RunKeepsInvariants | supabase/functions/handle-report-completed/index.ts:71-75 | over any sequence of submissions and completions no row disappears, a completed row never reverts, and every notification names a stored row |
| Carousel.Prev | src/app/report/RecommendationsCarousel.tsx:20-22 | 0 or less wraps to the last index; any positive index, past the end included, steps back by exactly one; an in-range index moves to (i - 1) mod len |
| Carousel.Next | src/app/report/RecommendationsCarousel.tsx:24-26 | the last index or beyond wraps to 0; an in-range index moves to (i + 1) mod len |
| Carousel.PrevNextInverse | src/app/report/RecommendationsCarousel.tsx:20-26 | on an in-range index, previous undoes next and next undoes previous |
| Carousel.NextTimesBelowEnd | src/app/report/RecommendationsCarousel.tsx:24-26 | presses of next that stay before the end just add up |
| Carousel.NextTimesCompose | src/app/report/RecommendationsCarousel.tsx:24-26 | a presses then b presses equal a + b presses |
| Carousel.FullCycle | src/app/report/RecommendationsCarousel.tsx:24-26 | len presses of next from any in-range index come back to it |
| Carousel.Current | src/app/report/RecommendationsCarousel.tsx:14-18 | nothing is shown for a non-array or empty list; otherwise the item at the index, or the last item once the index runs past the end |
| Carousel.Browser.constructor | src/app/report/RecommendationsCarousel.tsx:12 | the index starts at 0 |
| Carousel.Browser.GoPrev | src/app/report/RecommendationsCarousel.tsx:20-22 | the index becomes Prev of the old index and stays in range |
| Carousel.Browser.GoNext | src/app/report/RecommendationsCarousel.tsx:24-26 | the index becomes Next of the old index and stays in range |
| Badge.Label | src/app/report/RecommendationTypeBadge.tsx:5-21 | each label lower-cases to its key |
| Badge.NormalizeAsWritten | src/app/report/RecommendationTypeBadge.tsx:39-44 | the key as written is missing (rendering throws) exactly for "constructor" and "__proto__", and is connect or create exactly for those names and their legacy aliases |
| Badge.LegacyAlias | src/app/report/RecommendationTypeBadge.tsx:25-29 | exactly dot, dash and star are legacy aliases |
| Badge.ConstructorTypeThrows | src/app/report/RecommendationTypeBadge.tsx:43 | as written, the type "constructor" finds an inherited property, so rendering throws |
| Badge.Normalize | src/app/report/RecommendationTypeBadge.tsx:39-44 | lower-cased connect or dash gives connect; create or star gives create; anything else, null included, gives core; it agrees with the code wherever the code does not throw |
| Badge.KeyRoundTrip | src/app/report/RecommendationTypeBadge.tsx:5-21 | each key's name and label normalise back to that key |
| Badge.NormalizeIdempotent | src/app/report/RecommendationTypeBadge.tsx:40-44 | normalising a normalised key's name gives the same key |
| Badge.CaseInsensitive | src/app/report/RecommendationTypeBadge.tsx:39 | a type and its lower-cased form normalise alike |
| Badge.MissingTypeIsCore | src/app/report/RecommendationTypeBadge.tsx:39 | a missing type behaves like the empty string and gives core |
| Badge.LegacyAliases | src/app/report/RecommendationTypeBadge.tsx:25-29 | dot, dash and star give core, connect and create |
| Report.Load | src/app/report/page.tsx:12-57 | no query is made for a missing or empty id, which shows "Report not found"; a failed query or an empty result shows "couldn't load"; otherwise the report is shown |
| Report.CompanyName | src/app/report/page.tsx:76 | the stored company name unless it is null or absent, then "Your business"; the result is never nullish |
| Report.HeaderCounts | src/app/report/page.tsx:77-82 | each count is the length of its array, or 0 when the value is not an array |
| Report.Items | src/app/report/page.tsx:120 | the elements of an array, nothing for any other value; the length is the count |
| Report.Plural | src/app/report/page.tsx:488-489 | the suffix is "s" exactly when the count exceeds one (the carousel header at RecommendationsCarousel.tsx:36-37 uses the same rule) |
| Report.Description | src/app/report/page.tsx:537-539 | solution_description when truthy, otherwise problem_opportunity; the block shows exactly when either is truthy |
| Report.CompetitorBadge | src/app/report/page.tsx:227-237 | no badge for a falsy score; "Advanced AI" exactly for "advanced"; "Basic AI" otherwise |
| Report.IndexContents | src/app/report/page.tsx:84-92 | the index holds exactly the truthy solution ids, and under each the last recommendation carrying it |
| Report.BuildIndex | src/app/report/page.tsx:84-92 | the loop builds the index of the recommendation array, or an empty index when it is not an array |
| Report.Linked | src/app/report/page.tsx:680-682 | a falsy solution id is kept as is; a truthy one gives the indexed recommendation or undefined |
| Report.LineFor | src/app/report/page.tsx:683-704 | the label is the linked title, or the item's solution id when the title is null or absent; at most the first two expected outcomes are listed |
| Report.RenderPhase | src/app/report/page.tsx:679-711 | each item of a phase gets the next number from the shared counter; the counter moves on by the number of items; a null item throws |
| Report.RenderRoadmap | src/app/report/page.tsx:663-807 | the entries are the quick-win, medium-term and long-term items in order, numbered 1, 2, 3, ... consecutively; a null item anywhere throws |
| Report.PhaseNumbering | src/app/report/page.tsx:685-775 | the medium-term numbers continue after the quick wins, and the long-term numbers after both |

## Left out

- The progress percentage and all rendering, layout, animation and tooltip behaviour are not modelled.
- `router.push` and the submitting flag are not modelled. Nor is the client's reaction to a failed submission; `Wizard.Home.GoNext` records the submitted form and stops there.
- async/await is not modelled. Each handler runs as one atomic step, so races between overlapping completion calls are not modelled.
- Supabase, `fetch` and the webhook receivers are outcomes supplied as parameters. Whether a webhook call succeeds does not change any response, so only the calls are recorded.
- Environment variables are strings in which "" stands for "not set". JavaScript treats both as falsy.
- `Submission.Submit`: the database's own refusal of a duplicate id is modelled as an insert error.
- `Submission.Submit`: a column the payload lacks is stored as null, as the database does with an `undefined` value.
- `Completion.Lookup`: a requestId that is not a string finds no row. Stored ids are UUID strings, and the string coercion of the query is not modelled.
- `Completion.Complete`: link generation is modelled as returning a result or an error. A thrown exception there is not modelled.
- `Text.Lower` lower-cases ASCII letters only. Non-ASCII case mapping of `toLowerCase` is not modelled.
- `Report.BuildIndex` keys the index by the JSON value of the solution id. JavaScript converts the key to a string, so `5` and `"5"` would share an entry. The prototype-changing key `__proto__` is also not modelled.
- `Report.BuildIndex`: a truthy solution id that names a property every object inherits, such as "constructor" or "toString", reads a function from the index object rather than undefined. The label and the outcomes come out the same (the function has no `title` and no `business_impact`), and the model gives undefined.
- `Report.Linked` requires a non-null roadmap item, because the page throws when it reads `item.solution_id` from a null one.
- `Values.Field` models only the keys this model reads. A key that strings or arrays have, such as `length`, reads something other than undefined and is not modelled.
- `Report.Description`, `Report.LineFor` and `Report.RenderRoadmap` require the recommendation or roadmap item to be non-null, because the page throws on a null one. For roadmap items that throw is modelled as `RenderThrows`; for recommendations it is not modelled.
- `Carousel.Browser.GoPrev`, `Carousel.Browser.GoNext`: if the item list shrinks while a carousel is mounted, the index can end up past the end. `Carousel.Current` models the clamped display of that case, and the methods keep an out-of-range index as the source does.
- `Lifecycle.SubmitThenComplete`, `Lifecycle.CompleteTwice`, `Lifecycle.UnknownIdNotFound` assume a non-empty id, which generated UUIDs always are.
- The wizard's website step checks the trimmed lengths of the website URL and company name but posts the values untrimmed; the submission endpoint only tests truthiness. The model keeps both behaviours as written.

## Findings

| source | as written | input that shows it | evidently intended | confidence | as-written member | corrected member |
|---|---|---|---|---|---|---|
| src/app/api/ai-readiness/route.ts:34 | `body.email` is read from the parsed body with no null check, outside any try | the request body `null` | a 400 "Email and consent are required" | high, not executed | Submission.NullBodyThrows | Submission.Validate |
| supabase/functions/handle-report-completed/index.ts:43 | `body.requestId` is read with no null check | the request body `null` | a 400 "requestId is required" | high, not executed | Completion.NullBodyThrows | Completion.CheckRequest |
| supabase/functions/submit-ai-readiness/index.ts:44 | `body.email` is read with no null check | the request body `null` | a 400 "Email and consent are required" | high, not executed | SubmitEdge.AsWrittenThrows | SubmitEdge.Respond |
| supabase/functions/submit-ai-readiness/index.ts:54 | `.trim()` is called on any truthy websiteUrl | `{"email":"a@b.com","consent":true,"websiteUrl":5}` | a 400 "Website URL is required" | high, not executed | SubmitEdge.AsWrittenThrows | SubmitEdge.Respond |
| src/app/report/RecommendationTypeBadge.tsx:43 | `LEGACY_MAP[raw]` also finds inherited object properties, so `?? "core"` does not apply and `TYPE_CONFIG[key]` is undefined | a recommendation with type "constructor" | the fallback key core | medium, not executed | Badge.ConstructorTypeThrows | Badge.Normalize |
