# Education catalog front end: the logic under the UI

This project models, in Dafny, the three places of the catalog site's front
end that make decisions rather than lay out markup, and proves what those
decisions promise.

- **Price formatting** (`Currency`, from `utils/formatCurrency.ts`):
  `formatINR` maps an optional non-negative price to `"₹"` followed by its
  decimal digits, and an absent price to no string. The digits are produced
  by `Decimal`, the model of `bigint.toString()`. `ParseINR`, a reader written
  for the model, is its partner: the two are proved mutual inverses on
  canonical strings.
- **Data-access rules of the query hooks** (`Queries`, from
  `hooks/useQueries.ts`): the cache key of each of the five read hooks, the
  `enabled` gate, what each query function yields when no actor (remote
  service handle) exists, and which keys each of the two mutations
  invalidates after it succeeds. The shared query cache is the class
  `QueryCache`. Its field maps a key to a fresh/stale flag. Its methods are
  `Fetch`, `Invalidate`, `AddCourse` and `AddTopicToSubject`.
- **Subject card decisions** (`SubjectCardView`, from
  `components/SubjectCard.tsx`): which topic list the card uses, the count on
  its badge, the description it shows, and which one of four panels fills its
  collapsible part.

`Backend` holds the entity shapes of the generated service interface
(`Course`, `Topic`, `StudyMaterial`, `SubjectContent`, the enumerations).
`Wrappers` holds `Option`, `Result` and `Outcome`.

Modelling choices:

- The remote service is external. What a remote call answers is a parameter
  (`reply`). Its typed interface fixes the result type of each query, so a
  successful `reply` is required to fit the query (`Fits`).
- The actor appears only as `useActor()`'s two flags, `present` and
  `isFetching`.
- A mutation returns the remote call it issued (`sent`), so "no call without
  an actor" and "arguments forwarded unchanged" are stated in its contract.
- **Assumption:** `invalidateQueries({ queryKey: p })` matches every cached
  key that has `p` as a prefix, comparing element by element. This is the
  data-fetching library's default partial matching. The library is not part
  of this model. `Queries.IsPrefixOf` is the one place this assumption lives.
- The library's storing of a settled query is modelled by `QueryCache.Fetch`
  as "a successful result leaves its key fresh". Nothing else about the
  library's cache is modelled.

Observations the proofs make explicit:

- The gate makes every no-actor fallback unreachable through the hook.
  `Enabled` implies an actor, so an enabled query always reports the remote
  reply (`EnabledQueryReportsReply`). The fallbacks (`NoActorResult`) matter
  only if a query function runs while its gate is closed.
- The mutations check only that an actor exists. Unlike the queries, they do
  not wait for `isFetching` to clear.
- `getTopic`'s no-actor fallback rejects with the message "Topic not found",
  which suggests a missing topic rather than a missing actor.
- The badge and the panel can disagree. With backend topics requested and an
  empty fetched list, the badge says 0 while the static topics are listed
  (`BadgeDisagreesWithStaticList`). Every caller in the repository passes
  `topics: []` together with `useBackendTopics: true`, so this never shows.
  It is recorded as an observation, not as a defect.

## Model

| member | source | states |
|---|---|---|
| `Currency.FormatINR` | src/frontend/src/utils/formatCurrency.ts:5-10 | the result is present iff the price is present (null and undefined give none, zero gives a string); a present result is the rupee sign followed by a canonical decimal (digits only, no leading zero unless "0"), and its length is 1 plus the number of digits of the price |
| `Currency.Decimal` | src/frontend/src/utils/formatCurrency.ts:9 | `toString()` of a non-negative integer is a canonical decimal with as many characters as the number has digits, and it starts with '0' only for zero |
| `Currency.NumDigitsBounds` | src/frontend/src/utils/formatCurrency.ts:9 | the digit count k used for the formatted length is the usual one: the price is below 10^k and, unless it is 0, at least 10^(k-1) |
| `Currency.DigitsValueOfDecimal` | src/frontend/src/utils/formatCurrency.ts:9 | reading the decimal rendering of n gives n back |
| `Currency.DecimalOfDigitsValue` | src/frontend/src/utils/formatCurrency.ts:9 | every canonical digit string is the rendering of its own value, so the canonical form is unique |
| `Currency.ParseFormatted` | src/frontend/src/utils/formatCurrency.ts:9 | stripping the rupee sign from a formatted price and parsing the digits gives back the price |
| `Currency.FormatParsed` | src/frontend/src/utils/formatCurrency.ts:9 | every string the reader accepts is exactly the formatting of the price it reads |
| `Currency.FormatINRInjective` | src/frontend/src/utils/formatCurrency.ts:9 | distinct prices are formatted as distinct strings |
| `Currency.ZeroIsFormatted` | src/frontend/src/utils/formatCurrency.ts:6-9 | a price of 0 gives "₹0": the absence check is identity with undefined/null, not falsiness |
| `Currency.OneNinetyNine` | src/frontend/src/utils/formatCurrency.ts:3-9 | 199 is formatted as "₹199", as the doc comment says |
| `Backend.CategoryName` | src/frontend/src/backend.d.ts:42-46 | each category's enum string is its member name, and each of the three names belongs to exactly one category |
| `Backend.CategoryNameInjective` | src/frontend/src/backend.d.ts:42-46 | distinct categories have distinct enum strings |
| `Queries.CategoryNamed` | src/frontend/src/backend.d.ts:42-46 | the category read from an enum string is the one whose name it is, and every category name is read back |
| `Queries.QueryKey` | src/frontend/src/hooks/useQueries.ts:9-86 | the keys `["courses"]`, `["courses", category]`, `["topics", s]`, `["topic", t]`, `["subjectContent", s]` have one or two elements and read back as the query that built them |
| `Queries.KeyQueryIsLeftInverse` | src/frontend/src/hooks/useQueries.ts:9-86 | every key that reads as a query is exactly that query's key |
| `Queries.QueryKeyInjective` | src/frontend/src/hooks/useQueries.ts:9-86 | distinct (operation, parameters) pairs never produce the same key |
| `Queries.Enabled` | src/frontend/src/hooks/useQueries.ts:14-91 | a query is enabled only when an actor exists and is not fetching; the three list queries are enabled exactly then; `getTopic` and `getSubjectContent` additionally need a non-empty id |
| `Queries.NoActorResult` | src/frontend/src/hooks/useQueries.ts:10-89 | with no actor, the list queries resolve (with an empty list of their own result type) and exactly the single-item queries reject: "Topic not found" for a topic, "Actor not initialized" for subject content |
| `Queries.QueryFn` | src/frontend/src/hooks/useQueries.ts:10-89 | a query function yields the no-actor fallback without an actor and the remote reply with one; given a reply of the query's declared result type, any success it yields is of that type |
| `Queries.Observe` | src/frontend/src/hooks/useQueries.ts:5-93 | a query that has never settled stays pending while no actor exists or the actor is fetching, and it settles exactly when its gate is open; settled data is of the query's declared result type |
| `Queries.EnabledQueryReportsReply` | src/frontend/src/hooks/useQueries.ts:10-91 | whenever the gate is open, the hook reports the remote reply, never a fallback |
| `Queries.Invalidated` | src/frontend/src/hooks/useQueries.ts:51-114 | invalidation keeps the set of cached keys; entries matched by a prefix become stale, all others keep their state |
| `Queries.InvalidationTargets` | src/frontend/src/hooks/useQueries.ts:50-115 | `addCourse` invalidates the all-courses key; `addTopicToSubject` invalidates the topic-list and subject-content keys of the subject passed in |
| `Queries.CallOf` | src/frontend/src/hooks/useQueries.ts:48-110 | the remote call carries the mutation's variables unchanged: title, description, category and level for a course; subject, topic id and topic for a topic |
| `Queries.MutationResult` | src/frontend/src/hooks/useQueries.ts:47-110 | with no actor, a mutation rejects with "Actor not initialized"; otherwise it has the remote call's outcome |
| `Queries.AddTopicScope` | src/frontend/src/hooks/useQueries.ts:112-115 | `addTopicToSubject(s, t, topic)` matches a query's key iff the query is the topic list or the content of `s` |
| `Queries.AddCourseScope` | src/frontend/src/hooks/useQueries.ts:50-52 | under prefix matching, `addCourse` matches a query's key iff it is a course list, by category or not |
| `Queries.InvalidateTwice` | src/frontend/src/hooks/useQueries.ts:113-114 | two invalidations in a row equal one invalidation over both prefixes |
| `Queries.SuccessfulAddTopicEffect` | src/frontend/src/hooks/useQueries.ts:112-115 | after a successful topic addition for `s`, the cached topic list and content of `s` are stale; the entries of other subjects, of course lists and of `["topic", t]` are unchanged |
| `Queries.SuccessfulAddCourseEffect` | src/frontend/src/hooks/useQueries.ts:50-52 | after a successful course addition, every cached course list is stale and every topic or subject entry is unchanged |
| `Queries.QueryCache.Fetch` | src/frontend/src/hooks/useQueries.ts:5-93 | reports the hook's state; only a success changes the cache, and only its own key, which becomes fresh |
| `Queries.QueryCache.Invalidate` | src/frontend/src/hooks/useQueries.ts:51 | the cache becomes its invalidation by one prefix |
| `Queries.QueryCache.AddCourse` | src/frontend/src/hooks/useQueries.ts:31-54 | with no actor: rejects with "Actor not initialized", sends nothing and leaves the cache alone; otherwise: sends the four fields unchanged, and invalidates the course keys only when the call succeeds |
| `Queries.QueryCache.AddTopicToSubject` | src/frontend/src/hooks/useQueries.ts:95-117 | with no actor: rejects, sends nothing and leaves the cache alone; otherwise: sends subject, topic id and topic, and on success only invalidates the two keys of that subject |
| `SubjectCardView.DisplayTopics` | src/frontend/src/components/SubjectCard.tsx:33 | backend topics are used iff `useBackendTopics` holds and content has arrived (an empty array counts as arrived); they are then the fetched list |
| `SubjectCardView.TopicCount` | src/frontend/src/components/SubjectCard.tsx:34 | the count is the length of the backend list whenever there is one, an empty one included, otherwise the number of static topics |
| `SubjectCardView.FullDescription` | src/frontend/src/components/SubjectCard.tsx:35 | the fetched description is chosen iff content exists and its description is non-empty, otherwise the static one; the result is empty iff both are empty |
| `SubjectCardView.SelectPanel` | src/frontend/src/components/SubjectCard.tsx:71-120 | exactly one panel, each iff the earlier ones fail and its own condition holds: spinner iff loading with backend topics; backend list iff a non-empty backend list exists; static list iff static topics exist; else "Topics coming soon"; the lists show the rendered backend topics and the static names |
| `SubjectCardView.RenderCard` | src/frontend/src/components/SubjectCard.tsx:31-120 | the badge counts the fetched topics when backend topics are used and content has arrived, otherwise the static topics; the fetched description is shown iff it exists and is non-empty, otherwise the static one; the panel is the spinner iff loading with backend topics, then the backend list iff used and non-empty, then the static list iff non-empty, then "Topics coming soon" |
| `SubjectCardView.EmptyBackendListCountsZero` | src/frontend/src/components/SubjectCard.tsx:33-34 | an empty fetched topic list still counts as present, so the badge is 0 even when static topics exist |
| `SubjectCardView.DescriptionNonEmpty` | src/frontend/src/components/SubjectCard.tsx:35 | when the static or the fetched description is non-empty, the shown description is non-empty, and it is always one of the two |
| `SubjectCardView.CardQuery` | src/frontend/src/components/SubjectCard.tsx:31 | the card's content comes from the query keyed `["subjectContent", id]` |
| `SubjectCardView.EmptyIdNeverFetches` | src/frontend/src/components/SubjectCard.tsx:31-35 | with an empty `id` the card's query is never enabled and stays pending, so the card shows the static description and count and no backend topics |
| `SubjectCardView.ListedTopics` | src/frontend/src/components/SubjectCard.tsx:76-113 | the backend panel shows one entry per fetched topic in order; the static panel shows the static names unchanged |
| `SubjectCardView.DefaultPropsComingSoon` | src/frontend/src/components/SubjectCard.tsx:26-120 | with the default props, the panel is always "Topics coming soon" and the badge 0, whatever was fetched and whatever the loading flag |
| `SubjectCardView.ShowTopic` | src/frontend/src/components/SubjectCard.tsx:82-102 | a topic shows its title; its description iff that is non-empty; a study-materials block iff it has materials, with one entry per material |
| `SubjectCardView.ShowTopics` | src/frontend/src/components/SubjectCard.tsx:77-104 | the topic list is rendered one view per topic, in list order |
| `SubjectCardView.MaterialTitles` | src/frontend/src/components/SubjectCard.tsx:91-100 | the study-materials block lists each material's title, one per material, in list order |
| `SubjectCardView.BadgeMatchesList` | src/frontend/src/components/SubjectCard.tsx:33-113 | when the backend list is shown, the badge counts its entries; when the static list is shown and backend topics are not in use, the badge counts the static names |
| `SubjectCardView.BadgeDisagreesWithStaticList` | src/frontend/src/components/SubjectCard.tsx:33-113 | with backend topics requested, an empty list fetched and one static topic, the badge says 0 while that topic is listed |

## Left out

- The layout components (header, footer, hero, app shell, subjects section, courses section) are not modelled. They hold markup, scroll-to-anchor calls and static tables, and make no decisions.
- The data-fetching library's internals are not modelled: request deduplication, retries, staleness timers, refetching of invalidated queries, asynchronous resolution and observer delivery. They live in the library, not in this repository.
- The actor's lifecycle (`useActor`) and the remote service are not modelled. They are external, so replies and the actor's flags are parameters.
- Queries.Observe: in the library, a hook whose query is disabled but whose key already holds data reports that cached data (for example while the actor is being re-created); here it reports `Pending`, because query data is not cached in this model.
- Queries.QueryCache.Fetch: on a failed query the library also records the error and keeps earlier data. Here the flag map is left unchanged, and query data is not cached, so a disabled fetch whose key is cached reports `Pending` (as for `Queries.Observe`).
- `SubjectCardView` takes `isLoading` and the fetched content as inputs. It does not derive them from the library's status flags.
- The open/closed toggle of the card, `getDirectURL` of study-material blobs and `window.open` are not modelled. They are UI state and foreign calls.
- The card props `name`, `icon`, `gradient` and `bgColor` are not modelled. They are used only for display.
- The service interface declares `addCourse` with six arguments: the four fields, an optional subject id and an optional price. The typed client interface and the hook use four. The model follows the hook, which forwards four.
- The other remote operations (profiles, roles, `courseExists`, `getCourse`, defaults, `setSubjectDescription`) are not modelled. No hook of the modelled core calls them.
- Clearing the cache when the caller's identity changes is not modelled. No modelled file does it; `useActor`, which owns the actor's lifecycle and is external here, may.
- Currency.FormatINR: the parameter is modelled as a non-negative integer, as its wire type is. A negative `bigint` passed directly in TypeScript would render with a minus sign, and that case is not modelled.
