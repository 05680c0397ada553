# ArkLab AI Agents catalog: the filter store and its helpers, in Dafny

This project models the client-side core of the ArkLab AI agents catalog.
That core is the catalog store: the agent list, the filter criteria, the
filtered view, the loading flag and the selected agent, with one method per
reducer and one per case of the `fetchAgents` thunk. Around the store sit the
pieces that feed it or read it:

- the page metadata builder and its query-string parser;
- the batch validator that loads the agents, with its server-side fallback;
- the filter panel's handlers;
- the one-shot seeding of the store from the server-rendered list;
- the agent card's colour tables and initials;
- the authentication gate and the two sign-in callbacks.

Modules, one per source file:

| module | source |
|---|---|
| `AgentTypes` | `src/types/agent.ts` |
| `AgentSlice` | `src/store/agentSlice.ts` (a `Store` class with the reducers as methods) |
| `Metadata` | `src/lib/metadata.ts` |
| `DataFetching` | `src/lib/data-fetching.ts` |
| `FilterControls` | `src/components/home/AgentFilters.tsx` |
| `AgentsPageView` | `src/components/home/AgentsPage.tsx` (an `AgentsPage` class holding the ref flag) |
| `AgentCard` | `src/components/home/AgentCard.tsx` |
| `ProtectedRoute` | `src/components/auth/ProtectedRoute.tsx` |
| `AuthOptions` | `src/lib/authOptions.ts` |
| `Wrappers`, `Text`, `SeqUtil` | helpers: `Option`/`Result`, the JavaScript string operations used (ASCII `toLowerCase`, `includes`, `join`, `split`), and list operations (subsequence, `filter(x => x !== v)`, `[...new Set(xs)]`) |

The store's key invariant is `Store.Consistent()`: the filtered view equals
`FilterAgents(agents, filters)`. Every transition keeps it except
`fetchAgents.fulfilled`. That case stores the payload as both the list and
the filtered view without applying the current criteria.
`Store.FetchFulfilled` states that the store stays consistent exactly when
every fetched agent matches the criteria. `FulfilledWhileFiltered` runs the
store to a state where the invariant fails: the "Active" status is selected
and a Beta agent is fetched.

Behaviour of the code the model keeps:

- The seeding effect dispatches nothing when the server-rendered list is
  empty. It does not seed an empty catalog.
- The store is never restored from the query string on mount, and no
  criteria are written back to it. The only URL write is the bare pathname on
  "Clear All". The only query-string reader is the metadata parser.
- An empty description makes the whole batch invalid.
- `status` and `category` criteria are lists, not sets, and the model allows
  a value to occur twice. The filter panel never creates a duplicate: each
  checkbox is ticked exactly when its value is selected, so a check only
  arrives for an unselected value, and `FilterControls.Toggle` keeps a
  duplicate-free selection duplicate-free.

## Model

| member | source | states |
|---|---|---|
| `AgentSlice.FilterAgents` | src/store/agentSlice.ts:72-89 | the filtered list is no longer than the input and holds only agents of the input that match the criteria |
| `AgentSlice.MatchesEachCriterion` | src/store/agentSlice.ts:74-88 | an agent matches iff it passes each of the four tests on its own; every agent matches the defaults, so resetting any one criterion never loses a match |
| `AgentSlice.FilterAgentsMembers` | src/store/agentSlice.ts:72-89 | an agent is in the filtered list iff it is in the input and satisfies search ∧ status ∧ category ∧ pricing |
| `AgentSlice.FilterAgentsCounts` | src/store/agentSlice.ts:72-89 | each matching agent keeps its number of occurrences, non-matching ones have none |
| `AgentSlice.FilterAgentsOrder` | src/store/agentSlice.ts:72-73 | the filtered list is an order-preserving subsequence of the input |
| `AgentSlice.DefaultFiltersKeepAll` | src/store/agentSlice.ts:74-86 | with the default criteria (`""`, `[]`, `[]`, `""`) the filter returns its input unchanged |
| `AgentSlice.FilterKeepsAllIff` | src/store/agentSlice.ts:72-89 | filtering returns its input unchanged iff every agent in it matches |
| `AgentSlice.FilterAgentsIdempotent` | src/store/agentSlice.ts:72-89 | filtering twice by the same criteria equals filtering once |
| `AgentSlice.SearchIgnoresCase` | src/store/agentSlice.ts:74-77 | two non-empty searches with the same lower-case form select the same agents (the search is a case-insensitive substring test on name or description) |
| `AgentSlice.ActiveStatusScenario` | src/store/agentSlice.ts:79-80 | with status `["Active"]`, of Echo (Active) and Forge (Beta) only Echo is kept |
| `AgentSlice.CodeSearchScenario` | src/store/agentSlice.ts:74-77 | searching "code" keeps only Forge, whose description "code gen" contains it |
| `AgentSlice.Merge` | src/store/agentSlice.ts:39 | every field present in the partial overwrites, every absent field keeps its old value |
| `AgentSlice.Store.constructor` | src/store/agentSlice.ts:10-21 | the initial state: empty lists, default criteria, not loading, nothing selected, and consistent |
| `AgentSlice.Store.SetAgents` | src/store/agentSlice.ts:27-30 | the list becomes the payload and the view is the payload filtered by the unchanged criteria; nothing else changes |
| `AgentSlice.Store.InitializeAgents` | src/store/agentSlice.ts:31-36 | if the list was empty it acts as `setAgents`; otherwise list and view are unchanged, so a second call never changes them; criteria, loading and selection always unchanged |
| `AgentSlice.Store.SetFilters` | src/store/agentSlice.ts:38-41 | the criteria become the merge of old criteria and partial, the list is unchanged and the view is the list filtered by the new criteria |
| `AgentSlice.Store.SetSelectedAgent` | src/store/agentSlice.ts:42-44 | only the selected agent changes |
| `AgentSlice.Store.ClearFilters` | src/store/agentSlice.ts:45-53 | default criteria and view = list, which keeps the store consistent because the defaults match every agent |
| `AgentSlice.Store.FetchPending` | src/store/agentSlice.ts:57-59 | loading becomes true, nothing else changes |
| `AgentSlice.Store.FetchFulfilled` | src/store/agentSlice.ts:60-64 | not loading, list = view = payload, criteria untouched; the store is consistent afterwards iff every payload agent matches the criteria |
| `AgentSlice.Store.FetchRejected` | src/store/agentSlice.ts:65-67 | loading becomes false; list, view, criteria and selection unchanged |
| `AgentSlice.FulfilledWhileFiltered` | src/store/agentSlice.ts:60-64 | after selecting status "Active" and fetching [Forge], the view shows Forge and the store is inconsistent |
| `Text.SplitJoin` | src/lib/metadata.ts:139-141 | `split` pieces contain no separator and joining them with it gives back the input |
| `Metadata.TitleComponents` | src/lib/metadata.ts:24-58 | there is a title component iff some filter is present |
| `Metadata.DescriptionComponents` | src/lib/metadata.ts:24-58 | there is a description component iff some filter is present |
| `Metadata.BuildComponents` | src/lib/metadata.ts:24-58 | the pushes produce the search, status, category, pricing components in that fixed order, each only when present |
| `Metadata.KeywordList` | src/lib/metadata.ts:83-105 | the keyword list starts with the five base keywords in order |
| `Metadata.BuildKeywords` | src/lib/metadata.ts:83-105 | the pushes produce base keywords, then search, lower-cased statuses, lower-cased categories and lower-cased pricing, each only when present |
| `Metadata.GenerateDynamicMetadata` | src/lib/metadata.ts:13-132 | title, description and keywords as specified; Open Graph and Twitter titles and descriptions equal the top-level ones; robots allow indexing and following |
| `Metadata.TitleIsDefaultIff` | src/lib/metadata.ts:60-63 | the title is exactly "AI Agents Catalog - ArkLab" iff no filter is present, and otherwise ends with " - ArkLab AI Agents" |
| `Metadata.TitleForStatusAndPricing` | src/lib/metadata.ts:34-63 | with only statuses and a pricing model the title is "{statuses} AI Agents \| {pricing} Models - ArkLab AI Agents" |
| `Metadata.ListTextReplacesLastComma` | src/lib/metadata.ts:35-38 | the text of n ≥ 2 values is their plain ", " join with only the last separator turned into " & " |
| `Metadata.ListTextOfThree` | src/lib/metadata.ts:35-38 | ["Active", "Beta", "Archived"] reads "Active, Beta & Archived" |
| `Metadata.DescriptionShape` | src/lib/metadata.ts:66-80 | the description always ends with the default text; it differs from it iff a filter is present, and then starts with "Found " |
| `Metadata.KeywordsStartWithBase` | src/lib/metadata.ts:83-110 | the keyword string always starts with the five base keywords joined by ", " |
| `Metadata.OptionalParam` | src/lib/metadata.ts:138-142 | undefined iff the key is absent or its value empty; otherwise exactly the raw value |
| `Metadata.ListParamPieces` | src/lib/metadata.ts:139-141 | an absent key gives `[]`; otherwise the entries are the comma-separated segments (which join back to the raw value) with the empty ones dropped: each entry a non-empty, comma-free segment, every non-empty segment kept with its count, in order |
| `Metadata.StatusListExample` | src/lib/metadata.ts:139-141 | "Active,Beta" parses to ["Active", "Beta"], ",Beta,," to ["Beta"], an absent key to [] |
| `Metadata.StatusAndPricingQuery` | src/lib/metadata.ts:138-142 | "?status=Active,Beta&pricing=Subscription" gives no search, statuses ["Active", "Beta"], no categories, pricing "Subscription" |
| `Metadata.StatusAndPricingCount` | src/lib/metadata.ts:145-157 | those criteria count one agent (Forge) among Echo and Forge |
| `Metadata.UrlMatchesIsStoreMatch` | src/lib/metadata.ts:145-156 | for parsed criteria (no empty search or pricing), the count's predicate accepts an agent iff the store's filter predicate does with `undefined` read as "" |
| `Metadata.CountMatching` | src/lib/metadata.ts:145-157 | the count is at most the number of agents, and equals it when nothing constrains |
| `Metadata.CountMatchesStoreFilter` | src/lib/metadata.ts:145-157 | the duplicated count predicate counts exactly the agents the store's `filterAgents` keeps for the same criteria |
| `Metadata.ParsedCounts` | src/lib/metadata.ts:145-166 | `totalAgents` is the number of agents and `filteredCount` the length of the store's filtered list for the parsed criteria |
| `Metadata.GetMetadataFromSearchParams` | src/lib/metadata.ts:134-167 | the metadata is the builder's output for the parsed parameters, with equal Open Graph and Twitter titles and descriptions |
| `DataFetching.Validate` | src/lib/data-fetching.ts:16-33 | non-array data is rejected; an array is accepted iff every record has all six fields truthy, and then returned unchanged; a rejected array always reports a missing-fields error naming the first invalid index |
| `DataFetching.FetchAgentsData` | src/lib/data-fetching.ts:7-42 | success iff the import worked and the batch is valid, returning it unchanged; every failure is the single error "Failed to load agents data" |
| `DataFetching.GetServerSideAgents` | src/lib/data-fetching.ts:48-58 | never fails: the validated batch, or `[]` on any failure |
| `DataFetching.OneBadRecordRejectsAll` | src/lib/data-fetching.ts:21-33 | one invalid record rejects its batch, wherever it sits among valid ones |
| `FilterControls.CategoryOptions` | src/components/home/AgentFilters.tsx:33 | the category options are exactly the agents' categories, each once, in first-occurrence order |
| `FilterControls.StatusAndPricingOptions` | src/components/home/AgentFilters.tsx:34-35 | the status and pricing options are exactly the values some agent has, each once, in first-occurrence order |
| `FilterControls.HandleSearchChange` | src/components/home/AgentFilters.tsx:37-39 | the partial holds only `search`, set to the input |
| `FilterControls.HandleStatusChange` | src/components/home/AgentFilters.tsx:41-46 | the partial holds only `status`: checking appends at the end; unchecking removes every occurrence and keeps the rest, in order and with their counts |
| `FilterControls.HandleCategoryChange` | src/components/home/AgentFilters.tsx:48-53 | the same for `category` |
| `FilterControls.Toggle` | src/components/home/AgentFilters.tsx:41-53 | afterwards the value is selected iff it was checked, every other value keeps its count, and a duplicate-free selection stays duplicate-free when checking only unselected values (as the checkboxes at lines 112 and 160 ensure) |
| `FilterControls.ToggleOnThenOff` | src/components/home/AgentFilters.tsx:41-53 | checking an unselected value and unchecking it restores the selection |
| `FilterControls.HandlePricingChange` | src/components/home/AgentFilters.tsx:55-58 | the partial holds only `pricingModel`: "" for "all", otherwise the chosen value |
| `FilterControls.PricingSelectRoundTrip` | src/components/home/AgentFilters.tsx:55-58 | the displayed value `pricingModel \|\| "all"` (line 182) and the handler invert each other, except for a criterion that is literally "all" |
| `FilterControls.HandlersTouchOneField` | src/components/home/AgentFilters.tsx:37-58 | merging each handler's partial changes exactly its own field of the criteria |
| `FilterControls.HasActiveFilters` | src/components/home/AgentFilters.tsx:65-69 | filters are active iff search, status, category or pricing is non-empty, i.e. iff the criteria are not the defaults |
| `FilterControls.HandleClearFilters` | src/components/home/AgentFilters.tsx:60-63 | the store is cleared (default criteria, view = list, consistent, no active filters), then the URL becomes the bare pathname |
| `AgentsPageView.AgentsPage.constructor` | src/components/home/AgentsPage.tsx:22 | the flag starts unset with no dispatch made |
| `AgentsPageView.AgentsPage.SeedEffect` | src/components/home/AgentsPage.tsx:25-31 | `initializeAgents` is dispatched at most once per mount, never with an empty list; the flag is set iff it has been dispatched |
| `AgentsPageView.AgentsPage.AgentsToRender` | src/components/home/AgentsPage.tsx:34-36 | the server-rendered list until the flag is set, and the store's filtered view after, whatever the store's state; in a consistent store that is an order-preserving selection of the store's agents, each matching its criteria |
| `AgentsPageView.AgentsPage.Render` | src/components/home/AgentsPage.tsx:34-175 | only a spinner while loading; otherwise "Showing {rendered} of {initial} agents" and the cards, or "No agents found" when the rendered list is empty; the rendered list is the initial one until the flag is set and the store's view after |
| `AgentsPageView.FilterThenRerunEffect` | src/components/home/AgentsPage.tsx:25-36 | the effect runs a second time after the user filtered: the shown list is the same before and after, namely the initial list filtered by the merged criteria, whenever the list was non-empty and so seeded |
| `AgentsPageView.EmptyInitialList` | src/components/home/AgentsPage.tsx:27 | with an empty server list the page shows "No agents found" with "Showing 0 of 0 agents" |
| `AgentCard.BadgeClassesInjective` | src/components/home/AgentCard.tsx:24-48 | the six badge class strings are pairwise different |
| `AgentCard.StatusColor` | src/components/home/AgentCard.tsx:24-35 | every status gets one of the three status badges (green, yellow, gray) |
| `AgentCard.PricingColor` | src/components/home/AgentCard.tsx:37-48 | every pricing model gets one of the four pricing badges (blue, purple, orange, gray) |
| `AgentCard.StatusColorTable` | src/components/home/AgentCard.tsx:24-35 | Active → green, Beta → yellow, anything else → gray, the same string as Archived |
| `AgentCard.PricingColorTable` | src/components/home/AgentCard.tsx:37-48 | Free Tier → blue, Subscription → purple, Per-Use → orange, anything else → gray |
| `AgentCard.EnumeratedPricingNeverGray` | src/components/home/AgentCard.tsx:37-48 | none of the three enumerated pricing models gets the gray badge |
| `AgentCard.Initials` | src/components/home/AgentCard.tsx:58-62 | the initials are at most two characters |
| `AgentCard.FirstLettersSplit` | src/components/home/AgentCard.tsx:58-61 | split/map/join yields exactly the word-start characters (non-space, first or after a space); empty words add nothing |
| `AgentCard.InitialsAreWordStarts` | src/components/home/AgentCard.tsx:58-62 | the initials are the first two word starts of the name |
| `AgentCard.ViewDetails` | src/components/home/AgentCard.tsx:114 | "View Details" selects exactly this card's agent and changes nothing else |
| `ProtectedRoute.Gate` | src/components/auth/ProtectedRoute.tsx:14-77 | children iff auth not required or (not loading and a session exists); spinner iff required and loading; sign-in prompt iff required, not loading and no session |
| `ProtectedRoute.DefaultIsOpen` | src/components/auth/ProtectedRoute.tsx:16-23 | with `requireAuth` absent or false the children render in every session state, loading included |
| `AuthOptions.Jwt` | src/lib/authOptions.ts:12-20 | with an account: every token field kept and `accessToken` = the account's `access_token`; without one: the token unchanged |
| `AuthOptions.Session` | src/lib/authOptions.ts:21-27 | unchanged session when the token's `accessToken` is falsy; otherwise every session field kept plus `accessToken` |
| `AuthOptions.SignInExposesToken` | src/lib/authOptions.ts:12-27 | after a sign-in whose account carries a non-empty access token, the session exposes that token |
| `AuthOptions.SignInWithoutTokenHidesOldOne` | src/lib/authOptions.ts:12-27 | a sign-in whose account lacks an access token overwrites the earlier one with undefined, so the session comes back unchanged |

## Left out

- Redux Toolkit, Immer and `createAsyncThunk` mechanics. The reducers are methods of one `Store` object, and the thunk is three separate transitions. The thunk's call to `fetchAgentsData` is not connected to `FetchFulfilled`.
- The 1000 ms delay, the dynamic import of the data file and all `console` logging in the loader. What the import yields is a parameter (`None` when it throws).
- The unchecked cast from the data file's records to `Agent`. The loader works on `RawAgent` records with six string fields, where "" stands for a missing or falsy field. The store works on `Agent` values with enumerated status and pricing. `src/app/page.tsx`, which passes the loaded list to the page, is not part of this model.
- Letter case: `toLowerCase` is modelled for ASCII letters only.
- `AgentCard.Initials` and `AgentCard.InitialsAreWordStarts` take characters as Unicode scalar values, while `word[0]` and `.slice(0, 2)` work on UTF-16 code units. For a name whose word starts outside the Basic Multilingual Plane (an emoji, say) the card shows a lone surrogate half, and the model shows the whole character.
- A partial update whose field is present with the value `undefined` is not modelled. Such a patch would overwrite that criterion with `undefined`, but no handler sends one.
- `URLSearchParams` is a map from key to value. With a repeated key, `get` returns the first value.
- Next's `Metadata` type becomes a plain record. The builder's counts are natural numbers; a negative or fractional count has no model.
- React render timing and `useRef`. The effect and the render are method and function calls in program order. The re-render that shows the store's list after the flag is set is a later call to `Render`.
- Presentational state: the popover open flags, the Grid/List view switch, animations and class names other than the badge colours.
- The next-auth provider configuration, `useSession` internals and the sign-in popover. The session status is a three-valued input.
- The details modal, header, footer, hero, spinner and layout components hold no decision logic.
- `AgentCard.Initials`: its own contract bounds only the length. `AgentCard.InitialsAreWordStarts` states the full result.
