# tash-agent core, modelled in Dafny

tash-agent is a welfare-officer ("ת"ש") assistant. A commander describes a
soldier's situation. A language model picks the matching procedures from a
catalogue of request templates. The app then tracks soldiers and open
consultation cases. This project models the core of that system as pure Dafny
functions and proves properties of them:

- **Schema** (`schema.dfy`): the records of `src/types/schema.ts`: requirement,
  process step, request template, checklist item, soldier, consultation case,
  and the category table.
- **TemplateStore** (`template_store.dfy`): the server-side template reads of
  `src/lib/tash-admin.ts`. A stored document is turned into a total template,
  filling in each missing or empty field with its default. It also covers the
  bulk read, the read by id, and the keyword search.
- **Consult** (`consult.dfy`): the `POST /api/consult` handler. It validates
  the request, builds the per-template context for the prompt, cleans the
  model's answer of code fences, and filters the templates by the ids the
  model named. It also gives the status codes of the error paths.
- **SeedBlocks**, **SeedCatalogue**, **CatalogueIndexing**, **CatalogueFacts**,
  **SeedUpload** (for `scripts/seed.ts`):
  - the shared financial-document blocks and the two ways templates reuse them;
  - the 27 templates, transcribed in full;
  - an index of them (id, category, number of requested documents) that is
    proved to agree with each template;
  - facts about the catalogue as a whole;
  - the upload script: a keyed merge write in one batch, then a per-category
    tally and a requirement total.
- **SoldiersPage** (`soldiers_page.dfy`): the search filter and the
  add-soldier dialog of `src/app/soldiers/page.tsx`.
- **Dashboard** (`dashboard.dfy`): from `src/app/page.tsx`, the greeting name,
  the query for the five newest open cases, and the checked-documents counter.
- **AppShell** (`app_shell.dfy`): from `src/components/layout/AppShell.tsx`,
  the highlighted menu item and the sidebar state machine.

`Options`, `Text` and `Sequences` are helper modules. They model the
JavaScript built-ins the core relies on:

- `includes`, `startsWith`, a global literal `replace`, `trim`,
  `split(" ")[0]` and `join`;
- `filter` and subsequences.

Everything outside the process is a parameter of the model:

- the database read is a `Read<T>` that may be `Unavailable`;
- the language-model call is `infer: Prompt -> Option<string>`;
- `JSON.parse` is `parseIds: string -> Option<seq<string>>`;
- `toLowerCase` is a per-character `lower: char -> char`;
- the clock is a `now` argument;
- the outcome of a database write is an argument.

Three observations about the program follow from the model:

- The prompt's decision rules name two template ids that no catalogue
  template has (see Findings).
- The desktop sidebar can never be closed, so its collapsed 80-pixel rail is
  never shown (`AppShell.CollapsedRailUnreachable`).
- The active-menu test is a plain prefix test, so `/soldiersX` highlights
  "/soldiers" (`AppShell.SiblingPathActivatesSoldiers`).

The catalogue is checked one template at a time. Each `CatalogueIndexing.XIndexed`
lemma rests on two helpers for the same template:

- `XRequirementIds` gives the template's document ids;
- `XIdsDistinct` shows those ids are pairwise distinct.

Catalogue-wide facts are proved over the index rows.

## Model

| member | source | states |
|---|---|---|
| Schema.CategoryOfKey | src/types/schema.ts:140-151 | a key is resolved only to the category listed under exactly that key, and every unresolved key is absent from the table |
| Schema.CategoryTable | src/types/schema.ts:140-151 | every category is found under its own key; the table has ten pairwise distinct keys |
| TemplateStore.Normalise | src/lib/tash-admin.ts:62-87 | the template's id is the document key; a missing or empty title becomes "ללא כותרת", category "general", lastUpdated the read time, and a non-empty stored one is kept; the other strings default to ""; stored lists (even empty ones) are kept and missing ones become []; booleans default to false and slaHours to 0; procedure30Days is passed through untouched |
| TemplateStore.StringOr | src/lib/tash-admin.ts:64-66 | `value \|\| fallback` on a string: a non-empty value is kept, a missing or empty one gives the fallback |
| TemplateStore.NormaliseEmpty | src/lib/tash-admin.ts:62-87 | a document with no fields becomes the all-defaults template ("ללא כותרת", "general", empty lists, false, 0, the read time) |
| TemplateStore.NormaliseIgnoresStoredId | src/lib/tash-admin.ts:63 | the `id` stored inside the data plays no part; only the document key does |
| TemplateStore.NormaliseAll | src/lib/tash-admin.ts:60-88 | one template per document, in snapshot order |
| TemplateStore.GetAllTemplatesForAI | src/lib/tash-admin.ts:54-93 | no database or a failed read gives no templates; otherwise the i-th template is the i-th document normalised, its id that document's key |
| TemplateStore.GetTemplateById | src/lib/tash-admin.ts:96-127 | a template is returned exactly when the read succeeds and the key exists, and it is that document normalised, carrying the requested id |
| TemplateStore.ByIdAgreesWithBulk | src/lib/tash-admin.ts:104-122 | reading one document by key gives the same template as the bulk read gives for that document |
| TemplateStore.BulkIdsAreKeys | src/lib/tash-admin.ts:58-63 | the ids of the bulk read are exactly the keys of the collection |
| TemplateStore.Matches | src/lib/tash-admin.ts:134-148 | the empty query and a hit in the title match; a template that does not match has no hit in its description, keywords or criteria |
| TemplateStore.SearchTemplates | src/lib/tash-admin.ts:130-149 | the result is the sub-list of all templates whose lower-cased title, short description, some keyword or some criterion contains the lower-cased query; every copy of a match is kept |
| TemplateStore.SearchEmptyQuery | src/lib/tash-admin.ts:132-136 | the empty query returns every template |
| TemplateStore.MatchesSubstring | src/lib/tash-admin.ts:136-145 | a template that matches a query matches every substring of it |
| TemplateStore.SearchMonotone | src/lib/tash-admin.ts:130-149 | narrowing the query to a substring keeps every result, in order |
| Consult.RequirementTitles | src/app/api/consult/route.ts:22 | one title per requirement, in order |
| Consult.TemplatesContext | src/app/api/consult/route.ts:16-23 | one context entry per template, in order, carrying id, title, category, short description and the requirement titles joined by ", " |
| Text.RemoveAll | src/app/api/consult/route.ts:64 | a global literal deletion never lengthens the text and leaves text without the pattern unchanged |
| Text.NoFenceAfterRemoval | src/app/api/consult/route.ts:64 | after deleting every "```" no "```" is left |
| Text.RemoveClosingFence | src/app/api/consult/route.ts:64 | deleting the fences of backtick-free text followed by a closing fence leaves the text |
| Text.Trim | src/app/api/consult/route.ts:64 | `trim`: a slice of the input surrounded only by whitespace, neither starting nor ending with whitespace |
| Consult.Clean | src/app/api/consult/route.ts:64 | the cleaned answer contains no "```" fence and neither starts nor ends with whitespace |
| Consult.CleanPlain | src/app/api/consult/route.ts:64 | an answer without backticks is only trimmed |
| Consult.CleanFenced | src/app/api/consult/route.ts:64 | an answer wrapped as "```json" + content + "```" cleans to the trimmed content |
| Consult.CleanIdempotent | src/app/api/consult/route.ts:64 | cleaning a cleaned answer changes nothing |
| Consult.Recommend | src/app/api/consult/route.ts:66-74 | an unparsable answer gives no templates; otherwise exactly the templates whose id the model named, in corpus order, every copy kept |
| Consult.Consult | src/app/api/consult/route.ts:7-82 | a malformed body is a server error; a request is a bad request exactly when its text is missing or empty; suggestions are always a sub-list of the stored templates |
| Consult.ModelAnswered | src/app/api/consult/route.ts:13-76 | when the model answers, the response is 200 with the stored templates the cleaned, parsed answer names |
| Consult.EmptyTextNeedsNoModel | src/app/api/consult/route.ts:9-11 | an empty request gets status 400 whatever the collection and the model would have done |
| Consult.ModelFailures | src/app/api/consult/route.ts:59-72 | a failing model call gives a 500; an answer that does not parse gives an empty suggestion list |
| Consult.RecommendIgnoresOrder | src/app/api/consult/route.ts:74 | only the set of named ids matters, not their order or repetitions |
| Consult.RecommendNoDuplicates | src/app/api/consult/route.ts:74 | with distinct template ids, no template is suggested twice |
| Consult.UnknownIdsDropped | src/app/api/consult/route.ts:74 | an id that no stored template has never yields a suggestion |
| SeedBlocks.EconomicDocsIds | scripts/seed.ts:58-81 | the document ids of the soldier, parents and spouse financial blocks, in order |
| SeedBlocks.AssignTo | scripts/seed.ts:128 | the same documents, in order and with the same ids, each assigned to the given role and otherwise unchanged |
| SeedBlocks.Partial | scripts/seed.ts:451 | the first four documents of the block, each renamed with "_partial", made optional and assigned to the soldier, otherwise unchanged |
| SeedBlocks.PartialParentsIds | scripts/seed.ts:451 | the partial parents block has the four ids parents_bank_3m_partial … parents_balance_sum_partial |
| SeedCatalogue.Catalogue | scripts/seed.ts:101-1290 | the catalogue holds 27 templates |
| CatalogueIndexing.TashmashParentsIndexed | scripts/seed.ts:106-170 | id tashmash-parents, category tashmash, 15 requested documents, a title, no document id twice |
| CatalogueIndexing.TashmashMarriedIndexed | scripts/seed.ts:171-221 | id tashmash-married, category tashmash, 9 documents, a title, distinct document ids |
| CatalogueIndexing.TashmashPregnancyIndexed | scripts/seed.ts:222-261 | id tashmash-pregnancy, category tashmash, 4 documents, a title, distinct document ids |
| CatalogueIndexing.TashmashMarriedChildIndexed | scripts/seed.ts:262-310 | id tashmash-married-child, category tashmash, 11 documents, a title, distinct document ids |
| CatalogueIndexing.LoneSoldierMuvhakIndexed | scripts/seed.ts:315-371 | id lone-soldier-muvhak, category lone_soldier, 9 documents, a title, distinct document ids |
| CatalogueIndexing.LoneSoldierHameIndexed | scripts/seed.ts:372-430 | id lone-soldier-hame, category lone_soldier, 10 documents, a title, distinct document ids |
| CatalogueIndexing.SuidHelpIndexed | scripts/seed.ts:431-476 | id suid-help, category lone_soldier, 8 documents (four of them the partial parents block), a title, distinct document ids |
| CatalogueIndexing.RentParticipationIndexed | scripts/seed.ts:481-533 | id rent-participation, category housing, 8 documents, a title, distinct document ids |
| CatalogueIndexing.BeitHachayelIndexed | scripts/seed.ts:534-572 | id beit-hachayel, category housing, 3 documents, a title, distinct document ids |
| CatalogueIndexing.MaintenanceExpensesIndexed | scripts/seed.ts:573-614 | id maintenance-expenses, category housing, 6 documents, a title, distinct document ids |
| CatalogueIndexing.HelanaPartIndexed | scripts/seed.ts:619-661 | id helana-part, category helana, 4 documents, a title, distinct document ids |
| CatalogueIndexing.HelanaDistanceIndexed | scripts/seed.ts:662-697 | id helana-distance, category helana, 2 documents, a title, distinct document ids |
| CatalogueIndexing.Hakash1Indexed | scripts/seed.ts:702-737 | id hakash-1, category hakash, 2 documents, a title, distinct document ids |
| CatalogueIndexing.Hakash2Indexed | scripts/seed.ts:738-776 | id hakash-2, category hakash, 3 documents, a title, distinct document ids |
| CatalogueIndexing.Hakash3Indexed | scripts/seed.ts:777-818 | id hakash-3, category hakash, 4 documents, a title, distinct document ids |
| CatalogueIndexing.WorkPermitIndexed | scripts/seed.ts:823-866 | id work-permit, category economic, 7 documents, a title, distinct document ids |
| CatalogueIndexing.BzackGrantIndexed | scripts/seed.ts:867-912 | id bzack-grant, category economic, 7 documents, a title, distinct document ids |
| CatalogueIndexing.VouchersIndexed | scripts/seed.ts:913-946 | id vouchers, category economic, 2 documents, a title, distinct document ids |
| CatalogueIndexing.LoanImmediateIndexed | scripts/seed.ts:947-984 | id loan-immediate, category economic, 6 documents, a title, distinct document ids |
| CatalogueIndexing.SpecialLeaveEconomicIndexed | scripts/seed.ts:989-1030 | id special-leave-economic, category leave, 7 documents, a title, distinct document ids |
| CatalogueIndexing.SpecialLeaveWeddingIndexed | scripts/seed.ts:1031-1063 | id special-leave-wedding, category leave, 2 documents, a title, distinct document ids |
| CatalogueIndexing.SpecialLeaveBirthIndexed | scripts/seed.ts:1064-1097 | id special-leave-birth, category leave, 1 document, a title |
| CatalogueIndexing.OrNewImmigrantIndexed | scripts/seed.ts:1102-1139 | id or-new-immigrant, category or_population, 3 documents, a title, distinct document ids |
| CatalogueIndexing.OrBrokenHomeIndexed | scripts/seed.ts:1140-1169 | id or-broken-home, category or_population, no documents, a title |
| CatalogueIndexing.OrParentSickIndexed | scripts/seed.ts:1170-1206 | id or-parent-sick, category or_population, 3 documents, a title, distinct document ids |
| CatalogueIndexing.FlightFundingIndexed | scripts/seed.ts:1211-1249 | id flight-funding, category other, 4 documents, a title, distinct document ids |
| CatalogueIndexing.EquipmentLossIndexed | scripts/seed.ts:1250-1289 | id equipment-loss, category other, 4 documents, a title, distinct document ids |
| CatalogueFacts.IndexIdsDistinct | scripts/seed.ts:1308-1311 | one index row per template, and no two share an id, so every template is written to a document of its own |
| CatalogueFacts.IndexCategoriesKnown | src/types/schema.ts:140-151 | every template is filed under a key of the category table, and none under "shortening" |
| CatalogueFacts.IndexRequirementTotal | scripts/seed.ts:1327-1331 | the catalogue requests 144 documents in all |
| Consult.PromptRuleIds | src/app/api/consult/route.ts:31-42 | the nine template ids the prompt's rules and sample answer name, in order |
| CatalogueFacts.StaleRuleIds | src/app/api/consult/route.ts:38-41 | the rules name "special-economic-leave" and "tashmash-married-basic", and neither is a catalogue id |
| CatalogueFacts.LiveRuleIds | src/app/api/consult/route.ts:31-42 | every other id that the rules name is a catalogue id |
| CatalogueFacts.StaleRuleIdsNeverSuggested | src/app/api/consult/route.ts:74 | over a catalogue-only collection, the two stale ids are never suggested, whatever the model answers |
| CatalogueFacts.IntendedRuleIdsLive | src/app/api/consult/route.ts:31-42 | with the two stale ids replaced by the catalogue's ids, every rule id names a catalogue template |
| SeedUpload.Encode | scripts/seed.ts:1310 | the stored document carries the template's id, title, category and optional fields exactly |
| SeedUpload.MergeField | scripts/seed.ts:1310 | a field present in the written data replaces the stored one; an absent field keeps it |
| SeedUpload.MergeIntoNothing | scripts/seed.ts:1310 | a merge write into a missing document stores exactly the written data |
| SeedUpload.MergeIdempotent | scripts/seed.ts:1310 | writing the same data twice is the same as writing it once |
| SeedUpload.Merge | scripts/seed.ts:1310 | a merge into a missing document stores the data as is; data carrying every field replaces the document; writing no fields keeps it |
| SeedUpload.MergeEncoded | scripts/seed.ts:1310 | merging a template over an old document gives the encoded template, except that an optional field the template leaves out keeps its stored value |
| SeedUpload.Upload | scripts/seed.ts:1307-1311 | the keys afterwards are the old keys plus the template ids, and documents not written are unchanged |
| SeedUpload.UploadWritesEach | scripts/seed.ts:1308-1311 | with distinct ids, each template's document is its merge over what was stored under its id |
| SeedUpload.CommitBatch | scripts/seed.ts:1307-1312 | a failed commit writes nothing; a successful one writes every template's key |
| SeedUpload.RoundTrip | src/lib/tash-admin.ts:62-87 | a template written to a fresh document reads back unchanged exactly when it already satisfies the read-side defaults |
| SeedUpload.ReadBackKeepsFields | src/lib/tash-admin.ts:62-87 | a written template reads back with its own id, title, category and lastUpdated |
| SeedUpload.CategoryCount | scripts/seed.ts:1318-1320 | the count of a category never exceeds the number of templates |
| SeedUpload.CategoryCountAll | scripts/seed.ts:1318-1320 | every template is counted exactly when all are in the category |
| SeedUpload.CategoryCountStep | scripts/seed.ts:1318-1320 | counting one more template raises only its own category's count, by one |
| SeedUpload.CategoryCountAbsent | scripts/seed.ts:1318-1320 | a category no template has counts zero |
| SeedUpload.TallyCategories | scripts/seed.ts:1317-1323 | one entry per category, each with that category's true, positive count; every template's category is listed; the counts add up to the number of templates |
| SeedUpload.RequirementTotal | scripts/seed.ts:1327-1331 | the total is at least each template's requirement count, and zero exactly when no template lists a requirement |
| SeedUpload.TotalRequirements | scripts/seed.ts:1327-1331 | the total is the sum of the templates' requirement counts |
| SeedUpload.UploadTemplates | scripts/seed.ts:1304-1336 | the collection is the committed batch; a summary is reported exactly when the commit succeeds, with the true total and a tally listing every category once with its true count |
| SoldiersPage.MatchesSearch | src/app/soldiers/page.tsx:80 | a soldier matches exactly when the term occurs in the full name or the personal id; the empty term matches everyone |
| SoldiersPage.FilteredSoldiers | src/app/soldiers/page.tsx:79-81 | the sub-list of soldiers whose name or personal id contains the term, missing none and keeping every copy |
| SoldiersPage.EmptySearchKeepsAll | src/app/soldiers/page.tsx:79-81 | an empty search box shows every soldier |
| SoldiersPage.NarrowingSearch | src/app/soldiers/page.tsx:79-81 | a longer term containing the shorter one shows a sub-list of what the shorter one showed |
| SoldiersPage.NewSoldier | src/app/soldiers/page.tsx:60-65 | the page's record of a new soldier: the document id, the form's name and personal id, the local time, and no other field |
| SoldiersPage.AddSoldier | src/app/soldiers/page.tsx:48-77 | an empty name or id does nothing; a failed write only clears the submitting flag; a successful one prepends the new soldier, closes and clears the dialog, keeps the search and navigates to the soldier's page |
| SoldiersPage.AddedSoldierInSearch | src/app/soldiers/page.tsx:60-66 | after an add, the search shows the new soldier first if the term matches it, then exactly what it showed before |
| SoldiersPage.AddClearsForm | src/app/soldiers/page.tsx:67-69 | an add straight after a successful one does nothing |
| Dashboard.CheckedCount | src/app/page.tsx:116-119 | the count never exceeds the list length, and equals it exactly when every item is checked |
| Dashboard.CheckedCountAppend | src/app/page.tsx:116 | the count of a concatenation is the sum of the counts |
| Dashboard.CheckOneMore | src/app/page.tsx:116 | checking one more item raises the count by one |
| Text.FirstSegment | src/app/page.tsx:51 | `split(" ")[0]`: a space-free prefix of the name that ends at a space or at the end |
| Dashboard.GreetingName | src/app/page.tsx:51 | a non-empty, space-free name: the display name's first word, or "משתמש" when there is no name or the first word is empty |
| Dashboard.GreetingNameUnique | src/app/page.tsx:51 | any non-empty, space-free prefix ending at a space or at the end is the greeting |
| Dashboard.Insert | src/app/page.tsx:30 | inserting a case adds exactly that case |
| Dashboard.InsertNewestFirst | src/app/page.tsx:30 | inserting into a newest-first list keeps it newest first |
| Dashboard.SortNewestFirst | src/app/page.tsx:30 | a permutation of the cases, newest first |
| Dashboard.ActiveCases | src/app/page.tsx:26-32 | at most five of the user's open cases, newest first, none listed more often than it is stored |
| Dashboard.ActiveCasesAreNewest | src/app/page.tsx:26-32 | an open case left out means five are shown, none of them older than it |
| Dashboard.ActiveCasesAllWhenFew | src/app/page.tsx:26-32 | with at most five open cases, the list holds each of them exactly as often as it is stored |
| Dashboard.ActiveCasesLength | src/app/page.tsx:31 | the list is as long as the user's open cases, capped at five |
| AppShell.IsActive | src/components/layout/AppShell.tsx:110 | the root item is active exactly on "/", any other exactly on the paths it prefixes |
| AppShell.RootActiveOnlyAtRoot | src/components/layout/AppShell.tsx:110 | the dashboard item is highlighted on "/" and nowhere else |
| AppShell.ActiveIsPrefix | src/components/layout/AppShell.tsx:110 | any other item is highlighted exactly on the paths it prefixes |
| AppShell.SiblingPathActivatesSoldiers | src/components/layout/AppShell.tsx:110 | "/soldiersX" and "/soldiers/abc" both highlight the soldiers item |
| AppShell.AtMostOneActive | src/components/layout/AppShell.tsx:52-56 | whatever the path, no two menu items are highlighted at once |
| AppShell.OnResize | src/components/layout/AppShell.tsx:31-45 | mobile exactly below 1024 pixels, and the sidebar is open exactly when not mobile |
| AppShell.OnNavigate | src/components/layout/AppShell.tsx:48-50 | navigation closes the sidebar on mobile and changes nothing on desktop |
| AppShell.Step | src/components/layout/AppShell.tsx:31-185 | a resize re-measures the layout as `checkMobile` does and a change of path behaves as the navigation effect; on mobile the menu button opens the sidebar and the overlay or the close button closes it; on desktop only a resize changes anything, and only a resize changes the mobile flag |
| AppShell.MobileMenuRoundTrip | src/components/layout/AppShell.tsx:62-185 | on mobile the menu button opens the sidebar, and closing it afterwards leaves it closed |
| AppShell.Run | src/components/layout/AppShell.tsx:31-70 | no events leave the state alone; without a resize the layout does not change; an open desktop sidebar stays open |
| AppShell.StepKeepsDesktopOpen | src/components/layout/AppShell.tsx:25-50 | no event leaves a desktop layout with a closed sidebar |
| AppShell.RunKeepsDesktopOpen | src/components/layout/AppShell.tsx:25-50 | no run of events does either |
| AppShell.SidebarWidth | src/components/layout/AppShell.tsx:78 | 280 exactly when open, 0 exactly when closed on mobile, 80 exactly when closed on desktop |
| AppShell.SidebarOffset | src/components/layout/AppShell.tsx:79 | pushed 280 pixels off screen exactly when closed on mobile |
| AppShell.HiddenIffOffscreen | src/components/layout/AppShell.tsx:78-79 | the sidebar has no width exactly when it is off screen |
| AppShell.CollapsedRailUnreachable | src/components/layout/AppShell.tsx:25-26 | from the initial state no run of events shows the 80-pixel rail |

## Left out

- The language model itself (Gemini, its API key, the model name) and the
  fixed instruction text of the prompt. The call is the `infer` parameter. The
  rule ids of the prompt are modelled as data (`Consult.PromptRuleIds`).
- `JSON.parse` is the `parseIds` parameter. An answer that parses to
  something other than an array of strings is folded into the parse-failure
  case, which answers 200 with no suggestions. The handler does otherwise:
  - an object, a number, a boolean or `null` makes `recommendedIds.includes`
    throw at src/app/api/consult/route.ts:74, outside the inner `try`. When
    there is at least one template, the outer `catch` answers 500
    (route.ts:78-81);
  - a JSON string is searched with `String.prototype.includes`, so the
    handler answers 200 with every template whose id is a substring of
    that string.
- The request field `text` is `Option<string>`. A truthy `text` that is not a
  string (a number, an object, an array) passes the 400 guard at
  route.ts:9-11 and is interpolated into the prompt. The model cannot express
  such a value.
- The system's design description mentions a second parse stage, which takes
  the first bracketed array out of the answer. The handler has no such stage:
  it calls `JSON.parse` once and falls back to empty suggestions. The model
  follows the handler.
- Firestore and its SDKs: `getAdminDb`, credentials, `dotenv`, collection
  handles. Reads are `Read<T>`; the write outcome is an argument.
- Clocks: `new Date().toISOString()` and `serverTimestamp()` become `now`
  arguments. `GetAllTemplatesForAI` uses one `now` for every document, where
  the source reads the clock once per document.
- `toLowerCase` is the per-character `lower` parameter. Full Unicode case
  mapping (which can change a string's length) is not modelled.
- NaN and other non-boolean JavaScript falsy values in stored documents. A
  missing field is `None`; an empty string falls back like a missing one.
- JavaScript numbers are Dafny integers: `procedure30Days`, `slaHours`, the
  `createdAt` timestamps and the window width cannot be fractional in the
  model, and there is no floating-point rounding or overflow.
- The `type` field of requirements and checklist items is named `kind`
  (`type` is a Dafny keyword).
- The Firestore query of the dashboard is modelled as filter, sort and take.
  The order among cases with equal `createdAt` is not stated. Turning query
  documents into `ConsultationCase` records, loading states and rendering are
  left out.
- The data the add-soldier dialog writes (`userId`, server timestamp) is not
  modelled; only the page-side record and the navigation are.
- Authentication, logout, avatars and the rest of the page markup; animation.
- The console output of the upload script. The tally is modelled as a list of
  (category, count) entries, and their order is not stated. A failed batch
  commit is modelled as writing nothing and reporting nothing.
- SeedCatalogue.Catalogue: its contract states only the number of templates.
  The agreement of each template with its index row is proved per template
  (`CatalogueIndexing.*Indexed`), and catalogue-wide facts are proved over the
  index. The link from a position in `Catalogue(now)` to that position's
  index row is not proved: any statement about `CatalogueEntry(k, now)`
  unfolds the transcribed Hebrew text of the template it names, which alone
  costs about half of one proof's resource budget. A lemma linking even a
  handful of positions exceeds the budget, and one quantifying over all 27
  positions is several times beyond it. For the same reason, the keys
  written by uploading the concrete catalogue are not computed. `SeedUpload.Upload` and `SeedUpload.UploadWritesEach`
  state them for any list with distinct ids.

## Findings

| source | as written | input that shows it | evidently intended | confidence | as-written member | corrected member |
|---|---|---|---|---|---|---|
| src/app/api/consult/route.ts:38-41 | the decision rules tell the model to answer "special-economic-leave" and "tashmash-married-basic" | any case the rules route to economic special leave or to the married soldier's allowance: the model answers one of these ids, no stored template has it, and the suggestion is silently dropped | the catalogue's ids "special-leave-economic" (scripts/seed.ts:990) and "tashmash-married" (scripts/seed.ts:172) | medium, not executed | CatalogueFacts.StaleRuleIdsNeverSuggested | CatalogueFacts.IntendedRuleIdsLive |
