# smartcover core in Dafny

smartcover is a small web app. A user uploads a spreadsheet of job openings. The
server keeps each valid row as a "company" record of one upload batch. The user
then walks through the batch with a cursor and asks an AI model for a cover letter
built from a prompt template. This project models the deterministic core of that
app and proves properties of the model:

- **Ingestion** (`ingest.dfy`, `jstext.dfy`): the row check, trimming and the loop
  of the `/api/upload-excel` handler, from the decoded row matrix to the records.
  Cells are `Missing | Null | Str | Other`. `trim()` uses the concrete ECMAScript
  WhiteSpace and LineTerminator character set.
- **Prompt population** (`placeholders.dfy`, `prompt_editor.dfy`):
  - `replacePlaceholders` makes three sequential, global, literal replacements;
  - the editor's preview does the same with a shortened description;
  - `s.split(m).join(r)` is an independent reference definition of one global
    replacement.
- **Persistence** (`storage.dfy`, `tables.dfy`, `schema.dfy`): `DatabaseStorage`
  as a class. Each table is a sequence field in insertion order, and ids come from
  a counter. The queries are "first row matching", "filter" and a stable sort by
  key.
- **Routes** (`routes.dfy`): upload, `GET /api/companies`, `PATCH /api/user-session`
  and cover-letter generation, run against the store.
- **Home page** (`home.dfy`): a class with the fetched companies data and the local
  prompt template. Its handlers are the bounds-guarded next, previous and go-to
  moves, each followed by the refetch. It also covers what the page renders and the
  template initialisation effect.

The authenticated user id, the batch id from `randomUUID()`, the outcome of the
Gemini call and the clock are parameters.

In three places the app may behave differently from what one would expect; the model
follows the code:

- `handleGoToCompany` ignores an index out of range. It signals no error.
- `PATCH /api/user-session` stores any index, with no range check against the
  batch. Only the client's guards keep the cursor in range.
- The upload ends with two separate writes, `createCompanies` then
  `upsertUserSession`, not one transaction. Both are modelled, run one after the
  other.

The statement "if no field value contains a placeholder, the prompt contains none" is
false. A name that is the single character `{`
completes the text `COMPANY_NAME}` that follows the placeholder into a new
`{COMPANY_NAME}`. `Placeholders.TokenFreeValuesCanLeaveTokens` proves this.
`Placeholders.NoPlaceholderLeft` proves the condition that does hold: the values
contain no `{`, and every `{` of the template opens one of the three placeholders.
This is not a bug in the source, which promises neither version.

## Model

| member | source | states |
|---|---|---|
| Tables.First | server/storage.ts:50-53 | `const [row] = select ... where`: `None` exactly when no row matches, otherwise the first matching row |
| Tables.FirstRewritten | server/storage.ts:68-75 | rewriting the matching rows with `f` makes the first match `f` of the old first match |
| Tables.FirstPointwise | server/storage.ts:110-114 | tables that agree on the matching rows have the same first match |
| Tables.FirstAppendMiss | server/storage.ts:117-121 | appending a row that does not match keeps the first match |
| Tables.Filter | server/storage.ts:85-91 | `WHERE`: every kept row is in the table and matches; every matching row is kept |
| Tables.SortBy | server/storage.ts:85-91 | `ORDER BY key`: the result is sorted by the key and is a permutation of the input |
| Tables.SortBySorted | server/storage.ts:85-91 | sorting rows already in key order returns them unchanged |
| JsText.Trim | server/routes.ts:172-183 | `trim()`: leading, then trailing white space removed; pinned down by TrimIsMiddle |
| JsText.TrimStartSuffix | server/routes.ts:172-175 | removing leading white space keeps a suffix, drops only white space and stops at a character that is not white space |
| JsText.TrimEndPrefix | server/routes.ts:172-175 | the same at the end of the text |
| JsText.TrimIsMiddle | server/routes.ts:180-183 | `trim()` keeps a contiguous middle part with only white space around it, and that part neither starts nor ends with white space |
| JsText.TrimEmptyIffBlank | server/routes.ts:172-175 | `String(v).trim() !== ''` exactly when the text is not all white space |
| JsText.TrimIdempotent | server/routes.ts:180-183 | trimming twice is trimming once |
| JsText.TrimFixesTrimmed | server/routes.ts:180-183 | `trim()` returns a text unchanged exactly when it has no white space at either end |
| Ingest.CellText | server/routes.ts:172-183 | `String(v)` of a cell: the text of a string or other value, "undefined" and "null" for the two empty cells |
| Ingest.FieldPresent | server/routes.ts:172-175 | one clause of `hasRequiredFields`: not `undefined`, not `null`, and a non-blank text; characterised by FieldPresentIff |
| Ingest.HasRequiredFields | server/routes.ts:170-175 | `hasRequiredFields`: at least four cells, the first four all present |
| Ingest.RowRecord | server/routes.ts:178-186 | the record of sheet row `i`: the four trimmed cells, `rowIndex` `i - 1`, the user and the batch |
| Ingest.Accepted | server/routes.ts:164-189 | the records the loop has pushed after looking at the rows before `n` |
| Ingest.SheetRecords | server/routes.ts:164-193 | the records of the whole sheet, the `companies` array after the loop |
| Ingest.FieldPresentIff | server/routes.ts:172-175 | a cell counts exactly when it is neither `undefined` nor `null` nor blank, and its trimmed text is then non-empty and trimmed |
| Ingest.RowAcceptance | server/routes.ts:170-186 | a row is accepted iff it has at least 4 cells and cells 0-3 are all present; its record fields are then non-empty trimmed texts |
| Ingest.ExtraCellsIgnored | server/routes.ts:170-186 | cells after the fourth change neither the check nor the record |
| Ingest.KeptIndices | server/routes.ts:164-177 | the kept row numbers lie in `1 .. n-1`: the header row is skipped |
| Ingest.KeptIndicesExactly | server/routes.ts:164-177 | the kept row numbers increase strictly, each names an accepted row, and every accepted row is among them |
| Ingest.CollectRowsByIndex | server/routes.ts:164-193 | the k-th collected record is built from the k-th kept row |
| Ingest.AcceptedStep | server/routes.ts:177-189 | one loop step appends the record of row `i` exactly when that row is accepted |
| Ingest.ProcessRows | server/routes.ts:154-199 | fewer than 2 rows fail with "no data row", no accepted row fails with "no valid rows", otherwise the result is the records of the accepted rows in sheet order |
| Ingest.AcceptedRowIndices | server/routes.ts:164-186 | row indices are sheet row minus 1, not renumbered: strictly increasing and within `[0, length-2]` |
| Ingest.AcceptedAt | server/routes.ts:177-189 | each record is the trimmed record of the accepted row its row index names |
| Ingest.AcceptedFromRows | server/routes.ts:177-189 | every record comes from an accepted row and is built from that row |
| Ingest.AcceptedCoversRows | server/routes.ts:170-189 | every accepted data row has a record |
| Ingest.AcceptedTagged | server/routes.ts:178-186 | every record carries the uploader's id and the one batch id |
| Ingest.NoneAccepted | server/routes.ts:197-199 | a sheet whose data rows are all rejected gives no records |
| Ingest.SkippedRowKeepsIndices | server/routes.ts:164-192 | with a blank-named row between two good rows, the records are those of rows 1 and 3, with row indices 0 and 2 |
| Ingest.TrimmedCellsVerbatim | server/routes.ts:178-186 | four string cells that are already trimmed and non-empty are accepted and taken over verbatim |
| Ingest.BlankRowScenario | server/routes.ts:170-177 | a header and one fully blank data row give no records |
| Placeholders.ReplaceAll | server/services/gemini.ts:40-43 | one global, literal `.replace(/m/g, v)`: scans left to right, replaces each occurrence and goes on after it; its meaning is proved by ReplaceIsSplitJoin and SplitPartsFree |
| Placeholders.ReplacePlaceholders | server/services/gemini.ts:39-44 | the three passes in the order name, title, description, each over the result of the one before |
| Placeholders.Split | server/services/gemini.ts:40-43 | the pieces of the text between the occurrences of a marker; there is at least one piece |
| Placeholders.ReplaceIsSplitJoin | server/services/gemini.ts:40-43 | a global replacement equals splitting on the marker and joining with the value |
| Placeholders.SplitPartsFree | server/services/gemini.ts:40-43 | no piece of the split contains the marker, so every occurrence is replaced |
| Placeholders.ReplaceWithSelf | server/services/gemini.ts:40-43 | replacing a marker by itself changes nothing |
| Placeholders.SplitJoinRoundTrip | server/services/gemini.ts:40-43 | splitting on a marker and joining with it gives the text back |
| Placeholders.ReplaceAbsent | server/services/gemini.ts:40-43 | a pass for a marker the text does not contain returns the text unchanged |
| Placeholders.NoPlaceholdersUnchanged | server/services/gemini.ts:39-44 | a template with none of the three placeholders is returned unchanged |
| Placeholders.OtherBracesVerbatim | server/services/gemini.ts:40-43 | `{FOO}` and the lower-case `{company_name}` are left verbatim |
| Placeholders.ReplaceSkipsBraceFree | server/services/gemini.ts:40-43 | text without `{` passes through a pass unchanged, and the pass continues after it |
| Placeholders.ReplaceAtMarker | server/services/gemini.ts:40-43 | an occurrence at the front is replaced by the value |
| Placeholders.ReplaceOtherMarker | server/services/gemini.ts:40-43 | a placeholder survives the pass for a different placeholder |
| Placeholders.DearScenario | server/services/gemini.ts:40-43 | `"Dear {COMPANY_NAME}, re: {JOB_TITLE}"` becomes `"Dear " + name + ", re: " + title` for any name and title without `{` |
| Placeholders.AcmeExample | server/services/gemini.ts:40-43 | with Acme and Engineer the result is `"Dear Acme, re: Engineer"` |
| Placeholders.NameFedToLaterPasses | server/services/gemini.ts:40-43 | the substituted name is itself rewritten by the title and description passes |
| Placeholders.NameWithTitleToken | server/services/gemini.ts:40-43 | a name that is the text `{JOB_TITLE}` ends up as the job title |
| Placeholders.DescriptionVerbatim | server/services/gemini.ts:40-43 | the description is substituted last and verbatim: placeholders inside it are not rewritten |
| Placeholders.PassKeepsBracesOpen | server/services/gemini.ts:40-43 | a pass with a value without `{` keeps "every `{` opens a remaining placeholder" |
| Placeholders.NoPlaceholderLeft | server/services/gemini.ts:40-43 | if every `{` of the template opens a placeholder and no value contains `{`, the prompt contains no `{` and no placeholder |
| Placeholders.TokenFreeValuesCanLeaveTokens | server/services/gemini.ts:40-43 | values free of placeholders can still leave a placeholder in the prompt |
| PromptEditor.PreviewDescription | client/src/components/prompt-editor.tsx:68 | the shortened description is the first `min(200, length)` characters followed by `"..."` |
| PromptEditor.Preview | client/src/components/prompt-editor.tsx:60-69 | the preview exists exactly when a company is given and the template is non-empty |
| PromptEditor.PreviewIsShortenedPrompt | client/src/components/prompt-editor.tsx:65-69 | the preview is the server's prompt with the description replaced by its shortened form |
| PromptEditor.ShortDescriptionKeepsEllipsis | client/src/components/prompt-editor.tsx:68 | the ellipsis is appended even when the description has at most 200 characters |
| PromptEditor.PreviewWithoutPlaceholders | client/src/components/prompt-editor.tsx:65-69 | a non-empty template without placeholders previews as itself |
| PromptEditor.PreviewAndPromptDiffer | client/src/components/prompt-editor.tsx:65-69 | between brace-free texts, the preview has the shortened description where the generated prompt has the full one |
| Storage.CompaniesInBatch | server/storage.ts:85-91 | exactly the rows of that user and batch, in ascending `rowIndex` order |
| Storage.LettersNewestFirst | server/storage.ts:133-139 | exactly the user's letters, newest first |
| Storage.ReadBackInSheetOrder | server/storage.ts:85-91 | a batch inserted in strictly increasing row order under an unused batch id reads back exactly as inserted |
| Storage.PatchSession | server/storage.ts:110-114 | `set({ ...sessionData })`: the supplied fields overwrite the row, an omitted field keeps its value, `null` clears it |
| Storage.NewSession | server/storage.ts:117-121 | the inserted session: the supplied fields, with the column defaults (no batch, index 0) for the omitted ones |
| Storage.PatchSessions | server/storage.ts:110-114 | the update changes the rows of that user and no other row |
| Storage.PatchFindsPatched | server/storage.ts:110-115 | after the update, the user's session is the old session with the supplied fields overwritten |
| Storage.PatchKeepsOtherSessions | server/storage.ts:110-114 | the update leaves every other user's session as it was |
| Storage.SetCustomPrompt | server/storage.ts:68-75 | only the rows of the given user get the new prompt; every other row is untouched |
| Storage.SetCustomPromptFound | server/storage.ts:68-75 | the user found by id after the update is the old row with the new prompt |
| Storage.StoredCompanies | server/storage.ts:77-83 | one stored row per record, in input order, with consecutive fresh ids |
| Storage.DatabaseStorage.constructor | server/storage.ts:49 | an empty database: no users, companies, sessions or letters |
| Storage.DatabaseStorage.GetUser | server/storage.ts:50-53 | the row with that id, or nothing when there is none |
| Storage.DatabaseStorage.GetUserByEmail | server/storage.ts:55-58 | the row with that e-mail, or nothing when there is none |
| Storage.DatabaseStorage.CreateUser | server/storage.ts:60-66 | appends the user with a fresh id; an e-mail already in use fails and writes nothing |
| Storage.DatabaseStorage.UpdateUserCustomPrompt | server/storage.ts:68-75 | sets the prompt of that user only and returns the updated row, or nothing for an unknown id |
| Storage.DatabaseStorage.CreateCompanies | server/storage.ts:77-83 | appends one stored row per record and returns them in input order; other tables are unchanged |
| Storage.DatabaseStorage.GetCompaniesByBatch | server/storage.ts:85-91 | the query on the current tables; its meaning is stated by CompaniesInBatch |
| Storage.DatabaseStorage.GetCompany | server/storage.ts:93-96 | the company with that id, or nothing when there is none |
| Storage.DatabaseStorage.GetUserSession | server/storage.ts:98-104 | the session of that user, or nothing when there is none |
| Storage.DatabaseStorage.UpsertUserSession | server/storage.ts:106-123 | updates the existing session (supplied fields only) or inserts a new one with defaults; keeps at most one session per user, and other users' sessions are unchanged |
| Storage.DatabaseStorage.GetCoverLettersByUser | server/storage.ts:133-139 | the query on the current tables; its meaning is stated by LettersNewestFirst |
| Storage.DatabaseStorage.CreateCoverLetter | server/storage.ts:125-131 | appends the letter with a fresh id and the clock's time |
| Routes.UploadedBatchReadsBack | server/routes.ts:202-209 | the records of a fresh batch, once stored, read back as the sheet listed them |
| Routes.SaveBatch | server/routes.ts:202-209 | stores the records, then points the user's session at the batch at index 0; other sessions are unchanged |
| Routes.UploadExcel | server/routes.ts:142-220 | each of the three 400 replies writes nothing; success stores every accepted record under consecutive fresh ids, resets the cursor to the new batch at 0, reports the number saved, and leaves users, letters and other users' sessions as they were |
| Routes.EffectivePrompt | server/routes.ts:240 | the user's non-empty custom prompt, otherwise the built-in default |
| Routes.EffectivePromptNonEmpty | server/routes.ts:294-295 | the template used for generation is never empty |
| Routes.NoCurrentBatch | server/routes.ts:228 | `!userSession?.currentBatch`: no session, no batch, or the empty batch id |
| Routes.IndexOrZero | server/routes.ts:239 | the stored index when there is one (so 0 for a stored 0), and 0 when it is missing |
| Routes.CompaniesReply | server/routes.ts:223-246 | with no current batch `{[], 0}` and no template; otherwise the batch in row order, the stored index or 0, and the effective prompt |
| Routes.CompaniesReplyListsOwnRows | server/routes.ts:232 | the listed companies are stored rows of the user, in ascending row order |
| Routes.UploadThenList | server/routes.ts:197-241 | right after a successful upload, the listing returns the stored records in sheet order at index 0 |
| Routes.PatchUserSession | server/routes.ts:249-270 | updates the session, or creates it at index 0 (or the given index) without a batch when there is none; changes the index only when one is supplied, with no range check; writes no company, letter or id; keeps the batch; changes the custom prompt only when a template is supplied |
| Routes.Falsy | server/routes.ts:278 | `!companyId`: the id is absent, `null` or 0 |
| Routes.ResolveRequest | server/routes.ts:278-302 | a missing id gives 400; an absent or foreign company gives 404 "Company not found"; an unknown user gives 404 "User not found"; otherwise the prompt is the effective template filled with the company's full fields |
| Routes.GenerateCoverLetter | server/routes.ts:273-324 | a rejected request, a failed generation or an empty answer writes nothing and gives the error reply; a letter is stored under the next fresh id only after generation returns a text, and the reply carries that id |
| Routes.FullDescriptionSent | server/routes.ts:294-302 | the prompt sent for generation holds the full, untruncated description |
| Home.NextTarget | client/src/pages/home.tsx:93-121 | `currentIndex + 1` exactly when the index is below the last one, otherwise nothing |
| Home.PreviousTarget | client/src/pages/home.tsx:145-161 | `currentIndex - 1` exactly when the index is above 0, otherwise nothing |
| Home.GoToTarget | client/src/pages/home.tsx:163-178 | the index exactly when it names a company of the list, otherwise nothing |
| Home.TargetsInRange | client/src/pages/home.tsx:93-178 | from an index in range, every target a guard lets through is in range |
| Home.NextBlocked | client/src/pages/home.tsx:93-121 | next is blocked exactly before any data, on an empty list and at the last index |
| Home.NextThenPrevious | client/src/pages/home.tsx:93-161 | next, then previous, returns to the index it started from |
| Home.CurrentCompany | client/src/pages/home.tsx:180 | the company the index names, or nothing when there is no data or the index names none |
| Home.Render | client/src/pages/home.tsx:227-258 | the workflow section shows exactly for a non-empty list; the card and the generator show only the current company |
| Home.InRangeShowsCompany | client/src/pages/home.tsx:227-258 | an index in range shows the card and the generator for the company it names |
| Home.FirstRecordShownAfterUpload | client/src/pages/home.tsx:180 | right after an upload the page shows the first accepted row's company |
| Home.InitTemplate | client/src/pages/home.tsx:63-67 | the server's template is taken over only while the local one is empty |
| Home.InitTemplateIdempotent | client/src/pages/home.tsx:63-67 | running the effect again changes nothing |
| Home.HomePage.Coherent | client/src/pages/home.tsx:37-39 | the fetched data is what `GET /api/companies` returns for the store as it is now |
| Home.HomePage.constructor | client/src/pages/home.tsx:34 | no data yet and an empty local template |
| Home.HomePage.Load | client/src/pages/home.tsx:37-39 | the data becomes the server's reply, then the initialisation effect runs |
| Home.HomePage.MoveTo | client/src/pages/home.tsx:96-100 | the PATCH with a new index, then the refetch: only the index changes, the session keeps its batch, and users, companies, letters, the id counter and other users' sessions stay |
| Home.HomePage.HandleNextCompany | client/src/pages/home.tsx:93-121 | one step forward, or "completed" with nothing written; after a step the stored index is the new one, the session keeps its batch, the id counter stays, nothing else of the store changes and the local template is kept (refilled only while empty); an index in range stays in range |
| Home.HomePage.HandlePreviousCompany | client/src/pages/home.tsx:145-161 | one step back, or nothing at index 0; after a step the stored index is the new one, the session keeps its batch, the id counter stays, nothing else of the store changes and the local template is kept (refilled only while empty); an index in range stays in range |
| Home.HomePage.HandleGoToCompany | client/src/pages/home.tsx:163-178 | jumps to an index of the list, storing it, keeping the session's batch and the id counter, changing nothing else of the store and keeping the local template (refilled only while empty); any other index is ignored with nothing written |
| Home.HomePage.HandlePromptTemplateChange | client/src/pages/home.tsx:123-125 | sets the local template, and a template cleared to "" is filled again from the server's |
| Home.HomePage.HandleSavePromptTemplate | client/src/pages/home.tsx:127-143 | saves the template as the user's custom prompt; an existing session stays as it is, a missing one is created at index 0 without a batch; companies, letters and other users' sessions stay |
| Home.ReplyWithEntriesHasBatch | server/routes.ts:228-241 | a reply with companies or a non-zero index comes from a current batch |

## Left out

- XLSX decoding, the multer file filter and `randomUUID`: the decoded rows, the file's presence and the batch id are inputs.
- `String()` of numbers, booleans and dates: an `Other` cell carries the text `String()` would give for it.
- String lengths count Unicode code points, where JavaScript's `substring(0, 200)` counts UTF-16 code units. The two differ for characters outside the Basic Multilingual Plane.
- The `$` patterns (`$&`, `$$`, ...) in replacement strings, section 22.1.3.19.1 of ECMA-262: replacement is literal. Values that contain `$` are substituted verbatim here.
- The `generateCoverLetter` call to Gemini: its outcome is a parameter. An empty answer is turned into the 500 reply the source's rethrown error gives.
- Routes.GenerateCoverLetter: a failed generation gives a 500 reply whose message is the error text passed in. The wording of that text is not modelled.
- bcrypt, sessions, the login, register, logout and `GET /api/user` routes.
- The catch-all 500 replies of the routes. The database raises no errors here, apart from the unique e-mail check in `CreateUser`.
- The `message` text of the upload success reply.
- Concurrency: requests run one after another. The check-then-act in `upsertUserSession` and the two writes of an upload are not atomic in the source and cannot interleave here.
- HandleSavePromptTemplate: the page does not refetch after saving, so its data keeps the old template and `Coherent` no longer holds; the navigation handlers, which require it, are then not callable in the model. The app never reaches that state: `PromptEditor` declares no `onSaveTemplate` prop (client/src/components/prompt-editor.tsx:11-17), so the handler is never called.
- Mutation failures on the page: `MoveTo` models the success path, the PATCH followed by the refetch.
- Toasts, query invalidation timing, loading states and console logging.
- Prompt-template CRUD (`createPromptTemplate` ... `deletePromptTemplate`): the table and types it uses are not defined in shared/schema.ts.
- `users.customPrompt`, which the routes read and write, is not a column of shared/schema.ts. It is modelled as a nullable field of `User`.
- The `user_sessions` columns `promptTemplate` and `geminiApiKey`, and its `id`: the core never reads or writes them.
- The `updatedAt` columns and foreign-key cascades.
- Tables.SortBy: ties are kept in table order. SQL `ORDER BY` guarantees no order for ties. Rows of one batch never tie, because their row indices increase strictly. Cover letters of one user with the same `createdAt` can tie, and `LettersNewestFirst` then lists them in insertion order, which the database does not promise.
- Storage.DatabaseStorage.CreateCompanies: an empty list is accepted and inserts nothing, where the database layer rejects an insert of no rows. The upload route never reaches that call with no records, because it first replies 400.
- Ids are natural numbers from a counter starting at 1, standing in for UUIDs. A stored id is therefore never falsy.
- The `.xlsx`/`.xls` suffix check of the upload component and the percentage of the progress bar.
