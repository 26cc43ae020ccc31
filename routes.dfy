/** The route handlers of server/routes.ts that the core consists of: uploading a
    sheet, reading the current batch, moving the cursor and generating a letter. The
    authenticated user id comes from the session and is a parameter here. */
module Routes {
  import opened Wrappers
  import opened Schema
  import opened Tables
  import opened Storage
  import opened Ingest
  import opened Placeholders

  /** An error reply: HTTP status and the `message` of the JSON body. */
  datatype HttpError = HttpError(status: nat, message: string)

  const NO_FILE: string := "No file uploaded"
  const NO_DATA_ROW: string := "Excel file must contain at least one data row"
  const NO_VALID_ROWS: string := "No valid company data found in Excel file"
  const COMPANY_ID_REQUIRED: string := "Company ID is required"
  const COMPANY_NOT_FOUND: string := "Company not found"
  const USER_NOT_FOUND: string := "User not found"
  /** The message of the error `generateCoverLetter` rethrows for an empty answer:
      `JSON.stringify` of an `Error` is `{}`. */
  const NOTHING_GENERATED: string := "Failed to generate cover letter: {}"

  function UploadFailure(e: UploadError): HttpError {
    match e
    case NoFileUploaded => HttpError(400, NO_FILE)
    case NoDataRow => HttpError(400, NO_DATA_ROW)
    case NoValidRows => HttpError(400, NO_VALID_ROWS)
  }

  // ---------------------------------------------------------------------------
  // POST /api/upload-excel

  /** The success body, without its human-readable `message`. */
  datatype UploadReply = UploadReply(batchId: string, totalCompanies: nat)

  /** The records of a sheet, stored under fresh ids into a table holding nothing of
      that user and batch, read back as the sheet listed them. */
  lemma UploadedBatchReadsBack(table: seq<Company>, data: seq<seq<Cell>>, userId: nat,
                               batchId: string, firstId: nat)
    requires CompaniesInBatch(table, userId, batchId) == []
    ensures CompaniesInBatch(table + StoredCompanies(SheetRecords(data, userId, batchId), firstId),
                             userId, batchId)
            == StoredCompanies(SheetRecords(data, userId, batchId), firstId)
  {
    var recs := SheetRecords(data, userId, batchId);
    var created := StoredCompanies(recs, firstId);
    AcceptedTagged(data, |data|, userId, batchId);
    AcceptedRowIndices(data, |data|, userId, batchId);
    assert forall k :: 0 <= k < |created| ==> created[k].rowIndex == recs[k].rowIndex;
    assert forall k :: 0 <= k < |created| ==> recs[k] in recs;
    ReadBackInSheetOrder(table, created, userId, batchId);
  }

  /** Inserts the records, then points the user's session at the batch, at index 0. */
  method SaveBatch(store: DatabaseStorage, companies: seq<NewCompany>, userId: nat, batchId: string)
    returns (saved: seq<Company>)
    requires store.Valid()
    modifies store
    ensures store.Valid()
    ensures saved == StoredCompanies(companies, old(store.nextId))
    ensures store.companies == old(store.companies) + saved
    ensures store.GetUserSession(userId) == Some(UserSession(userId, Some(batchId), Some(0)))
    ensures forall u: nat :: u != userId ==> store.GetUserSession(u) == old(store.GetUserSession(u))
    ensures store.users == old(store.users) && store.coverLetters == old(store.coverLetters)
    ensures store.nextId == old(store.nextId) + |companies|
  {
    saved := store.CreateCompanies(companies);
    var session := store.UpsertUserSession(SessionData(userId, Given(batchId), Given(0)));
  }

  /** Rejects a missing file, a sheet without a data row and a sheet without an
      accepted row, writing nothing; otherwise stores the records and points the
      user's session at the new batch, at its first company. */
  method UploadExcel(store: DatabaseStorage, file: Option<seq<seq<Cell>>>, userId: nat, batchId: string)
    returns (r: Result<UploadReply, HttpError>)
    requires store.Valid()
    modifies store
    ensures store.Valid()
    ensures file.None? ==> r == Failure(HttpError(400, NO_FILE)) && unchanged(store)
    ensures file.Some? && |file.value| < 2 ==> r == Failure(HttpError(400, NO_DATA_ROW)) && unchanged(store)
    ensures file.Some? && |file.value| >= 2 && SheetRecords(file.value, userId, batchId) == [] ==>
              r == Failure(HttpError(400, NO_VALID_ROWS)) && unchanged(store)
    ensures file.Some? && |file.value| >= 2 && SheetRecords(file.value, userId, batchId) != [] ==>
              r.Success?
    ensures r.Success? ==>
              && file.Some? && |file.value| >= 2 && SheetRecords(file.value, userId, batchId) != []
              && r.value == UploadReply(batchId, |SheetRecords(file.value, userId, batchId)|)
              && store.companies
                 == old(store.companies) + StoredCompanies(SheetRecords(file.value, userId, batchId), old(store.nextId))
              && store.GetUserSession(userId) == Some(UserSession(userId, Some(batchId), Some(0)))
              && store.users == old(store.users) && store.coverLetters == old(store.coverLetters)
              && store.nextId == old(store.nextId) + |SheetRecords(file.value, userId, batchId)|
    ensures r.Success? ==>
              forall u: nat :: u != userId ==> store.GetUserSession(u) == old(store.GetUserSession(u))
    ensures r.Success? && old(store.GetCompaniesByBatch(userId, batchId)) == [] ==>
              store.GetCompaniesByBatch(userId, batchId)
              == StoredCompanies(SheetRecords(file.value, userId, batchId), old(store.nextId))
  {
    if file.None? {
      return Failure(HttpError(400, NO_FILE));
    }
    var data := file.value;
    var processed := ProcessRows(data, userId, batchId);
    if processed.Failure? {
      return Failure(UploadFailure(processed.error));
    }
    var companies := processed.value;
    if CompaniesInBatch(store.companies, userId, batchId) == [] {
      UploadedBatchReadsBack(store.companies, data, userId, batchId, store.nextId);
    }
    var saved := SaveBatch(store, companies, userId, batchId);
    r := Success(UploadReply(batchId, |saved|));
  }

  // ---------------------------------------------------------------------------
  // GET /api/companies

  /** `user?.customPrompt || DEFAULT_PROMPT`. */
  function EffectivePrompt(user: Option<User>): (r: string)
    ensures user.Some? && user.value.customPrompt.Some? && user.value.customPrompt.value != [] ==>
              r == user.value.customPrompt.value
    ensures user.None? || user.value.customPrompt.None? || user.value.customPrompt.value == [] ==>
              r == DEFAULT_PROMPT
  {
    if user.Some? && user.value.customPrompt.Some? && user.value.customPrompt.value != [] then
      user.value.customPrompt.value
    else DEFAULT_PROMPT
  }

  /** The prompt a letter is generated from is never empty. */
  lemma EffectivePromptNonEmpty(user: Option<User>)
    ensures EffectivePrompt(user) != []
  {
    assert |DEFAULT_PROMPT| > 0;
  }

  datatype CompaniesData = CompaniesData(companies: seq<Company>, currentIndex: int,
                                         promptTemplate: Option<string>)

  /** `!userSession?.currentBatch`: no session, no batch or the empty batch id. */
  predicate NoCurrentBatch(session: Option<UserSession>) {
    session.None? || session.value.currentBatch.None? || session.value.currentBatch.value == []
  }

  /** `currentCompanyIndex || 0`. */
  function IndexOrZero(index: Option<int>): (r: int)
    ensures index.Some? ==> r == index.value
    ensures index.None? ==> r == 0
  {
    index.GetOr(0)
  }

  /** The reply of `GET /api/companies`: the current batch in sheet order, the cursor
      and the prompt template; an empty list at index 0 when there is no batch. */
  function CompaniesReply(store: DatabaseStorage, userId: nat): (r: CompaniesData)
    reads store
    ensures NoCurrentBatch(store.GetUserSession(userId)) ==> r == CompaniesData([], 0, None)
    ensures !NoCurrentBatch(store.GetUserSession(userId)) ==>
              var session := store.GetUserSession(userId).value;
              && r.companies == store.GetCompaniesByBatch(userId, session.currentBatch.value)
              && r.currentIndex == IndexOrZero(session.currentCompanyIndex)
              && r.promptTemplate == Some(EffectivePrompt(store.GetUser(userId)))
  {
    var session := store.GetUserSession(userId);
    if NoCurrentBatch(session) then CompaniesData([], 0, None)
    else
      CompaniesData(store.GetCompaniesByBatch(userId, session.value.currentBatch.value),
                    IndexOrZero(session.value.currentCompanyIndex),
                    Some(EffectivePrompt(store.GetUser(userId))))
  }

  /** The companies listed are stored companies of the user, in ascending row order. */
  lemma CompaniesReplyListsOwnRows(store: DatabaseStorage, userId: nat)
    ensures var r := CompaniesReply(store, userId);
            && (forall k :: 0 <= k < |r.companies| ==>
                  r.companies[k] in store.companies && r.companies[k].userId == userId)
            && (forall i, j :: 0 <= i < j < |r.companies| ==>
                  r.companies[i].rowIndex <= r.companies[j].rowIndex)
  {
  }

  /** Right after an upload of a fresh batch, the companies read back are the stored
      records in sheet order, at index 0. */
  method UploadThenList(store: DatabaseStorage, data: seq<seq<Cell>>, userId: nat, batchId: string)
    returns (r: Result<UploadReply, HttpError>, listed: CompaniesData)
    requires store.Valid()
    requires batchId != []
    requires store.GetCompaniesByBatch(userId, batchId) == []
    modifies store
    ensures store.Valid()
    ensures r.Success? <==> |data| >= 2 && SheetRecords(data, userId, batchId) != []
    ensures r.Success? ==>
              && listed.companies == StoredCompanies(SheetRecords(data, userId, batchId), old(store.nextId))
              && listed.currentIndex == 0
              && listed.promptTemplate == Some(EffectivePrompt(store.GetUser(userId)))
    ensures r.Success? ==> |listed.companies| == r.value.totalCompanies
  {
    r := UploadExcel(store, Some(data), userId, batchId);
    listed := CompaniesReply(store, userId);
  }

  // ---------------------------------------------------------------------------
  // PATCH /api/user-session

  /** Writes the index only when the body supplies one, without any range check, and
      the user's custom prompt only when the body supplies a template. */
  method PatchUserSession(store: DatabaseStorage, userId: nat, currentCompanyIndex: Supplied<int>,
                          promptTemplate: Supplied<string>)
    returns (r: UserSession)
    requires store.Valid()
    modifies store
    ensures store.Valid()
    ensures old(store.GetUserSession(userId)).Some? ==>
              r == PatchSession(old(store.GetUserSession(userId)).value,
                                SessionData(userId, Omitted, currentCompanyIndex))
    ensures old(store.GetUserSession(userId)).None? ==>
              r == NewSession(SessionData(userId, Omitted, currentCompanyIndex))
    ensures store.GetUserSession(userId) == Some(r)
    ensures forall u: nat :: u != userId ==> store.GetUserSession(u) == old(store.GetUserSession(u))
    ensures r.currentBatch == (if old(store.GetUserSession(userId)).Some?
                               then old(store.GetUserSession(userId)).value.currentBatch else None)
    ensures currentCompanyIndex.Given? ==> r.currentCompanyIndex == Some(currentCompanyIndex.value)
    ensures promptTemplate.Omitted? ==> store.users == old(store.users)
    ensures promptTemplate.JsonNull? ==> store.users == SetCustomPrompt(old(store.users), userId, None)
    ensures promptTemplate.Given? ==>
              store.users == SetCustomPrompt(old(store.users), userId, Some(promptTemplate.value))
    ensures store.companies == old(store.companies) && store.coverLetters == old(store.coverLetters)
    ensures store.nextId == old(store.nextId)
  {
    var updateData := SessionData(userId, Omitted, Omitted);
    if !currentCompanyIndex.Omitted? {
      updateData := updateData.(currentCompanyIndex := currentCompanyIndex);
    }
    r := store.UpsertUserSession(updateData);
    if !promptTemplate.Omitted? {
      var prompt := if promptTemplate.Given? then Some(promptTemplate.value) else None;
      var updated := store.UpdateUserCustomPrompt(userId, prompt);
    }
  }

  // ---------------------------------------------------------------------------
  // POST /api/generate-cover-letter

  /** `!companyId`: absent, `null` or zero. */
  predicate Falsy(companyId: Supplied<nat>) {
    companyId.Omitted? || companyId.JsonNull? || companyId.value == 0
  }

  function FieldsOf(c: Company): PromptFields {
    PromptFields(c.name, c.jobTitle, c.jobDescription)
  }

  /** What generation is asked for: the company and the populated prompt. */
  datatype Request = Request(company: Company, prompt: string)

  /** The checks before generation and the prompt they lead to. */
  function ResolveRequest(store: DatabaseStorage, userId: nat, companyId: Supplied<nat>): (r: Result<Request, HttpError>)
    reads store
    ensures Falsy(companyId) ==> r == Failure(HttpError(400, COMPANY_ID_REQUIRED))
    ensures !Falsy(companyId) && (store.GetCompany(companyId.value).None?
                                  || store.GetCompany(companyId.value).value.userId != userId) ==>
              r == Failure(HttpError(404, COMPANY_NOT_FOUND))
    ensures !Falsy(companyId) && store.GetCompany(companyId.value).Some?
            && store.GetCompany(companyId.value).value.userId == userId && store.GetUser(userId).None? ==>
              r == Failure(HttpError(404, USER_NOT_FOUND))
    ensures r.Success? <==> !Falsy(companyId) && store.GetCompany(companyId.value).Some?
                            && store.GetCompany(companyId.value).value.userId == userId
                            && store.GetUser(userId).Some?
    ensures r.Success? ==>
              && r.value.company in store.companies
              && r.value.company.id == companyId.value && r.value.company.userId == userId
              && r.value.prompt == ReplacePlaceholders(EffectivePrompt(store.GetUser(userId)),
                                                       FieldsOf(r.value.company))
  {
    if Falsy(companyId) then Failure(HttpError(400, COMPANY_ID_REQUIRED))
    else
      var company := store.GetCompany(companyId.value);
      if company.None? || company.value.userId != userId then Failure(HttpError(404, COMPANY_NOT_FOUND))
      else
        var user := store.GetUser(userId);
        if user.None? then Failure(HttpError(404, USER_NOT_FOUND))
        else Success(Request(company.value, ReplacePlaceholders(EffectivePrompt(user), FieldsOf(company.value))))
  }

  datatype LetterReply = LetterReply(content: string, prompt: string, id: nat)

  /** Checks the request, asks for the letter and stores it only once generation has
      returned a non-empty text; `generated` is the outcome of the Gemini call and
      `now` the clock. An empty answer is the error `generateCoverLetter` throws. */
  method GenerateCoverLetter(store: DatabaseStorage, userId: nat, companyId: Supplied<nat>,
                             generated: Result<string, string>, now: int)
    returns (r: Result<LetterReply, HttpError>)
    requires store.Valid()
    modifies store
    ensures store.Valid()
    ensures old(ResolveRequest(store, userId, companyId)).Failure? ==>
              r == Failure(old(ResolveRequest(store, userId, companyId)).error) && unchanged(store)
    ensures old(ResolveRequest(store, userId, companyId)).Success? && generated.Failure? ==>
              r == Failure(HttpError(500, generated.error)) && unchanged(store)
    ensures old(ResolveRequest(store, userId, companyId)).Success? && generated.Success? && generated.value == [] ==>
              r == Failure(HttpError(500, NOTHING_GENERATED)) && unchanged(store)
    ensures old(ResolveRequest(store, userId, companyId)).Success? && generated.Success? && generated.value != [] ==>
              var prompt := old(ResolveRequest(store, userId, companyId)).value.prompt;
              && r == Success(LetterReply(generated.value, prompt, old(store.nextId)))
              && store.coverLetters
                 == old(store.coverLetters)
                    + [CoverLetter(old(store.nextId), userId, companyId.value, generated.value, prompt, now)]
              && store.users == old(store.users) && store.companies == old(store.companies)
              && store.sessions == old(store.sessions)
              && store.nextId == old(store.nextId) + 1
  {
    var request := ResolveRequest(store, userId, companyId);
    if request.Failure? {
      return Failure(request.error);
    }
    var prompt := request.value.prompt;
    if generated.Failure? {
      return Failure(HttpError(500, generated.error));
    }
    if generated.value == [] {
      return Failure(HttpError(500, NOTHING_GENERATED));
    }
    var letter := store.CreateCoverLetter(NewCoverLetter(userId, companyId.value, generated.value, prompt), now);
    r := Success(LetterReply(generated.value, prompt, letter.id));
  }

  /** A custom template with one description placeholder between brace-free texts is
      sent with the company's full description in its place. */
  lemma FullDescriptionSent(store: DatabaseStorage, userId: nat, companyId: Supplied<nat>,
                            a: string, b: string)
    requires ResolveRequest(store, userId, companyId).Success?
    requires store.GetUser(userId).value.customPrompt == Some(a + JOB_DESCRIPTION + b)
    requires '{' !in a && '{' !in b
    ensures ResolveRequest(store, userId, companyId).value.prompt
            == a + ResolveRequest(store, userId, companyId).value.company.jobDescription + b
  {
    var c := ResolveRequest(store, userId, companyId).value.company;
    assert |a + JOB_DESCRIPTION + b| > 0;
    DescriptionVerbatim(a, b, FieldsOf(c));
  }
}
