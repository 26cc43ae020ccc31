/** The home page (client/src/pages/home.tsx): the fetched companies data, the local
    prompt template, the guarded navigation handlers and what the page shows. A
    handler that moves the cursor sends the `PATCH /api/user-session` request and,
    once it has succeeded, fetches `GET /api/companies` again; both run here against
    the store, one after the other. */
module Home {
  import opened Wrappers
  import opened Schema
  import opened Storage
  import opened Routes

  // ---------------------------------------------------------------------------
  // The guards of the handlers.

  /** The cursor names a company of the list. */
  predicate InRange(data: CompaniesData) {
    0 <= data.currentIndex < |data.companies|
  }

  /** The index `handleNextCompany` asks for, or `None` when it reports that all
      applications are completed. */
  function NextTarget(data: Option<CompaniesData>): (r: Option<int>)
    ensures r.Some? <==> data.Some? && data.value.currentIndex < |data.value.companies| - 1
    ensures r.Some? ==> r.value == data.value.currentIndex + 1
  {
    if data.Some? && data.value.currentIndex < |data.value.companies| - 1 then
      Some(data.value.currentIndex + 1)
    else None
  }

  /** The index `handlePreviousCompany` asks for, or `None` when it does nothing. */
  function PreviousTarget(data: Option<CompaniesData>): (r: Option<int>)
    ensures r.Some? <==> data.Some? && data.value.currentIndex > 0
    ensures r.Some? ==> r.value == data.value.currentIndex - 1
  {
    if data.Some? && data.value.currentIndex > 0 then Some(data.value.currentIndex - 1)
    else None
  }

  /** The index `handleGoToCompany(index)` asks for, or `None` when it ignores it. */
  function GoToTarget(data: Option<CompaniesData>, index: int): (r: Option<int>)
    ensures r.Some? <==> data.Some? && 0 <= index < |data.value.companies|
    ensures r.Some? ==> r.value == index
  {
    if data.Some? && 0 <= index < |data.value.companies| then Some(index) else None
  }

  /** Every target a guard lets through names a company of the list, so navigation
      that starts in range stays in range. */
  lemma TargetsInRange(data: CompaniesData, index: int)
    requires InRange(data)
    ensures NextTarget(Some(data)).Some? ==> 0 <= NextTarget(Some(data)).value < |data.companies|
    ensures PreviousTarget(Some(data)).Some? ==> 0 <= PreviousTarget(Some(data)).value < |data.companies|
    ensures GoToTarget(Some(data), index).Some? ==> 0 <= GoToTarget(Some(data), index).value < |data.companies|
  {
  }

  /** Next is blocked exactly at the last company, on an empty list and before any data. */
  lemma NextBlocked(data: Option<CompaniesData>)
    requires data.Some? ==> 0 <= data.value.currentIndex
    ensures NextTarget(data).None? <==>
              data.None? || data.value.companies == [] || data.value.currentIndex >= |data.value.companies| - 1
  {
  }

  /** Next then previous comes back to where it started. */
  lemma NextThenPrevious(data: CompaniesData)
    requires 0 <= data.currentIndex && NextTarget(Some(data)).Some?
    ensures PreviousTarget(Some(data.(currentIndex := NextTarget(Some(data)).value)))
            == Some(data.currentIndex)
  {
  }

  // ---------------------------------------------------------------------------
  // What the page shows.

  /** `companiesData?.companies[companiesData.currentIndex]`: `undefined` when there is
      no data or the index names no element. */
  function CurrentCompany(data: Option<CompaniesData>): (r: Option<Company>)
    ensures r.Some? <==> data.Some? && 0 <= data.value.currentIndex < |data.value.companies|
    ensures r.Some? ==> r.value == data.value.companies[data.value.currentIndex]
  {
    if data.Some? && 0 <= data.value.currentIndex < |data.value.companies| then
      Some(data.value.companies[data.value.currentIndex])
    else None
  }

  /** The parts of the page below the upload box: whether the workflow section is
      rendered, and the company given to the card, the prompt editor and the generator. */
  datatype View = View(workflow: bool, card: Option<Company>, editorCompany: Option<Company>,
                       generator: Option<Company>)

  function Render(data: Option<CompaniesData>): (v: View)
    ensures v.workflow <==> data.Some? && |data.value.companies| > 0
    ensures v.card.Some? ==> v.workflow && v.card == CurrentCompany(data)
    ensures v.generator == v.card
    ensures v.workflow ==> v.editorCompany == CurrentCompany(data)
    ensures !v.workflow ==> v.card.None? && v.editorCompany.None? && v.generator.None?
  {
    if data.Some? && |data.value.companies| > 0 then
      var current := CurrentCompany(data);
      View(true, current, current, current)
    else View(false, None, None, None)
  }

  /** With the cursor in range the card and the generator are shown for the company
      the cursor names. */
  lemma InRangeShowsCompany(data: CompaniesData)
    requires InRange(data)
    ensures Render(Some(data)).workflow
    ensures Render(Some(data)).card == Some(data.companies[data.currentIndex])
    ensures Render(Some(data)).generator == Some(data.companies[data.currentIndex])
  {
  }

  /** Right after an upload the page shows the record built from the first accepted row. */
  lemma FirstRecordShownAfterUpload(listed: CompaniesData, records: seq<NewCompany>, firstId: nat)
    requires records != []
    requires listed.companies == StoredCompanies(records, firstId) && listed.currentIndex == 0
    ensures CurrentCompany(Some(listed)) == Some(StoredCompany(records[0], firstId))
    ensures Render(Some(listed)).card == Some(StoredCompany(records[0], firstId))
  {
  }

  /** The initialisation effect: the server's template is taken over only while the
      local one is empty. */
  function InitTemplate(data: Option<CompaniesData>, local: string): (r: string)
    ensures local != [] ==> r == local
    ensures (local == [] && data.Some? && data.value.promptTemplate.Some?
             && data.value.promptTemplate.value != []) ==> r == data.value.promptTemplate.value
    ensures r == [] <==> local == [] && (data.None? || data.value.promptTemplate.None?
                                         || data.value.promptTemplate.value == [])
  {
    if data.Some? && data.value.promptTemplate.Some? && data.value.promptTemplate.value != []
       && local == [] then data.value.promptTemplate.value
    else local
  }

  /** Running the effect twice is running it once. */
  lemma InitTemplateIdempotent(data: Option<CompaniesData>, local: string)
    ensures InitTemplate(data, InitTemplate(data, local)) == InitTemplate(data, local)
  {
  }

  // ---------------------------------------------------------------------------
  // The page.

  class HomePage {
    const userId: nat
    /** The `GET /api/companies` query data; `None` before it has loaded. */
    var companiesData: Option<CompaniesData>
    /** The local prompt template (`useState("")`). */
    var promptTemplate: string

    /** The data the page shows is what the server returns now. */
    ghost predicate Coherent(store: DatabaseStorage)
      reads this, store
    {
      companiesData.Some? ==> companiesData.value == CompaniesReply(store, userId)
    }

    constructor (userId: nat)
      ensures this.userId == userId && companiesData == None && promptTemplate == []
    {
      this.userId := userId;
      companiesData := None;
      promptTemplate := [];
    }

    /** The query resolves, then the initialisation effect runs. */
    method Load(store: DatabaseStorage)
      modifies this
      ensures companiesData == Some(CompaniesReply(store, userId))
      ensures promptTemplate == InitTemplate(companiesData, old(promptTemplate))
      ensures Coherent(store)
    {
      companiesData := Some(CompaniesReply(store, userId));
      promptTemplate := InitTemplate(companiesData, promptTemplate);
    }

    /** The cursor update a navigation handler sends, followed by the refetch and the
        effect: the list and the template stay, the index becomes the requested one. */
    method MoveTo(store: DatabaseStorage, newIndex: int)
      requires store.Valid() && Coherent(store) && companiesData.Some?
      requires !NoCurrentBatch(store.GetUserSession(userId))
      modifies this, store
      ensures store.Valid() && Coherent(store)
      ensures companiesData == Some(old(companiesData.value).(currentIndex := newIndex))
      ensures store.GetUserSession(userId).value.currentCompanyIndex == Some(newIndex)
      ensures store.GetUserSession(userId).value.currentBatch == old(store.GetUserSession(userId).value.currentBatch)
      ensures promptTemplate == InitTemplate(companiesData, old(promptTemplate))
      ensures store.users == old(store.users) && store.companies == old(store.companies)
      ensures store.coverLetters == old(store.coverLetters) && store.nextId == old(store.nextId)
      ensures forall u: nat :: u != userId ==> store.GetUserSession(u) == old(store.GetUserSession(u))
    {
      ghost var before := CompaniesReply(store, userId);
      var session := PatchUserSession(store, userId, Given(newIndex), Omitted);
      assert session.currentCompanyIndex == Some(newIndex);
      assert store.GetUser(userId) == old(store.GetUser(userId));
      assert store.GetCompaniesByBatch(userId, session.currentBatch.value)
             == old(store.GetCompaniesByBatch(userId, session.currentBatch.value));
      companiesData := Some(CompaniesReply(store, userId));
      assert companiesData.value == before.(currentIndex := newIndex);
      promptTemplate := InitTemplate(companiesData, promptTemplate);
    }

    /** `handleNextCompany`: one step forward, or the "All applications completed!"
        report without any request. */
    method HandleNextCompany(store: DatabaseStorage) returns (completed: bool)
      requires store.Valid() && Coherent(store)
      modifies this, store
      ensures store.Valid() && Coherent(store)
      ensures completed <==> NextTarget(old(companiesData)).None?
      ensures completed ==> unchanged(this) && unchanged(store)
      ensures !completed ==>
                companiesData == Some(old(companiesData.value).(currentIndex := old(companiesData.value.currentIndex) + 1))
      ensures !completed ==>
                && store.GetUserSession(userId).Some?
                && store.GetUserSession(userId).value.currentCompanyIndex == Some(old(companiesData.value.currentIndex) + 1)
                && promptTemplate == InitTemplate(companiesData, old(promptTemplate))
                && store.GetUserSession(userId).value.currentBatch == old(store.GetUserSession(userId)).value.currentBatch
                && store.nextId == old(store.nextId)
                && store.users == old(store.users) && store.companies == old(store.companies)
                && store.coverLetters == old(store.coverLetters)
                && (forall u: nat :: u != userId ==> store.GetUserSession(u) == old(store.GetUserSession(u)))
      ensures old(companiesData).Some? && InRange(old(companiesData.value)) ==> InRange(companiesData.value)
    {
      var target := NextTarget(companiesData);
      completed := target.None?;
      if target.Some? {
        ReplyWithEntriesHasBatch(store, userId);
        MoveTo(store, target.value);
      }
    }

    /** `handlePreviousCompany`: one step back, or nothing at the first company. */
    method HandlePreviousCompany(store: DatabaseStorage)
      requires store.Valid() && Coherent(store)
      modifies this, store
      ensures store.Valid() && Coherent(store)
      ensures PreviousTarget(old(companiesData)).None? ==> unchanged(this) && unchanged(store)
      ensures PreviousTarget(old(companiesData)).Some? ==>
                companiesData == Some(old(companiesData.value).(currentIndex := old(companiesData.value.currentIndex) - 1))
      ensures PreviousTarget(old(companiesData)).Some? ==>
                && store.GetUserSession(userId).Some?
                && store.GetUserSession(userId).value.currentCompanyIndex == Some(old(companiesData.value.currentIndex) - 1)
                && promptTemplate == InitTemplate(companiesData, old(promptTemplate))
                && store.GetUserSession(userId).value.currentBatch == old(store.GetUserSession(userId)).value.currentBatch
                && store.nextId == old(store.nextId)
                && store.users == old(store.users) && store.companies == old(store.companies)
                && store.coverLetters == old(store.coverLetters)
                && (forall u: nat :: u != userId ==> store.GetUserSession(u) == old(store.GetUserSession(u)))
      ensures old(companiesData).Some? && InRange(old(companiesData.value)) ==> InRange(companiesData.value)
    {
      var target := PreviousTarget(companiesData);
      if target.Some? {
        ReplyWithEntriesHasBatch(store, userId);
        MoveTo(store, target.value);
      }
    }

    /** `handleGoToCompany(index)`: jumps to an index of the list; any other index is
        ignored without an error. */
    method HandleGoToCompany(store: DatabaseStorage, index: int)
      requires store.Valid() && Coherent(store)
      modifies this, store
      ensures store.Valid() && Coherent(store)
      ensures GoToTarget(old(companiesData), index).None? ==> unchanged(this) && unchanged(store)
      ensures GoToTarget(old(companiesData), index).Some? ==>
                companiesData == Some(old(companiesData.value).(currentIndex := index))
                && InRange(companiesData.value)
      ensures GoToTarget(old(companiesData), index).Some? ==>
                && store.GetUserSession(userId).Some?
                && store.GetUserSession(userId).value.currentCompanyIndex == Some(index)
                && promptTemplate == InitTemplate(companiesData, old(promptTemplate))
                && store.GetUserSession(userId).value.currentBatch == old(store.GetUserSession(userId)).value.currentBatch
                && store.nextId == old(store.nextId)
                && store.users == old(store.users) && store.companies == old(store.companies)
                && store.coverLetters == old(store.coverLetters)
                && (forall u: nat :: u != userId ==> store.GetUserSession(u) == old(store.GetUserSession(u)))
    {
      var target := GoToTarget(companiesData, index);
      if target.Some? {
        ReplyWithEntriesHasBatch(store, userId);
        MoveTo(store, target.value);
      }
    }

    /** `handlePromptTemplateChange`, followed by the effect: a template cleared to ""
        is filled again from the server's. */
    method HandlePromptTemplateChange(newTemplate: string)
      modifies this
      ensures promptTemplate == InitTemplate(companiesData, newTemplate)
      ensures companiesData == old(companiesData)
    {
      promptTemplate := newTemplate;
      promptTemplate := InitTemplate(companiesData, promptTemplate);
    }

    /** `handleSavePromptTemplate`: saves the template as the user's custom prompt and
        touches neither the cursor nor the fetched data, which is not refetched. The
        PATCH it sends creates the user's session, at index 0 and without a batch, when
        there is none. */
    method HandleSavePromptTemplate(store: DatabaseStorage, template: string)
      requires store.Valid()
      modifies store
      ensures store.Valid()
      ensures store.users == SetCustomPrompt(old(store.users), userId, Some(template))
      ensures store.companies == old(store.companies) && store.coverLetters == old(store.coverLetters)
      ensures store.nextId == old(store.nextId)
      ensures old(store.GetUserSession(userId)).Some? ==>
                store.GetUserSession(userId) == old(store.GetUserSession(userId))
      ensures old(store.GetUserSession(userId)).None? ==>
                store.GetUserSession(userId) == Some(UserSession(userId, None, Some(0)))
      ensures forall u: nat :: u != userId ==> store.GetUserSession(u) == old(store.GetUserSession(u))
    {
      var session := PatchUserSession(store, userId, Omitted, Given(template));
    }
  }

  /** A reply that lists at least one company, or whose index is not 0, comes from a
      current batch. */
  lemma ReplyWithEntriesHasBatch(store: DatabaseStorage, userId: nat)
    ensures CompaniesReply(store, userId).companies != [] || CompaniesReply(store, userId).currentIndex != 0
            ==> !NoCurrentBatch(store.GetUserSession(userId))
  {
  }
}
