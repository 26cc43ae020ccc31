/** `DatabaseStorage` (server/storage.ts) as an in-memory store: each table is a
    sequence of rows in insertion order, and each query is a function of the tables. */
module Storage {
  import opened Wrappers
  import opened Tables
  import opened Schema

  // ---------------------------------------------------------------------------
  // Row predicates and sort keys of the queries.

  function UserWithId(id: nat): User -> bool { (u: User) => u.id == id }
  function UserWithEmail(email: string): User -> bool { (u: User) => u.email == email }
  function CompanyWithId(id: nat): Company -> bool { (c: Company) => c.id == id }
  function SessionOf(userId: nat): UserSession -> bool { (s: UserSession) => s.userId == userId }
  function LetterOf(userId: nat): CoverLetter -> bool { (l: CoverLetter) => l.userId == userId }

  function InBatch(userId: nat, batch: string): Company -> bool {
    (c: Company) => c.userId == userId && c.uploadBatch == batch
  }

  function RowIndexKey(c: Company): int { c.rowIndex }

  /** `orderBy(desc(createdAt))` is an ascending order on the negated timestamp. */
  function NewestFirstKey(l: CoverLetter): int { -l.createdAt }

  // ---------------------------------------------------------------------------
  // Queries on a table.

  /** `getCompaniesByBatch`: the user's companies of one upload, by ascending row index. */
  function CompaniesInBatch(table: seq<Company>, userId: nat, batch: string): (r: seq<Company>)
    ensures forall k :: 0 <= k < |r| ==> r[k] in table && r[k].userId == userId && r[k].uploadBatch == batch
    ensures forall k :: 0 <= k < |table| && table[k].userId == userId && table[k].uploadBatch == batch
                        ==> table[k] in r
    ensures forall i, j :: 0 <= i < j < |r| ==> r[i].rowIndex <= r[j].rowIndex
    ensures multiset(r) == multiset(Filter(table, InBatch(userId, batch)))
  {
    var rows := Filter(table, InBatch(userId, batch));
    var r := SortBy(rows, RowIndexKey);
    SameElements(r, rows);
    SameElements(rows, r);
    r
  }

  /** `getCoverLettersByUser`: the user's letters, newest first. */
  function LettersNewestFirst(table: seq<CoverLetter>, userId: nat): (r: seq<CoverLetter>)
    ensures forall k :: 0 <= k < |r| ==> r[k] in table && r[k].userId == userId
    ensures forall k :: 0 <= k < |table| && table[k].userId == userId ==> table[k] in r
    ensures forall i, j :: 0 <= i < j < |r| ==> r[i].createdAt >= r[j].createdAt
    ensures multiset(r) == multiset(Filter(table, LetterOf(userId)))
  {
    var rows := Filter(table, LetterOf(userId));
    var r := SortBy(rows, NewestFirstKey);
    SameElements(r, rows);
    SameElements(rows, r);
    assert forall i, j :: 0 <= i < j < |r| ==> NewestFirstKey(r[i]) <= NewestFirstKey(r[j]);
    r
  }

  /** A batch written in one insert, in strictly increasing row order, under a batch id
      the user had not used before, reads back exactly as written. */
  lemma {:induction false} ReadBackInSheetOrder(table: seq<Company>, created: seq<Company>,
                                                userId: nat, batch: string)
    requires forall k :: 0 <= k < |table| ==> !(table[k].userId == userId && table[k].uploadBatch == batch)
    requires forall k :: 0 <= k < |created| ==> created[k].userId == userId && created[k].uploadBatch == batch
    requires forall i, j :: 0 <= i < j < |created| ==> created[i].rowIndex < created[j].rowIndex
    ensures CompaniesInBatch(table + created, userId, batch) == created
  {
    var p := InBatch(userId, batch);
    FilterAppend(table, created, p);
    FilterNone(table, p);
    FilterAll(created, p);
    assert Filter(table + created, p) == created;
    assert SortedBy(created, RowIndexKey);
    SortBySorted(created, RowIndexKey);
  }

  // ---------------------------------------------------------------------------
  // Row updates.

  /** `.set({ ...sessionData })` on an existing row: omitted fields keep their value. */
  function PatchSession(row: UserSession, data: SessionData): UserSession {
    UserSession(
      row.userId,
      match data.currentBatch
        case Omitted => row.currentBatch
        case JsonNull => None
        case Given(b) => Some(b),
      match data.currentCompanyIndex
        case Omitted => row.currentCompanyIndex
        case JsonNull => None
        case Given(i) => Some(i))
  }

  /** `.values(sessionData)`: omitted columns get their defaults, `NULL` for the batch
      and `0` for the index. */
  function NewSession(data: SessionData): UserSession {
    UserSession(
      data.userId,
      match data.currentBatch
        case Given(b) => Some(b)
        case _ => None,
      match data.currentCompanyIndex
        case Omitted => Some(0)
        case JsonNull => None
        case Given(i) => Some(i))
  }

  /** An update keyed by user id touches every row of that user and no other. */
  function PatchSessions(rows: seq<UserSession>, data: SessionData): (r: seq<UserSession>)
    ensures |r| == |rows|
    ensures forall k :: 0 <= k < |rows| ==>
              r[k] == if rows[k].userId == data.userId then PatchSession(rows[k], data) else rows[k]
  {
    seq(|rows|, k requires 0 <= k < |rows| =>
      if rows[k].userId == data.userId then PatchSession(rows[k], data) else rows[k])
  }

  function PatchWith(data: SessionData): UserSession -> UserSession {
    (row: UserSession) => PatchSession(row, data)
  }

  /** After the patch, the user's session is the patched old session. */
  lemma PatchFindsPatched(rows: seq<UserSession>, data: SessionData)
    requires First(rows, SessionOf(data.userId)).Some?
    ensures First(PatchSessions(rows, data), SessionOf(data.userId))
            == Some(PatchSession(First(rows, SessionOf(data.userId)).value, data))
  {
    FirstRewritten(rows, PatchSessions(rows, data), SessionOf(data.userId), PatchWith(data));
  }

  /** Patching one user's sessions leaves every other user's session as it was. */
  lemma PatchKeepsOtherSessions(rows: seq<UserSession>, data: SessionData, u: nat)
    requires u != data.userId
    ensures First(PatchSessions(rows, data), SessionOf(u)) == First(rows, SessionOf(u))
  {
    FirstPointwise(PatchSessions(rows, data), rows, SessionOf(u));
  }

  function SetCustomPrompt(rows: seq<User>, userId: nat, prompt: Option<string>): (r: seq<User>)
    ensures |r| == |rows|
    ensures forall k :: 0 <= k < |rows| ==>
              r[k] == if rows[k].id == userId then rows[k].(customPrompt := prompt) else rows[k]
  {
    seq(|rows|, k requires 0 <= k < |rows| =>
      if rows[k].id == userId then rows[k].(customPrompt := prompt) else rows[k])
  }

  function WithPrompt(prompt: Option<string>): User -> User {
    (u: User) => u.(customPrompt := prompt)
  }

  /** The user found by id after a prompt is set is the old row with the new prompt. */
  lemma SetCustomPromptFound(rows: seq<User>, userId: nat, prompt: Option<string>)
    ensures First(SetCustomPrompt(rows, userId, prompt), UserWithId(userId)).None?
            <==> First(rows, UserWithId(userId)).None?
    ensures First(rows, UserWithId(userId)).Some? ==>
              First(SetCustomPrompt(rows, userId, prompt), UserWithId(userId))
              == Some(First(rows, UserWithId(userId)).value.(customPrompt := prompt))
  {
    FirstRewritten(rows, SetCustomPrompt(rows, userId, prompt), UserWithId(userId), WithPrompt(prompt));
  }

  /** The rows a bulk insert writes: the i-th record gets the i-th fresh id from `firstId`. */
  function StoredCompanies(data: seq<NewCompany>, firstId: nat): (r: seq<Company>)
    ensures |r| == |data|
    ensures forall k :: 0 <= k < |data| ==> r[k] == StoredCompany(data[k], firstId + k)
  {
    seq(|data|, k requires 0 <= k < |data| => StoredCompany(data[k], firstId + k))
  }

  datatype StoreError = UniqueViolation

  class DatabaseStorage {
    var users: seq<User>
    var companies: seq<Company>
    var sessions: seq<UserSession>
    var coverLetters: seq<CoverLetter>
    /** The next id the database hands out. */
    var nextId: nat

    /** Ids are unique and below `nextId`; e-mails are unique (a column constraint); at
        most one session row per user (kept by `UpsertUserSession`, not by the schema). */
    ghost predicate Valid()
      reads this
    {
      && nextId >= 1
      && (forall k :: 0 <= k < |users| ==> 1 <= users[k].id < nextId)
      && (forall i, j :: 0 <= i < j < |users| ==> users[i].id != users[j].id && users[i].email != users[j].email)
      && (forall k :: 0 <= k < |companies| ==> 1 <= companies[k].id < nextId)
      && (forall i, j :: 0 <= i < j < |companies| ==> companies[i].id != companies[j].id)
      && (forall k :: 0 <= k < |coverLetters| ==> 1 <= coverLetters[k].id < nextId)
      && (forall i, j :: 0 <= i < j < |coverLetters| ==> coverLetters[i].id != coverLetters[j].id)
      && (forall i, j :: 0 <= i < j < |sessions| ==> sessions[i].userId != sessions[j].userId)
    }

    constructor ()
      ensures Valid()
      ensures users == [] && companies == [] && sessions == [] && coverLetters == []
    {
      users, companies, sessions, coverLetters := [], [], [], [];
      nextId := 1;
    }

    // --- users ---------------------------------------------------------------

    function GetUser(id: nat): (r: Option<User>)
      reads this
      ensures r.None? <==> forall k :: 0 <= k < |users| ==> users[k].id != id
      ensures r.Some? ==> r.value in users && r.value.id == id
    {
      First(users, UserWithId(id))
    }

    function GetUserByEmail(email: string): (r: Option<User>)
      reads this
      ensures r.None? <==> forall k :: 0 <= k < |users| ==> users[k].email != email
      ensures r.Some? ==> r.value in users && r.value.email == email
    {
      First(users, UserWithEmail(email))
    }

    /** Inserts a user with a fresh id; the unique e-mail constraint rejects a second
        account for the same address and then nothing is written. */
    method CreateUser(data: NewUser) returns (r: Result<User, StoreError>)
      requires Valid()
      modifies this
      ensures Valid()
      ensures old(GetUserByEmail(data.email)).Some? ==> r == Failure(UniqueViolation) && unchanged(this)
      ensures old(GetUserByEmail(data.email)).None? ==>
                && r == Success(User(old(nextId), data.email, data.password, data.name, data.phone, None))
                && users == old(users) + [r.value] && nextId == old(nextId) + 1
                && companies == old(companies) && sessions == old(sessions)
                && coverLetters == old(coverLetters)
    {
      if GetUserByEmail(data.email).Some? {
        return Failure(UniqueViolation);
      }
      var user := User(nextId, data.email, data.password, data.name, data.phone, None);
      users := users + [user];
      nextId := nextId + 1;
      r := Success(user);
    }

    /** `UPDATE users SET customPrompt ... WHERE id = userId RETURNING`: only that
        user's row changes. */
    method UpdateUserCustomPrompt(userId: nat, prompt: Option<string>) returns (r: Option<User>)
      requires Valid()
      modifies this
      ensures Valid()
      ensures users == SetCustomPrompt(old(users), userId, prompt)
      ensures companies == old(companies) && sessions == old(sessions)
      ensures coverLetters == old(coverLetters) && nextId == old(nextId)
      ensures r.None? <==> old(GetUser(userId)).None?
      ensures r.Some? ==> r == Some(old(GetUser(userId)).value.(customPrompt := prompt))
      ensures r.Some? ==> GetUser(userId) == r
    {
      var before := GetUser(userId);
      SetCustomPromptFound(users, userId, prompt);
      users := SetCustomPrompt(users, userId, prompt);
      assert forall k :: 0 <= k < |users| ==>
               users[k].id == old(users)[k].id && users[k].email == old(users)[k].email;
      if before.Some? {
        r := Some(before.value.(customPrompt := prompt));
      } else {
        r := None;
      }
    }

    // --- companies -----------------------------------------------------------

    /** Inserts every record with a fresh id and returns the stored rows in input order. */
    method CreateCompanies(data: seq<NewCompany>) returns (created: seq<Company>)
      requires Valid()
      modifies this
      ensures Valid()
      ensures created == StoredCompanies(data, old(nextId))
      ensures companies == old(companies) + created
      ensures nextId == old(nextId) + |data|
      ensures users == old(users) && sessions == old(sessions) && coverLetters == old(coverLetters)
    {
      created := StoredCompanies(data, nextId);
      companies := companies + created;
      nextId := nextId + |data|;
    }

    function GetCompaniesByBatch(userId: nat, batch: string): (r: seq<Company>)
      reads this
    {
      CompaniesInBatch(companies, userId, batch)
    }

    function GetCompany(id: nat): (r: Option<Company>)
      reads this
      ensures r.None? <==> forall k :: 0 <= k < |companies| ==> companies[k].id != id
      ensures r.Some? ==> r.value in companies && r.value.id == id
    {
      First(companies, CompanyWithId(id))
    }

    // --- sessions ------------------------------------------------------------

    function GetUserSession(userId: nat): (r: Option<UserSession>)
      reads this
      ensures r.None? <==> forall k :: 0 <= k < |sessions| ==> sessions[k].userId != userId
      ensures r.Some? ==> r.value in sessions && r.value.userId == userId
    {
      First(sessions, SessionOf(userId))
    }

    /** Updates the user's session when there is one and inserts it otherwise, so
        sequential calls keep at most one session per user (`Valid`). */
    method UpsertUserSession(data: SessionData) returns (r: UserSession)
      requires Valid()
      modifies this
      ensures Valid()
      ensures old(GetUserSession(data.userId)).Some? ==>
                && sessions == PatchSessions(old(sessions), data)
                && r == PatchSession(old(GetUserSession(data.userId)).value, data)
      ensures old(GetUserSession(data.userId)).None? ==>
                && sessions == old(sessions) + [NewSession(data)]
                && r == NewSession(data)
      ensures GetUserSession(data.userId) == Some(r)
      ensures forall u: nat :: u != data.userId ==> GetUserSession(u) == old(GetUserSession(u))
      ensures users == old(users) && companies == old(companies)
      ensures coverLetters == old(coverLetters) && nextId == old(nextId)
    {
      var existing := GetUserSession(data.userId);
      if existing.Some? {
        ghost var before := sessions;
        PatchFindsPatched(sessions, data);
        sessions := PatchSessions(sessions, data);
        r := PatchSession(existing.value, data);
        forall u: nat | u != data.userId
          ensures First(sessions, SessionOf(u)) == First(before, SessionOf(u))
        {
          PatchKeepsOtherSessions(before, data, u);
        }
      } else {
        ghost var before := sessions;
        r := NewSession(data);
        sessions := sessions + [r];
        FirstUnique(sessions, SessionOf(data.userId), |sessions| - 1);
        forall u: nat | u != data.userId
          ensures First(sessions, SessionOf(u)) == First(before, SessionOf(u))
        {
          FirstAppendMiss(before, r, SessionOf(u));
        }
      }
    }

    // --- cover letters -------------------------------------------------------

    /** Inserts a letter with a fresh id; `now` is the database clock. */
    method CreateCoverLetter(data: NewCoverLetter, now: int) returns (r: CoverLetter)
      requires Valid()
      modifies this
      ensures Valid()
      ensures r == CoverLetter(old(nextId), data.userId, data.companyId, data.content, data.prompt, now)
      ensures coverLetters == old(coverLetters) + [r] && nextId == old(nextId) + 1
      ensures users == old(users) && companies == old(companies) && sessions == old(sessions)
    {
      r := CoverLetter(nextId, data.userId, data.companyId, data.content, data.prompt, now);
      coverLetters := coverLetters + [r];
      nextId := nextId + 1;
    }

    function GetCoverLettersByUser(userId: nat): (r: seq<CoverLetter>)
      reads this
    {
      LettersNewestFirst(coverLetters, userId)
    }
  }
}
