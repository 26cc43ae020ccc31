/** The rows of the tables the core reads and writes (shared/schema.ts). Every `id`
    the database generates with `gen_random_uuid()` is modelled as a natural number
    handed out by the store; ids start at 1, so a stored id is never falsy. */
module Schema {
  import opened Wrappers

  /** The built-in prompt used when a user has no custom prompt. */
  const DEFAULT_PROMPT: string :=
    "My name is Max, I have over 9 years of experience as software QS/Tester. Generate a customized cover letter for {COMPANY_NAME} based on its job description: {JOB_DESCRIPTION} for the job title: {JOB_TITLE}."

  /** A `users` row. `customPrompt` is the column the server code reads and writes. */
  datatype User = User(id: nat, email: string, password: string, name: string,
                       phone: Option<string>, customPrompt: Option<string>)

  datatype NewUser = NewUser(email: string, password: string, name: string, phone: Option<string>)

  /** A company/job record before insertion (`InsertCompany`). */
  datatype NewCompany = NewCompany(userId: nat, name: string, applicationLink: string,
                                   jobDescription: string, jobTitle: string,
                                   rowIndex: int, uploadBatch: string)

  /** A stored `companies` row. */
  datatype Company = Company(id: nat, userId: nat, name: string, applicationLink: string,
                             jobDescription: string, jobTitle: string,
                             rowIndex: int, uploadBatch: string)

  function StoredCompany(c: NewCompany, id: nat): Company {
    Company(id, c.userId, c.name, c.applicationLink, c.jobDescription, c.jobTitle,
            c.rowIndex, c.uploadBatch)
  }

  /** The argument of `upsertUserSession`: fields that are `Omitted` are not written. */
  datatype SessionData = SessionData(userId: nat, currentBatch: Supplied<string>,
                                     currentCompanyIndex: Supplied<int>)

  /** A `user_sessions` row; both progress columns are nullable. */
  datatype UserSession = UserSession(userId: nat, currentBatch: Option<string>,
                                     currentCompanyIndex: Option<int>)

  datatype NewCoverLetter = NewCoverLetter(userId: nat, companyId: nat, content: string, prompt: string)

  datatype CoverLetter = CoverLetter(id: nat, userId: nat, companyId: nat, content: string,
                                     prompt: string, createdAt: int)
}
