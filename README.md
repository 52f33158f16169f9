# skill-mirror domain core in Dafny

This project models the domain core of skill-mirror, an interview-simulation app. A
candidate is interviewed by an AI *character* working for a *company*. The model
covers the following parts:

- **The `Interview` aggregate** (`interview.dfy`, with laws in `interview_laws.dfy`).
  - It moves PENDING → IN_PROGRESS → COMPLETED / CANCELLED through `start`, `complete` and `cancel`.
  - It keeps a transcript that, within the model, grows only through `addMessage`. The transcript is a value, so the array a caller hands to `fromPersistence` is not shared (see "## Left out").
  - It answers transcript queries: the last message, messages by type or by sender, and the conversation length.
- **The `Character` and `Company` entities** (`character.dfy`, `company.dfy`).
  - Each has field mutators and activation.
  - Characters have a compatibility rule: STARTUP characters serve every company type.
  - Characters have a greeting per role, and companies have an interview pitch per company type.
- **The three in-memory repositories** (`*_repository.dfy`). Each holds a list of entity references and offers:
  - `findById`, which returns the stored reference itself;
  - `findAll`, which applies the filters that are set one after another;
  - finders for single criteria;
  - `save`, which appends without a duplicate check;
  - `update`, which replaces the first entry with the same id, or fails;
  - `delete`, which removes the first entry with the id, or returns false;
  - `exists`, `seed` and `clear`.
- **The interview use cases** (`interview_management.dfy`) and **the character queries** (`get_characters.dfy`).
- **The value objects** `UniqueId`, `Name`, `Description` and `Email`, with the string primitives they use (`value_objects.dfy`, `text.dfy`), plus the enumerations and error messages (`enums.dfy`, `failures.dfy`).

The modelling choices are these:

- **Entities are classes.**
  - Fields the source never reassigns are `const`, such as ids, role, company type and creation time.
  - `State()` gives the getters' view as one value.
  - Each mutator ensures that its new `State()` is a pure transition of the old one: `Started`, `Completed`, `Cancelled` or `WithMessage` for interviews, and a record update for characters and companies.
  - What the lifecycle guarantees is proved about those transitions.
- **Thrown errors** become `Failure` values, carrying the source's exact messages.
- **Clocks and ids are parameters.**
  - Every clock reading inside one operation is the single parameter `now`.
  - Generated ids are parameters, and so are message ids.
- **Repositories return references.** A use case changes the interview it got from `findById` in place. Its final `update` writes back the same reference, so the stored list stays as it was and only that one interview changes. The `modifies` clauses of the use cases name exactly the repository and that interview.
- **`active_only: false` is a filter.** `GetCharacters` passes `active_only` through as `is_active`, so `false` keeps only the inactive characters and does not mean "any". `CharacterQueries.ActiveOnlyFalseSelectsInactive` states this.
- **Cancelling twice succeeds.** `cancel` refuses only a COMPLETED interview (src/domain/entities/interview.ts:164-171), so cancelling a CANCELLED one succeeds and restamps `ended_at` (`InterviewLaws.CancelUnlessCompleted`).

## Model

| member | source | states |
|---|---|---|
| Enums.TagsInjective | src/domain/value-objects/enums.ts:1-46 | distinct members of each enumeration serialise to distinct strings |
| Text.Trim | src/domain/value-objects/common.ts:43 | `trim` returns an infix with no white space at either end, and only white space is cut on each side |
| Text.TrimEmptyIff | src/domain/value-objects/common.ts:37 | `trim()` is empty exactly when the string is all white space |
| Text.TrimOfTrimmed | src/domain/value-objects/common.ts:43 | a string with no white space at its ends is its own trim |
| Text.TrimIdempotent | src/domain/value-objects/common.ts:43 | trimming twice is trimming once |
| Text.Lower | src/domain/value-objects/common.ts:8 | `toLowerCase` keeps the length and lower-cases character by character |
| ValueObjects.NewId | src/domain/value-objects/unique-id.ts:6-8 | a non-empty given value is kept, otherwise the generated one is used |
| ValueObjects.GenerateId | src/domain/value-objects/unique-id.ts:22-24 | `generate()` is the constructor with no value |
| ValueObjects.IdFrom | src/domain/value-objects/unique-id.ts:26-31 | `from` fails with the empty-id error exactly on a blank string; otherwise it stores the value verbatim and `toString` returns it |
| ValueObjects.BoundedText | src/domain/value-objects/common.ts:36-44 | the shared rule: succeeds iff the input is not blank and its untrimmed length is within the bound; the result is the non-empty trimmed input; the error is "empty" for blank input, else "too long" |
| ValueObjects.NameFrom | src/domain/value-objects/common.ts:36-44 | the same rule with bound 100 and the Name errors; the stored value is `trim(raw)` |
| ValueObjects.NameRoundTrip | src/domain/value-objects/common.ts:36-44 | re-constructing a Name from its stored value gives the same Name |
| ValueObjects.DescriptionFrom | src/domain/value-objects/common.ts:66-74 | the same rule with bound 1000 and the Description errors |
| ValueObjects.DescriptionRoundTrip | src/domain/value-objects/common.ts:66-74 | re-constructing a Description from its stored value gives the same Description |
| ValueObjects.EmailCheckIsPattern | src/domain/value-objects/common.ts:23-26 | the executable check accepts exactly the language of `^[^\s@]+@[^\s@]+\.[^\s@]+$` |
| ValueObjects.EmailFrom | src/domain/value-objects/common.ts:4-9 | an email is accepted iff it matches the pattern; the stored value is the lower-cased input; otherwise the result is the invalid-email error |
| ValueObjects.LowerOfEmailIsTrimmed | src/domain/value-objects/common.ts:8 | a matching address has no white space at its ends after lower-casing, so the trailing `trim()` changes nothing |
| ValueObjects.StoredEmailIsLowered | src/domain/value-objects/common.ts:8 | for a valid address `toLowerCase().trim()` equals `toLowerCase()` alone |
| ValueObjects.LowerIdempotent | src/domain/value-objects/common.ts:8 | lower-casing twice is lower-casing once |
| ValueObjects.EmailRoundTrip | src/domain/value-objects/common.ts:4-9 | a stored address, fed back to the constructor, gives the same Email |
| ValueObjects.EqualsIsValueEquality | src/domain/value-objects/common.ts:15-17 | `equals` on UniqueId, Name, Description and Email holds iff the stored values are equal; it is reflexive and symmetric |
| Interviews.InterviewState.LastMessage | src/domain/entities/interview.ts:196-198 | the final message, absent exactly when there are no messages |
| Interviews.MinutesBetween | src/domain/entities/interview.ts:155-159 | the floor of the elapsed milliseconds over 60000; non-negative when the end is not before the start |
| Interviews.MessagesToJson | src/domain/entities/interview.ts:258-262 | the messages are serialised one for one, in order |
| Interviews.Interview.FromPersistence | src/domain/entities/interview.ts:55-71 | the new interview holds the supplied props; a missing id is generated and missing timestamps are `now` |
| Interviews.Interview.Create | src/domain/entities/interview.ts:234-242 | the new interview is PENDING with no messages and a generated id, whatever status and messages it is handed |
| Interviews.Interview.Start | src/domain/entities/interview.ts:135-142 | outcome and new state are those of `Started`: from PENDING it becomes IN_PROGRESS with `started_at`; otherwise it fails and nothing changes |
| Interviews.Interview.Complete | src/domain/entities/interview.ts:144-162 | outcome and new state are those of `Completed`; nothing changes on failure |
| Interviews.Interview.Cancel | src/domain/entities/interview.ts:164-171 | outcome and new state are those of `Cancelled`; nothing changes on failure |
| Interviews.Interview.AddMessage | src/domain/entities/interview.ts:173-194 | outcome and new state are those of `WithMessage` for the message with the given fields, stamped `now` |
| InterviewLaws.StartIffPending | src/domain/entities/interview.ts:135-142 | `start` succeeds iff PENDING; it then sets IN_PROGRESS, `started_at` and `updated_at` and nothing else; otherwise it fails with the start error |
| InterviewLaws.CompleteIffInProgress | src/domain/entities/interview.ts:144-162 | `complete` succeeds iff IN_PROGRESS; it then sets COMPLETED and `ended_at` and stores score and feedback verbatim (absent included); the duration is recomputed iff `started_at` is present, otherwise kept |
| InterviewLaws.CancelUnlessCompleted | src/domain/entities/interview.ts:164-171 | `cancel` fails iff COMPLETED; from any other status, CANCELLED included, it sets CANCELLED and `ended_at` |
| InterviewLaws.AddMessageIffInProgress | src/domain/entities/interview.ts:173-194 | `addMessage` succeeds iff IN_PROGRESS; it then appends the message at the end, keeps the status, and the message becomes the last one |
| InterviewLaws.CreateIsPending | src/domain/entities/interview.ts:234-242 | `create` gives PENDING, no messages, the generated id and both timestamps `now`, and keeps the character, company, type, title and description |
| InterviewLaws.HydrateKeepsSupplied | src/domain/entities/interview.ts:55-71 | `fromPersistence` keeps a supplied id and supplied timestamps |
| InterviewLaws.RehydrateRoundTrip | src/domain/entities/interview.ts:244-246 | re-hydrating the persisted props gives the identical interview |
| InterviewLaws.ToJsonInjective | src/domain/entities/interview.ts:249-271 | two interviews with the same serialised form are equal |
| InterviewLaws.MessagesByTypeIsOrderedSelection | src/domain/entities/interview.ts:200-202 | `getMessagesByType` is an order-preserving subsequence holding exactly the messages of that type |
| InterviewLaws.MessagesBySenderIsOrderedSelection | src/domain/entities/interview.ts:204-206 | `getMessagesBySender` is an order-preserving subsequence holding exactly that sender's messages |
| InterviewLaws.ConversationLengthIsSumOfTypes | src/domain/entities/interview.ts:208-215 | the conversation length is the sum of the TEXT, QUESTION and ANSWER counts, and at most the message count |
| InterviewLaws.ConversationLengthBounded | src/domain/entities/interview.ts:208-215 | the same, stated over an interview's own queries |
| InterviewLaws.ConversationLengthAfterMessage | src/domain/entities/interview.ts:208-215 | one added message raises the conversation length by one exactly when it is TEXT, QUESTION or ANSWER |
| InterviewLaws.MessagesAppendInOrder | src/domain/entities/interview.ts:173-194 | a run of `addMessage` calls on an IN_PROGRESS interview appends the messages in call order and changes nothing else but `updated_at`; on another status the first call fails |
| InterviewLaws.StepIsMonotone | src/domain/entities/interview.ts:135-194 | no successful call moves the status back or to PENDING, or removes or rewrites a message; a COMPLETED interview stays COMPLETED |
| InterviewLaws.RunIsMonotone | src/domain/entities/interview.ts:135-194 | the same over any sequence of calls |
| InterviewLaws.CreatedIsCoherent | src/domain/entities/interview.ts:234-242 | a created interview satisfies the timestamp and status invariant `Coherent` |
| InterviewLaws.StepKeepsCoherent | src/domain/entities/interview.ts:135-194 | every successful call keeps `Coherent`, given a clock that does not run back |
| InterviewLaws.CompletedDurationNonNegative | src/domain/entities/interview.ts:155-159 | a coherent COMPLETED interview has a duration, and it is at least 0 |
| InterviewLaws.LifecycleScenarios | src/domain/entities/interview.ts:135-171 | from PENDING: a second start fails; complete before start fails; cancel works before and after start; cancel after complete fails; cancelling twice succeeds |
| InterviewLaws.CompleteScenario | src/domain/entities/interview.ts:144-162 | create, start, then complete with a score and feedback yields COMPLETED with those values, `ended_at` set and a non-negative duration |
| Characters.Character.FromPersistence | src/domain/entities/character.ts:47-59 | the new character holds the supplied props; a missing id is generated and missing timestamps are `now` |
| Characters.Character.Create | src/domain/entities/character.ts:161-165 | the new character has the generated id and both timestamps `now`; it is valid when its name and description are |
| Characters.Character.UpdateName | src/domain/entities/character.ts:107-110 | only the name and `updated_at` change |
| Characters.Character.UpdateDescription | src/domain/entities/character.ts:112-115 | only the description and `updated_at` change |
| Characters.Character.UpdatePersonality | src/domain/entities/character.ts:117-120 | only the personality and `updated_at` change |
| Characters.Character.UpdateAppearance | src/domain/entities/character.ts:122-125 | only the appearance and `updated_at` change |
| Characters.Character.Activate | src/domain/entities/character.ts:127-130 | the flag becomes true whatever it was, and only `updated_at` changes besides |
| Characters.Character.Deactivate | src/domain/entities/character.ts:132-135 | the flag becomes false whatever it was, and only `updated_at` changes besides |
| Characters.CompatibilityRule | src/domain/entities/character.ts:137-142 | a STARTUP character is compatible with every type; any other only with its own type |
| Characters.CompatibilityIsOneWay | src/domain/entities/character.ts:137-142 | STARTUP serves FAANG but FAANG does not serve STARTUP |
| Characters.GreetingsDistinct | src/domain/entities/character.ts:144-158 | every role has a non-empty greeting, and different roles have different greetings |
| Characters.CreateKeepsProps | src/domain/entities/character.ts:161-165 | `create` keeps every supplied field and sets the generated id and both timestamps |
| Characters.RehydrateRoundTrip | src/domain/entities/character.ts:167-169 | re-hydrating the persisted props gives the identical character |
| Characters.ToJsonInjective | src/domain/entities/character.ts:172-186 | two characters with the same serialised form are equal |
| Companies.Company.FromPersistence | src/domain/entities/company.ts:39-50 | the new company holds the supplied props; a missing id is generated and missing timestamps are `now` |
| Companies.Company.Create | src/domain/entities/company.ts:142-146 | the new company has the generated id and both timestamps `now`; it is valid when its name and description are |
| Companies.Company.UpdateName | src/domain/entities/company.ts:94-97 | only the name and `updated_at` change |
| Companies.Company.UpdateDescription | src/domain/entities/company.ts:99-102 | only the description and `updated_at` change |
| Companies.Company.UpdateProfile | src/domain/entities/company.ts:104-107 | only the profile and `updated_at` change |
| Companies.Company.UpdateLogoUrl | src/domain/entities/company.ts:109-112 | only the logo address and `updated_at` change |
| Companies.Company.UpdateWebsiteUrl | src/domain/entities/company.ts:114-117 | only the website address and `updated_at` change |
| Companies.Company.Activate | src/domain/entities/company.ts:119-122 | the flag becomes true whatever it was, and only `updated_at` changes besides |
| Companies.Company.Deactivate | src/domain/entities/company.ts:124-127 | the flag becomes false whatever it was, and only `updated_at` changes besides |
| Companies.ContextsDistinct | src/domain/entities/company.ts:129-139 | every company type has a non-empty pitch, and different types have different pitches |
| Companies.CreateKeepsProps | src/domain/entities/company.ts:142-146 | `create` keeps every supplied field; logo and website stay absent when not given |
| Companies.RehydrateRoundTrip | src/domain/entities/company.ts:148-150 | re-hydrating the persisted props gives the identical company |
| Companies.ToJsonInjective | src/domain/entities/company.ts:153-166 | two companies with the same serialised form are equal |
| CharacterRepositories.SelectSpec | src/infrastructure/repositories/in-memory-character-repository.ts:20-24 | one `filter` call keeps exactly the characters that pass, in their order, each as often as it is stored |
| CharacterRepositories.SelectCounts | src/infrastructure/repositories/in-memory-character-repository.ts:20-24 | a `filter` call keeps every stored copy of a passing character and no copy of a failing one |
| CharacterRepositories.FindAllMeaning | src/infrastructure/repositories/in-memory-character-repository.ts:17-45 | the four filter steps leave exactly the admitted characters, as an order-preserving subsequence holding each as often as it is stored |
| CharacterRepositories.PositionIn | src/infrastructure/repositories/in-memory-character-repository.ts:68 | `findIndex` gives the first index holding the id, and none exactly when no entry has it |
| CharacterRepositories.FindIn | src/infrastructure/repositories/in-memory-character-repository.ts:12-15 | `find` gives the first stored character with the id, or null exactly when there is none |
| CharacterRepositories.CharacterRepository.constructor | src/infrastructure/repositories/in-memory-character-repository.ts:10 | a new repository is empty |
| CharacterRepositories.CharacterRepository.FindById | src/infrastructure/repositories/in-memory-character-repository.ts:12-15 | the stored reference `find` returns |
| CharacterRepositories.CharacterRepository.FindAll | src/infrastructure/repositories/in-memory-character-repository.ts:17-45 | the result is the four filter steps applied to the stored list: an order-preserving subsequence holding exactly the characters every set filter admits, each as often as it is stored |
| CharacterRepositories.CharacterRepository.FindByRole | src/infrastructure/repositories/in-memory-character-repository.ts:47-49 | exactly the characters of that role, in order, each as often as it is stored |
| CharacterRepositories.CharacterRepository.FindByCompanyType | src/infrastructure/repositories/in-memory-character-repository.ts:51-56 | exactly the characters of that type or STARTUP, in order, each as often as it is stored |
| CharacterRepositories.CharacterRepository.FindActiveCharacters | src/infrastructure/repositories/in-memory-character-repository.ts:58-60 | exactly the active characters, in order, each as often as it is stored |
| CharacterRepositories.CharacterRepository.Save | src/infrastructure/repositories/in-memory-character-repository.ts:62-65 | appends the character with no duplicate check and returns it |
| CharacterRepositories.CharacterRepository.Update | src/infrastructure/repositories/in-memory-character-repository.ts:67-74 | replaces the entry at the first index with the same id; fails with "Character not found" and changes nothing when there is none |
| CharacterRepositories.CharacterRepository.Delete | src/infrastructure/repositories/in-memory-character-repository.ts:76-83 | removes the entry at the first index with the id and returns true; otherwise returns false and changes nothing |
| CharacterRepositories.CharacterRepository.Exists | src/infrastructure/repositories/in-memory-character-repository.ts:85-87 | holds iff `findById` finds a character |
| CharacterRepositories.CharacterRepository.Seed | src/infrastructure/repositories/in-memory-character-repository.ts:90-92 | the contents become the given list |
| CharacterRepositories.CharacterRepository.Clear | src/infrastructure/repositories/in-memory-character-repository.ts:95-97 | the contents become empty |
| CharacterRepositories.FindAfterSave | src/infrastructure/repositories/in-memory-character-repository.ts:62-65 | after `save`, an earlier character with the same id is still the one found; otherwise the saved one is |
| CharacterRepositories.FindAfterUpdate | src/infrastructure/repositories/in-memory-character-repository.ts:67-74 | after a successful `update`, its id finds the new character and every other id finds what it found before |
| CharacterRepositories.DeleteRemovesOne | src/infrastructure/repositories/in-memory-character-repository.ts:76-83 | a successful `delete` removes exactly one entry, the found one |
| CharacterRepositories.NoFiltersReturnAll | src/infrastructure/repositories/in-memory-character-repository.ts:17-45 | with no filters `findAll` returns the stored list itself |
| CharacterRepositories.FindersAreFilters | src/infrastructure/repositories/in-memory-character-repository.ts:47-60 | `findByRole` and `findActiveCharacters` return the same sequence as `findAll` with that one filter set; `findByCompanyType` is no `findAll`, as it also lets STARTUP characters through |
| CompanyRepositories.SelectSpec | src/infrastructure/repositories/in-memory-company-repository.ts:35-37 | one `filter` call keeps exactly the companies that pass, in their order, each as often as it is stored |
| CompanyRepositories.SelectCounts | src/infrastructure/repositories/in-memory-company-repository.ts:35-37 | a `filter` call keeps every stored copy of a passing company and no copy of a failing one |
| CompanyRepositories.FindAllMeaning | src/infrastructure/repositories/in-memory-company-repository.ts:17-33 | both filter steps leave exactly the admitted companies, in their order, each as often as it is stored |
| CompanyRepositories.PositionIn | src/infrastructure/repositories/in-memory-company-repository.ts:49 | `findIndex` gives the first index holding the id, and none exactly when no entry has it |
| CompanyRepositories.FindIn | src/infrastructure/repositories/in-memory-company-repository.ts:12-15 | `find` gives the first stored company with the id, or null exactly when there is none |
| CompanyRepositories.CompanyRepository.constructor | src/infrastructure/repositories/in-memory-company-repository.ts:10 | a new repository is empty |
| CompanyRepositories.CompanyRepository.FindById | src/infrastructure/repositories/in-memory-company-repository.ts:12-15 | the stored reference `find` returns |
| CompanyRepositories.CompanyRepository.FindAll | src/infrastructure/repositories/in-memory-company-repository.ts:17-33 | the result is the type step then the active step applied to the stored list: an order-preserving subsequence holding exactly the admitted companies, each as often as it is stored |
| CompanyRepositories.CompanyRepository.FindByType | src/infrastructure/repositories/in-memory-company-repository.ts:35-37 | exactly the companies of that type, in order, each as often as it is stored |
| CompanyRepositories.CompanyRepository.FindActiveCompanies | src/infrastructure/repositories/in-memory-company-repository.ts:39-41 | exactly the active companies, in order, each as often as it is stored |
| CompanyRepositories.CompanyRepository.Save | src/infrastructure/repositories/in-memory-company-repository.ts:43-46 | appends with no duplicate check and returns the company |
| CompanyRepositories.CompanyRepository.Update | src/infrastructure/repositories/in-memory-company-repository.ts:48-55 | replaces the first entry with the same id; fails with "Company not found" and changes nothing when there is none |
| CompanyRepositories.CompanyRepository.Delete | src/infrastructure/repositories/in-memory-company-repository.ts:57-64 | removes the first entry with the id and returns true; otherwise returns false and changes nothing |
| CompanyRepositories.CompanyRepository.Exists | src/infrastructure/repositories/in-memory-company-repository.ts:66-68 | holds iff `findById` finds a company |
| CompanyRepositories.CompanyRepository.Seed | src/infrastructure/repositories/in-memory-company-repository.ts:71-73 | the contents become the given list |
| CompanyRepositories.CompanyRepository.Clear | src/infrastructure/repositories/in-memory-company-repository.ts:76-78 | the contents become empty |
| CompanyRepositories.FindAfterSave | src/infrastructure/repositories/in-memory-company-repository.ts:43-46 | after `save`, an earlier company with the same id is still the one found |
| CompanyRepositories.FindAfterUpdate | src/infrastructure/repositories/in-memory-company-repository.ts:48-55 | after a successful `update`, its id finds the new company and other ids are unaffected |
| CompanyRepositories.DeleteRemovesOne | src/infrastructure/repositories/in-memory-company-repository.ts:57-64 | a successful `delete` removes exactly one entry, the found one |
| CompanyRepositories.FindersAreFilters | src/infrastructure/repositories/in-memory-company-repository.ts:35-41 | `findByType` and `findActiveCompanies` return the same sequence as `findAll` with that one filter set |
| CompanyRepositories.NoFiltersReturnAll | src/infrastructure/repositories/in-memory-company-repository.ts:17-33 | with no filters `findAll` returns the stored list itself |
| InterviewRepositories.SelectSpec | src/infrastructure/repositories/in-memory-interview-repository.ts:70-72 | one `filter` call keeps exactly the interviews that pass, in their order, each as often as it is stored |
| InterviewRepositories.SelectCounts | src/infrastructure/repositories/in-memory-interview-repository.ts:70-72 | a `filter` call keeps every stored copy of a passing interview and no copy of a failing one |
| InterviewRepositories.FindAllMeaning | src/infrastructure/repositories/in-memory-interview-repository.ts:20-60 | the six filter steps leave exactly the admitted interviews, as an order-preserving subsequence holding each as often as it is stored |
| InterviewRepositories.PositionIn | src/infrastructure/repositories/in-memory-interview-repository.ts:92 | `findIndex` gives the first index holding the id, and none exactly when no entry has it |
| InterviewRepositories.FindIn | src/infrastructure/repositories/in-memory-interview-repository.ts:15-18 | `find` gives the first stored interview with the id, or null exactly when there is none |
| InterviewRepositories.InterviewRepository.constructor | src/infrastructure/repositories/in-memory-interview-repository.ts:13 | a new repository is empty |
| InterviewRepositories.InterviewRepository.FindById | src/infrastructure/repositories/in-memory-interview-repository.ts:15-18 | the stored reference `find` returns |
| InterviewRepositories.InterviewRepository.FindAll | src/infrastructure/repositories/in-memory-interview-repository.ts:20-60 | the result is the six filter steps applied to the stored list: an order-preserving subsequence holding exactly the interviews every set filter admits, each as often as it is stored; a start bound excludes interviews that have not started |
| InterviewRepositories.InterviewRepository.FindByCharacterId | src/infrastructure/repositories/in-memory-interview-repository.ts:62-64 | exactly the interviews of that character, in order, each as often as it is stored |
| InterviewRepositories.InterviewRepository.FindByCompanyId | src/infrastructure/repositories/in-memory-interview-repository.ts:66-68 | exactly the interviews of that company, in order, each as often as it is stored |
| InterviewRepositories.InterviewRepository.FindByStatus | src/infrastructure/repositories/in-memory-interview-repository.ts:70-72 | exactly the interviews with that status, in order, each as often as it is stored |
| InterviewRepositories.InterviewRepository.FindActiveInterviews | src/infrastructure/repositories/in-memory-interview-repository.ts:74-78 | equals `findByStatus(IN_PROGRESS)`; every result is active |
| InterviewRepositories.InterviewRepository.FindCompletedInterviews | src/infrastructure/repositories/in-memory-interview-repository.ts:80-84 | equals `findByStatus(COMPLETED)`; every result is completed |
| InterviewRepositories.InterviewRepository.Save | src/infrastructure/repositories/in-memory-interview-repository.ts:86-89 | appends with no duplicate check and returns the interview |
| InterviewRepositories.InterviewRepository.Update | src/infrastructure/repositories/in-memory-interview-repository.ts:91-98 | replaces the first entry with the same id; fails with "Interview not found" and changes nothing when there is none |
| InterviewRepositories.InterviewRepository.Delete | src/infrastructure/repositories/in-memory-interview-repository.ts:100-107 | removes the first entry with the id and returns true; otherwise returns false and changes nothing |
| InterviewRepositories.InterviewRepository.Exists | src/infrastructure/repositories/in-memory-interview-repository.ts:109-111 | holds iff `findById` finds an interview |
| InterviewRepositories.InterviewRepository.Seed | src/infrastructure/repositories/in-memory-interview-repository.ts:114-116 | the contents become the given list |
| InterviewRepositories.InterviewRepository.Clear | src/infrastructure/repositories/in-memory-interview-repository.ts:119-121 | the contents become empty |
| InterviewRepositories.FindAfterSave | src/infrastructure/repositories/in-memory-interview-repository.ts:86-89 | after `save`, an earlier interview with the same id is still the one found |
| InterviewRepositories.FindAfterUpdate | src/infrastructure/repositories/in-memory-interview-repository.ts:91-98 | after a successful `update`, its id finds the new interview and other ids are unaffected |
| InterviewRepositories.UpdateWithFoundIsIdentity | src/infrastructure/repositories/in-memory-interview-repository.ts:15-18 | writing back the very reference `findById` returned leaves the stored list as it was |
| InterviewRepositories.DeleteRemovesOne | src/infrastructure/repositories/in-memory-interview-repository.ts:100-107 | a successful `delete` removes exactly one entry, the found one |
| InterviewRepositories.FindersAreFilters | src/infrastructure/repositories/in-memory-interview-repository.ts:62-72 | `findByCharacterId`, `findByCompanyId` and `findByStatus` return the same sequence as `findAll` with that one filter set |
| InterviewRepositories.NoFiltersReturnAll | src/infrastructure/repositories/in-memory-interview-repository.ts:20-60 | with no filters `findAll` returns the stored list itself |
| InterviewRepositories.StartBoundsNeedStart | src/infrastructure/repositories/in-memory-interview-repository.ts:47-57 | with `started_after` or `started_before` given, an interview without `started_at` is never admitted |
| InterviewManagement.CreateInterviewUseCase.constructor | src/application/use-cases/interview-management.ts:40-44 | the use case keeps the three repositories it is given |
| InterviewManagement.CreateInterviewUseCase.Validate | src/application/use-cases/interview-management.ts:47-65 | the id parsing and the three lookups-and-checks, taken in the source's order, reach exactly the failure or the pending props that `CreateOutcome` decides |
| InterviewManagement.CreateInterviewUseCase.Execute | src/application/use-cases/interview-management.ts:46-78 | on the failure `CreateOutcome` names, nothing is saved; otherwise exactly one fresh interview, built by `create` from the decided props, is appended and returned |
| InterviewManagement.CreateSucceedsIff | src/application/use-cases/interview-management.ts:47-65 | creation succeeds iff both ids are non-blank, the character and the company are stored and active, and the character serves the company's type; the checks run in order: a blank id gives the empty-id error, then a missing or inactive character gives "Character not found or inactive", then, with the character fine, a missing or inactive company gives "Company not found or inactive", and with both fine an incompatible pair gives the compatibility error |
| InterviewManagement.CreatedInterview | src/application/use-cases/interview-management.ts:67-75 | the props handed to `create` are PENDING, empty, carry the given ids verbatim and type, title and description, and record nothing else |
| InterviewManagement.StartInterviewUseCase.constructor | src/application/use-cases/interview-management.ts:82-85 | the use case keeps the repositories it is given |
| InterviewManagement.StartInterviewUseCase.Execute | src/application/use-cases/interview-management.ts:87-112 | a blank id or a missing interview fails; otherwise the found interview ends in the state `StartedWithGreeting` gives (unchanged on failure), the stored list is unchanged, and no other interview changes |
| InterviewManagement.StartIffPendingWithGreeting | src/application/use-cases/interview-management.ts:95-109 | starting succeeds iff PENDING; then IN_PROGRESS, and exactly one AI TEXT greeting marked `is_greeting: true` is appended when the character is stored, none otherwise |
| InterviewManagement.GreetingIsByRole | src/application/use-cases/interview-management.ts:98-102 | a greeting exists iff the interview's character is stored, and it is the greeting of that character's role |
| InterviewManagement.FirstMessageIsGreeting | src/application/use-cases/interview-management.ts:95-109 | a freshly created interview, once started with its character stored, holds just the greeting |
| InterviewManagement.SendMessageUseCase.constructor | src/application/use-cases/interview-management.ts:116 | the use case keeps the repository it is given |
| InterviewManagement.SendMessageUseCase.Execute | src/application/use-cases/interview-management.ts:118-138 | a blank id or a missing interview fails; otherwise the found interview ends in the state `Sent` gives, the stored list is unchanged, and no other interview changes |
| InterviewManagement.SendOnlyWhileActive | src/application/use-cases/interview-management.ts:126-135 | sending succeeds iff IN_PROGRESS, fails with "Interview is not active" otherwise; success appends exactly the one message |
| InterviewManagement.CompleteInterviewUseCase.constructor | src/application/use-cases/interview-management.ts:142 | the use case keeps the repository it is given |
| InterviewManagement.CompleteInterviewUseCase.Execute | src/application/use-cases/interview-management.ts:144-155 | a blank id or a missing interview fails; otherwise the effect is exactly that of `complete` on the found interview |
| InterviewManagement.GetInterviewUseCase.constructor | src/application/use-cases/interview-management.ts:159 | the use case keeps the repository it is given |
| InterviewManagement.GetInterviewUseCase.Execute | src/application/use-cases/interview-management.ts:161-164 | fails exactly on a blank id; otherwise returns the `findById` result, absence included |
| InterviewManagement.GetActiveInterviewsUseCase.constructor | src/application/use-cases/interview-management.ts:168 | the use case keeps the repository it is given |
| InterviewManagement.GetActiveInterviewsUseCase.Execute | src/application/use-cases/interview-management.ts:170-172 | returns the repository's `findActiveInterviews()` sequence itself: the stored IN_PROGRESS interviews, in stored order |
| InterviewManagement.TargetIsFound | src/application/use-cases/interview-management.ts:88-89 | a use case may change at most one interview, the stored one with the given id |
| CharacterQueries.QueryMeaning | src/application/use-cases/get-characters.ts:20-29 | a query admits a character iff each given field matches; `active_only` true or false requires that exact flag |
| CharacterQueries.ActiveOnlyFalseSelectsInactive | src/application/use-cases/get-characters.ts:21-26 | `active_only: false` admits only inactive characters |
| CharacterQueries.EmptyQueryAdmitsAll | src/application/use-cases/get-characters.ts:20 | the empty query admits every character |
| CharacterQueries.GetCharactersUseCase.constructor | src/application/use-cases/get-characters.ts:18 | the use case keeps the repository it is given |
| CharacterQueries.GetCharactersUseCase.Execute | src/application/use-cases/get-characters.ts:20-29 | the result is `findAll` on the query's filters: an order-preserving subsequence holding exactly the characters the query admits, each as often as it is stored |
| CharacterQueries.GetCharacterByIdUseCase.constructor | src/application/use-cases/get-characters.ts:33 | the use case keeps the repository it is given |
| CharacterQueries.GetCharacterByIdUseCase.Execute | src/application/use-cases/get-characters.ts:35-38 | fails exactly on a blank id; otherwise returns the `findById` result |
| CharacterQueries.GetCharactersByRoleUseCase.constructor | src/application/use-cases/get-characters.ts:42 | the use case keeps the repository it is given |
| CharacterQueries.GetCharactersByRoleUseCase.Execute | src/application/use-cases/get-characters.ts:44-46 | returns the repository's `findByRole(role)` sequence itself |
| CharacterQueries.GetCharactersByCompanyTypeUseCase.constructor | src/application/use-cases/get-characters.ts:50 | the use case keeps the repository it is given |
| CharacterQueries.GetCharactersByCompanyTypeUseCase.Execute | src/application/use-cases/get-characters.ts:52-54 | returns the repository's `findByCompanyType(type)` sequence itself: the characters compatible with that type, STARTUP ones included |
| CharacterQueries.GetActiveCharactersUseCase.constructor | src/application/use-cases/get-characters.ts:58 | the use case keeps the repository it is given |
| CharacterQueries.GetActiveCharactersUseCase.Execute | src/application/use-cases/get-characters.ts:60-62 | returns the repository's `findActiveCharacters()` sequence itself |

## Left out

- Asynchrony: repository and use-case calls are modelled as synchronous calls returning their values.
- Clock: every `new Date()` call in one operation is the single parameter `now`. `start`, `complete`, `cancel` and `addMessage` each read the clock twice (src/domain/entities/interview.ts:140-141, 151 and 161, 169-170, 188 and 193). Starting an interview through `StartInterviewUseCase` reads it four times, in `start` and in the greeting's `addMessage` (src/application/use-cases/interview-management.ts:95-102). The model gives the greeting the same instant as `started_at`, and does not capture the gaps between any of these readings.
- Ids: `uuidv4` is not modelled. Generated ids are parameters, and nothing assumes they are unique.
- Timestamps are integers counting milliseconds. `toJSON`'s ISO-8601 text is not produced; the serialised forms keep the integers.
- Score: modelled as an integer. The source's JS number is stored and never computed on.
- `metadata`, personality, appearance and profile are opaque records: a map of flag, number and string values, and plain datatypes.
- `Url` is not part of this model. Its check delegates to the platform URL parser.
- Text: string length counts characters, not UTF-16 code units, and `toLowerCase` lower-cases only ASCII letters.
- White space: `trim` and `\s` use the ECMAScript white-space and line-terminator set.
- `TypeError` paths are not modelled. These are the source throwing on `undefined` inputs that its TypeScript types forbid, such as a missing name.
- The repository interfaces under src/domain/repositories/ carry no behaviour; the classes stand alone.
- The presentation stores, the composables, the chat store, the application-service composition root, the seed data and the framework configuration are not part of this model.
- Interviews.Interview.FromPersistence: the source keeps the caller's `messages` array itself (src/domain/entities/interview.ts:63), so a later `addMessage` also grows the caller's array, and a `push` by the caller grows the transcript without the IN_PROGRESS check. The model copies the transcript as a value and captures neither direction of that sharing; no code in the core keeps a props array after passing it in.
- Interviews.Interview.Create: the source's `create` spreads whatever object it is given, so an `id` or timestamp smuggled past the TypeScript type would survive. The model follows the type, which omits them.
- Characters.Character.Create: same reading of the `Omit<…>` parameter type as for interviews.
- Companies.Company.Create: same reading of the `Omit<…>` parameter type as for interviews.
