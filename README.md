# talent-flow backend core, in Dafny

talent-flow is a recruiting front end that runs against a simulated backend
inside the browser. This project models that backend:

- **Seed generator.** It builds 25 jobs, 1000 candidates with their notes
  and timeline events, and 3 assessments for three different jobs. Each
  assessment has 2–4 sections of 3–7 questions.
- **IndexedDB store.** Six tables keyed by record id. `seedData` writes the
  generated dataset once, only while the jobs, candidates and assessments
  tables are all empty, in a single all-or-nothing transaction. The store can
  also be cleared, exported and imported.
- **`DataPersistenceService` facade.** It seeds once per service, lists
  tables, answers look-ups by candidate and by job, and upserts single
  records.
- **Mock HTTP handlers.**
  - The list routes search, filter and paginate.
  - The create and update routes for jobs and candidates write through the
    facade.
  - The assessment, submission and reorder routes build a reply and store
    nothing.

Sources of nondeterminism become inputs:
- `Math.random()` draws, `crypto.randomUUID()` ids, faker's numbers and
  faker's words are streams held by the class `SeedUtils.Entropy`. Its
  methods consume them in the order the generator's code does. The uuid
  stream never repeats.
- The handlers take their single error draw, their fresh id and the
  current time as parameters.
- A transaction failure the environment might raise is the `aborts` flag.

Timestamps are integers, not ISO strings. One `now` stands for every clock
reading during one generator run or one request.

Modules (one per file, in dependency order):
- `Wrappers`: `Option` and `Result`.
- `Text`: `toLowerCase`, the `\s` whitespace class, and the slug and
  hyphenation regular expressions. `includes` is `Contains`.
- `Lists`: `filter`, `find`, and the concatenation of per-parent blocks.
- `Entities`: the record types.
- `SeedUtils`: `seedData/utils.ts` and the `Entropy` streams.
- `JobSeed`, `CandidateSeed` and `AssessmentSeed`: the three generators.
- `Seed`: `generateSeedData`.
- `Tables`: one Dexie table as a map from id to record, with `put`,
  `bulkPut`, `bulkAdd` and `toArray`.
- `Database`: `TalentFlowDB` and `dbUtils`.
- `Persistence`: `DataPersistenceService`.
- `Handlers`: the MSW routes.

The generators take their word lists as a catalog parameter.
`Seed.GenerateSeedData` passes the lists the source defines. The lemmas
`JobSeed.JobCatalogUsable` and `AssessmentSeed.AssessmentCatalogUsable`
show that those lists meet what the generators need.

Where the written description of the system and the code disagree, the model
follows the code:
- **Job slugs can repeat.** Job titles are drawn with replacement from 25
  titles, so two seeded jobs can share a title and its slug. Nothing promises
  unique slugs.
- **A request body can override the generated `id`.** `POST /jobs` and
  `POST /candidates` spread the body after the defaults, so a body `id`,
  `status`, `order`, `slug` or `stage` wins. Only the timestamps are forced.
- **Default job slug.** `POST /jobs` builds it with `toLowerCase` and
  whitespace-to-hyphen only. It does not use `generateSlug`, so punctuation
  survives.
- **Nothing is persisted by three routes.** `PUT /assessments/:jobId` and
  `POST /assessments/:jobId/submit` reply without writing to the store. The
  reorder route changes no job's order.
- **The path `jobId` can be overridden.** In the assessment and submission
  replies, a `jobId` carried by the body replaces the one from the path.
- **No error injection on reads.** The GET routes have none.
- **Pages below 1 follow `Array.prototype.slice`.** Page 0 is empty.
  Negative pages count back from the end of the filtered list. The count
  formula `min(S, max(0, T-(k-1)*S))` holds for pages from 1 on.

## Model

| member | source | states |
|---|---|---|
| Text.LowerIdempotent | src/features/shared/services/seedData/utils.ts:24 | lower-casing an already lower-cased string changes nothing |
| Text.CollapseLeavesNoSpace | src/features/shared/services/seedData/utils.ts:25 | after `replace(/\s+/g, "-")` no whitespace character is left |
| Text.CollapseOfNoSpace | src/features/shared/services/seedData/utils.ts:25 | a string without whitespace passes the replacement unchanged |
| Text.CollapseRun | src/features/shared/services/seedData/utils.ts:25 | a maximal whitespace run between non-space text becomes exactly one hyphen |
| Text.CollapsePreservesNoUpper | src/features/shared/services/seedData/utils.ts:24-25 | the replacement adds no upper-case letter to a lower-cased string |
| Text.KeepSlugCharsSound | src/features/shared/services/seedData/utils.ts:26 | only characters in [a-z0-9-] remain, each taken from the input |
| Text.KeepSlugCharsOfSlug | src/features/shared/services/seedData/utils.ts:26 | a string made only of slug characters is kept whole |
| Text.Hyphenate | src/features/shared/services/seedData/assessments.ts:102 | `toLowerCase().replace(/\s+/g, "-")` yields no whitespace and no upper-case letter |
| Text.LowerKeepsContains | src/features/shared/services/msw/handlers.ts:40 | an occurrence of `sub` in `s` is an occurrence of lower-case `sub` in lower-case `s` |
| Lists.FilterMembership | src/features/shared/services/msw/handlers.ts:38-43 | `filter` keeps an element exactly when it is in the input and satisfies the predicate |
| Lists.FilterAppend | src/features/shared/services/msw/handlers.ts:38-43 | `filter` keeps the input's order: it distributes over concatenation |
| Lists.FilterKeepsAll | src/features/shared/services/msw/handlers.ts:38-43 | a predicate every element satisfies keeps the whole list |
| Lists.FilterMultiset | src/features/shared/services/msw/handlers.ts:161-168 | `filter` never duplicates an element |
| Lists.Find | src/features/shared/services/msw/handlers.ts:108 | `find` returns the first element satisfying the predicate (every earlier one fails it), and nothing exactly when no element does |
| SeedUtils.Scale | src/features/shared/services/seedData/utils.ts:13 | `Math.floor(Math.random() * n)` is an index below `n` |
| SeedUtils.RandomPick | src/features/shared/services/seedData/utils.ts:12-13 | `randomPick` returns an element of the array |
| SeedUtils.RandomShuffle | src/features/shared/services/seedData/utils.ts:17 | sorting with the random comparator permutes the copy |
| SeedUtils.RandomPickMultiple | src/features/shared/services/seedData/utils.ts:16-19 | `randomPickMultiple` returns `min(count, length)` elements drawn from the array without repetition of positions |
| SeedUtils.PickMultipleDistinct | src/features/shared/services/seedData/utils.ts:16-19 | picks from a duplicate-free array never repeat |
| SeedUtils.GenerateSlug | src/features/shared/services/seedData/utils.ts:22-27 | a slug consists only of [a-z0-9-] |
| SeedUtils.GenerateSlugIdempotent | src/features/shared/services/seedData/utils.ts:22-27 | slugging a slug changes nothing |
| SeedUtils.GenerateEmail | src/features/shared/services/seedData/utils.ts:35-51 | the address is `first.last@domain`, lower-cased, for one of the ten listed domains |
| SeedUtils.FakerInt | src/features/shared/services/seedData/utils.ts:55-56 | `faker.number.int({min, max})` lies in [min, max] |
| SeedUtils.RandomDate | src/features/shared/services/seedData/utils.ts:7-9 | `randomDate(start, end)` lies in [start, end] |
| SeedUtils.GenerateSalaryRange | src/features/shared/services/seedData/utils.ts:54-63 | the minimum lies in [50000, 150000], the maximum 10000 to 100000 above it, in USD |
| SeedUtils.Entropy.PickMultiple | src/features/shared/services/seedData/utils.ts:16-19 | consumes the comparator's draws and returns `randomPickMultiple`'s picks |
| SeedUtils.Entropy.GenerateId | src/features/shared/services/seedData/utils.ts:4 | hands out the next uuid of the stream |
| SeedUtils.Entropy.Date | src/features/shared/services/seedData/utils.ts:7-9 | consumes one faker draw and returns a date in range |
| SeedUtils.Entropy.SalaryRange | src/features/shared/services/seedData/utils.ts:54-63 | consumes two faker draws and returns a salary range in bounds |
| SeedUtils.DrawnDistinct | src/features/shared/services/seedData/utils.ts:4 | uuids drawn at distinct stream positions are distinct |
| JobSeed.JobCatalogUsable | src/features/shared/services/seedData/jobs.ts:12-109 | every list is non-empty, and the 23 tags are distinct and enough for the largest tag draw of 6 |
| JobSeed.InsertByOrderSorted | src/features/shared/services/seedData/jobs.ts:140 | inserting into a list sorted by `order` keeps it sorted |
| JobSeed.InsertByOrderMembers | src/features/shared/services/seedData/jobs.ts:140 | an insertion step adds the inserted job and no other record |
| JobSeed.SortByOrder | src/features/shared/services/seedData/jobs.ts:140 | `sort((a, b) => a.order - b.order)` returns a permutation sorted by `order` |
| JobSeed.SortByOrderOfSorted | src/features/shared/services/seedData/jobs.ts:140 | the stable sort leaves a list already in order unchanged |
| JobSeed.ConsecutiveOrdersSorted | src/features/shared/services/seedData/jobs.ts:130-140 | jobs numbered 1, 2, 3, … in list order come out of the sort exactly as they went in |
| JobSeed.PickTags | src/features/shared/services/seedData/jobs.ts:129 | a job gets 2 to 6 distinct tags from the tag list |
| JobSeed.GenerateJob | src/features/shared/services/seedData/jobs.ts:119-137 | the job at index i has order i+1, a listed title with its slug, dates with yearAgo ≤ created ≤ updated ≤ now, listed description, requirements and location, any salary in range, and the next uuid |
| JobSeed.GenerateJobs | src/features/shared/services/seedData/jobs.ts:112-141 | 25 jobs in order 1..25, each as generated above, with pairwise distinct ids |
| CandidateSeed.GenerateCandidate | src/features/shared/services/seedData/candidates.ts:26-57 | name is "first last" of two faker names, the e-mail and the resume, LinkedIn and portfolio URLs are built from them, the job is one of the jobs, dates lie within the past year, and the id is the next uuid |
| CandidateSeed.DrawContacts | src/features/shared/services/seedData/candidates.ts:40-54 | a resume, LinkedIn or portfolio link, when drawn, is its URL built from the lower-cased first and last name |
| CandidateSeed.GenerateCandidates | src/features/shared/services/seedData/candidates.ts:20-61 | 1000 candidates, each applying to a generated job, with pairwise distinct ids |
| CandidateSeed.NotesFor | src/features/shared/services/seedData/candidates.ts:90-102 | 0 to 2 notes about the candidate, dated between its creation and now, with listed content and author, and at most one listed mention |
| CandidateSeed.GenerateNote | src/features/shared/services/seedData/candidates.ts:92-101 | one note about the candidate with a fresh id, dated between its creation and now, listed content and author, at most one listed mention |
| CandidateSeed.GenerateCandidateNotes | src/features/shared/services/seedData/candidates.ts:64-106 | the notes are the candidates' blocks in candidate order, each note refers to a candidate, and ids are pairwise distinct |
| CandidateSeed.GenerateEvent | src/features/shared/services/seedData/candidates.ts:130-143 | an event of the candidate with a listed type and description, dated after the candidate, leading to its current stage, with a previous stage exactly when it is not the first |
| CandidateSeed.EventsFor | src/features/shared/services/seedData/candidates.ts:128-144 | one candidate's history has 1 to 5 such events, with ids drawn at increasing stream positions |
| CandidateSeed.IdsDrawnAppend | src/features/shared/services/seedData/candidates.ts:127-145 | histories drawn one after another keep increasing draw positions |
| CandidateSeed.DrawnIdsDistinct | src/features/shared/services/seedData/candidates.ts:132 | event ids drawn at distinct positions are distinct |
| CandidateSeed.GenerateCandidateTimelineEvents | src/features/shared/services/seedData/candidates.ts:109-148 | the events are the candidates' histories in candidate order, each refers to a candidate, and ids are pairwise distinct |
| AssessmentSeed.AssessmentCatalogUsable | src/features/shared/services/seedData/assessments.ts:10-42 | every list is non-empty and every option set has 4 or 5 captions |
| AssessmentSeed.BuildOptions | src/features/shared/services/seedData/assessments.ts:99-104 | options carry the captions in order, valued by the hyphenated caption, numbered from 1, with fresh, pairwise distinct ids |
| AssessmentSeed.DrawValidation | src/features/shared/services/seedData/assessments.ts:81-97 | numeric questions get min 0..9 and max 50..149, short text 10..200 characters, long text 50..1000, the others none |
| AssessmentSeed.DrawPrompt | src/features/shared/services/seedData/assessments.ts:78-80 | a question gets a description, the next word, exactly when its first draw is below 0.5, and is required exactly when its second draw is below 0.8 |
| AssessmentSeed.DrawOptions | src/features/shared/services/seedData/assessments.ts:98-105 | options exist exactly for the choice types, come from one listed option set and have distinct ids |
| AssessmentSeed.GenerateQuestion | src/features/shared/services/seedData/assessments.ts:62-110 | a question of a generated type (never file upload) with a listed title, its order, a fitting validation and options with distinct ids, stamped now |
| AssessmentSeed.WithSectionId | src/features/shared/services/seedData/assessments.ts:120 | every question gets the section's id and nothing else changes |
| AssessmentSeed.GenerateSection | src/features/shared/services/seedData/assessments.ts:54-125 | a section has 3 to 7 questions numbered from 1 that all point to it |
| AssessmentSeed.WithAssessmentId | src/features/shared/services/seedData/assessments.ts:134 | every section gets the assessment's id and nothing else changes |
| AssessmentSeed.GenerateAssessment | src/features/shared/services/seedData/assessments.ts:50-140 | an assessment for the job with a listed title and 2 to 4 sections numbered from 1 that all point to it |
| AssessmentSeed.SelectJobs | src/features/shared/services/seedData/assessments.ts:47 | `min(3, jobs)` jobs, drawn from the list without repetition |
| AssessmentSeed.AttachNext | src/features/shared/services/seedData/assessments.ts:49-141 | one turn of the `forEach` appends the next selected job's assessment, with an id drawn after all earlier ones |
| AssessmentSeed.GenerateAssessments | src/features/shared/services/seedData/assessments.ts:45-144 | one assessment per selected job, in order, each as generated above, with pairwise distinct ids |
| AssessmentSeed.AllSeededAt | src/features/shared/services/seedData/assessments.ts:45-144 | every assessment of a generated list has the generator's shape: title, 2 to 4 sections, 3 to 7 questions each |
| Seed.OneAssessmentPerJob | src/features/shared/services/seedData/assessments.ts:47-49 | the assessments refer to generated jobs, and never two to the same job |
| Seed.GenerateFrom | src/features/shared/services/seedData/index.ts:10-34 | 25 jobs, 1000 candidates and 3 assessments; every foreign key names a generated parent; ids are unique per collection; no two assessments share a job |
| Seed.GenerateSeedData | src/features/shared/services/seedData/index.ts:10-34 | the same, for the generators' own word lists |
| Seed.SourceJobCatalog | src/features/shared/services/seedData/jobs.ts:12-109 | the word lists jobs.ts defines meet what the job generator needs |
| Seed.SourceAssessmentCatalog | src/features/shared/services/seedData/assessments.ts:10-42 | the word lists assessments.ts defines meet what the assessment generator needs |
| Tables.Put | src/features/shared/services/dataPersistence.ts:70-72 | `put` stores the record under its key and leaves every other key as it was |
| Tables.PutKeepsKeyed | src/features/shared/services/dataPersistence.ts:70-94 | after a `put` every record is still stored under its own id |
| Tables.BulkPut | src/features/shared/services/database.ts:146-154 | `bulkPut` adds exactly the batch's keys and leaves the others as they were |
| Tables.BulkPutLastWins | src/features/shared/services/database.ts:146-154 | a key holds the last record of the batch written under it |
| Tables.BulkPutKeepsKeyed | src/features/shared/services/database.ts:146-154 | after a `bulkPut` every record is still stored under its own id |
| Tables.BulkPutUniqueStoresAll | src/features/shared/services/database.ts:146-154 | a batch without repeated keys is stored whole |
| Tables.BulkAdd | src/features/shared/services/database.ts:94-100 | `bulkAdd` succeeds exactly when no key repeats or already exists, and then adds the batch and keeps the rest |
| Tables.AddToEmpty | src/features/shared/services/database.ts:94-100 | adding to an empty table yields exactly the batch |
| Tables.ToArray | src/features/shared/services/database.ts:118-123 | `toArray` lists every stored record, one entry per key, and no record twice when each is stored under its own id |
| Database.SeedAllOrNothing | src/features/shared/services/database.ts:66-114 | the store changes only when seeding reports true, and it reports true exactly when the gate is open, nothing aborts and every `bulkAdd` succeeds |
| Database.SeedWritesDataset | src/features/shared/services/database.ts:94-100 | a seed that writes leaves jobs, candidates and assessments holding exactly the dataset, adds the notes and events, and leaves responses alone |
| Database.SeedSucceedsOnFreshIds | src/features/shared/services/database.ts:69-105 | on an open gate, a dataset with unique ids that are new to the notes and events tables is always written unless the transaction aborts |
| Database.SeedOnlyOnce | src/features/shared/services/database.ts:69-78 | after a seed has written jobs, every later seed is skipped and changes nothing |
| Database.SeedKeepsKeyed | src/features/shared/services/database.ts:83-102 | seeding keeps every record stored under its own id |
| Database.ImportTouchesOnlyMentioned | src/features/shared/services/database.ts:146-154 | an absent collection leaves its table alone; otherwise only the mentioned ids change and each holds its given record |
| Database.ImportKeepsKeyed | src/features/shared/services/database.ts:127-157 | importing keeps every record stored under its own id |
| Database.TalentFlowDB.ClearAllData | src/features/shared/services/database.ts:42-64 | all six tables are empty afterwards, or nothing changes when the transaction aborts |
| Database.TalentFlowDB.SeedData | src/features/shared/services/database.ts:66-114 | result and new state are `Seeded` of the generated dataset: 25 jobs, 1000 candidates and 3 assessments, referentially intact and uniquely keyed; a closed gate draws nothing |
| Database.TalentFlowDB.ExportData | src/features/shared/services/database.ts:116-125 | each exported collection lists its table, no record twice in a well-keyed store |
| Database.TalentFlowDB.ImportData | src/features/shared/services/database.ts:127-157 | the store becomes `Imported` of the payload, or is unchanged when the transaction aborts |
| Persistence.DataPersistenceService.InitializeData | src/features/shared/services/dataPersistence.ts:21-32 | the first successful call seeds and marks the service initialised; a failed seed is rethrown and leaves it uninitialised; later calls change nothing |
| Persistence.DataPersistenceService.GetJobs | src/features/shared/services/dataPersistence.ts:34-36 | lists every stored job once |
| Persistence.DataPersistenceService.GetCandidates | src/features/shared/services/dataPersistence.ts:38-40 | lists every stored candidate once |
| Persistence.DataPersistenceService.GetAssessments | src/features/shared/services/dataPersistence.ts:42-44 | lists every stored assessment once |
| Persistence.DataPersistenceService.GetCandidateNotes | src/features/shared/services/dataPersistence.ts:46-51 | exactly the stored notes with that candidate id, each once |
| Persistence.DataPersistenceService.GetCandidateTimeline | src/features/shared/services/dataPersistence.ts:53-60 | exactly the stored events with that candidate id, each once |
| Persistence.DataPersistenceService.GetAssessmentByJobId | src/features/shared/services/dataPersistence.ts:62-68 | a stored assessment of that job, or null exactly when the job has none |
| Persistence.DataPersistenceService.SaveJob | src/features/shared/services/dataPersistence.ts:70-72 | upserts the job; every other record stays |
| Persistence.DataPersistenceService.SaveCandidate | src/features/shared/services/dataPersistence.ts:74-76 | upserts the candidate; every other record stays |
| Persistence.DataPersistenceService.SaveAssessment | src/features/shared/services/dataPersistence.ts:78-80 | upserts the assessment; every other record stays |
| Persistence.DataPersistenceService.SaveCandidateNote | src/features/shared/services/dataPersistence.ts:82-84 | upserts the note; every other record stays |
| Persistence.DataPersistenceService.SaveCandidateTimelineEvent | src/features/shared/services/dataPersistence.ts:86-90 | upserts the event; every other record stays |
| Persistence.DataPersistenceService.SaveAssessmentResponse | src/features/shared/services/dataPersistence.ts:92-94 | upserts the response; every other record stays |
| Persistence.ServiceRegistry.GetInstance | src/features/shared/services/dataPersistence.ts:14-19 | the first call creates an uninitialised service and every later call returns that same one |
| Handlers.TimesIsProduct | src/features/shared/services/msw/handlers.ts:45 | the offset `(page - 1) * pageSize`, computed by repeated addition, is the product |
| Handlers.Slice | src/features/shared/services/msw/handlers.ts:47 | `slice` returns only elements of the list, the clamped run for non-negative bounds |
| Handlers.Paginate | src/features/shared/services/msw/handlers.ts:45-56 | total is the filtered count, `hasNext` iff page × pageSize < total, `hasPrev` iff page > 1, and the data come from the filtered list |
| Handlers.PageContents | src/features/shared/services/msw/handlers.ts:45-47 | from page 1 on, the data are the run starting (page−1) × pageSize records in, of length `min(S, max(0, T−(k−1)S))` |
| Handlers.PageIsRun | src/features/shared/services/msw/handlers.ts:45-47 | page k ≥ 1 is the filtered list's run from offset (k−1) × pageSize, clamped to the list |
| Handlers.NonPositivePages | src/features/shared/services/msw/handlers.ts:45-47 | page 0 is empty; page −1 counts back from the end |
| Handlers.FirstPagesArePrefix | src/features/shared/services/msw/handlers.ts:45-47 | pages 1..n together show the first n × pageSize filtered records in order, each once |
| Handlers.LastPageCompletes | src/features/shared/services/msw/handlers.ts:54 | when `hasNext` is false, the pages so far have shown every filtered record |
| Handlers.SearchIgnoresCase | src/features/shared/services/msw/handlers.ts:39-40 | two searches equal up to case select the same records |
| Handlers.SearchFindsSubstring | src/features/shared/services/msw/handlers.ts:39-40 | any piece of the title, in any case, finds it |
| Handlers.CandidateFoundByEmail | src/features/shared/services/msw/handlers.ts:162-165 | any piece of a candidate's e-mail finds the candidate |
| Handlers.JobsPage | src/features/shared/services/msw/handlers.ts:29-56 | page and size default to 1 and 10; every listed job is stored and matches search and status |
| Handlers.UnfilteredJobsTotal | src/features/shared/services/msw/handlers.ts:38-51 | without search and status the total is the number of jobs |
| Handlers.JobsTotalCountsMatches | src/features/shared/services/msw/handlers.ts:38-51 | the total counts exactly the matching jobs |
| Handlers.CandidatesPage | src/features/shared/services/msw/handlers.ts:152-181 | page and size default to 1 and 10; every listed candidate is stored and matches search (name or e-mail) and stage |
| Handlers.CandidatesTotalCountsMatches | src/features/shared/services/msw/handlers.ts:161-181 | the total is the number of candidates matching search (name or e-mail) and stage, and a candidate is kept exactly when it is stored and matches |
| Handlers.UnfilteredCandidatesTotal | src/features/shared/services/msw/handlers.ts:161-176 | without search and stage the total is the number of candidates |
| Handlers.ListJobs | src/features/shared/services/msw/handlers.ts:25-57 | the reply is the page over a listing of the jobs table with no job twice, which it only reads |
| Handlers.ListCandidates | src/features/shared/services/msw/handlers.ts:148-182 | the reply is the page over a listing of the candidates table with no candidate twice, which it only reads |
| Handlers.SpreadJobLaws | src/features/shared/services/msw/handlers.ts:117-122 | spreading an empty body copies the job; spreading twice equals spreading the merged bodies; spreading is idempotent |
| Handlers.NewJobDefaults | src/features/shared/services/msw/handlers.ts:71-85 | body fields win except the timestamps, which are now; a given slug is kept; otherwise a fresh id, active status, order count+1, empty title and tags, and a space-free lower-case slug of the title, `""` when there is no title; description, requirements, location and salary are the body's |
| Handlers.PatchJobLaws | src/features/shared/services/msw/handlers.ts:117-122 | an empty patch only sets `updatedAt`; two patches equal one with the merged body |
| Handlers.SpreadCandidateLaws | src/features/shared/services/msw/handlers.ts:249-254 | as for jobs, for candidates |
| Handlers.NewCandidateDefaults | src/features/shared/services/msw/handlers.ts:198-212 | body fields win except the timestamps, which are now; otherwise a fresh id, stage applied, and empty name, e-mail and job |
| Handlers.PatchCandidateLaws | src/features/shared/services/msw/handlers.ts:249-254 | an empty patch only sets `updatedAt`; two patches equal one with the merged body |
| Handlers.FoundIsStored | src/features/shared/services/msw/handlers.ts:107-110 | `find` by id over a listing succeeds exactly when the id is stored, and returns the stored record |
| Handlers.PostJob | src/features/shared/services/msw/handlers.ts:59-91 | 500 with CREATE_JOB_FAILED and no write, or 201 with the new job, now stored under its id |
| Handlers.PatchJob | src/features/shared/services/msw/handlers.ts:93-128 | 500 UPDATE_JOB_FAILED or 404 JOB_NOT_FOUND without a write, or 200 with the patched job replacing the stored one |
| Handlers.PostCandidate | src/features/shared/services/msw/handlers.ts:184-218 | 500 with CREATE_CANDIDATE_FAILED and no write, or 201 with the new candidate, now stored |
| Handlers.PatchCandidate | src/features/shared/services/msw/handlers.ts:220-260 | 500 UPDATE_CANDIDATE_FAILED or 404 CANDIDATE_NOT_FOUND without a write, or 200 with the patched candidate stored |
| Handlers.GetAssessment | src/features/shared/services/msw/handlers.ts:272-281 | a stored assessment of the job, or null exactly when there is none |
| Handlers.PutAssessment | src/features/shared/services/msw/handlers.ts:283-312 | 500 SAVE_ASSESSMENT_FAILED, or 200 with the body over the defaults (empty title, no sections, active) stamped now |
| Handlers.SubmitAssessment | src/features/shared/services/msw/handlers.ts:314-340 | 500 SUBMIT_ASSESSMENT_FAILED, or 201 echoing the body with an id, the job and completion time now |
| Handlers.ReorderJob | src/features/shared/services/msw/handlers.ts:130-145 | 500 REORDER_JOBS_FAILED, or 200 acknowledging `{success: true, jobId}` overlaid by the body |

## Left out

- The artificial delay (handlers.ts:12-19) is not modelled. It costs time and a `Math.random()` draw that affects nothing else.
- `GET /candidates/:id/timeline` (handlers.ts:262-269) is not modelled. It always replies with an empty list and reads nothing.
- `generatePhoneNumber` (utils.ts:30-32) is not modelled. The generator does not call it. A seeded phone number is one faker word draw.
- Faker's names, sentences and numbers, `crypto.randomUUID()` and the clock are injected. Faker's actual algorithms, including how `faker.date.between` distributes dates, are not modelled. Only their ranges are.
- Timestamps are integers. ISO-string formatting and `setFullYear` arithmetic are not modelled; `yearAgo` is a parameter with `yearAgo <= now`.
- SeedUtils.RandomShuffle: the comparator sort is modelled as an insertion sort that consumes one draw per comparison. The JavaScript engine's own sort calls the comparator in a different order. So the model does not say which elements given draws select. The proved facts (a permutation, `min(count, length)` picks, no repeats) hold for any comparison sort.
- The order of `toArray` (Dexie key order) is not modelled. A listing holds every record once, in some order. Which of several assessments of one job `getAssessmentByJobId` returns is left open for the same reason.
- Asynchrony and interleaving of requests are not modelled. Each operation runs to completion on its own.
- A failing transaction is modelled by the `aborts` flag plus the `bulkAdd` key collision. Other IndexedDB errors (quota, blocked upgrade) are folded into `aborts`.
- Console logging is not modelled.
- Request bodies are not modelled beyond these cases:
  - A body carries a key or not.
  - Explicit `null` or `undefined` values are not modelled.
  - Keys outside the entity's fields are not modelled.
  - Values of the wrong type are not modelled.
  - The reorder and submission bodies (`Record<string, unknown>`) are limited to the keys the front end sends.
- Query strings that `parseInt` turns into NaN are not modelled. Page and page size are integers, and an absent or empty parameter takes its default.
- `toLowerCase` is modelled on ASCII letters only. Other scripts' case mappings are not modelled.
- Handlers: products of a page number and the page size are written as `Times`, a definition by repeated addition. `Handlers.TimesIsProduct` proves it equal to multiplication.
- Seed.SourceJobCatalog and Seed.SourceAssessmentCatalog: the contracts say the returned lists are usable, not that they are the lists the source files define. The bodies return those lists.
- AssessmentSeed.GenerateAssessments: the per-assessment shape is stated through `AllSeeded`, a predicate over the list. `AllSeededAt` turns it into the per-element statement.
- Question fields that the generator never sets (conditional display and custom rules) are not part of the entity types.
- CandidateSeed.GenerateCandidates: the e-mail and URL shapes are stated per candidate in `GenerateCandidate`, not restated for the whole list. The list-level contract keeps the job, date and id facts.
- CandidateSeed.GenerateCandidate: the stage is any of the six stages and the phone any faker word. The contract does not restate these, because every stage qualifies.
- AssessmentSeed.GenerateSection: the faker title and description are not constrained beyond being drawn.
