# Test case management backend, modelled in Dafny

This project models the server side of a Nextcloud app for managing test
cases:

- **The catalogue.** Products have releases. Releases have runs. Test cases
  carry steps, preconditions and per-step expectations. Platforms are the
  operating systems a case applies to.
- **Three link tables.** Each case lists the platforms it applies to. Cases
  can be related to other cases. Each run lists the cases executed in it.

Every HTTP action of the eight controllers is modelled. So are the queries
and deletes of the mappers and the `jsonSerialize` projections of the
entities. The data migration that seeds the default platforms is modelled
as well.

## How the model is built

- **The database is a `class`.** `Store.Database` has one field per table.
  Each table is a value `Tables.Table<T>`: its rows in insertion order plus
  the next auto-increment id. `Database.Valid()` holds what the schema
  guarantees:
  - ids are ascending and below the counter;
  - the unique indexes on `case_number`, on the platform `name`, and on the
    pair columns of the three link tables.

  It also holds one invariant that the schema does not enforce (it declares
  no foreign keys) but the controllers maintain: no platform link names a
  case id that was never handed out, because links are only written for a
  case just inserted or just found.

  `Valid()` is split into one predicate per table. A write to one table
  therefore evidently keeps the others valid.
- **Mappers.** The mappers' selects are functions of a table: `Tables.Find`,
  `Tables.FindAll`, `Tables.Select` and the `FindBy...` functions.
  `StepMapper.FindByCaseId` also sorts by `step_order`. The inherited
  `insert`/`update`/`delete` and the mappers' `deleteBy...` statements are
  methods. Each modifies exactly one field of the database, and its new
  value is stated as a function of the old one.
- **Controller actions.** Each controller action is a method
  `X(db, ...) returns (resp: Response)`:
  - its `modifies` clause names exactly the tables the action may write;
  - its `ensures` give the response and the new content of those tables on
    every path, error paths included, in the order the source checks them.
- **Loops.** The `foreach` loops of `CaseController` are methods with loop
  invariants. Two loops validate ids (`FirstUnknownPlatform`,
  `FirstUnrelatable`); they are proved against the recursive specification
  `Seqs.FirstFailing`, the position of the first offender. Two loops insert
  link rows (`InsertPlatformLinks`, `InsertRelatedLinks`); they are proved
  against `Tables.InsertAll`. Lemmas then state what `getPlatforms` and
  `getRelated` read back afterwards.
- **PHP built-ins.**
  - `empty(trim($s))` is `Php.IsBlank`. `trim` strips the six characters
    space, `\t`, `\n`, `\r`, `\0` and `\x0B`. `empty` is also true of the
    string `"0"`. `Php.BlankIff` characterises the blank strings exactly.
    This is stricter than "empty after trimming", and the model follows the
    code: a name such as `" 0 "` is refused with "Name is required".
  - Names are stored untrimmed.
  - The id in the messages "Platform not found: <id>" and "Related case not
    found: <id>" is rendered by `Php.IntToString`. Its lemmas show it is
    decimal and injective.
- **Dates.** `DateTime::createFromFormat(DateTime::ATOM, ...)` is a
  parameter: `RunController.DateParser`, a function to `Option<Instant>`.
  `Instant` is an opaque type. Every run contract holds whatever strings
  that reader accepts.

## Model

| member | source | states |
|---|---|---|
| Seqs.FirstFailing | lib/Controller/CaseController.php:115-124 | the index of the first element that fails the check, or the length when all pass; every element before it passes and the element at it fails |
| Seqs.FirstFailingIs | lib/Controller/CaseController.php:339-355 | a position where everything before passes and the element there fails (or the end) is exactly `FirstFailing`: the first offender is unique |
| Php.Trim | lib/Controller/CaseController.php:100 | `trim` keeps a contiguous slice; every character cut off is one of the six trim characters, and a non-empty result starts and ends with a non-trim character |
| Php.TrimIdempotent | lib/Controller/CaseController.php:100 | trimming twice is trimming once |
| Php.BlankHasShape | lib/Controller/CaseController.php:100 | a string `empty(trim(...))` rejects consists of trim characters only, or of trim characters around one `0` |
| Php.ShapeIsBlank | lib/Controller/PlatformController.php:83 | conversely every string of that shape is rejected, including one like `" 0\n"` |
| Php.BlankIff | lib/Controller/RunController.php:124 | both directions together: blank exactly when only trim characters and at most one `0` |
| Php.NatToString | lib/Controller/CaseController.php:120 | the decimal digits of a natural number, without a leading zero unless the number is 0 |
| Php.NatToStringRoundTrip | lib/Controller/CaseController.php:120 | reading the digits back gives the number |
| Php.IntToString | lib/Controller/CaseController.php:120 | PHP's integer-to-string conversion in string concatenation: non-empty, starting with `-` exactly for negative numbers |
| Php.IntToStringInjective | lib/Controller/CaseController.php:350 | distinct ids give distinct messages, so the error names the offending id unambiguously |
| Json.NullableString | lib/Db/TestCase.php:31-38 | an unset description projects to JSON `null`, a set one to its string |
| Json.NullableInstant | lib/Db/Run.php:40-41 | the null-safe `?->format(...)`: unset times project to `null`, set ones to a timestamp |
| Json.IntList | lib/Controller/CaseController.php:220-233 | a JSON list of the ids, one per id, in order |
| Json.ObjectList | lib/Controller/CaseController.php:55-60 | the list response of `index`: one projected object per row, in order |
| Tables.Find | lib/Db/TestCaseMapper.php:27-33 | `find(id)` succeeds exactly when a row has that id, returns that row, and never reports several |
| Tables.FindEntity | lib/Db/TestCaseMapper.php:40-46 | `findEntity`: not found exactly when no row matches, found exactly when one row does (and returns it), otherwise several |
| Tables.FindAll | lib/Db/TestCaseMapper.php:52-57 | `findAll` returns exactly the stored rows, each once, in id order |
| Tables.Select | lib/Db/PreconditionMapper.php:50-56 | a `WHERE` query returns exactly the stored rows matching the condition, in id order |
| Tables.Insert | lib/Controller/CaseController.php:130 | `insert` stores the record under the next id, appends it, and advances the counter; the id was not in use |
| Tables.Update | lib/Controller/CaseController.php:171 | `update` replaces the row with that id and nothing else; ids and counter are kept |
| Tables.Delete | lib/Controller/CaseController.php:198 | `delete` removes exactly the row with that id; the counter is kept |
| Tables.DeleteWhere | lib/Db/CasePlatformMapper.php:47-52 | a `DELETE ... WHERE` removes exactly the matching rows and keeps the others |
| Tables.InsertAll | lib/Controller/CaseController.php:133-138 | one `insert` per record in order: still a valid table, counter advanced by the number of records |
| Tables.InsertAllAppends | lib/Controller/CaseController.php:133-138 | those inserts append the records in order under consecutive fresh ids |
| Tables.FindRow | lib/Db/TestCaseMapper.php:27-33 | every stored row is what `find` returns for its id |
| Tables.FindAfterInsert | lib/Db/TestCaseMapper.php:27-33 | after an insert, `find` on the new id returns the new row and on any other id answers as before |
| Tables.FindAfterUpdate | lib/Db/TestCaseMapper.php:27-33 | after an update, `find` on that id returns the new values and on any other id answers as before |
| Tables.FindAfterDelete | lib/Db/TestCaseMapper.php:27-33 | after a delete, `find` on that id fails and on any other id answers as before |
| Tables.DeleteWhereClears | lib/Db/CasePlatformMapper.php:47-52 | after a delete-where, the same select is empty |
| Tables.DeleteWhereNothing | lib/Db/CasePlatformMapper.php:47-52 | a delete-where that matches nothing changes nothing |
| Tables.DeleteWhereKeeps | lib/Db/CasePlatformMapper.php:47-52 | a select disjoint from the delete condition answers the same afterwards |
| Store.RenameKeepsNamesUnique | lib/Controller/PlatformController.php:110-130 | renaming a platform to a name no other platform has keeps the unique index on names |
| Store.RenumberKeepsNumbersUnique | lib/Controller/CaseController.php:158-180 | renumbering a case to a number no other case has keeps the unique index on case numbers |
| Store.Database.constructor | lib/Migration/Version001000Date20260119000000.php:20-234 | the freshly created schema: all eleven tables empty, counters at 1, every constraint holding |
| Entities.ProductJson | lib/Controller/ProductController.php:59-69 | a product projects to exactly `id` and `name`, and the row can be read back from it |
| Entities.ReleaseJson | lib/Db/Release.php:31-38 | exactly `id`, `name`, `description` (null when unset), `productId`; the row reads back |
| Entities.TestCaseJson | lib/Db/TestCase.php:31-38 | exactly `id`, `caseNumber`, `name`, `description` (null when unset); the row reads back |
| Entities.StepJson | lib/Db/Step.php:31-38 | exactly `id`, `order`, `description`, `caseId`; the step order goes out under `order`; the row reads back |
| Entities.PreconditionJson | lib/Db/Precondition.php:27-33 | exactly `id`, `description`, `caseId`; the row reads back |
| Entities.ExpectationJson | lib/Db/Expectation.php:27-33 | exactly `id`, `description`, `stepId`; the row reads back |
| Entities.PlatformJson | lib/Db/Platform.php:23-28 | exactly `id` and `name`; the row reads back |
| Entities.RunJson | lib/Db/Run.php:36-44 | exactly `id`, `name`, `start`, `end`, `releaseId`; `start`/`end` are null exactly when unset; the row reads back |
| Entities.CasePlatformJson | lib/Db/CasePlatform.php:29-35 | exactly `id`, `caseId`, `platformId`; the row reads back |
| Entities.RelatedCaseJson | lib/Db/RelatedCase.php:29-35 | exactly `id`, `caseId`, `relatedCaseId`; the row reads back |
| Entities.RunCaseJson | lib/Db/RunCase.php:29-35 | exactly `id`, `runId`, `caseId`; the row reads back |
| TestCaseMapper.FindByCaseNumber | lib/Db/TestCaseMapper.php:40-46 | a found case carries that number; not found exactly when no case does |
| TestCaseMapper.FindByCaseNumberUnique | lib/Db/TestCaseMapper.php:40-46 | under the unique index the lookup never reports several cases |
| TestCaseMapper.Insert | lib/Controller/CaseController.php:130 | the case table becomes `Tables.Insert` of the old one; the database stays valid given a free case number |
| TestCaseMapper.Update | lib/Controller/CaseController.php:171 | the case table becomes `Tables.Update` of the old one; valid given the number is not another case's |
| TestCaseMapper.Delete | lib/Controller/CaseController.php:198 | the case table becomes `Tables.Delete` of the old one; only that table changes |
| PlatformMapper.FindByName | lib/Db/PlatformMapper.php:51-57 | a found platform has exactly that name; not found exactly when none does |
| PlatformMapper.FindByNameUnique | lib/Db/PlatformMapper.php:51-57 | under the unique index the lookup never reports several platforms |
| PlatformMapper.Insert | lib/Controller/PlatformController.php:92 | the platform table becomes `Tables.Insert` of the old one, given the name is free |
| PlatformMapper.Update | lib/Controller/PlatformController.php:121 | the platform table becomes `Tables.Update` of the old one, given no other platform has the name |
| PlatformMapper.Delete | lib/Controller/PlatformController.php:146 | the platform table becomes `Tables.Delete` of the old one |
| ProductMapper.Insert | lib/Controller/ProductController.php:92 | the product table becomes `Tables.Insert` of the old one |
| ProductMapper.Update | lib/Controller/ProductController.php:121 | the product table becomes `Tables.Update` of the old one |
| ProductMapper.Delete | lib/Controller/ProductController.php:146 | the product table becomes `Tables.Delete` of the old one |
| PreconditionMapper.FindByCaseId | lib/Db/PreconditionMapper.php:50-56 | exactly the preconditions of that case, in id order |
| PreconditionMapper.Insert | lib/Controller/PreconditionController.php:113 | the precondition table becomes `Tables.Insert` of the old one |
| PreconditionMapper.Update | lib/Controller/PreconditionController.php:142 | the precondition table becomes `Tables.Update` of the old one |
| PreconditionMapper.Delete | lib/Controller/PreconditionController.php:167 | the precondition table becomes `Tables.Delete` of the old one |
| ReleaseMapper.FindByProductId | lib/Db/ReleaseMapper.php:50-56 | exactly the releases of that product, in id order |
| ReleaseMapper.Insert | lib/Controller/ReleaseController.php:115 | the release table becomes `Tables.Insert` of the old one |
| ReleaseMapper.Update | lib/Controller/ReleaseController.php:146 | the release table becomes `Tables.Update` of the old one |
| ReleaseMapper.Delete | lib/Controller/ReleaseController.php:171 | the release table becomes `Tables.Delete` of the old one |
| RunMapper.FindByReleaseId | lib/Db/RunMapper.php:50-56 | exactly the runs of that release, in id order |
| RunMapper.Insert | lib/Controller/RunController.php:160 | the run table becomes `Tables.Insert` of the old one |
| RunMapper.Update | lib/Controller/RunController.php:208 | the run table becomes `Tables.Update` of the old one |
| RunMapper.Delete | lib/Controller/RunController.php:234 | the run table becomes `Tables.Delete` of the old one |
| ExpectationMapper.FindByStepId | lib/Controller/ExpectationController.php:46-55 | exactly the expectations of that step, in id order |
| ExpectationMapper.Insert | lib/Controller/ExpectationController.php:113 | the expectation table becomes `Tables.Insert` of the old one |
| ExpectationMapper.Update | lib/Controller/ExpectationController.php:142 | the expectation table becomes `Tables.Update` of the old one |
| ExpectationMapper.Delete | lib/Controller/ExpectationController.php:167 | the expectation table becomes `Tables.Delete` of the old one |
| StepMapper.InsertByOrder | lib/Db/StepMapper.php:55 | placing one step into an ordered list adds exactly that step |
| StepMapper.SortByOrder | lib/Db/StepMapper.php:55 | `ORDER BY step_order`: a permutation of the rows |
| StepMapper.InsertByOrderSorted | lib/Db/StepMapper.php:55 | placing a step into a list sorted by step order keeps it sorted |
| StepMapper.SortByOrderSorted | lib/Db/StepMapper.php:55 | the sorted rows ascend by step order |
| StepMapper.FindByCaseId | lib/Db/StepMapper.php:50-57 | exactly the steps of that case, each once, ascending by step order |
| StepMapper.Insert | lib/Controller/StepController.php:115 | the step table becomes `Tables.Insert` of the old one |
| StepMapper.Update | lib/Controller/StepController.php:146 | the step table becomes `Tables.Update` of the old one |
| StepMapper.Delete | lib/Controller/StepController.php:171 | the step table becomes `Tables.Delete` of the old one |
| CasePlatformMapper.FindByCaseId | lib/Db/CasePlatformMapper.php:24-30 | exactly the platform links of that case, in id order |
| CasePlatformMapper.FindByPlatformId | lib/Db/CasePlatformMapper.php:36-42 | exactly the links to that platform, in id order |
| CasePlatformMapper.DeletedByCaseId | lib/Db/CasePlatformMapper.php:47-52 | the table without exactly the links of that case; counter kept |
| CasePlatformMapper.DeleteByCaseId | lib/Db/CasePlatformMapper.php:47-52 | `deleteByCaseId` writes `DeletedByCaseId` into the link table and nothing else |
| CasePlatformMapper.DeleteClears | lib/Db/CasePlatformMapper.php:24-52 | afterwards `findByCaseId` of that case is empty |
| CasePlatformMapper.DeleteWithoutLinks | lib/Db/CasePlatformMapper.php:24-52 | on a case without links the delete is a no-op, so a second delete changes nothing |
| CasePlatformMapper.DeleteKeepsOtherCases | lib/Db/CasePlatformMapper.php:24-52 | every other case keeps exactly its links, in order |
| CasePlatformMapper.Insert | lib/Controller/CaseController.php:137 | one link is appended by `Tables.Insert`, given the pair is new and the case id was handed out |
| RelatedCaseMapper.FindByCaseId | lib/Db/RelatedCaseMapper.php:24-30 | exactly the outgoing links of that case, in id order |
| RelatedCaseMapper.DeletedByCaseId | lib/Db/RelatedCaseMapper.php:35-40 | the table without exactly the outgoing links of that case |
| RelatedCaseMapper.DeleteByCaseId | lib/Db/RelatedCaseMapper.php:35-40 | `deleteByCaseId` writes `DeletedByCaseId` into the link table and nothing else |
| RelatedCaseMapper.DeleteClears | lib/Db/RelatedCaseMapper.php:24-40 | afterwards the case has no outgoing links |
| RelatedCaseMapper.DeleteWithoutLinks | lib/Db/RelatedCaseMapper.php:24-40 | with no outgoing links the delete is a no-op |
| RelatedCaseMapper.DeleteKeepsOtherCases | lib/Db/RelatedCaseMapper.php:24-40 | every other case keeps exactly its outgoing links |
| RelatedCaseMapper.IncomingLinksSurvive | lib/Db/RelatedCaseMapper.php:35-40 | a link from another case pointing at the deleted one survives and is still that other case's link |
| RelatedCaseMapper.Insert | lib/Controller/CaseController.php:362 | one link is appended by `Tables.Insert`, given the pair is new |
| RunCaseMapper.FindByRunId | lib/Db/RunCaseMapper.php:24-30 | exactly the case links of that run, in id order |
| RunCaseMapper.FindByCaseId | lib/Db/RunCaseMapper.php:36-42 | exactly the run links of that case, in id order |
| RunCaseMapper.DeletedByRunId | lib/Db/RunCaseMapper.php:47-52 | the table without exactly the links of that run |
| RunCaseMapper.DeleteByRunId | lib/Db/RunCaseMapper.php:47-52 | `deleteByRunId` writes `DeletedByRunId` into the link table and nothing else |
| RunCaseMapper.DeleteClears | lib/Db/RunCaseMapper.php:24-52 | afterwards `findByRunId` of that run is empty |
| RunCaseMapper.DeleteWithoutLinks | lib/Db/RunCaseMapper.php:24-52 | on a run without links the delete is a no-op |
| RunCaseMapper.DeleteKeepsOtherRuns | lib/Db/RunCaseMapper.php:24-52 | every other run keeps exactly its links |
| RunCaseMapper.Insert | lib/Controller/RunController.php:305 | one link is appended by `Tables.Insert`, given the pair is new |
| CaseController.PlatformLinks | lib/Controller/CaseController.php:133-138 | one link per given platform id, for that case, in the given order |
| CaseController.RelatedLinks | lib/Controller/CaseController.php:358-363 | one link per given related id, from that case, in the given order |
| CaseController.PlatformIds | lib/Controller/CaseController.php:220-233 | the platform id of each link, in link order |
| CaseController.RelatedIds | lib/Controller/CaseController.php:300-313 | the related case id of each link, in link order |
| CaseController.PlatformBatchReadsBack | lib/Controller/CaseController.php:126-140 | after `create`'s inserts, `findByCaseId` of the new case yields exactly the given ids in order; other cases' links are untouched |
| CaseController.RelatedBatchReadsBack | lib/Controller/CaseController.php:358-363 | the same for a batch of related-case links |
| CaseController.SetPlatformsReplaces | lib/Controller/CaseController.php:278-284 | delete-then-insert: `getPlatforms` answers exactly the new ids in order, and every other case keeps its links |
| CaseController.SetRelatedReplaces | lib/Controller/CaseController.php:357-363 | delete-then-insert: `getRelated` answers exactly the new ids in order, and every other case keeps its links |
| CaseController.FirstUnknownPlatform | lib/Controller/CaseController.php:115-124 | the validation loop stops at `FirstFailing` of "is a platform": the first unknown id in input order, or none |
| CaseController.FirstUnrelatable | lib/Controller/CaseController.php:339-355 | the validation loop stops at the first id that is the case itself or not a case, or none |
| CaseController.InsertPlatformLinks | lib/Controller/CaseController.php:133-138 | the insertion loop leaves the link table equal to `InsertAll` of the links in order |
| CaseController.InsertRelatedLinks | lib/Controller/CaseController.php:358-363 | the insertion loop leaves the related table equal to `InsertAll` of the links in order |
| CaseController.Index | lib/Controller/CaseController.php:55-60 | status 200 with `cases`: every case projected |
| CaseController.Show | lib/Controller/CaseController.php:73-83 | 200 with exactly the stored case's projection (which reads back to the row), or 404 "Case not found" |
| CaseController.Create | lib/Controller/CaseController.php:99-141 | blank name, then empty list, then first unknown platform give 400 with nothing written; otherwise one case (untrimmed name) and one link per id in order, 201 with the case |
| CaseController.Update | lib/Controller/CaseController.php:158-180 | blank name 400 before the lookup, unknown id 404 whatever the number, else number, name and description replaced (omitted description cleared); links untouched; a number another case holds is excluded only when the write is reached |
| CaseController.Destroy | lib/Controller/CaseController.php:193-207 | 404 when unknown; otherwise the case, its platform links and its outgoing related links are removed, and no other table is touched |
| CaseController.GetPlatforms | lib/Controller/CaseController.php:220-233 | 404 when unknown, else the case's platform ids in link order |
| CaseController.SetPlatforms | lib/Controller/CaseController.php:248-287 | an empty list is 400 before the case lookup, then 404, then the first unknown platform; any failure leaves the links unchanged; success replaces the case's links and echoes the ids |
| CaseController.GetRelated | lib/Controller/CaseController.php:300-313 | 404 when unknown, else the related case ids in link order |
| CaseController.SetRelated | lib/Controller/CaseController.php:328-366 | 404 when unknown; the first offending id decides between "cannot be related to itself" and "not found", with nothing changed; otherwise the outgoing links are replaced (an empty list clears them) and the ids echoed |
| RunController.ParseDateTime | lib/Controller/RunController.php:53-62 | the reader's instant when it accepts the string, otherwise 400 naming the field |
| RunController.ParseOptional | lib/Controller/RunController.php:144-158 | an omitted time keeps the current value; a given one must parse and then replaces it |
| RunController.CaseIds | lib/Controller/RunController.php:256-269 | the case id of each link, in link order |
| RunController.Index | lib/Controller/RunController.php:74-83 | the runs of the given release, or all runs |
| RunController.Show | lib/Controller/RunController.php:96-106 | 200 with exactly the stored run's projection (which reads back to the row), or 404 "Run not found" |
| RunController.Create | lib/Controller/RunController.php:123-163 | blank name 400, unknown release 404, then bad start, then bad end 400 naming the field, each with nothing written; otherwise one run with the parsed times (null when omitted), 201 |
| RunController.Update | lib/Controller/RunController.php:180-217 | blank name 400, unknown run 404, bad start then bad end 400 with nothing written; else the name replaced, given times replaced, omitted times kept, the release unchanged |
| RunController.Destroy | lib/Controller/RunController.php:230-243 | 404 when unknown; otherwise the run and exactly its case links are removed |
| RunController.GetCases | lib/Controller/RunController.php:256-269 | 404 when unknown, else the run's case ids in link order |
| RunController.AddCase | lib/Controller/RunController.php:283-308 | run checked first, then case, each 404 with no insert; else exactly one link appended and 201 `{added: true}` |
| RunController.AddCaseAppends | lib/Controller/RunController.php:283-308 | after `addCase`, `getCases` answers the former case ids followed by the added one |
| RunController.AddCaseKeepsOtherRuns | lib/Controller/RunController.php:283-308 | `addCase` leaves every other run's cases as they were |
| PlatformController.Index | lib/Controller/PlatformController.php:41-46 | every platform projected |
| PlatformController.Show | lib/Controller/PlatformController.php:59-69 | 200 with exactly the stored platform's projection (which reads back to the row), or 404 "Platform not found" |
| PlatformController.Create | lib/Controller/PlatformController.php:82-95 | blank name 400 with nothing written; otherwise one platform with the untrimmed name, 201 |
| PlatformController.Update | lib/Controller/PlatformController.php:110-130 | blank name 400, unknown id 404 whatever the name, else only the name changes; a name another platform holds is excluded only when the write is reached |
| PlatformController.Destroy | lib/Controller/PlatformController.php:143-155 | 404 when unknown, else that platform is removed; the links to it stay |
| ProductController.Index | lib/Controller/ProductController.php:41-46 | every product projected |
| ProductController.Show | lib/Controller/ProductController.php:59-69 | 200 with exactly the stored product's projection (which reads back to the row), or 404 "Product not found" |
| ProductController.Create | lib/Controller/ProductController.php:82-95 | blank name 400 with nothing written; otherwise one product with the untrimmed name, 201 |
| ProductController.Update | lib/Controller/ProductController.php:110-130 | blank name 400, unknown id 404 with nothing changed, else only the name changes |
| ProductController.Destroy | lib/Controller/ProductController.php:143-155 | 404 when unknown, else that product is removed; its releases stay |
| ReleaseController.Index | lib/Controller/ReleaseController.php:46-55 | the releases of the given product, or all releases |
| ReleaseController.Show | lib/Controller/ReleaseController.php:68-78 | 200 with exactly the stored release's projection (which reads back to the row), or 404 "Release not found" |
| ReleaseController.Create | lib/Controller/ReleaseController.php:94-118 | blank name 400, unknown product 404 "Product not found", each with nothing written; otherwise one release with name, product and description (possibly null), 201 |
| ReleaseController.Update | lib/Controller/ReleaseController.php:134-155 | blank name 400, unknown id 404, else name and description replaced, the product kept |
| ReleaseController.Destroy | lib/Controller/ReleaseController.php:168-180 | 404 when unknown, else that release is removed; its runs stay |
| StepController.Index | lib/Controller/StepController.php:46-55 | the case's steps in the mapper's step order, or all steps |
| StepController.Show | lib/Controller/StepController.php:68-78 | 200 with exactly the stored step's projection (which reads back to the row), or 404 "Step not found" |
| StepController.Create | lib/Controller/StepController.php:94-118 | blank description 400, unknown case 404, each with nothing written; otherwise one step with that order, description and case (repeated orders allowed), 201 |
| StepController.Update | lib/Controller/StepController.php:134-155 | blank description 400, unknown id 404, else order and description replaced, the case kept |
| StepController.Destroy | lib/Controller/StepController.php:168-180 | 404 when unknown, else that step is removed; its expectations stay |
| PreconditionController.Index | lib/Controller/PreconditionController.php:46-55 | the preconditions of the given case, or all of them |
| PreconditionController.Show | lib/Controller/PreconditionController.php:68-78 | 200 with exactly the stored precondition's projection (which reads back to the row), or 404 "Precondition not found" |
| PreconditionController.Create | lib/Controller/PreconditionController.php:93-116 | blank description 400, unknown case 404, each with nothing written; otherwise one precondition for that case, 201 |
| PreconditionController.Update | lib/Controller/PreconditionController.php:131-151 | blank description 400, unknown id 404, else only the description changes |
| PreconditionController.Destroy | lib/Controller/PreconditionController.php:164-176 | 404 when unknown, else exactly that row is removed |
| ExpectationController.Index | lib/Controller/ExpectationController.php:46-55 | the expectations of the given step, or all of them |
| ExpectationController.Show | lib/Controller/ExpectationController.php:68-78 | 200 with exactly the stored expectation's projection (which reads back to the row), or 404 "Expectation not found" |
| ExpectationController.Create | lib/Controller/ExpectationController.php:93-116 | blank description 400, unknown step 404 "Step not found", each with nothing written; otherwise one expectation for that step, 201 |
| ExpectationController.Update | lib/Controller/ExpectationController.php:131-151 | blank description 400, unknown id 404, else only the description changes |
| ExpectationController.Destroy | lib/Controller/ExpectationController.php:164-176 | 404 when unknown, else exactly that row is removed |
| PlatformSeed.Platforms | lib/Migration/Version001000Date20260119000001.php:29 | one platform record per name, in order |
| PlatformSeed.SeedOne | lib/Migration/Version001000Date20260119000001.php:32-48 | one round: a taken name changes nothing; otherwise the name is appended; either way old rows stay, the name is taken, names stay unique |
| PlatformSeed.Seeded | lib/Migration/Version001000Date20260119000001.php:31-49 | the platforms table after the loop is a valid table |
| PlatformSeed.SeedName | lib/Migration/Version001000Date20260119000001.php:32-48 | the select-then-insert round leaves the platforms as `SeedOne` says |
| PlatformSeed.SeedNames | lib/Migration/Version001000Date20260119000001.php:31-49 | the loop leaves the platforms as `Seeded` says |
| PlatformSeed.PostSchemaChange | lib/Migration/Version001000Date20260119000001.php:28-50 | the migration leaves the platforms as `Seeded` over the five default names |
| PlatformSeed.SeededExtends | lib/Migration/Version001000Date20260119000001.php:31-49 | existing platforms are never modified or removed: the old rows are a prefix of the new ones |
| PlatformSeed.SeededTakesAll | lib/Migration/Version001000Date20260119000001.php:31-49 | afterwards every seeded name is present |
| PlatformSeed.SeededNoOp | lib/Migration/Version001000Date20260119000001.php:41 | where every name is present, nothing is inserted |
| PlatformSeed.SeedIdempotent | lib/Migration/Version001000Date20260119000001.php:28-50 | running the migration twice leaves the table as after one run |
| PlatformSeed.SeededKeepsNamesUnique | lib/Migration/Version001000Date20260119000001.php:31-49 | seeding never breaks the unique index on platform names |
| PlatformSeed.SeededInsertsAll | lib/Migration/Version001000Date20260119000001.php:42-47 | where no name is present, all are inserted in list order under consecutive ids |
| PlatformSeed.DefaultsDistinct | lib/Migration/Version001000Date20260119000001.php:29 | the five default names are distinct |
| PlatformSeed.SeedFresh | lib/Migration/Version001000Date20260119000001.php:28-50 | on an empty table the defaults become platforms 1 to 5 in list order |

## Left out

- HTTP routing, the OCS response wrapper, request objects, dependency
  injection and the controllers' constructors. A response is modelled as a
  status and a JSON object. Its error body is `{error: message}`.
- Listing order. SQL promises no order without `ORDER BY`, so `findAll`
  and the `findBy...` queries answer rows in id order here. This is one
  order the database may choose.
- `StepMapper.FindByCaseId`: steps with equal `step_order` come back in id
  order here, whereas SQL leaves the order of such ties open.
- The ATOM date format. Parsing is the `DateParser` parameter, and the
  projection carries the instant itself rather than its text. So
  `RunController.ParseDateTime` states nothing about which strings are
  accepted, and "a rendered time parses back to the same instant" is not
  proved.
- Entity setters and getters, and dirty-field tracking. An entity is an
  immutable record, and a setter is a record update, so set-then-get holds
  by construction. The defaults of a new entity are the `Entities.New...`
  constants.
- Database exceptions. The schema's unique indexes reject the following
  writes, and the source lets the database error escape unhandled:
  - a taken case number in `create`/`update`;
  - a platform name in use;
  - a repeated id in `create`, `setPlatforms` or `setRelated`;
  - an `addCase` of a case already in the run.

  The affected controller methods require, on exactly the path that reaches
  the write, that it does not clash. So no success is claimed for those
  inputs, and their failure is not modelled either.
- Transactions and crashes between the delete and the inserts of
  `setPlatforms`/`setRelated`. The steps are modelled in sequence, as the
  source runs them.
- PHP type juggling of the id arrays of `create`, `setPlatforms` and
  `setRelated`. Ids are integers here, so the strict `===` comparison
  with the case id is plain equality.
- The classes `Product`, `ProductMapper` and `ExpectationMapper` are not
  among the source files modelled; their members here are inferred from how
  the controllers call them, on two assumptions:
  - `ExpectationMapper.FindByStepId` is a `WHERE step_id = ?` select, like
    the other mappers' `findBy...Id` methods;
  - `Entities.ProductJson` has exactly the keys `id` and `name`, the two
    keys `tests/unit/Db/ProductTest.php` asserts.

  `ProductMapper.Insert/Update/Delete` and `ExpectationMapper.Insert/Update/Delete`
  are the inherited `QBMapper` writes, modelled as for the other tables.
- The schema migration's column definitions. Only its unique indexes
  appear, as part of `Store.Database.Valid`.
- The seeding migration issues its select and insert through the query
  builder. The model performs them with the platform table's query and
  insert, which store the same row.
- Dangling references are left as the source leaves them: after a case,
  platform, product, release or step is deleted, rows elsewhere still
  refer to it. No other delete cascades.
