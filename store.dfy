/**
 * The app's tables, as created by the schema migration, held by one object
 * whose fields the mappers and controllers replace as they write.
 */
module Store {
  import opened Tables
  import opened Entities

  /** The unique index on `case_number`. */
  ghost predicate UniqueCaseNumbers(rows: seq<Row<TestCase>>) {
    forall x, y :: x in rows && y in rows && x.rec.caseNumber == y.rec.caseNumber ==> x == y
  }

  /** The unique index on the platform `name`. */
  ghost predicate UniquePlatformNames(rows: seq<Row<Platform>>) {
    forall x, y :: x in rows && y in rows && x.rec.name == y.rec.name ==> x == y
  }

  /** A unique index over every column but the id: the link tables' `(a_id, b_id)` pairs. */
  ghost predicate DistinctRecords<T(!new)>(rows: seq<Row<T>>) {
    forall x, y :: x in rows && y in rows && x.rec == y.rec ==> x == y
  }

  /** Renaming a platform to a name no other platform carries keeps the names unique. */
  lemma RenameKeepsNamesUnique(t: Table<Platform>, id: int, p: Platform)
    requires Tables.Valid(t) && UniquePlatformNames(t.rows)
    requires forall x :: x in t.rows && x.rec.name == p.name ==> x.id == id
    ensures UniquePlatformNames(Tables.Update(t, id, p).rows)
  {
    var u := Tables.Update(t, id, p);
    forall x, y | x in u.rows && y in u.rows && x.rec.name == y.rec.name ensures x == y {
      if x.id != id && y.id != id {
        assert x in t.rows && y in t.rows;
      }
    }
  }

  /** Renumbering a case to a number no other case carries keeps case numbers unique. */
  lemma RenumberKeepsNumbersUnique(t: Table<TestCase>, id: int, c: TestCase)
    requires Tables.Valid(t) && UniqueCaseNumbers(t.rows)
    requires forall x :: x in t.rows && x.rec.caseNumber == c.caseNumber ==> x.id == id
    ensures UniqueCaseNumbers(Tables.Update(t, id, c).rows)
  {
    var u := Tables.Update(t, id, c);
    forall x, y | x in u.rows && y in u.rows && x.rec.caseNumber == y.rec.caseNumber ensures x == y {
      if x.id != id && y.id != id {
        assert x in t.rows && y in t.rows;
      }
    }
  }

  class Database {
    var products: Table<Product>
    var releases: Table<Release>
    var runs: Table<Run>
    var cases: Table<TestCase>
    var steps: Table<Step>
    var preconditions: Table<Precondition>
    var expectations: Table<Expectation>
    var platforms: Table<Platform>
    var casePlatforms: Table<CasePlatform>
    var relatedCases: Table<RelatedCase>
    var runCases: Table<RunCase>

    /**
     * Every table follows the auto-increment discipline, the schema's unique
     * indexes hold, and no case-platform link names a case id that has not
     * been handed out yet. Each part reads only the tables it is about, so a
     * write to one table leaves the other parts evidently intact.
     */
    ghost predicate Valid()
      reads this
    {
      && ProductsValid() && ReleasesValid() && RunsValid() && CasesValid()
      && StepsValid() && PreconditionsValid() && ExpectationsValid() && PlatformsValid()
      && CasePlatformsValid() && RelatedCasesValid() && RunCasesValid()
    }

    ghost predicate ProductsValid() reads this`products { Tables.Valid(products) }
    ghost predicate ReleasesValid() reads this`releases { Tables.Valid(releases) }
    ghost predicate RunsValid() reads this`runs { Tables.Valid(runs) }
    ghost predicate StepsValid() reads this`steps { Tables.Valid(steps) }
    ghost predicate PreconditionsValid() reads this`preconditions { Tables.Valid(preconditions) }
    ghost predicate ExpectationsValid() reads this`expectations { Tables.Valid(expectations) }

    ghost predicate CasesValid()
      reads this`cases
    {
      Tables.Valid(cases) && UniqueCaseNumbers(cases.rows)
    }

    ghost predicate PlatformsValid()
      reads this`platforms
    {
      Tables.Valid(platforms) && UniquePlatformNames(platforms.rows)
    }

    ghost predicate CasePlatformsValid()
      reads this`casePlatforms, this`cases
    {
      && Tables.Valid(casePlatforms)
      && DistinctRecords(casePlatforms.rows)
      && (forall x :: x in casePlatforms.rows ==> x.rec.caseId < cases.nextId)
    }

    ghost predicate RelatedCasesValid()
      reads this`relatedCases
    {
      Tables.Valid(relatedCases) && DistinctRecords(relatedCases.rows)
    }

    ghost predicate RunCasesValid()
      reads this`runCases
    {
      Tables.Valid(runCases) && DistinctRecords(runCases.rows)
    }

    /** Freshly migrated: every table empty, every id counter at 1. */
    constructor ()
      ensures Valid()
      ensures products == Table([], 1) && releases == Table([], 1) && runs == Table([], 1)
      ensures cases == Table([], 1) && steps == Table([], 1) && preconditions == Table([], 1)
      ensures expectations == Table([], 1) && platforms == Table([], 1)
      ensures casePlatforms == Table([], 1) && relatedCases == Table([], 1) && runCases == Table([], 1)
    {
      products := Table([], 1);
      releases := Table([], 1);
      runs := Table([], 1);
      cases := Table([], 1);
      steps := Table([], 1);
      preconditions := Table([], 1);
      expectations := Table([], 1);
      platforms := Table([], 1);
      casePlatforms := Table([], 1);
      relatedCases := Table([], 1);
      runCases := Table([], 1);
    }
  }
}
