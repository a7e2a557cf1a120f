/*
 * The mappers of `lib/Db`. Every mapper inherits `find(id)` and `findAll()`
 * (`Tables.Find`, `Tables.FindAll`); what each adds is below. Queries are
 * functions of a table; the `deleteBy...` writes are methods on the database.
 */

/** `TestCaseMapper`: cases by their case number. */
module TestCaseMapper {
  import opened Tables
  import opened Entities
  import opened Store

  function CaseNumberIs(caseNumber: int): Row<TestCase> -> bool {
    (x: Row<TestCase>) => x.rec.caseNumber == caseNumber
  }

  /** `findByCaseNumber`: the case carrying that number. */
  function FindByCaseNumber(t: Table<TestCase>, caseNumber: int): (r: Lookup<TestCase>)
    ensures r.Found? ==> r.row in t.rows && r.row.rec.caseNumber == caseNumber
    ensures r.DoesNotExist? <==> forall x :: x in t.rows ==> x.rec.caseNumber != caseNumber
  {
    FindEntity(t.rows, CaseNumberIs(caseNumber))
  }

  /** Under the unique index on `case_number` the lookup never finds two cases. */
  lemma FindByCaseNumberUnique(t: Table<TestCase>, caseNumber: int)
    requires Tables.Valid(t) && UniqueCaseNumbers(t.rows)
    ensures !FindByCaseNumber(t, caseNumber).MultipleObjectsReturned?
  {
    UniqueKeyFindsOne(t.rows, CaseNumberIs(caseNumber));
  }

  /** `insert` (inherited from `QBMapper`): the case is stored under the next id. */
  method Insert(db: Database, rec: TestCase) returns (row: Row<TestCase>)
    requires db.Valid()
    requires forall x :: x in db.cases.rows ==> x.rec.caseNumber != rec.caseNumber
    modifies db`cases
    ensures db.Valid()
    ensures (db.cases, row) == Tables.Insert(old(db.cases), rec)
  {
    var (t, r) := Tables.Insert(db.cases, rec);
    db.cases, row := t, r;
  }

  /** `update` (inherited from `QBMapper`): the stored case with that id takes the new values. */
  method Update(db: Database, id: int, rec: TestCase)
    requires db.Valid() && Has(db.cases, id)
    requires forall x :: x in db.cases.rows && x.rec.caseNumber == rec.caseNumber ==> x.id == id
    modifies db`cases
    ensures db.Valid()
    ensures db.cases == Tables.Update(old(db.cases), id, rec)
  {
    db.cases := Tables.Update(db.cases, id, rec);
  }

  /** `delete` (inherited from `QBMapper`): the case with that id is removed. */
  method Delete(db: Database, id: int)
    requires db.Valid()
    modifies db`cases
    ensures db.Valid()
    ensures db.cases == Tables.Delete(old(db.cases), id)
  {
    db.cases := Tables.Delete(db.cases, id);
  }
}

/** `PlatformMapper`: platforms by name. */
module PlatformMapper {
  import opened Tables
  import opened Entities
  import opened Store

  function NameIs(name: string): Row<Platform> -> bool {
    (x: Row<Platform>) => x.rec.name == name
  }

  /** `findByName`: the platform with exactly that name. */
  function FindByName(t: Table<Platform>, name: string): (r: Lookup<Platform>)
    ensures r.Found? ==> r.row in t.rows && r.row.rec.name == name
    ensures r.DoesNotExist? <==> forall x :: x in t.rows ==> x.rec.name != name
  {
    FindEntity(t.rows, NameIs(name))
  }

  /** Under the unique index on `name` the lookup never finds two platforms. */
  lemma FindByNameUnique(t: Table<Platform>, name: string)
    requires Tables.Valid(t) && UniquePlatformNames(t.rows)
    ensures !FindByName(t, name).MultipleObjectsReturned?
  {
    UniqueKeyFindsOne(t.rows, NameIs(name));
  }

  /** `insert` (inherited from `QBMapper`): the platform is stored under the next id. */
  method Insert(db: Database, rec: Platform) returns (row: Row<Platform>)
    requires db.Valid()
    requires forall x :: x in db.platforms.rows ==> x.rec.name != rec.name
    modifies db`platforms
    ensures db.Valid()
    ensures (db.platforms, row) == Tables.Insert(old(db.platforms), rec)
  {
    var (t, r) := Tables.Insert(db.platforms, rec);
    db.platforms, row := t, r;
  }

  /** `update` (inherited from `QBMapper`): the stored platform with that id takes the new values. */
  method Update(db: Database, id: int, rec: Platform)
    requires db.Valid() && Has(db.platforms, id)
    requires forall x :: x in db.platforms.rows && x.rec.name == rec.name ==> x.id == id
    modifies db`platforms
    ensures db.Valid()
    ensures db.platforms == Tables.Update(old(db.platforms), id, rec)
  {
    db.platforms := Tables.Update(db.platforms, id, rec);
  }

  /** `delete` (inherited from `QBMapper`): the platform with that id is removed. */
  method Delete(db: Database, id: int)
    requires db.Valid()
    modifies db`platforms
    ensures db.Valid()
    ensures db.platforms == Tables.Delete(old(db.platforms), id)
  {
    db.platforms := Tables.Delete(db.platforms, id);
  }
}

/**
 * The product mapper's inherited writes, as the product controller calls
 * them; the mapper's own file is not part of this model.
 */
module ProductMapper {
  import opened Tables
  import opened Entities
  import opened Store

  /** `insert` (inherited from `QBMapper`): the product is stored under the next id. */
  method Insert(db: Database, rec: Product) returns (row: Row<Product>)
    requires db.Valid()
    modifies db`products
    ensures db.Valid()
    ensures (db.products, row) == Tables.Insert(old(db.products), rec)
  {
    var (t, r) := Tables.Insert(db.products, rec);
    db.products, row := t, r;
  }

  /** `update` (inherited from `QBMapper`): the stored product with that id takes the new values. */
  method Update(db: Database, id: int, rec: Product)
    requires db.Valid() && Has(db.products, id)
    modifies db`products
    ensures db.Valid()
    ensures db.products == Tables.Update(old(db.products), id, rec)
  {
    db.products := Tables.Update(db.products, id, rec);
  }

  /** `delete` (inherited from `QBMapper`): the product with that id is removed. */
  method Delete(db: Database, id: int)
    requires db.Valid()
    modifies db`products
    ensures db.Valid()
    ensures db.products == Tables.Delete(old(db.products), id)
  {
    db.products := Tables.Delete(db.products, id);
  }
}

/** `PreconditionMapper`: preconditions of one case. */
module PreconditionMapper {
  import opened Tables
  import opened Entities
  import opened Store

  function CaseIs(caseId: int): Row<Precondition> -> bool {
    (x: Row<Precondition>) => x.rec.caseId == caseId
  }

  /** `findByCaseId`: exactly the preconditions of that case, in id order. */
  function FindByCaseId(t: Table<Precondition>, caseId: int): (r: seq<Row<Precondition>>)
    requires Tables.Valid(t)
    ensures forall x :: x in r <==> x in t.rows && x.rec.caseId == caseId
    ensures Ascending(r)
  {
    Select(t, CaseIs(caseId))
  }

  /** `insert` (inherited from `QBMapper`): the precondition is stored under the next id. */
  method Insert(db: Database, rec: Precondition) returns (row: Row<Precondition>)
    requires db.Valid()
    modifies db`preconditions
    ensures db.Valid()
    ensures (db.preconditions, row) == Tables.Insert(old(db.preconditions), rec)
  {
    var (t, r) := Tables.Insert(db.preconditions, rec);
    db.preconditions, row := t, r;
  }

  /** `update` (inherited from `QBMapper`): the stored precondition with that id takes the new values. */
  method Update(db: Database, id: int, rec: Precondition)
    requires db.Valid() && Has(db.preconditions, id)
    modifies db`preconditions
    ensures db.Valid()
    ensures db.preconditions == Tables.Update(old(db.preconditions), id, rec)
  {
    db.preconditions := Tables.Update(db.preconditions, id, rec);
  }

  /** `delete` (inherited from `QBMapper`): the precondition with that id is removed. */
  method Delete(db: Database, id: int)
    requires db.Valid()
    modifies db`preconditions
    ensures db.Valid()
    ensures db.preconditions == Tables.Delete(old(db.preconditions), id)
  {
    db.preconditions := Tables.Delete(db.preconditions, id);
  }
}

/** `ReleaseMapper`: releases of one product. */
module ReleaseMapper {
  import opened Tables
  import opened Entities
  import opened Store

  function ProductIs(productId: int): Row<Release> -> bool {
    (x: Row<Release>) => x.rec.productId == productId
  }

  /** `findByProductId`: exactly the releases of that product, in id order. */
  function FindByProductId(t: Table<Release>, productId: int): (r: seq<Row<Release>>)
    requires Tables.Valid(t)
    ensures forall x :: x in r <==> x in t.rows && x.rec.productId == productId
    ensures Ascending(r)
  {
    Select(t, ProductIs(productId))
  }

  /** `insert` (inherited from `QBMapper`): the release is stored under the next id. */
  method Insert(db: Database, rec: Release) returns (row: Row<Release>)
    requires db.Valid()
    modifies db`releases
    ensures db.Valid()
    ensures (db.releases, row) == Tables.Insert(old(db.releases), rec)
  {
    var (t, r) := Tables.Insert(db.releases, rec);
    db.releases, row := t, r;
  }

  /** `update` (inherited from `QBMapper`): the stored release with that id takes the new values. */
  method Update(db: Database, id: int, rec: Release)
    requires db.Valid() && Has(db.releases, id)
    modifies db`releases
    ensures db.Valid()
    ensures db.releases == Tables.Update(old(db.releases), id, rec)
  {
    db.releases := Tables.Update(db.releases, id, rec);
  }

  /** `delete` (inherited from `QBMapper`): the release with that id is removed. */
  method Delete(db: Database, id: int)
    requires db.Valid()
    modifies db`releases
    ensures db.Valid()
    ensures db.releases == Tables.Delete(old(db.releases), id)
  {
    db.releases := Tables.Delete(db.releases, id);
  }
}

/** `RunMapper`: runs of one release. */
module RunMapper {
  import opened Tables
  import opened Entities
  import opened Store

  function ReleaseIs(releaseId: int): Row<Run> -> bool {
    (x: Row<Run>) => x.rec.releaseId == releaseId
  }

  /** `findByReleaseId`: exactly the runs of that release, in id order. */
  function FindByReleaseId(t: Table<Run>, releaseId: int): (r: seq<Row<Run>>)
    requires Tables.Valid(t)
    ensures forall x :: x in r <==> x in t.rows && x.rec.releaseId == releaseId
    ensures Ascending(r)
  {
    Select(t, ReleaseIs(releaseId))
  }

  /** `insert` (inherited from `QBMapper`): the run is stored under the next id. */
  method Insert(db: Database, rec: Run) returns (row: Row<Run>)
    requires db.Valid()
    modifies db`runs
    ensures db.Valid()
    ensures (db.runs, row) == Tables.Insert(old(db.runs), rec)
  {
    var (t, r) := Tables.Insert(db.runs, rec);
    db.runs, row := t, r;
  }

  /** `update` (inherited from `QBMapper`): the stored run with that id takes the new values. */
  method Update(db: Database, id: int, rec: Run)
    requires db.Valid() && Has(db.runs, id)
    modifies db`runs
    ensures db.Valid()
    ensures db.runs == Tables.Update(old(db.runs), id, rec)
  {
    db.runs := Tables.Update(db.runs, id, rec);
  }

  /** `delete` (inherited from `QBMapper`): the run with that id is removed. */
  method Delete(db: Database, id: int)
    requires db.Valid()
    modifies db`runs
    ensures db.Valid()
    ensures db.runs == Tables.Delete(old(db.runs), id)
  {
    db.runs := Tables.Delete(db.runs, id);
  }
}

/**
 * The expectation mapper's `findByStepId`, as the expectation controller
 * calls it; the mapper's own file is not part of this model, so the query is
 * given the shape of its siblings.
 */
module ExpectationMapper {
  import opened Tables
  import opened Entities
  import opened Store

  function StepIs(stepId: int): Row<Expectation> -> bool {
    (x: Row<Expectation>) => x.rec.stepId == stepId
  }

  /** `findByStepId`: exactly the expectations of that step, in id order. */
  function FindByStepId(t: Table<Expectation>, stepId: int): (r: seq<Row<Expectation>>)
    requires Tables.Valid(t)
    ensures forall x :: x in r <==> x in t.rows && x.rec.stepId == stepId
    ensures Ascending(r)
  {
    Select(t, StepIs(stepId))
  }

  /** `insert` (inherited from `QBMapper`): the expectation is stored under the next id. */
  method Insert(db: Database, rec: Expectation) returns (row: Row<Expectation>)
    requires db.Valid()
    modifies db`expectations
    ensures db.Valid()
    ensures (db.expectations, row) == Tables.Insert(old(db.expectations), rec)
  {
    var (t, r) := Tables.Insert(db.expectations, rec);
    db.expectations, row := t, r;
  }

  /** `update` (inherited from `QBMapper`): the stored expectation with that id takes the new values. */
  method Update(db: Database, id: int, rec: Expectation)
    requires db.Valid() && Has(db.expectations, id)
    modifies db`expectations
    ensures db.Valid()
    ensures db.expectations == Tables.Update(old(db.expectations), id, rec)
  {
    db.expectations := Tables.Update(db.expectations, id, rec);
  }

  /** `delete` (inherited from `QBMapper`): the expectation with that id is removed. */
  method Delete(db: Database, id: int)
    requires db.Valid()
    modifies db`expectations
    ensures db.Valid()
    ensures db.expectations == Tables.Delete(old(db.expectations), id)
  {
    db.expectations := Tables.Delete(db.expectations, id);
  }
}

/** `StepMapper`: the steps of one case, ordered by `step_order`. */
module StepMapper {
  import opened Tables
  import opened Entities
  import opened Store

  function CaseIs(caseId: int): Row<Step> -> bool {
    (x: Row<Step>) => x.rec.caseId == caseId
  }

  ghost predicate SortedByOrder(rows: seq<Row<Step>>) {
    forall i, j :: 0 <= i < j < |rows| ==> rows[i].rec.stepOrder <= rows[j].rec.stepOrder
  }

  /** Places one step into a list ordered by step order, before the steps it ties with. */
  function InsertByOrder(x: Row<Step>, rows: seq<Row<Step>>): (r: seq<Row<Step>>)
    ensures multiset(r) == multiset(rows) + multiset{x}
  {
    if rows == [] || x.rec.stepOrder <= rows[0].rec.stepOrder then [x] + rows
    else
      assert rows == [rows[0]] + rows[1..];
      [rows[0]] + InsertByOrder(x, rows[1..])
  }

  /**
   * The rows ordered by step order. Steps with equal orders keep their table
   * order here; SQL leaves the order of such ties open.
   */
  function SortByOrder(rows: seq<Row<Step>>): (r: seq<Row<Step>>)
    ensures multiset(r) == multiset(rows)
  {
    if rows == [] then []
    else
      assert rows == [rows[0]] + rows[1..];
      InsertByOrder(rows[0], SortByOrder(rows[1..]))
  }

  lemma SortedCons(a: Row<Step>, s: seq<Row<Step>>)
    requires SortedByOrder(s)
    requires forall k :: 0 <= k < |s| ==> a.rec.stepOrder <= s[k].rec.stepOrder
    ensures SortedByOrder([a] + s)
  {
    forall i, j | 0 <= i < j < |[a] + s| ensures ([a] + s)[i].rec.stepOrder <= ([a] + s)[j].rec.stepOrder {
      assert ([a] + s)[j] == s[j - 1];
      if i > 0 { assert ([a] + s)[i] == s[i - 1]; }
    }
  }

  lemma {:induction false} InsertByOrderSorted(x: Row<Step>, rows: seq<Row<Step>>)
    requires SortedByOrder(rows)
    ensures SortedByOrder(InsertByOrder(x, rows))
  {
    if rows == [] || x.rec.stepOrder <= rows[0].rec.stepOrder {
      SortedCons(x, rows);
    } else {
      var tail := rows[1..];
      var rest := InsertByOrder(x, tail);
      InsertByOrderSorted(x, tail);
      forall k | 0 <= k < |rest| ensures rows[0].rec.stepOrder <= rest[k].rec.stepOrder {
        assert rest[k] in multiset(rest);
        if rest[k] != x {
          assert rest[k] in tail;
          var m :| 0 <= m < |tail| && tail[m] == rest[k];
          assert rows[m + 1] == rest[k];
        }
      }
      SortedCons(rows[0], rest);
    }
  }

  /** Sorting puts the rows in ascending step order. */
  lemma {:induction false} SortByOrderSorted(rows: seq<Row<Step>>)
    ensures SortedByOrder(SortByOrder(rows))
  {
    if rows != [] {
      SortByOrderSorted(rows[1..]);
      InsertByOrderSorted(rows[0], SortByOrder(rows[1..]));
    }
  }

  /**
   * `findByCaseId`: exactly the steps of that case, each once, in ascending
   * step order (`ORDER BY step_order ASC`).
   */
  function FindByCaseId(t: Table<Step>, caseId: int): (r: seq<Row<Step>>)
    requires Tables.Valid(t)
    ensures forall x :: x in r <==> x in t.rows && x.rec.caseId == caseId
    ensures multiset(r) == multiset(Select(t, CaseIs(caseId)))
    ensures SortedByOrder(r)
  {
    var rows := Select(t, CaseIs(caseId));
    SortByOrderSorted(rows);
    var r := SortByOrder(rows);
    assert forall x :: x in r <==> x in multiset(r);
    assert forall x :: x in rows <==> x in multiset(rows);
    r
  }

  /** `insert` (inherited from `QBMapper`): the step is stored under the next id. */
  method Insert(db: Database, rec: Step) returns (row: Row<Step>)
    requires db.Valid()
    modifies db`steps
    ensures db.Valid()
    ensures (db.steps, row) == Tables.Insert(old(db.steps), rec)
  {
    var (t, r) := Tables.Insert(db.steps, rec);
    db.steps, row := t, r;
  }

  /** `update` (inherited from `QBMapper`): the stored step with that id takes the new values. */
  method Update(db: Database, id: int, rec: Step)
    requires db.Valid() && Has(db.steps, id)
    modifies db`steps
    ensures db.Valid()
    ensures db.steps == Tables.Update(old(db.steps), id, rec)
  {
    db.steps := Tables.Update(db.steps, id, rec);
  }

  /** `delete` (inherited from `QBMapper`): the step with that id is removed. */
  method Delete(db: Database, id: int)
    requires db.Valid()
    modifies db`steps
    ensures db.Valid()
    ensures db.steps == Tables.Delete(old(db.steps), id)
  {
    db.steps := Tables.Delete(db.steps, id);
  }
}

/** `CasePlatformMapper`: the links between cases and the platforms they target. */
module CasePlatformMapper {
  import opened Tables
  import opened Entities
  import opened Store

  function CaseIs(caseId: int): Row<CasePlatform> -> bool {
    (x: Row<CasePlatform>) => x.rec.caseId == caseId
  }

  function PlatformIs(platformId: int): Row<CasePlatform> -> bool {
    (x: Row<CasePlatform>) => x.rec.platformId == platformId
  }

  /** `findByCaseId`: exactly the links of that case, in id order. */
  function FindByCaseId(t: Table<CasePlatform>, caseId: int): (r: seq<Row<CasePlatform>>)
    requires Tables.Valid(t)
    ensures forall x :: x in r <==> x in t.rows && x.rec.caseId == caseId
    ensures Ascending(r)
  {
    Select(t, CaseIs(caseId))
  }

  /** `findByPlatformId`: exactly the links to that platform, in id order. */
  function FindByPlatformId(t: Table<CasePlatform>, platformId: int): (r: seq<Row<CasePlatform>>)
    requires Tables.Valid(t)
    ensures forall x :: x in r <==> x in t.rows && x.rec.platformId == platformId
    ensures Ascending(r)
  {
    Select(t, PlatformIs(platformId))
  }

  /** The table after `deleteByCaseId`: every link of that case gone, all others kept. */
  function DeletedByCaseId(t: Table<CasePlatform>, caseId: int): (r: Table<CasePlatform>)
    requires Tables.Valid(t)
    ensures Tables.Valid(r) && r.nextId == t.nextId
    ensures forall x :: x in r.rows <==> x in t.rows && x.rec.caseId != caseId
  {
    DeleteWhere(t, CaseIs(caseId))
  }

  /** `deleteByCaseId`: `DELETE FROM testcases_case_platforms WHERE case_id = ?`. */
  method DeleteByCaseId(db: Database, caseId: int)
    requires db.Valid()
    modifies db`casePlatforms
    ensures db.Valid()
    ensures db.casePlatforms == DeletedByCaseId(old(db.casePlatforms), caseId)
  {
    db.casePlatforms := DeletedByCaseId(db.casePlatforms, caseId);
  }

  /** After the delete the case has no links left. */
  lemma DeleteClears(t: Table<CasePlatform>, caseId: int)
    requires Tables.Valid(t)
    ensures FindByCaseId(DeletedByCaseId(t, caseId), caseId) == []
  {
    DeleteWhereClears(t, CaseIs(caseId));
  }

  /** Deleting for a case without links changes nothing; so a second delete is a no-op. */
  lemma DeleteWithoutLinks(t: Table<CasePlatform>, caseId: int)
    requires Tables.Valid(t) && FindByCaseId(t, caseId) == []
    ensures DeletedByCaseId(t, caseId) == t
  {
    DeleteWhereNothing(t, CaseIs(caseId));
  }

  /** Every other case keeps exactly the links it had, in the same order. */
  lemma DeleteKeepsOtherCases(t: Table<CasePlatform>, caseId: int, other: int)
    requires Tables.Valid(t) && other != caseId
    ensures FindByCaseId(DeletedByCaseId(t, caseId), other) == FindByCaseId(t, other)
  {
    DeleteWhereKeeps(t, CaseIs(caseId), CaseIs(other));
  }

  /** `insert` (inherited from `QBMapper`): the link is stored under the next id. */
  method Insert(db: Database, rec: CasePlatform) returns (row: Row<CasePlatform>)
    requires db.CasePlatformsValid()
    requires rec.caseId < db.cases.nextId
    requires forall x :: x in db.casePlatforms.rows ==> x.rec != rec
    modifies db`casePlatforms
    ensures db.CasePlatformsValid()
    ensures (db.casePlatforms, row) == Tables.Insert(old(db.casePlatforms), rec)
  {
    var (t, r) := Tables.Insert(db.casePlatforms, rec);
    db.casePlatforms, row := t, r;
  }
}

/** `RelatedCaseMapper`: the "related to" links between cases. */
module RelatedCaseMapper {
  import opened Tables
  import opened Entities
  import opened Store

  function CaseIs(caseId: int): Row<RelatedCase> -> bool {
    (x: Row<RelatedCase>) => x.rec.caseId == caseId
  }

  /** `findByCaseId`: exactly the links going out of that case, in id order. */
  function FindByCaseId(t: Table<RelatedCase>, caseId: int): (r: seq<Row<RelatedCase>>)
    requires Tables.Valid(t)
    ensures forall x :: x in r <==> x in t.rows && x.rec.caseId == caseId
    ensures Ascending(r)
  {
    Select(t, CaseIs(caseId))
  }

  /** The table after `deleteByCaseId`: the outgoing links of that case gone, all others kept. */
  function DeletedByCaseId(t: Table<RelatedCase>, caseId: int): (r: Table<RelatedCase>)
    requires Tables.Valid(t)
    ensures Tables.Valid(r) && r.nextId == t.nextId
    ensures forall x :: x in r.rows <==> x in t.rows && x.rec.caseId != caseId
  {
    DeleteWhere(t, CaseIs(caseId))
  }

  /** `deleteByCaseId`: `DELETE FROM testcases_related_cases WHERE case_id = ?`. */
  method DeleteByCaseId(db: Database, caseId: int)
    requires db.Valid()
    modifies db`relatedCases
    ensures db.Valid()
    ensures db.relatedCases == DeletedByCaseId(old(db.relatedCases), caseId)
  {
    db.relatedCases := DeletedByCaseId(db.relatedCases, caseId);
  }

  /** After the delete the case has no outgoing links left. */
  lemma DeleteClears(t: Table<RelatedCase>, caseId: int)
    requires Tables.Valid(t)
    ensures FindByCaseId(DeletedByCaseId(t, caseId), caseId) == []
  {
    DeleteWhereClears(t, CaseIs(caseId));
  }

  /** Deleting for a case without outgoing links changes nothing. */
  lemma DeleteWithoutLinks(t: Table<RelatedCase>, caseId: int)
    requires Tables.Valid(t) && FindByCaseId(t, caseId) == []
    ensures DeletedByCaseId(t, caseId) == t
  {
    DeleteWhereNothing(t, CaseIs(caseId));
  }

  /** Every other case keeps exactly its outgoing links, in the same order. */
  lemma DeleteKeepsOtherCases(t: Table<RelatedCase>, caseId: int, other: int)
    requires Tables.Valid(t) && other != caseId
    ensures FindByCaseId(DeletedByCaseId(t, caseId), other) == FindByCaseId(t, other)
  {
    DeleteWhereKeeps(t, CaseIs(caseId), CaseIs(other));
  }

  /**
   * Only `case_id` is matched: links from other cases that point at this one
   * (`related_case_id`) survive the delete.
   */
  lemma IncomingLinksSurvive(t: Table<RelatedCase>, caseId: int, x: Row<RelatedCase>)
    requires Tables.Valid(t) && x in t.rows && x.rec.relatedCaseId == caseId && x.rec.caseId != caseId
    ensures x in DeletedByCaseId(t, caseId).rows
    ensures x in FindByCaseId(DeletedByCaseId(t, caseId), x.rec.caseId)
  {
  }

  /** `insert` (inherited from `QBMapper`): the link is stored under the next id. */
  method Insert(db: Database, rec: RelatedCase) returns (row: Row<RelatedCase>)
    requires db.RelatedCasesValid()
    requires forall x :: x in db.relatedCases.rows ==> x.rec != rec
    modifies db`relatedCases
    ensures db.RelatedCasesValid()
    ensures (db.relatedCases, row) == Tables.Insert(old(db.relatedCases), rec)
  {
    var (t, r) := Tables.Insert(db.relatedCases, rec);
    db.relatedCases, row := t, r;
  }
}

/** `RunCaseMapper`: which cases each run includes. */
module RunCaseMapper {
  import opened Tables
  import opened Entities
  import opened Store

  function RunIs(runId: int): Row<RunCase> -> bool {
    (x: Row<RunCase>) => x.rec.runId == runId
  }

  function CaseIs(caseId: int): Row<RunCase> -> bool {
    (x: Row<RunCase>) => x.rec.caseId == caseId
  }

  /** `findByRunId`: exactly the cases included in that run, in id order. */
  function FindByRunId(t: Table<RunCase>, runId: int): (r: seq<Row<RunCase>>)
    requires Tables.Valid(t)
    ensures forall x :: x in r <==> x in t.rows && x.rec.runId == runId
    ensures Ascending(r)
  {
    Select(t, RunIs(runId))
  }

  /** `findByCaseId`: exactly the runs that include that case, in id order. */
  function FindByCaseId(t: Table<RunCase>, caseId: int): (r: seq<Row<RunCase>>)
    requires Tables.Valid(t)
    ensures forall x :: x in r <==> x in t.rows && x.rec.caseId == caseId
    ensures Ascending(r)
  {
    Select(t, CaseIs(caseId))
  }

  /** The table after `deleteByRunId`: every link of that run gone, all others kept. */
  function DeletedByRunId(t: Table<RunCase>, runId: int): (r: Table<RunCase>)
    requires Tables.Valid(t)
    ensures Tables.Valid(r) && r.nextId == t.nextId
    ensures forall x :: x in r.rows <==> x in t.rows && x.rec.runId != runId
  {
    DeleteWhere(t, RunIs(runId))
  }

  /** `deleteByRunId`: `DELETE FROM testcases_run_cases WHERE run_id = ?`. */
  method DeleteByRunId(db: Database, runId: int)
    requires db.Valid()
    modifies db`runCases
    ensures db.Valid()
    ensures db.runCases == DeletedByRunId(old(db.runCases), runId)
  {
    db.runCases := DeletedByRunId(db.runCases, runId);
  }

  /** After the delete the run includes no case. */
  lemma DeleteClears(t: Table<RunCase>, runId: int)
    requires Tables.Valid(t)
    ensures FindByRunId(DeletedByRunId(t, runId), runId) == []
  {
    DeleteWhereClears(t, RunIs(runId));
  }

  /** Deleting for a run without cases changes nothing. */
  lemma DeleteWithoutLinks(t: Table<RunCase>, runId: int)
    requires Tables.Valid(t) && FindByRunId(t, runId) == []
    ensures DeletedByRunId(t, runId) == t
  {
    DeleteWhereNothing(t, RunIs(runId));
  }

  /** Every other run keeps exactly the cases it had, in the same order. */
  lemma DeleteKeepsOtherRuns(t: Table<RunCase>, runId: int, other: int)
    requires Tables.Valid(t) && other != runId
    ensures FindByRunId(DeletedByRunId(t, runId), other) == FindByRunId(t, other)
  {
    DeleteWhereKeeps(t, RunIs(runId), RunIs(other));
  }

  /** `insert` (inherited from `QBMapper`): the link is stored under the next id. */
  method Insert(db: Database, rec: RunCase) returns (row: Row<RunCase>)
    requires db.RunCasesValid()
    requires forall x :: x in db.runCases.rows ==> x.rec != rec
    modifies db`runCases
    ensures db.RunCasesValid()
    ensures (db.runCases, row) == Tables.Insert(old(db.runCases), rec)
  {
    var (t, r) := Tables.Insert(db.runCases, rec);
    db.runCases, row := t, r;
  }
}
