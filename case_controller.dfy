/**
 * `CaseController`: the `/api/cases` endpoints. Besides the case itself it
 * keeps two kinds of links: the platforms a case applies to (at least one
 * when the case is created or its platforms are replaced) and the other
 * cases it is related to.
 */
module CaseController {
  import opened Wrappers
  import opened Seqs
  import opened Php
  import opened Json
  import opened Http
  import opened Tables
  import opened Entities
  import opened Store
  import TestCaseMapper
  import CasePlatformMapper
  import RelatedCaseMapper

  // ---------------------------------------------------------------------
  // The links the endpoints write, and what `getPlatforms`/`getRelated` read back
  // ---------------------------------------------------------------------

  /** The links `create` and `setPlatforms` insert: one per platform id, in the order given. */
  function PlatformLinks(caseId: int, platformIds: seq<int>): (links: seq<CasePlatform>)
    ensures |links| == |platformIds|
    ensures forall k :: 0 <= k < |platformIds| ==> links[k] == CasePlatform(caseId, platformIds[k])
  {
    seq(|platformIds|, k requires 0 <= k < |platformIds| => CasePlatform(caseId, platformIds[k]))
  }

  /** The links `setRelated` inserts: one per related case id, in the order given. */
  function RelatedLinks(caseId: int, relatedIds: seq<int>): (links: seq<RelatedCase>)
    ensures |links| == |relatedIds|
    ensures forall k :: 0 <= k < |relatedIds| ==> links[k] == RelatedCase(caseId, relatedIds[k])
  {
    seq(|relatedIds|, k requires 0 <= k < |relatedIds| => RelatedCase(caseId, relatedIds[k]))
  }

  /** The `array_map` of `getPlatforms`: the platform id of every link, in order. */
  function PlatformIds(rows: seq<Row<CasePlatform>>): (ids: seq<int>)
    ensures |ids| == |rows|
    ensures forall k :: 0 <= k < |rows| ==> ids[k] == rows[k].rec.platformId
  {
    seq(|rows|, k requires 0 <= k < |rows| => rows[k].rec.platformId)
  }

  /** The `array_map` of `getRelated`: the related case id of every link, in order. */
  function RelatedIds(rows: seq<Row<RelatedCase>>): (ids: seq<int>)
    ensures |ids| == |rows|
    ensures forall k :: 0 <= k < |rows| ==> ids[k] == rows[k].rec.relatedCaseId
  {
    seq(|rows|, k requires 0 <= k < |rows| => rows[k].rec.relatedCaseId)
  }

  /**
   * A batch of platform links inserted for a case that had none: reading the
   * case's links back yields exactly the batch, so `getPlatforms` answers
   * the ids in the order they were given; every other case keeps its links.
   */
  lemma PlatformBatchReadsBack(t: Table<CasePlatform>, caseId: int, platformIds: seq<int>, other: int)
    requires Tables.Valid(t)
    requires forall x :: x in t.rows ==> x.rec.caseId != caseId
    ensures PlatformIds(CasePlatformMapper.FindByCaseId(InsertAll(t, PlatformLinks(caseId, platformIds)), caseId)) == platformIds
    ensures other != caseId ==>
      CasePlatformMapper.FindByCaseId(InsertAll(t, PlatformLinks(caseId, platformIds)), other)
      == CasePlatformMapper.FindByCaseId(t, other)
  {
    var links := PlatformLinks(caseId, platformIds);
    var added := Numbered(t.nextId, links);
    SelectAfterInsertAll(t, links, CasePlatformMapper.CaseIs(caseId));
    WhereNone(t.rows, CasePlatformMapper.CaseIs(caseId));
    WhereAll(added, CasePlatformMapper.CaseIs(caseId));
    if other != caseId {
      SelectAfterInsertAll(t, links, CasePlatformMapper.CaseIs(other));
      WhereNone(added, CasePlatformMapper.CaseIs(other));
    }
  }

  /** The same for a batch of related-case links. */
  lemma RelatedBatchReadsBack(t: Table<RelatedCase>, caseId: int, relatedIds: seq<int>, other: int)
    requires Tables.Valid(t)
    requires forall x :: x in t.rows ==> x.rec.caseId != caseId
    ensures RelatedIds(RelatedCaseMapper.FindByCaseId(InsertAll(t, RelatedLinks(caseId, relatedIds)), caseId)) == relatedIds
    ensures other != caseId ==>
      RelatedCaseMapper.FindByCaseId(InsertAll(t, RelatedLinks(caseId, relatedIds)), other)
      == RelatedCaseMapper.FindByCaseId(t, other)
  {
    var links := RelatedLinks(caseId, relatedIds);
    var added := Numbered(t.nextId, links);
    SelectAfterInsertAll(t, links, RelatedCaseMapper.CaseIs(caseId));
    WhereNone(t.rows, RelatedCaseMapper.CaseIs(caseId));
    WhereAll(added, RelatedCaseMapper.CaseIs(caseId));
    if other != caseId {
      SelectAfterInsertAll(t, links, RelatedCaseMapper.CaseIs(other));
      WhereNone(added, RelatedCaseMapper.CaseIs(other));
    }
  }

  /**
   * What `setPlatforms` leaves behind: `getPlatforms` on the case answers
   * exactly the ids it was given, and every other case keeps its links.
   */
  lemma SetPlatformsReplaces(t: Table<CasePlatform>, caseId: int, platformIds: seq<int>, other: int)
    requires Tables.Valid(t)
    ensures
      var after := InsertAll(CasePlatformMapper.DeletedByCaseId(t, caseId), PlatformLinks(caseId, platformIds));
      && PlatformIds(CasePlatformMapper.FindByCaseId(after, caseId)) == platformIds
      && (other != caseId ==> CasePlatformMapper.FindByCaseId(after, other) == CasePlatformMapper.FindByCaseId(t, other))
  {
    PlatformBatchReadsBack(CasePlatformMapper.DeletedByCaseId(t, caseId), caseId, platformIds, other);
    if other != caseId {
      CasePlatformMapper.DeleteKeepsOtherCases(t, caseId, other);
    }
  }

  /**
   * What `setRelated` leaves behind: `getRelated` on the case answers exactly
   * the ids it was given, and every other case keeps its links.
   */
  lemma SetRelatedReplaces(t: Table<RelatedCase>, caseId: int, relatedIds: seq<int>, other: int)
    requires Tables.Valid(t)
    ensures
      var after := InsertAll(RelatedCaseMapper.DeletedByCaseId(t, caseId), RelatedLinks(caseId, relatedIds));
      && RelatedIds(RelatedCaseMapper.FindByCaseId(after, caseId)) == relatedIds
      && (other != caseId ==> RelatedCaseMapper.FindByCaseId(after, other) == RelatedCaseMapper.FindByCaseId(t, other))
  {
    RelatedBatchReadsBack(RelatedCaseMapper.DeletedByCaseId(t, caseId), caseId, relatedIds, other);
    if other != caseId {
      RelatedCaseMapper.DeleteKeepsOtherCases(t, caseId, other);
    }
  }

  // ---------------------------------------------------------------------
  // The two loops every link-writing endpoint runs
  // ---------------------------------------------------------------------

  /** An id that has a row in `t`: what `find` succeeding decides. */
  function Known<T>(t: Table<T>): int -> bool {
    (id: int) => Has(t, id)
  }

  /** An id `setRelated` accepts for case `caseId`: not the case itself, and an existing case. */
  function Relatable(cases: Table<TestCase>, caseId: int): int -> bool {
    (id: int) => id != caseId && Has(cases, id)
  }

  /**
   * The validation `foreach` of `create` and `setPlatforms`: looks every id
   * up and stops at the first one that is not a platform.
   */
  method FirstUnknownPlatform(platforms: Table<Platform>, platformIds: seq<int>) returns (k: nat)
    requires Tables.Valid(platforms)
    ensures k == FirstFailing(platformIds, Known(platforms))
  {
    k := 0;
    while k < |platformIds|
      invariant k <= |platformIds|
      invariant forall j :: 0 <= j < k ==> Known(platforms)(platformIds[j])
    {
      if !Has(platforms, platformIds[k]) {
        FirstFailingIs(platformIds, Known(platforms), k);
        return;
      }
      k := k + 1;
    }
    FirstFailingIs(platformIds, Known(platforms), k);
  }

  /**
   * The validation `foreach` of `setRelated`: stops at the first id that is
   * the case itself or is not a case.
   */
  method FirstUnrelatable(cases: Table<TestCase>, caseId: int, relatedIds: seq<int>) returns (k: nat)
    requires Tables.Valid(cases)
    ensures k == FirstFailing(relatedIds, Relatable(cases, caseId))
  {
    k := 0;
    while k < |relatedIds|
      invariant k <= |relatedIds|
      invariant forall j :: 0 <= j < k ==> Relatable(cases, caseId)(relatedIds[j])
    {
      var relatedId := relatedIds[k];
      if relatedId == caseId || !Has(cases, relatedId) {
        FirstFailingIs(relatedIds, Relatable(cases, caseId), k);
        return;
      }
      k := k + 1;
    }
    FirstFailingIs(relatedIds, Relatable(cases, caseId), k);
  }

  /**
   * The insertion `foreach` of `create` and `setPlatforms`: one link per id,
   * in order. The case has no links yet and the ids are distinct, so the
   * unique index on the link table is never hit.
   */
  method InsertPlatformLinks(db: Database, caseId: int, platformIds: seq<int>)
    requires db.Valid() && caseId < db.cases.nextId && NoDuplicates(platformIds)
    requires forall x :: x in db.casePlatforms.rows ==> x.rec.caseId != caseId
    modifies db`casePlatforms
    ensures db.Valid()
    ensures db.casePlatforms == InsertAll(old(db.casePlatforms), PlatformLinks(caseId, platformIds))
  {
    var links := PlatformLinks(caseId, platformIds);
    var i := 0;
    while i < |platformIds|
      invariant i <= |platformIds|
      invariant db.CasePlatformsValid()
      invariant db.casePlatforms == InsertAll(old(db.casePlatforms), links[..i])
      invariant forall x :: x in db.casePlatforms.rows && x.rec.caseId == caseId ==> x.rec.platformId in platformIds[..i]
    {
      assert platformIds[i] !in platformIds[..i];
      var _ := CasePlatformMapper.Insert(db, CasePlatform(caseId, platformIds[i]));
      InsertAllStep(old(db.casePlatforms), links, i);
      i := i + 1;
    }
    assert links[..i] == links;
  }

  /** The insertion `foreach` of `setRelated`: one link per id, in order. */
  method InsertRelatedLinks(db: Database, caseId: int, relatedIds: seq<int>)
    requires db.Valid() && NoDuplicates(relatedIds)
    requires forall x :: x in db.relatedCases.rows ==> x.rec.caseId != caseId
    modifies db`relatedCases
    ensures db.Valid()
    ensures db.relatedCases == InsertAll(old(db.relatedCases), RelatedLinks(caseId, relatedIds))
  {
    var links := RelatedLinks(caseId, relatedIds);
    var i := 0;
    while i < |relatedIds|
      invariant i <= |relatedIds|
      invariant db.RelatedCasesValid()
      invariant db.relatedCases == InsertAll(old(db.relatedCases), links[..i])
      invariant forall x :: x in db.relatedCases.rows && x.rec.caseId == caseId ==> x.rec.relatedCaseId in relatedIds[..i]
    {
      assert relatedIds[i] !in relatedIds[..i];
      var _ := RelatedCaseMapper.Insert(db, RelatedCase(caseId, relatedIds[i]));
      InsertAllStep(old(db.relatedCases), links, i);
      i := i + 1;
    }
    assert links[..i] == links;
  }

  // ---------------------------------------------------------------------
  // The endpoints
  // ---------------------------------------------------------------------

  /** `index`: every case, in table order. */
  method Index(db: Database) returns (resp: Response)
    requires db.Valid()
    ensures resp.status == OK && resp.data.Keys == {"cases"}
    ensures resp.data["cases"] == ObjectList(FindAll(db.cases), TestCaseJson)
  {
    resp := Ok(map["cases" := ObjectList(FindAll(db.cases), TestCaseJson)]);
  }

  /** `show`: the stored case with that id, or 404. */
  method Show(db: Database, id: int) returns (resp: Response)
    requires db.Valid()
    ensures Has(db.cases, id) ==>
      && resp == Ok(TestCaseJson(Find(db.cases, id).row))
      && TestCaseFromJson(resp.data) == Some(Find(db.cases, id).row)
    ensures !Has(db.cases, id) ==> resp == Error(NOT_FOUND, "Case not found")
  {
    var found := Find(db.cases, id);
    if found.DoesNotExist? {
      return Error(NOT_FOUND, "Case not found");
    }
    resp := Ok(TestCaseJson(found.row));
  }

  /**
   * `create`: a blank name, an empty platform list and an unknown platform
   * are refused in that order, each before anything is written; otherwise
   * the case is stored under the next id, one link per platform follows, and
   * the case is echoed with status 201. The source does not check the case
   * number or repeated platform ids; a clash with a unique index there is an
   * unhandled database error, which this contract excludes.
   */
  method Create(db: Database, caseNumber: int, name: string, platformIds: seq<int>, description: Option<string>)
    returns (resp: Response)
    requires db.Valid()
    requires !IsBlank(name) && platformIds != [] && FirstFailing(platformIds, Known(db.platforms)) == |platformIds| ==>
      && (forall x :: x in db.cases.rows ==> x.rec.caseNumber != caseNumber)
      && NoDuplicates(platformIds)
    modifies db`cases, db`casePlatforms
    ensures db.Valid()
    ensures IsBlank(name) ==>
      resp == Error(BAD_REQUEST, "Name is required")
      && db.cases == old(db.cases) && db.casePlatforms == old(db.casePlatforms)
    ensures !IsBlank(name) && platformIds == [] ==>
      resp == Error(BAD_REQUEST, "At least one platform is required")
      && db.cases == old(db.cases) && db.casePlatforms == old(db.casePlatforms)
    ensures !IsBlank(name) && FirstFailing(platformIds, Known(db.platforms)) < |platformIds| ==>
      var k := FirstFailing(platformIds, Known(db.platforms));
      && resp == Error(BAD_REQUEST, "Platform not found: " + IntToString(platformIds[k]))
      && db.cases == old(db.cases) && db.casePlatforms == old(db.casePlatforms)
    ensures !IsBlank(name) && platformIds != [] && FirstFailing(platformIds, Known(db.platforms)) == |platformIds| ==>
      var created := Row(old(db.cases).nextId, TestCase(caseNumber, name, description));
      && db.cases == Insert(old(db.cases), created.rec).0
      && db.casePlatforms == InsertAll(old(db.casePlatforms), PlatformLinks(created.id, platformIds))
      && resp == Created(TestCaseJson(created))
  {
    if IsBlank(name) {
      return Error(BAD_REQUEST, "Name is required");
    }
    if platformIds == [] {
      return Error(BAD_REQUEST, "At least one platform is required");
    }
    var k := FirstUnknownPlatform(db.platforms, platformIds);
    if k < |platformIds| {
      return Error(BAD_REQUEST, "Platform not found: " + IntToString(platformIds[k]));
    }
    var created := TestCaseMapper.Insert(db, TestCase(caseNumber, name, description));
    InsertPlatformLinks(db, created.id, platformIds);
    resp := Created(TestCaseJson(created));
  }

  /**
   * `update`: a blank name is refused, an unknown id is 404; otherwise case
   * number, name and description are all replaced (an omitted description
   * clears it). A case number another case carries is an unhandled database
   * error in the source, which this contract excludes.
   */
  method Update(db: Database, id: int, caseNumber: int, name: string, description: Option<string>)
    returns (resp: Response)
    requires db.Valid()
    requires !IsBlank(name) && Has(db.cases, id) ==>
      forall x :: x in db.cases.rows && x.rec.caseNumber == caseNumber ==> x.id == id
    modifies db`cases
    ensures db.Valid()
    ensures IsBlank(name) ==>
      resp == Error(BAD_REQUEST, "Name is required") && db.cases == old(db.cases)
    ensures !IsBlank(name) && !Has(old(db.cases), id) ==>
      resp == Error(NOT_FOUND, "Case not found") && db.cases == old(db.cases)
    ensures !IsBlank(name) && Has(old(db.cases), id) ==>
      var updated := TestCase(caseNumber, name, description);
      && db.cases == Tables.Update(old(db.cases), id, updated)
      && resp == Ok(TestCaseJson(Row(id, updated)))
  {
    if IsBlank(name) {
      return Error(BAD_REQUEST, "Name is required");
    }
    var found := Find(db.cases, id);
    if found.DoesNotExist? {
      return Error(NOT_FOUND, "Case not found");
    }
    var testCase := found.row.rec.(caseNumber := caseNumber, name := name, description := description);
    TestCaseMapper.Update(db, id, testCase);
    resp := Ok(TestCaseJson(Row(id, testCase)));
  }

  /**
   * `destroy`: an unknown id is 404; otherwise the case's platform links,
   * then its outgoing related-case links, then the case itself are deleted.
   * Links from other cases that point at it stay (see `RelatedCaseMapper.IncomingLinksSurvive`).
   */
  method Destroy(db: Database, id: int) returns (resp: Response)
    requires db.Valid()
    modifies db`cases, db`casePlatforms, db`relatedCases
    ensures db.Valid()
    ensures !Has(old(db.cases), id) ==>
      resp == Error(NOT_FOUND, "Case not found")
      && db.cases == old(db.cases) && db.casePlatforms == old(db.casePlatforms)
      && db.relatedCases == old(db.relatedCases)
    ensures Has(old(db.cases), id) ==>
      && resp == Ok(Deleted)
      && db.cases == Delete(old(db.cases), id)
      && db.casePlatforms == CasePlatformMapper.DeletedByCaseId(old(db.casePlatforms), id)
      && db.relatedCases == RelatedCaseMapper.DeletedByCaseId(old(db.relatedCases), id)
  {
    var found := Find(db.cases, id);
    if found.DoesNotExist? {
      return Error(NOT_FOUND, "Case not found");
    }
    CasePlatformMapper.DeleteByCaseId(db, id);
    RelatedCaseMapper.DeleteByCaseId(db, id);
    TestCaseMapper.Delete(db, id);
    resp := Ok(Deleted);
  }

  /** `getPlatforms`: the platform ids of the case's links, in link order, or 404. */
  method GetPlatforms(db: Database, id: int) returns (resp: Response)
    requires db.Valid()
    ensures Has(db.cases, id) ==>
      resp == Ok(map["platforms" := IntList(PlatformIds(CasePlatformMapper.FindByCaseId(db.casePlatforms, id)))])
    ensures !Has(db.cases, id) ==> resp == Error(NOT_FOUND, "Case not found")
  {
    var found := Find(db.cases, id);
    if found.DoesNotExist? {
      return Error(NOT_FOUND, "Case not found");
    }
    var links := CasePlatformMapper.FindByCaseId(db.casePlatforms, id);
    resp := Ok(map["platforms" := IntList(PlatformIds(links))]);
  }

  /**
   * `setPlatforms`: an empty list is refused before the case is looked up,
   * then an unknown case is 404 and an unknown platform 400; otherwise the
   * case's links are deleted, one link per given id is inserted, and the
   * ids are echoed. Repeated ids would hit the link table's unique index,
   * an unhandled database error in the source, which this contract excludes.
   */
  method SetPlatforms(db: Database, id: int, platformIds: seq<int>) returns (resp: Response)
    requires db.Valid()
    requires platformIds != [] && Has(db.cases, id) && FirstFailing(platformIds, Known(db.platforms)) == |platformIds| ==>
      NoDuplicates(platformIds)
    modifies db`casePlatforms
    ensures db.Valid()
    ensures platformIds == [] ==>
      resp == Error(BAD_REQUEST, "At least one platform is required") && db.casePlatforms == old(db.casePlatforms)
    ensures platformIds != [] && !Has(db.cases, id) ==>
      resp == Error(NOT_FOUND, "Case not found") && db.casePlatforms == old(db.casePlatforms)
    ensures platformIds != [] && Has(db.cases, id) && FirstFailing(platformIds, Known(db.platforms)) < |platformIds| ==>
      var k := FirstFailing(platformIds, Known(db.platforms));
      && resp == Error(BAD_REQUEST, "Platform not found: " + IntToString(platformIds[k]))
      && db.casePlatforms == old(db.casePlatforms)
    ensures platformIds != [] && Has(db.cases, id) && FirstFailing(platformIds, Known(db.platforms)) == |platformIds| ==>
      && db.casePlatforms == InsertAll(CasePlatformMapper.DeletedByCaseId(old(db.casePlatforms), id), PlatformLinks(id, platformIds))
      && resp == Ok(map["platforms" := IntList(platformIds)])
  {
    if platformIds == [] {
      return Error(BAD_REQUEST, "At least one platform is required");
    }
    var found := Find(db.cases, id);
    if found.DoesNotExist? {
      return Error(NOT_FOUND, "Case not found");
    }
    var k := FirstUnknownPlatform(db.platforms, platformIds);
    if k < |platformIds| {
      return Error(BAD_REQUEST, "Platform not found: " + IntToString(platformIds[k]));
    }
    CasePlatformMapper.DeleteByCaseId(db, id);
    InsertPlatformLinks(db, id, platformIds);
    resp := Ok(map["platforms" := IntList(platformIds)]);
  }

  /** `getRelated`: the related case ids of the case's links, in link order, or 404. */
  method GetRelated(db: Database, id: int) returns (resp: Response)
    requires db.Valid()
    ensures Has(db.cases, id) ==>
      resp == Ok(map["relatedCases" := IntList(RelatedIds(RelatedCaseMapper.FindByCaseId(db.relatedCases, id)))])
    ensures !Has(db.cases, id) ==> resp == Error(NOT_FOUND, "Case not found")
  {
    var found := Find(db.cases, id);
    if found.DoesNotExist? {
      return Error(NOT_FOUND, "Case not found");
    }
    var links := RelatedCaseMapper.FindByCaseId(db.relatedCases, id);
    resp := Ok(map["relatedCases" := IntList(RelatedIds(links))]);
  }

  /**
   * `setRelated`: an unknown case is 404; then, id by id, the case itself is
   * refused and so is an id that is not a case; otherwise the case's
   * outgoing links are replaced by one per given id (possibly none) and the
   * ids are echoed. Repeated ids would hit the link table's unique index,
   * an unhandled database error in the source, which this contract excludes.
   */
  method SetRelated(db: Database, id: int, relatedIds: seq<int>) returns (resp: Response)
    requires db.Valid()
    requires Has(db.cases, id) && FirstFailing(relatedIds, Relatable(db.cases, id)) == |relatedIds| ==>
      NoDuplicates(relatedIds)
    modifies db`relatedCases
    ensures db.Valid()
    ensures !Has(db.cases, id) ==>
      resp == Error(NOT_FOUND, "Case not found") && db.relatedCases == old(db.relatedCases)
    ensures Has(db.cases, id) && FirstFailing(relatedIds, Relatable(db.cases, id)) < |relatedIds| ==>
      var bad := relatedIds[FirstFailing(relatedIds, Relatable(db.cases, id))];
      && resp == (if bad == id then Error(BAD_REQUEST, "Case cannot be related to itself")
                  else Error(BAD_REQUEST, "Related case not found: " + IntToString(bad)))
      && db.relatedCases == old(db.relatedCases)
    ensures Has(db.cases, id) && FirstFailing(relatedIds, Relatable(db.cases, id)) == |relatedIds| ==>
      && db.relatedCases == InsertAll(RelatedCaseMapper.DeletedByCaseId(old(db.relatedCases), id), RelatedLinks(id, relatedIds))
      && resp == Ok(map["relatedCases" := IntList(relatedIds)])
  {
    var found := Find(db.cases, id);
    if found.DoesNotExist? {
      return Error(NOT_FOUND, "Case not found");
    }
    var k := FirstUnrelatable(db.cases, id, relatedIds);
    if k < |relatedIds| {
      if relatedIds[k] == id {
        return Error(BAD_REQUEST, "Case cannot be related to itself");
      }
      return Error(BAD_REQUEST, "Related case not found: " + IntToString(relatedIds[k]));
    }
    RelatedCaseMapper.DeleteByCaseId(db, id);
    InsertRelatedLinks(db, id, relatedIds);
    resp := Ok(map["relatedCases" := IntList(relatedIds)]);
  }
}
