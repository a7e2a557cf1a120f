/** `ExpectationController`: the `/api/expectations` endpoints. */
module ExpectationController {
  import opened Wrappers
  import opened Php
  import opened Json
  import opened Http
  import opened Tables
  import opened Entities
  import opened Store
  import ExpectationMapper

  /** `index`: the expectations of one step when `stepId` is given, otherwise all of them. */
  method Index(db: Database, stepId: Option<int>) returns (resp: Response)
    requires db.Valid()
    ensures resp.status == OK && resp.data.Keys == {"expectations"}
    ensures stepId.None? ==> resp.data["expectations"] == ObjectList(FindAll(db.expectations), ExpectationJson)
    ensures stepId.Some? ==> resp.data["expectations"] == ObjectList(ExpectationMapper.FindByStepId(db.expectations, stepId.value), ExpectationJson)
  {
    var rows;
    if stepId.Some? {
      rows := ExpectationMapper.FindByStepId(db.expectations, stepId.value);
    } else {
      rows := FindAll(db.expectations);
    }
    resp := Ok(map["expectations" := ObjectList(rows, ExpectationJson)]);
  }

  /** `show`: the stored expectation with that id, or 404. */
  method Show(db: Database, id: int) returns (resp: Response)
    requires db.Valid()
    ensures Has(db.expectations, id) ==>
      && resp == Ok(ExpectationJson(Find(db.expectations, id).row))
      && ExpectationFromJson(resp.data) == Some(Find(db.expectations, id).row)
    ensures !Has(db.expectations, id) ==> resp == Error(NOT_FOUND, "Expectation not found")
  {
    var found := Find(db.expectations, id);
    if found.DoesNotExist? {
      return Error(NOT_FOUND, "Expectation not found");
    }
    resp := Ok(ExpectationJson(found.row));
  }

  /**
   * `create`: a blank description is refused, an unknown step is 404;
   * otherwise the expectation is stored under the next id and echoed with status 201.
   */
  method Create(db: Database, description: string, stepId: int) returns (resp: Response)
    requires db.Valid()
    modifies db`expectations
    ensures db.Valid()
    ensures IsBlank(description) ==>
      resp == Error(BAD_REQUEST, "Description is required") && db.expectations == old(db.expectations)
    ensures !IsBlank(description) && !Has(db.steps, stepId) ==>
      resp == Error(NOT_FOUND, "Step not found") && db.expectations == old(db.expectations)
    ensures !IsBlank(description) && Has(db.steps, stepId) ==>
      var created := Row(old(db.expectations).nextId, NewExpectation.(description := description, stepId := stepId));
      && db.expectations == Insert(old(db.expectations), created.rec).0
      && resp == Created(ExpectationJson(created))
  {
    if IsBlank(description) {
      return Error(BAD_REQUEST, "Description is required");
    }
    var parent := Find(db.steps, stepId);
    if parent.DoesNotExist? {
      return Error(NOT_FOUND, "Step not found");
    }
    var expectation := NewExpectation.(description := description, stepId := stepId);
    var inserted := ExpectationMapper.Insert(db, expectation);
    resp := Created(ExpectationJson(inserted));
  }

  /**
   * `update`: a blank description is refused, an unknown id is 404;
   * otherwise the description is replaced and the step stays.
   */
  method Update(db: Database, id: int, description: string) returns (resp: Response)
    requires db.Valid()
    modifies db`expectations
    ensures db.Valid()
    ensures IsBlank(description) ==>
      resp == Error(BAD_REQUEST, "Description is required") && db.expectations == old(db.expectations)
    ensures !IsBlank(description) && !Has(old(db.expectations), id) ==>
      resp == Error(NOT_FOUND, "Expectation not found") && db.expectations == old(db.expectations)
    ensures !IsBlank(description) && Has(old(db.expectations), id) ==>
      var updated := old(Find(db.expectations, id)).row.rec.(description := description);
      && db.expectations == Tables.Update(old(db.expectations), id, updated)
      && resp == Ok(ExpectationJson(Row(id, updated)))
  {
    if IsBlank(description) {
      return Error(BAD_REQUEST, "Description is required");
    }
    var found := Find(db.expectations, id);
    if found.DoesNotExist? {
      return Error(NOT_FOUND, "Expectation not found");
    }
    var expectation := found.row.rec.(description := description);
    ExpectationMapper.Update(db, id, expectation);
    resp := Ok(ExpectationJson(Row(id, expectation)));
  }

  /** `destroy`: removes that expectation, or answers 404; nothing else is touched. */
  method Destroy(db: Database, id: int) returns (resp: Response)
    requires db.Valid()
    modifies db`expectations
    ensures db.Valid()
    ensures !Has(old(db.expectations), id) ==>
      resp == Error(NOT_FOUND, "Expectation not found") && db.expectations == old(db.expectations)
    ensures Has(old(db.expectations), id) ==>
      resp == Ok(Deleted) && db.expectations == Delete(old(db.expectations), id)
  {
    var found := Find(db.expectations, id);
    if found.DoesNotExist? {
      return Error(NOT_FOUND, "Expectation not found");
    }
    ExpectationMapper.Delete(db, id);
    resp := Ok(Deleted);
  }
}
