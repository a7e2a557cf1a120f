/** `StepController`: the `/api/steps` endpoints. */
module StepController {
  import opened Wrappers
  import opened Php
  import opened Json
  import opened Http
  import opened Tables
  import opened Entities
  import opened Store
  import StepMapper

  /** `index`: the steps of one case in step order when `caseId` is given,
   * otherwise all steps. */
  method Index(db: Database, caseId: Option<int>) returns (resp: Response)
    requires db.Valid()
    ensures resp.status == OK && resp.data.Keys == {"steps"}
    ensures caseId.None? ==> resp.data["steps"] == ObjectList(FindAll(db.steps), StepJson)
    ensures caseId.Some? ==> resp.data["steps"] == ObjectList(StepMapper.FindByCaseId(db.steps, caseId.value), StepJson)
  {
    var rows;
    if caseId.Some? {
      rows := StepMapper.FindByCaseId(db.steps, caseId.value);
    } else {
      rows := FindAll(db.steps);
    }
    resp := Ok(map["steps" := ObjectList(rows, StepJson)]);
  }

  /** `show`: the stored step with that id, or 404. */
  method Show(db: Database, id: int) returns (resp: Response)
    requires db.Valid()
    ensures Has(db.steps, id) ==>
      && resp == Ok(StepJson(Find(db.steps, id).row))
      && StepFromJson(resp.data) == Some(Find(db.steps, id).row)
    ensures !Has(db.steps, id) ==> resp == Error(NOT_FOUND, "Step not found")
  {
    var found := Find(db.steps, id);
    if found.DoesNotExist? {
      return Error(NOT_FOUND, "Step not found");
    }
    resp := Ok(StepJson(found.row));
  }

  /**
   * `create`: a blank description is refused, an unknown case is 404;
   * otherwise the step is stored under the next id and echoed with status 201.
   */
  method Create(db: Database, order: int, description: string, caseId: int) returns (resp: Response)
    requires db.Valid()
    modifies db`steps
    ensures db.Valid()
    ensures IsBlank(description) ==>
      resp == Error(BAD_REQUEST, "Description is required") && db.steps == old(db.steps)
    ensures !IsBlank(description) && !Has(db.cases, caseId) ==>
      resp == Error(NOT_FOUND, "Case not found") && db.steps == old(db.steps)
    ensures !IsBlank(description) && Has(db.cases, caseId) ==>
      var created := Row(old(db.steps).nextId, NewStep.(stepOrder := order, description := description, caseId := caseId));
      && db.steps == Insert(old(db.steps), created.rec).0
      && resp == Created(StepJson(created))
  {
    if IsBlank(description) {
      return Error(BAD_REQUEST, "Description is required");
    }
    var parent := Find(db.cases, caseId);
    if parent.DoesNotExist? {
      return Error(NOT_FOUND, "Case not found");
    }
    var step := NewStep.(stepOrder := order, description := description, caseId := caseId);
    var inserted := StepMapper.Insert(db, step);
    resp := Created(StepJson(inserted));
  }

  /**
   * `update`: a blank description is refused, an unknown id is 404;
   * otherwise order and description are replaced and the case stays.
   */
  method Update(db: Database, id: int, order: int, description: string) returns (resp: Response)
    requires db.Valid()
    modifies db`steps
    ensures db.Valid()
    ensures IsBlank(description) ==>
      resp == Error(BAD_REQUEST, "Description is required") && db.steps == old(db.steps)
    ensures !IsBlank(description) && !Has(old(db.steps), id) ==>
      resp == Error(NOT_FOUND, "Step not found") && db.steps == old(db.steps)
    ensures !IsBlank(description) && Has(old(db.steps), id) ==>
      var updated := old(Find(db.steps, id)).row.rec.(stepOrder := order, description := description);
      && db.steps == Tables.Update(old(db.steps), id, updated)
      && resp == Ok(StepJson(Row(id, updated)))
  {
    if IsBlank(description) {
      return Error(BAD_REQUEST, "Description is required");
    }
    var found := Find(db.steps, id);
    if found.DoesNotExist? {
      return Error(NOT_FOUND, "Step not found");
    }
    var step := found.row.rec.(stepOrder := order, description := description);
    StepMapper.Update(db, id, step);
    resp := Ok(StepJson(Row(id, step)));
  }

  /** `destroy`: removes that step, or answers 404; its expectations are not touched. */
  method Destroy(db: Database, id: int) returns (resp: Response)
    requires db.Valid()
    modifies db`steps
    ensures db.Valid()
    ensures !Has(old(db.steps), id) ==>
      resp == Error(NOT_FOUND, "Step not found") && db.steps == old(db.steps)
    ensures Has(old(db.steps), id) ==>
      resp == Ok(Deleted) && db.steps == Delete(old(db.steps), id)
  {
    var found := Find(db.steps, id);
    if found.DoesNotExist? {
      return Error(NOT_FOUND, "Step not found");
    }
    StepMapper.Delete(db, id);
    resp := Ok(Deleted);
  }
}
