/** `PreconditionController`: the `/api/preconditions` endpoints. */
module PreconditionController {
  import opened Wrappers
  import opened Php
  import opened Json
  import opened Http
  import opened Tables
  import opened Entities
  import opened Store
  import PreconditionMapper

  /** `index`: the preconditions of one case when `caseId` is given, otherwise all of them. */
  method Index(db: Database, caseId: Option<int>) returns (resp: Response)
    requires db.Valid()
    ensures resp.status == OK && resp.data.Keys == {"preconditions"}
    ensures caseId.None? ==> resp.data["preconditions"] == ObjectList(FindAll(db.preconditions), PreconditionJson)
    ensures caseId.Some? ==> resp.data["preconditions"] == ObjectList(PreconditionMapper.FindByCaseId(db.preconditions, caseId.value), PreconditionJson)
  {
    var rows;
    if caseId.Some? {
      rows := PreconditionMapper.FindByCaseId(db.preconditions, caseId.value);
    } else {
      rows := FindAll(db.preconditions);
    }
    resp := Ok(map["preconditions" := ObjectList(rows, PreconditionJson)]);
  }

  /** `show`: the stored precondition with that id, or 404. */
  method Show(db: Database, id: int) returns (resp: Response)
    requires db.Valid()
    ensures Has(db.preconditions, id) ==>
      && resp == Ok(PreconditionJson(Find(db.preconditions, id).row))
      && PreconditionFromJson(resp.data) == Some(Find(db.preconditions, id).row)
    ensures !Has(db.preconditions, id) ==> resp == Error(NOT_FOUND, "Precondition not found")
  {
    var found := Find(db.preconditions, id);
    if found.DoesNotExist? {
      return Error(NOT_FOUND, "Precondition not found");
    }
    resp := Ok(PreconditionJson(found.row));
  }

  /**
   * `create`: a blank description is refused, an unknown case is 404;
   * otherwise the precondition is stored under the next id and echoed with status 201.
   */
  method Create(db: Database, description: string, caseId: int) returns (resp: Response)
    requires db.Valid()
    modifies db`preconditions
    ensures db.Valid()
    ensures IsBlank(description) ==>
      resp == Error(BAD_REQUEST, "Description is required") && db.preconditions == old(db.preconditions)
    ensures !IsBlank(description) && !Has(db.cases, caseId) ==>
      resp == Error(NOT_FOUND, "Case not found") && db.preconditions == old(db.preconditions)
    ensures !IsBlank(description) && Has(db.cases, caseId) ==>
      var created := Row(old(db.preconditions).nextId, NewPrecondition.(description := description, caseId := caseId));
      && db.preconditions == Insert(old(db.preconditions), created.rec).0
      && resp == Created(PreconditionJson(created))
  {
    if IsBlank(description) {
      return Error(BAD_REQUEST, "Description is required");
    }
    var parent := Find(db.cases, caseId);
    if parent.DoesNotExist? {
      return Error(NOT_FOUND, "Case not found");
    }
    var precondition := NewPrecondition.(description := description, caseId := caseId);
    var inserted := PreconditionMapper.Insert(db, precondition);
    resp := Created(PreconditionJson(inserted));
  }

  /**
   * `update`: a blank description is refused, an unknown id is 404;
   * otherwise the description is replaced and the case stays.
   */
  method Update(db: Database, id: int, description: string) returns (resp: Response)
    requires db.Valid()
    modifies db`preconditions
    ensures db.Valid()
    ensures IsBlank(description) ==>
      resp == Error(BAD_REQUEST, "Description is required") && db.preconditions == old(db.preconditions)
    ensures !IsBlank(description) && !Has(old(db.preconditions), id) ==>
      resp == Error(NOT_FOUND, "Precondition not found") && db.preconditions == old(db.preconditions)
    ensures !IsBlank(description) && Has(old(db.preconditions), id) ==>
      var updated := old(Find(db.preconditions, id)).row.rec.(description := description);
      && db.preconditions == Tables.Update(old(db.preconditions), id, updated)
      && resp == Ok(PreconditionJson(Row(id, updated)))
  {
    if IsBlank(description) {
      return Error(BAD_REQUEST, "Description is required");
    }
    var found := Find(db.preconditions, id);
    if found.DoesNotExist? {
      return Error(NOT_FOUND, "Precondition not found");
    }
    var precondition := found.row.rec.(description := description);
    PreconditionMapper.Update(db, id, precondition);
    resp := Ok(PreconditionJson(Row(id, precondition)));
  }

  /** `destroy`: removes that precondition, or answers 404; nothing else is touched. */
  method Destroy(db: Database, id: int) returns (resp: Response)
    requires db.Valid()
    modifies db`preconditions
    ensures db.Valid()
    ensures !Has(old(db.preconditions), id) ==>
      resp == Error(NOT_FOUND, "Precondition not found") && db.preconditions == old(db.preconditions)
    ensures Has(old(db.preconditions), id) ==>
      resp == Ok(Deleted) && db.preconditions == Delete(old(db.preconditions), id)
  {
    var found := Find(db.preconditions, id);
    if found.DoesNotExist? {
      return Error(NOT_FOUND, "Precondition not found");
    }
    PreconditionMapper.Delete(db, id);
    resp := Ok(Deleted);
  }
}
