/** `ReleaseController`: the `/api/releases` endpoints. */
module ReleaseController {
  import opened Wrappers
  import opened Php
  import opened Json
  import opened Http
  import opened Tables
  import opened Entities
  import opened Store
  import ReleaseMapper

  /** `index`: the releases of one product when `productId` is given, otherwise all of them. */
  method Index(db: Database, productId: Option<int>) returns (resp: Response)
    requires db.Valid()
    ensures resp.status == OK && resp.data.Keys == {"releases"}
    ensures productId.None? ==> resp.data["releases"] == ObjectList(FindAll(db.releases), ReleaseJson)
    ensures productId.Some? ==> resp.data["releases"] == ObjectList(ReleaseMapper.FindByProductId(db.releases, productId.value), ReleaseJson)
  {
    var rows;
    if productId.Some? {
      rows := ReleaseMapper.FindByProductId(db.releases, productId.value);
    } else {
      rows := FindAll(db.releases);
    }
    resp := Ok(map["releases" := ObjectList(rows, ReleaseJson)]);
  }

  /** `show`: the stored release with that id, or 404. */
  method Show(db: Database, id: int) returns (resp: Response)
    requires db.Valid()
    ensures Has(db.releases, id) ==>
      && resp == Ok(ReleaseJson(Find(db.releases, id).row))
      && ReleaseFromJson(resp.data) == Some(Find(db.releases, id).row)
    ensures !Has(db.releases, id) ==> resp == Error(NOT_FOUND, "Release not found")
  {
    var found := Find(db.releases, id);
    if found.DoesNotExist? {
      return Error(NOT_FOUND, "Release not found");
    }
    resp := Ok(ReleaseJson(found.row));
  }

  /**
   * `create`: a blank name is refused, an unknown product is 404; otherwise
   * the release is stored under the next id and echoed with status 201.
   */
  method Create(db: Database, name: string, productId: int, description: Option<string>) returns (resp: Response)
    requires db.Valid()
    modifies db`releases
    ensures db.Valid()
    ensures IsBlank(name) ==>
      resp == Error(BAD_REQUEST, "Name is required") && db.releases == old(db.releases)
    ensures !IsBlank(name) && !Has(db.products, productId) ==>
      resp == Error(NOT_FOUND, "Product not found") && db.releases == old(db.releases)
    ensures !IsBlank(name) && Has(db.products, productId) ==>
      var created := Row(old(db.releases).nextId, NewRelease.(name := name, productId := productId, description := description));
      && db.releases == Insert(old(db.releases), created.rec).0
      && resp == Created(ReleaseJson(created))
  {
    if IsBlank(name) {
      return Error(BAD_REQUEST, "Name is required");
    }
    var parent := Find(db.products, productId);
    if parent.DoesNotExist? {
      return Error(NOT_FOUND, "Product not found");
    }
    var release := NewRelease.(name := name, productId := productId, description := description);
    var inserted := ReleaseMapper.Insert(db, release);
    resp := Created(ReleaseJson(inserted));
  }

  /**
   * `update`: a blank name is refused, an unknown id is 404; otherwise name
   * and description are replaced (an omitted description clears it) and the
   * product stays.
   */
  method Update(db: Database, id: int, name: string, description: Option<string>) returns (resp: Response)
    requires db.Valid()
    modifies db`releases
    ensures db.Valid()
    ensures IsBlank(name) ==>
      resp == Error(BAD_REQUEST, "Name is required") && db.releases == old(db.releases)
    ensures !IsBlank(name) && !Has(old(db.releases), id) ==>
      resp == Error(NOT_FOUND, "Release not found") && db.releases == old(db.releases)
    ensures !IsBlank(name) && Has(old(db.releases), id) ==>
      var updated := old(Find(db.releases, id)).row.rec.(name := name, description := description);
      && db.releases == Tables.Update(old(db.releases), id, updated)
      && resp == Ok(ReleaseJson(Row(id, updated)))
  {
    if IsBlank(name) {
      return Error(BAD_REQUEST, "Name is required");
    }
    var found := Find(db.releases, id);
    if found.DoesNotExist? {
      return Error(NOT_FOUND, "Release not found");
    }
    var release := found.row.rec.(name := name, description := description);
    ReleaseMapper.Update(db, id, release);
    resp := Ok(ReleaseJson(Row(id, release)));
  }

  /** `destroy`: removes that release, or answers 404; its runs are not touched. */
  method Destroy(db: Database, id: int) returns (resp: Response)
    requires db.Valid()
    modifies db`releases
    ensures db.Valid()
    ensures !Has(old(db.releases), id) ==>
      resp == Error(NOT_FOUND, "Release not found") && db.releases == old(db.releases)
    ensures Has(old(db.releases), id) ==>
      resp == Ok(Deleted) && db.releases == Delete(old(db.releases), id)
  {
    var found := Find(db.releases, id);
    if found.DoesNotExist? {
      return Error(NOT_FOUND, "Release not found");
    }
    ReleaseMapper.Delete(db, id);
    resp := Ok(Deleted);
  }
}
