/** `PlatformController`: the `/api/platforms` endpoints. */
module PlatformController {
  import opened Wrappers
  import opened Php
  import opened Json
  import opened Http
  import opened Tables
  import opened Entities
  import opened Store
  import PlatformMapper

  /** `index`: every platform, in table order. */
  method Index(db: Database) returns (resp: Response)
    requires db.Valid()
    ensures resp.status == OK && resp.data.Keys == {"platforms"}
    ensures resp.data["platforms"] == ObjectList(FindAll(db.platforms), PlatformJson)
  {
    resp := Ok(map["platforms" := ObjectList(FindAll(db.platforms), PlatformJson)]);
  }

  /** `show`: the stored platform with that id, or 404. */
  method Show(db: Database, id: int) returns (resp: Response)
    requires db.Valid()
    ensures Has(db.platforms, id) ==>
      && resp == Ok(PlatformJson(Find(db.platforms, id).row))
      && PlatformFromJson(resp.data) == Some(Find(db.platforms, id).row)
    ensures !Has(db.platforms, id) ==> resp == Error(NOT_FOUND, "Platform not found")
  {
    var found := Find(db.platforms, id);
    if found.DoesNotExist? {
      return Error(NOT_FOUND, "Platform not found");
    }
    resp := Ok(PlatformJson(found.row));
  }

  /**
   * `create`: a blank name is refused; otherwise the name, untrimmed, is
   * stored under the next id and echoed with status 201.
   */
  method Create(db: Database, name: string) returns (resp: Response)
    requires db.Valid()
    requires !IsBlank(name) ==> forall x :: x in db.platforms.rows ==> x.rec.name != name
    modifies db`platforms
    ensures db.Valid()
    ensures IsBlank(name) ==>
      resp == Error(BAD_REQUEST, "Name is required") && db.platforms == old(db.platforms)
    ensures !IsBlank(name) ==>
      var created := Row(old(db.platforms).nextId, NewPlatform.(name := name));
      && db.platforms == Insert(old(db.platforms), created.rec).0
      && resp == Created(PlatformJson(created))
  {
    if IsBlank(name) {
      return Error(BAD_REQUEST, "Name is required");
    }
    var platform := NewPlatform.(name := name);
    var inserted := PlatformMapper.Insert(db, platform);
    resp := Created(PlatformJson(inserted));
  }

  /**
   * `update`: a blank name is refused, an unknown id is 404; otherwise the
   * name is replaced.
   */
  method Update(db: Database, id: int, name: string) returns (resp: Response)
    requires db.Valid()
    requires !IsBlank(name) && Has(db.platforms, id) ==>
      forall x :: x in db.platforms.rows && x.rec.name == name ==> x.id == id
    modifies db`platforms
    ensures db.Valid()
    ensures IsBlank(name) ==>
      resp == Error(BAD_REQUEST, "Name is required") && db.platforms == old(db.platforms)
    ensures !IsBlank(name) && !Has(old(db.platforms), id) ==>
      resp == Error(NOT_FOUND, "Platform not found") && db.platforms == old(db.platforms)
    ensures !IsBlank(name) && Has(old(db.platforms), id) ==>
      var updated := old(Find(db.platforms, id)).row.rec.(name := name);
      && db.platforms == Tables.Update(old(db.platforms), id, updated)
      && resp == Ok(PlatformJson(Row(id, updated)))
  {
    if IsBlank(name) {
      return Error(BAD_REQUEST, "Name is required");
    }
    var found := Find(db.platforms, id);
    if found.DoesNotExist? {
      return Error(NOT_FOUND, "Platform not found");
    }
    var platform := found.row.rec.(name := name);
    PlatformMapper.Update(db, id, platform);
    resp := Ok(PlatformJson(Row(id, platform)));
  }

  /** `destroy`: removes that platform, or answers 404; links from cases to it are not touched. */
  method Destroy(db: Database, id: int) returns (resp: Response)
    requires db.Valid()
    modifies db`platforms
    ensures db.Valid()
    ensures !Has(old(db.platforms), id) ==>
      resp == Error(NOT_FOUND, "Platform not found") && db.platforms == old(db.platforms)
    ensures Has(old(db.platforms), id) ==>
      resp == Ok(Deleted) && db.platforms == Delete(old(db.platforms), id)
  {
    var found := Find(db.platforms, id);
    if found.DoesNotExist? {
      return Error(NOT_FOUND, "Platform not found");
    }
    PlatformMapper.Delete(db, id);
    resp := Ok(Deleted);
  }
}
