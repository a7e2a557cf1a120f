/** `ProductController`: the `/api/products` endpoints. */
module ProductController {
  import opened Wrappers
  import opened Php
  import opened Json
  import opened Http
  import opened Tables
  import opened Entities
  import opened Store
  import ProductMapper

  /** `index`: every product, in table order. */
  method Index(db: Database) returns (resp: Response)
    requires db.Valid()
    ensures resp.status == OK && resp.data.Keys == {"products"}
    ensures resp.data["products"] == ObjectList(FindAll(db.products), ProductJson)
  {
    resp := Ok(map["products" := ObjectList(FindAll(db.products), ProductJson)]);
  }

  /** `show`: the stored product with that id, or 404. */
  method Show(db: Database, id: int) returns (resp: Response)
    requires db.Valid()
    ensures Has(db.products, id) ==>
      && resp == Ok(ProductJson(Find(db.products, id).row))
      && ProductFromJson(resp.data) == Some(Find(db.products, id).row)
    ensures !Has(db.products, id) ==> resp == Error(NOT_FOUND, "Product not found")
  {
    var found := Find(db.products, id);
    if found.DoesNotExist? {
      return Error(NOT_FOUND, "Product not found");
    }
    resp := Ok(ProductJson(found.row));
  }

  /**
   * `create`: a blank name is refused; otherwise the name, untrimmed, is
   * stored under the next id and echoed with status 201.
   */
  method Create(db: Database, name: string) returns (resp: Response)
    requires db.Valid()
    modifies db`products
    ensures db.Valid()
    ensures IsBlank(name) ==>
      resp == Error(BAD_REQUEST, "Name is required") && db.products == old(db.products)
    ensures !IsBlank(name) ==>
      var created := Row(old(db.products).nextId, NewProduct.(name := name));
      && db.products == Insert(old(db.products), created.rec).0
      && resp == Created(ProductJson(created))
  {
    if IsBlank(name) {
      return Error(BAD_REQUEST, "Name is required");
    }
    var product := NewProduct.(name := name);
    var inserted := ProductMapper.Insert(db, product);
    resp := Created(ProductJson(inserted));
  }

  /**
   * `update`: a blank name is refused, an unknown id is 404; otherwise the
   * name is replaced.
   */
  method Update(db: Database, id: int, name: string) returns (resp: Response)
    requires db.Valid()
    modifies db`products
    ensures db.Valid()
    ensures IsBlank(name) ==>
      resp == Error(BAD_REQUEST, "Name is required") && db.products == old(db.products)
    ensures !IsBlank(name) && !Has(old(db.products), id) ==>
      resp == Error(NOT_FOUND, "Product not found") && db.products == old(db.products)
    ensures !IsBlank(name) && Has(old(db.products), id) ==>
      var updated := old(Find(db.products, id)).row.rec.(name := name);
      && db.products == Tables.Update(old(db.products), id, updated)
      && resp == Ok(ProductJson(Row(id, updated)))
  {
    if IsBlank(name) {
      return Error(BAD_REQUEST, "Name is required");
    }
    var found := Find(db.products, id);
    if found.DoesNotExist? {
      return Error(NOT_FOUND, "Product not found");
    }
    var product := found.row.rec.(name := name);
    ProductMapper.Update(db, id, product);
    resp := Ok(ProductJson(Row(id, product)));
  }

  /** `destroy`: removes that product, or answers 404; its releases are not touched. */
  method Destroy(db: Database, id: int) returns (resp: Response)
    requires db.Valid()
    modifies db`products
    ensures db.Valid()
    ensures !Has(old(db.products), id) ==>
      resp == Error(NOT_FOUND, "Product not found") && db.products == old(db.products)
    ensures Has(old(db.products), id) ==>
      resp == Ok(Deleted) && db.products == Delete(old(db.products), id)
  {
    var found := Find(db.products, id);
    if found.DoesNotExist? {
      return Error(NOT_FOUND, "Product not found");
    }
    ProductMapper.Delete(db, id);
    resp := Ok(Deleted);
  }
}
