/**
 * The entities of `lib/Db`: one record per table, the values a fresh
 * `new X()` starts from, and the `jsonSerialize` projection of a stored row.
 * Every projection carries exactly the keys the source lists, and loses
 * nothing: the row can be read back from it.
 */
module Entities {
  import opened Wrappers
  import opened Json
  import opened Tables

  datatype Product = Product(name: string)
  datatype Release = Release(name: string, description: Option<string>, productId: int)
  datatype TestCase = TestCase(caseNumber: int, name: string, description: Option<string>)
  datatype Step = Step(stepOrder: int, description: string, caseId: int)
  datatype Precondition = Precondition(description: string, caseId: int)
  datatype Expectation = Expectation(description: string, stepId: int)
  datatype Platform = Platform(name: string)
  datatype Run = Run(name: string, start: Option<Instant>, end: Option<Instant>, releaseId: int)
  datatype CasePlatform = CasePlatform(caseId: int, platformId: int)
  datatype RelatedCase = RelatedCase(caseId: int, relatedCaseId: int)
  datatype RunCase = RunCase(runId: int, caseId: int)

  // The property defaults a freshly constructed entity holds.
  const NewProduct: Product := Product("")
  const NewRelease: Release := Release("", None, 0)
  const NewTestCase: TestCase := TestCase(0, "", None)
  const NewStep: Step := Step(0, "", 0)
  const NewPrecondition: Precondition := Precondition("", 0)
  const NewExpectation: Expectation := Expectation("", 0)
  const NewPlatform: Platform := Platform("")
  const NewRun: Run := Run("", None, None, 0)

  // Readers for the JSON values the projections produce.

  function AsInt(j: Json): Option<int> {
    if j.JInt? then Some(j.n) else None
  }

  function AsString(j: Json): Option<string> {
    if j.JString? then Some(j.s) else None
  }

  function AsNullableString(j: Json): Option<Option<string>> {
    if j.JNull? then Some(None) else if j.JString? then Some(Some(j.s)) else None
  }

  function AsNullableInstant(j: Json): Option<Option<Instant>> {
    if j.JNull? then Some(None) else if j.JInstant? then Some(Some(j.t)) else None
  }

  function Field(j: map<string, Json>, key: string): Json {
    if key in j then j[key] else JNull
  }

  function ProductFromJson(j: map<string, Json>): Option<Row<Product>> {
    var id := AsInt(Field(j, "id"));
    var name := AsString(Field(j, "name"));
    if id.Some? && name.Some? then Some(Row(id.value, Product(name.value))) else None
  }

  /** `Product::jsonSerialize`: `id` and `name`. */
  function ProductJson(x: Row<Product>): (j: map<string, Json>)
    ensures j.Keys == {"id", "name"}
    ensures ProductFromJson(j) == Some(x)
  {
    map["id" := JInt(x.id), "name" := JString(x.rec.name)]
  }

  function ReleaseFromJson(j: map<string, Json>): Option<Row<Release>> {
    var id := AsInt(Field(j, "id"));
    var name := AsString(Field(j, "name"));
    var description := AsNullableString(Field(j, "description"));
    var productId := AsInt(Field(j, "productId"));
    if id.Some? && name.Some? && description.Some? && productId.Some?
    then Some(Row(id.value, Release(name.value, description.value, productId.value)))
    else None
  }

  /** `Release::jsonSerialize`: `id`, `name`, `description` (null when unset) and `productId`. */
  function ReleaseJson(x: Row<Release>): (j: map<string, Json>)
    ensures j.Keys == {"id", "name", "description", "productId"}
    ensures ReleaseFromJson(j) == Some(x)
  {
    map[
      "id" := JInt(x.id),
      "name" := JString(x.rec.name),
      "description" := NullableString(x.rec.description),
      "productId" := JInt(x.rec.productId)]
  }

  function TestCaseFromJson(j: map<string, Json>): Option<Row<TestCase>> {
    var id := AsInt(Field(j, "id"));
    var caseNumber := AsInt(Field(j, "caseNumber"));
    var name := AsString(Field(j, "name"));
    var description := AsNullableString(Field(j, "description"));
    if id.Some? && caseNumber.Some? && name.Some? && description.Some?
    then Some(Row(id.value, TestCase(caseNumber.value, name.value, description.value)))
    else None
  }

  /** `TestCase::jsonSerialize`: `id`, `caseNumber`, `name` and `description` (null when unset). */
  function TestCaseJson(x: Row<TestCase>): (j: map<string, Json>)
    ensures j.Keys == {"id", "caseNumber", "name", "description"}
    ensures TestCaseFromJson(j) == Some(x)
  {
    map[
      "id" := JInt(x.id),
      "caseNumber" := JInt(x.rec.caseNumber),
      "name" := JString(x.rec.name),
      "description" := NullableString(x.rec.description)]
  }

  function StepFromJson(j: map<string, Json>): Option<Row<Step>> {
    var id := AsInt(Field(j, "id"));
    var order := AsInt(Field(j, "order"));
    var description := AsString(Field(j, "description"));
    var caseId := AsInt(Field(j, "caseId"));
    if id.Some? && order.Some? && description.Some? && caseId.Some?
    then Some(Row(id.value, Step(order.value, description.value, caseId.value)))
    else None
  }

  /** `Step::jsonSerialize`: the step order goes out under the key `order`. */
  function StepJson(x: Row<Step>): (j: map<string, Json>)
    ensures j.Keys == {"id", "order", "description", "caseId"}
    ensures j["order"] == JInt(x.rec.stepOrder)
    ensures StepFromJson(j) == Some(x)
  {
    map[
      "id" := JInt(x.id),
      "order" := JInt(x.rec.stepOrder),
      "description" := JString(x.rec.description),
      "caseId" := JInt(x.rec.caseId)]
  }

  function PreconditionFromJson(j: map<string, Json>): Option<Row<Precondition>> {
    var id := AsInt(Field(j, "id"));
    var description := AsString(Field(j, "description"));
    var caseId := AsInt(Field(j, "caseId"));
    if id.Some? && description.Some? && caseId.Some?
    then Some(Row(id.value, Precondition(description.value, caseId.value)))
    else None
  }

  /** `Precondition::jsonSerialize`: `id`, `description` and `caseId`. */
  function PreconditionJson(x: Row<Precondition>): (j: map<string, Json>)
    ensures j.Keys == {"id", "description", "caseId"}
    ensures PreconditionFromJson(j) == Some(x)
  {
    map["id" := JInt(x.id), "description" := JString(x.rec.description), "caseId" := JInt(x.rec.caseId)]
  }

  function ExpectationFromJson(j: map<string, Json>): Option<Row<Expectation>> {
    var id := AsInt(Field(j, "id"));
    var description := AsString(Field(j, "description"));
    var stepId := AsInt(Field(j, "stepId"));
    if id.Some? && description.Some? && stepId.Some?
    then Some(Row(id.value, Expectation(description.value, stepId.value)))
    else None
  }

  /** `Expectation::jsonSerialize`: `id`, `description` and `stepId`. */
  function ExpectationJson(x: Row<Expectation>): (j: map<string, Json>)
    ensures j.Keys == {"id", "description", "stepId"}
    ensures ExpectationFromJson(j) == Some(x)
  {
    map["id" := JInt(x.id), "description" := JString(x.rec.description), "stepId" := JInt(x.rec.stepId)]
  }

  function PlatformFromJson(j: map<string, Json>): Option<Row<Platform>> {
    var id := AsInt(Field(j, "id"));
    var name := AsString(Field(j, "name"));
    if id.Some? && name.Some? then Some(Row(id.value, Platform(name.value))) else None
  }

  /** `Platform::jsonSerialize`: `id` and `name`. */
  function PlatformJson(x: Row<Platform>): (j: map<string, Json>)
    ensures j.Keys == {"id", "name"}
    ensures PlatformFromJson(j) == Some(x)
  {
    map["id" := JInt(x.id), "name" := JString(x.rec.name)]
  }

  function RunFromJson(j: map<string, Json>): Option<Row<Run>> {
    var id := AsInt(Field(j, "id"));
    var name := AsString(Field(j, "name"));
    var start := AsNullableInstant(Field(j, "start"));
    var end := AsNullableInstant(Field(j, "end"));
    var releaseId := AsInt(Field(j, "releaseId"));
    if id.Some? && name.Some? && start.Some? && end.Some? && releaseId.Some?
    then Some(Row(id.value, Run(name.value, start.value, end.value, releaseId.value)))
    else None
  }

  /**
   * `Run::jsonSerialize`: `id`, `name`, `start` and `end` (each null when
   * unset, otherwise rendered in the ATOM format) and `releaseId`.
   */
  function RunJson(x: Row<Run>): (j: map<string, Json>)
    ensures j.Keys == {"id", "name", "start", "end", "releaseId"}
    ensures j["start"] == JNull <==> x.rec.start.None?
    ensures j["end"] == JNull <==> x.rec.end.None?
    ensures RunFromJson(j) == Some(x)
  {
    map[
      "id" := JInt(x.id),
      "name" := JString(x.rec.name),
      "start" := NullableInstant(x.rec.start),
      "end" := NullableInstant(x.rec.end),
      "releaseId" := JInt(x.rec.releaseId)]
  }

  function CasePlatformFromJson(j: map<string, Json>): Option<Row<CasePlatform>> {
    var id := AsInt(Field(j, "id"));
    var caseId := AsInt(Field(j, "caseId"));
    var platformId := AsInt(Field(j, "platformId"));
    if id.Some? && caseId.Some? && platformId.Some?
    then Some(Row(id.value, CasePlatform(caseId.value, platformId.value)))
    else None
  }

  /** `CasePlatform::jsonSerialize`: `id`, `caseId` and `platformId`. */
  function CasePlatformJson(x: Row<CasePlatform>): (j: map<string, Json>)
    ensures j.Keys == {"id", "caseId", "platformId"}
    ensures CasePlatformFromJson(j) == Some(x)
  {
    map["id" := JInt(x.id), "caseId" := JInt(x.rec.caseId), "platformId" := JInt(x.rec.platformId)]
  }

  function RelatedCaseFromJson(j: map<string, Json>): Option<Row<RelatedCase>> {
    var id := AsInt(Field(j, "id"));
    var caseId := AsInt(Field(j, "caseId"));
    var relatedCaseId := AsInt(Field(j, "relatedCaseId"));
    if id.Some? && caseId.Some? && relatedCaseId.Some?
    then Some(Row(id.value, RelatedCase(caseId.value, relatedCaseId.value)))
    else None
  }

  /** `RelatedCase::jsonSerialize`: `id`, `caseId` and `relatedCaseId`. */
  function RelatedCaseJson(x: Row<RelatedCase>): (j: map<string, Json>)
    ensures j.Keys == {"id", "caseId", "relatedCaseId"}
    ensures RelatedCaseFromJson(j) == Some(x)
  {
    map["id" := JInt(x.id), "caseId" := JInt(x.rec.caseId), "relatedCaseId" := JInt(x.rec.relatedCaseId)]
  }

  function RunCaseFromJson(j: map<string, Json>): Option<Row<RunCase>> {
    var id := AsInt(Field(j, "id"));
    var runId := AsInt(Field(j, "runId"));
    var caseId := AsInt(Field(j, "caseId"));
    if id.Some? && runId.Some? && caseId.Some?
    then Some(Row(id.value, RunCase(runId.value, caseId.value)))
    else None
  }

  /** `RunCase::jsonSerialize`: `id`, `runId` and `caseId`. */
  function RunCaseJson(x: Row<RunCase>): (j: map<string, Json>)
    ensures j.Keys == {"id", "runId", "caseId"}
    ensures RunCaseFromJson(j) == Some(x)
  {
    map["id" := JInt(x.id), "runId" := JInt(x.rec.runId), "caseId" := JInt(x.rec.caseId)]
  }
}
