/**
 * `RunController`: the `/api/runs` endpoints. A run belongs to a release,
 * may carry a start and an end time, and collects the cases executed in it.
 */
module RunController {
  import opened Wrappers
  import opened Php
  import opened Json
  import opened Http
  import opened Tables
  import opened Entities
  import opened Store
  import RunMapper
  import RunCaseMapper

  /**
   * The strict ISO 8601 (`DateTime::ATOM`) reader the source delegates to:
   * `None` where it gives up. It is a parameter of the endpoints that read
   * dates, so every contract below holds whatever that reader accepts.
   */
  type DateParser = string -> Option<Instant>

  /** The error body of a date that does not parse, naming the field. */
  function InvalidDate(fieldName: string): Response {
    Error(BAD_REQUEST, "Invalid " + fieldName + " datetime format. Use ISO 8601.")
  }

  /** `parseDateTime`: the instant the reader finds, or a 400 response naming the field. */
  function ParseDateTime(parse: DateParser, value: string, fieldName: string): (r: Result<Instant, Response>)
    ensures r.Success? <==> parse(value).Some?
    ensures r.Success? ==> Some(r.value) == parse(value)
    ensures r.Failure? ==> r.error == InvalidDate(fieldName)
  {
    match parse(value)
    case Some(t) => Success(t)
    case None => Failure(InvalidDate(fieldName))
  }

  /**
   * One optional date parameter of `create` or `update`: an omitted value
   * keeps `current` (the default on create, the stored time on update); a
   * given one must parse and then replaces it. A given value never clears
   * the time.
   */
  function ParseOptional(parse: DateParser, value: Option<string>, fieldName: string, current: Option<Instant>)
    : (r: Result<Option<Instant>, Response>)
    ensures value.None? ==> r == Success(current)
    ensures value.Some? && parse(value.value).Some? ==> r == Success(parse(value.value))
    ensures value.Some? && parse(value.value).None? ==> r == Failure(InvalidDate(fieldName))
  {
    if value.None? then Success(current)
    else
      match ParseDateTime(parse, value.value, fieldName)
      case Success(t) => Success(Some(t))
      case Failure(e) => Failure(e)
  }

  /** The `array_map` of `getCases`: the case id of every link, in order. */
  function CaseIds(rows: seq<Row<RunCase>>): (ids: seq<int>)
    ensures |ids| == |rows|
    ensures forall k :: 0 <= k < |rows| ==> ids[k] == rows[k].rec.caseId
  {
    seq(|rows|, k requires 0 <= k < |rows| => rows[k].rec.caseId)
  }

  /** `index`: the runs of one release when `releaseId` is given, otherwise all of them. */
  method Index(db: Database, releaseId: Option<int>) returns (resp: Response)
    requires db.Valid()
    ensures resp.status == OK && resp.data.Keys == {"runs"}
    ensures releaseId.None? ==> resp.data["runs"] == ObjectList(FindAll(db.runs), RunJson)
    ensures releaseId.Some? ==> resp.data["runs"] == ObjectList(RunMapper.FindByReleaseId(db.runs, releaseId.value), RunJson)
  {
    var rows;
    if releaseId.Some? {
      rows := RunMapper.FindByReleaseId(db.runs, releaseId.value);
    } else {
      rows := FindAll(db.runs);
    }
    resp := Ok(map["runs" := ObjectList(rows, RunJson)]);
  }

  /** `show`: the stored run with that id, or 404. */
  method Show(db: Database, id: int) returns (resp: Response)
    requires db.Valid()
    ensures Has(db.runs, id) ==>
      && resp == Ok(RunJson(Find(db.runs, id).row))
      && RunFromJson(resp.data) == Some(Find(db.runs, id).row)
    ensures !Has(db.runs, id) ==> resp == Error(NOT_FOUND, "Run not found")
  {
    var found := Find(db.runs, id);
    if found.DoesNotExist? {
      return Error(NOT_FOUND, "Run not found");
    }
    resp := Ok(RunJson(found.row));
  }

  /**
   * `create`: a blank name is refused, an unknown release is 404, then a
   * given start and a given end must parse, in that order; otherwise the run
   * is stored under the next id with the parsed times (omitted ones stay
   * unset) and echoed with status 201.
   */
  method Create(db: Database, parse: DateParser, name: string, releaseId: int, start: Option<string>, end: Option<string>)
    returns (resp: Response)
    requires db.Valid()
    modifies db`runs
    ensures db.Valid()
    ensures IsBlank(name) ==>
      resp == Error(BAD_REQUEST, "Name is required") && db.runs == old(db.runs)
    ensures !IsBlank(name) && !Has(db.releases, releaseId) ==>
      resp == Error(NOT_FOUND, "Release not found") && db.runs == old(db.runs)
    ensures !IsBlank(name) && Has(db.releases, releaseId) ==>
      var startAt := ParseOptional(parse, start, "start", None);
      var endAt := ParseOptional(parse, end, "end", None);
      && (startAt.Failure? ==> resp == startAt.error && db.runs == old(db.runs))
      && (startAt.Success? && endAt.Failure? ==> resp == endAt.error && db.runs == old(db.runs))
      && (startAt.Success? && endAt.Success? ==>
            var created := Row(old(db.runs).nextId, Run(name, startAt.value, endAt.value, releaseId));
            && db.runs == Insert(old(db.runs), created.rec).0
            && resp == Created(RunJson(created)))
  {
    if IsBlank(name) {
      return Error(BAD_REQUEST, "Name is required");
    }
    var release := Find(db.releases, releaseId);
    if release.DoesNotExist? {
      return Error(NOT_FOUND, "Release not found");
    }
    var run := NewRun.(name := name, releaseId := releaseId);
    var startAt := ParseOptional(parse, start, "start", run.start);
    if startAt.Failure? {
      return startAt.error;
    }
    run := run.(start := startAt.value);
    var endAt := ParseOptional(parse, end, "end", run.end);
    if endAt.Failure? {
      return endAt.error;
    }
    run := run.(end := endAt.value);
    var inserted := RunMapper.Insert(db, run);
    resp := Created(RunJson(inserted));
  }

  /**
   * `update`: a blank name is refused, an unknown id is 404, then a given
   * start and a given end must parse; otherwise the name is replaced, each
   * given time replaces the stored one, each omitted one is kept, and the
   * release never changes.
   */
  method Update(db: Database, parse: DateParser, id: int, name: string, start: Option<string>, end: Option<string>)
    returns (resp: Response)
    requires db.Valid()
    modifies db`runs
    ensures db.Valid()
    ensures IsBlank(name) ==>
      resp == Error(BAD_REQUEST, "Name is required") && db.runs == old(db.runs)
    ensures !IsBlank(name) && !Has(old(db.runs), id) ==>
      resp == Error(NOT_FOUND, "Run not found") && db.runs == old(db.runs)
    ensures !IsBlank(name) && Has(old(db.runs), id) ==>
      var stored := old(Find(db.runs, id)).row.rec;
      var startAt := ParseOptional(parse, start, "start", stored.start);
      var endAt := ParseOptional(parse, end, "end", stored.end);
      && (startAt.Failure? ==> resp == startAt.error && db.runs == old(db.runs))
      && (startAt.Success? && endAt.Failure? ==> resp == endAt.error && db.runs == old(db.runs))
      && (startAt.Success? && endAt.Success? ==>
            var updated := Run(name, startAt.value, endAt.value, stored.releaseId);
            && db.runs == Tables.Update(old(db.runs), id, updated)
            && resp == Ok(RunJson(Row(id, updated))))
  {
    if IsBlank(name) {
      return Error(BAD_REQUEST, "Name is required");
    }
    var found := Find(db.runs, id);
    if found.DoesNotExist? {
      return Error(NOT_FOUND, "Run not found");
    }
    var run := found.row.rec.(name := name);
    var startAt := ParseOptional(parse, start, "start", run.start);
    if startAt.Failure? {
      return startAt.error;
    }
    run := run.(start := startAt.value);
    var endAt := ParseOptional(parse, end, "end", run.end);
    if endAt.Failure? {
      return endAt.error;
    }
    run := run.(end := endAt.value);
    RunMapper.Update(db, id, run);
    resp := Ok(RunJson(Row(id, run)));
  }

  /** `destroy`: an unknown id is 404; otherwise the run's case links, then the run, are deleted. */
  method Destroy(db: Database, id: int) returns (resp: Response)
    requires db.Valid()
    modifies db`runs, db`runCases
    ensures db.Valid()
    ensures !Has(old(db.runs), id) ==>
      resp == Error(NOT_FOUND, "Run not found")
      && db.runs == old(db.runs) && db.runCases == old(db.runCases)
    ensures Has(old(db.runs), id) ==>
      && resp == Ok(Deleted)
      && db.runs == Delete(old(db.runs), id)
      && db.runCases == RunCaseMapper.DeletedByRunId(old(db.runCases), id)
  {
    var found := Find(db.runs, id);
    if found.DoesNotExist? {
      return Error(NOT_FOUND, "Run not found");
    }
    RunCaseMapper.DeleteByRunId(db, id);
    RunMapper.Delete(db, id);
    resp := Ok(Deleted);
  }

  /** `getCases`: the case ids of the run's links, in link order, or 404. */
  method GetCases(db: Database, id: int) returns (resp: Response)
    requires db.Valid()
    ensures Has(db.runs, id) ==>
      resp == Ok(map["cases" := IntList(CaseIds(RunCaseMapper.FindByRunId(db.runCases, id)))])
    ensures !Has(db.runs, id) ==> resp == Error(NOT_FOUND, "Run not found")
  {
    var found := Find(db.runs, id);
    if found.DoesNotExist? {
      return Error(NOT_FOUND, "Run not found");
    }
    var links := RunCaseMapper.FindByRunId(db.runCases, id);
    resp := Ok(map["cases" := IntList(CaseIds(links))]);
  }

  /**
   * `addCase`: an unknown run, then an unknown case, is 404; otherwise one
   * link is inserted and `{added: true}` answered with status 201. Adding a
   * case the run already holds hits the link table's unique index, an
   * unhandled database error in the source, which this contract excludes.
   */
  method AddCase(db: Database, id: int, caseId: int) returns (resp: Response)
    requires db.Valid()
    requires Has(db.runs, id) && Has(db.cases, caseId) ==>
      forall x :: x in db.runCases.rows ==> x.rec != RunCase(id, caseId)
    modifies db`runCases
    ensures db.Valid()
    ensures !Has(db.runs, id) ==>
      resp == Error(NOT_FOUND, "Run not found") && db.runCases == old(db.runCases)
    ensures Has(db.runs, id) && !Has(db.cases, caseId) ==>
      resp == Error(NOT_FOUND, "Case not found") && db.runCases == old(db.runCases)
    ensures Has(db.runs, id) && Has(db.cases, caseId) ==>
      && db.runCases == Insert(old(db.runCases), RunCase(id, caseId)).0
      && resp == Created(map["added" := JBool(true)])
  {
    var run := Find(db.runs, id);
    if run.DoesNotExist? {
      return Error(NOT_FOUND, "Run not found");
    }
    var testCase := Find(db.cases, caseId);
    if testCase.DoesNotExist? {
      return Error(NOT_FOUND, "Case not found");
    }
    var _ := RunCaseMapper.Insert(db, RunCase(id, caseId));
    resp := Created(map["added" := JBool(true)]);
  }

  /**
   * After `addCase` succeeds, `getCases` on the run answers its former case
   * ids followed by the added one.
   */
  lemma AddCaseAppends(t: Table<RunCase>, id: int, caseId: int)
    requires Tables.Valid(t)
    ensures CaseIds(RunCaseMapper.FindByRunId(Insert(t, RunCase(id, caseId)).0, id))
            == CaseIds(RunCaseMapper.FindByRunId(t, id)) + [caseId]
  {
    var (u, row) := Insert(t, RunCase(id, caseId));
    WhereConcat(t.rows, [row], RunCaseMapper.RunIs(id));
    assert Where([row], RunCaseMapper.RunIs(id)) == [row] by {
      WhereAll([row], RunCaseMapper.RunIs(id));
    }
  }

  /** Adding a case to one run leaves the cases of every other run as they were. */
  lemma AddCaseKeepsOtherRuns(t: Table<RunCase>, id: int, caseId: int, other: int)
    requires Tables.Valid(t) && other != id
    ensures RunCaseMapper.FindByRunId(Insert(t, RunCase(id, caseId)).0, other) == RunCaseMapper.FindByRunId(t, other)
  {
    var (u, row) := Insert(t, RunCase(id, caseId));
    WhereConcat(t.rows, [row], RunCaseMapper.RunIs(other));
    WhereNone([row], RunCaseMapper.RunIs(other));
  }
}
