/**
 * The scan report use case: it stores a report in state GENERATING,
 * refreshes that state while the scan generator runs, and stores the
 * generated report, or marks the report FAILED when generation fails.
 * `Finish` sets a stored report's status.
 */
module ScanUC {
  import opened Wrappers
  import opened Errors
  import opened Json
  import opened Model
  import opened Processor
  import ScanGenerator
  import opened Repo = ScanReportsRepository

  type ScanRequest = ScanGenerator.ScanRequest

  /** The database accepts every statement. */
  ghost predicate Accepts(fault: Fault)
  {
    forall s :: fault(s).None?
  }

  /**
   * `parseScanRequest`: mapstructure fills the request from the decoded
   * request data; a decoding error or an empty scan id or program name is
   * an invalid request.
   */
  function ParseScanRequest(req: Json): (r: Result<ScanRequest, Error>)
    ensures r.Failure? ==> r.error == InvalidRequest
    ensures r.Success? ==> r.value.scanId != "" && r.value.programName != ""
    ensures r.Success? ==> Member(req, "scan_id") == JString(r.value.scanId)
                           && Member(req, "program_name") == JString(r.value.programName)
  {
    if !IsStructLike(req) then Failure(InvalidRequest)
    else
      match (DecodeString(Member(req, "scan_id"), "scan_id"),
             DecodeString(Member(req, "program_name"), "program_name"))
      case (Success(id), Success(prog)) =>
        if id == "" || prog == "" then Failure(InvalidRequest) else Success(ScanGenerator.ScanRequest(id, prog))
      case _ => Failure(InvalidRequest)
  }

  /**
   * mapstructure leaves a field that the request data does not carry at its
   * zero value, so leaving a member out and setting it to null parse alike.
   */
  lemma {:induction false} AbsentFieldAsNull(m: map<string, Json>, key: string)
    requires key !in m
    ensures ParseScanRequest(JObject(m[key := JNull])) == ParseScanRequest(JObject(m))
  {
    forall k: string
      ensures Member(JObject(m[key := JNull]), k) == Member(JObject(m), k)
    {
      AbsentReadsAsNull(m, key, k);
    }
  }

  /** The report stored before generation: only the status, scan id and program name are set. */
  function InitialReport(req: ScanRequest): ScanReport
  {
    ScanReport(NewBase(StatusGenerating), req.scanId, "", "", req.programName, 0)
  }

  /** The report with the generated data copied in and the team's recipients as its addressees. */
  function Filled(report: ScanReport, data: ScanGenerator.ScanReportData, teamInfo: TeamInfo): ScanReport
  {
    report.(base := report.base.(files := data.files,
                                 notification := Notification(data.emailSubject, data.emailBody, NotifFmtHTML),
                                 deliveredTo := teamInfo.recipients),
            reportUrl := data.reportUrl, reportJsonUrl := data.reportJsonUrl, risk := data.risk)
  }

  /**
   * `rfshReport` after `n` ticks: each tick sets the copy's status to
   * GENERATING and saves it. Returns the copy and the table.
   */
  ghost function Heartbeats(t: Table, fault: Fault, r: ScanReport, n: nat): (ScanReport, Table)
  {
    if n == 0 then (r, t)
    else
      var (snapshot, t') := Heartbeats(t, fault, r, n - 1);
      var res := SaveSpec(t', fault, Scan(snapshot.(base := snapshot.base.(status := StatusGenerating))));
      (res.1.scan, res.2)
  }

  /** `Finish`: read the report, set its status and save it. */
  ghost function FinishReport(t: Table, fault: Fault, id: ReportId, status: string): (Option<Error>, Table)
  {
    match Find(t, fault, id)
    case Failure(e) => (Some(e), t)
    case Success(report) =>
      var r := report.scan;
      var res := SaveSpec(t, fault, Scan(r.(base := r.base.(status := status))));
      (res.0, res.2)
  }

  /**
   * `Generate`: parse; save the initial report; `ticks` heartbeats while the
   * generator runs; on a generator error finish the report as FAILED and
   * return the error; otherwise save the filled report and return it.
   */
  ghost function GenerateReport(t: Table, fault: Fault, g: ScanGenerator.ScanGen, env: ScanGenerator.Env,
                                ticks: nat, teamInfo: TeamInfo, reportData: Json): (Result<Report, Error>, Table)
  {
    match ParseScanRequest(reportData)
    case Failure(e) => (Failure(e), t)
    case Success(req) =>
      var (err1, saved1, t1) := SaveSpec(t, fault, Scan(InitialReport(req)));
      if err1.Some? then (Failure(err1.value), t1)
      else
        var report := saved1.scan;
        var t2 := Heartbeats(t1, fault, report, ticks).1;
        match ScanGenerator.GenerateSpec(g, env, teamInfo, ScanGenerator.ScanRequestData(req))
        case Failure(e) => (Failure(e), FinishReport(t2, fault, report.base.id, StatusFailed).1)
        case Success(data) =>
          var (err2, saved2, t3) := SaveSpec(t2, fault, Scan(Filled(report, data, teamInfo)));
          if err2.Some? then (Failure(err2.value), t3) else (Success(saved2), t3)
  }

  /** Request data with a non-empty scan id and program name is accepted as exactly that request. */
  lemma ParseScanRequestAccepts(req: Json, scanId: string, programName: string)
    requires req.JObject? && "scan_id" in req.members && "program_name" in req.members
    requires req.members["scan_id"] == JString(scanId) && req.members["program_name"] == JString(programName)
    requires scanId != "" && programName != ""
    ensures ParseScanRequest(req) == Success(ScanGenerator.ScanRequest(scanId, programName))
  {
  }

  /** A save the database refuses leaves the table as it was. */
  lemma FailedSaveKeepsTable(t: Table, fault: Fault, report: Report)
    requires SaveSpec(t, fault, report).0.Some?
    ensures SaveSpec(t, fault, report).2 == t
  {
  }

  /** Saving a report whose id holds the row of its scan updates that row in place. */
  lemma UpdateExisting(t: Table, fault: Fault, r: ScanReport)
    requires t.Valid() && t.UniqueKeys()
    requires r.GetID() in t.rows && t.rows[r.GetID()].scanId == r.scanId
    requires fault(SelectByScanID(r.scanId)).None?
    ensures SaveSpec(t, fault, Scan(r)) == (UpdateSpec(t, fault, r).0, Scan(r), UpdateSpec(t, fault, r).1)
  {
    UniqueKeyIds(t, r.scanId);
    assert r.GetID() in t.KeyIds(r.scanId);
  }

  /**
   * Heartbeats on the report as the first save stored it change nothing
   * when the database accepts them: the row already holds that report in
   * state GENERATING.
   */
  lemma {:induction false} HeartbeatsStable(t: Table, fault: Fault, r: ScanReport, n: nat)
    requires t.Valid() && t.UniqueKeys() && Accepts(fault)
    requires r.base.status == StatusGenerating && r.GetID() in t.rows && t.rows[r.GetID()] == ToDBReport(r)
    ensures Heartbeats(t, fault, r, n) == (r, t)
  {
    if n > 0 {
      HeartbeatsStable(t, fault, r, n - 1);
      assert r.(base := r.base.(status := StatusGenerating)) == r;
      UpdateExisting(t, fault, r);
      assert t.rows[r.GetID() := ToDBReport(r)] == t.rows;
    }
  }

  /** An invalid request is refused before anything is stored. */
  lemma InvalidRequestStoresNothing(t: Table, fault: Fault, g: ScanGenerator.ScanGen, env: ScanGenerator.Env,
                                    ticks: nat, teamInfo: TeamInfo, reportData: Json)
    requires ParseScanRequest(reportData).Failure?
    ensures GenerateReport(t, fault, g, env, ticks, teamInfo, reportData) == (Failure(InvalidRequest), t)
  {
  }

  /**
   * When the initial report cannot be saved, the save's error is returned,
   * the table is unchanged and the generator is never run: the outcome is
   * the same whatever the generator.
   */
  lemma FirstSaveFailure(t: Table, fault: Fault, g: ScanGenerator.ScanGen, g': ScanGenerator.ScanGen,
                         env: ScanGenerator.Env, env': ScanGenerator.Env, ticks: nat, ticks': nat,
                         teamInfo: TeamInfo, reportData: Json)
    requires ParseScanRequest(reportData).Success?
    requires SaveSpec(t, fault, Scan(InitialReport(ParseScanRequest(reportData).value))).0.Some?
    ensures var err := SaveSpec(t, fault, Scan(InitialReport(ParseScanRequest(reportData).value))).0.value;
      GenerateReport(t, fault, g, env, ticks, teamInfo, reportData) == (Failure(err), t)
    ensures GenerateReport(t, fault, g', env', ticks', teamInfo, reportData)
         == GenerateReport(t, fault, g, env, ticks, teamInfo, reportData)
  {
    FailedSaveKeepsTable(t, fault, Scan(InitialReport(ParseScanRequest(reportData).value)));
  }

  /**
   * With the database accepting every statement, a generator error is
   * returned and the scan's single row is left in state FAILED.
   */
  lemma GeneratorFailureMarksFailed(t: Table, fault: Fault, g: ScanGenerator.ScanGen, env: ScanGenerator.Env,
                                    ticks: nat, teamInfo: TeamInfo, reportData: Json)
    requires t.Valid() && t.UniqueKeys() && Accepts(fault)
    requires ParseScanRequest(reportData).Success?
    requires ScanGenerator.GenerateSpec(g, env, teamInfo,
               ScanGenerator.ScanRequestData(ParseScanRequest(reportData).value)).Failure?
    ensures var req := ParseScanRequest(reportData).value;
      var e := ScanGenerator.GenerateSpec(g, env, teamInfo, ScanGenerator.ScanRequestData(req)).error;
      var (r, t') := GenerateReport(t, fault, g, env, ticks, teamInfo, reportData);
      && r == Failure(e)
      && t'.Valid() && t'.UniqueKeys()
      && |t'.KeyIds(req.scanId)| == 1
      && forall id :: id in t'.KeyIds(req.scanId) ==> t'.rows[id].status == StatusFailed
  {
    var req := ParseScanRequest(reportData).value;
    var init := InitialReport(req);
    SaveUpserts(t, fault, init);
    SavePreservesInvariants(t, fault, Scan(init));
    var (_, saved1, t1) := SaveSpec(t, fault, Scan(init));
    var report := saved1.scan;
    var id := report.GetID();
    HeartbeatsStable(t1, fault, report, ticks);
    var m := ToModelReport(t1.rows[id]);
    var failed := m.(base := m.base.(status := StatusFailed));
    assert FinishReport(t1, fault, id, StatusFailed).1 == SaveSpec(t1, fault, Scan(failed)).2;
    SaveUpserts(t1, fault, failed);
    SavePreservesInvariants(t1, fault, Scan(failed));
    UniqueKeyIds(t1, failed.scanId);
    var (_, saved2, t2) := SaveSpec(t1, fault, Scan(failed));
    assert saved2.GetID() == id;
    assert t2.KeyIds(req.scanId) == {id};
  }

  /**
   * With the database accepting every statement and the generator
   * succeeding, the returned report is the initial report filled with the
   * generated data, under the id the first save gave it (the scan's
   * existing row's id, or a fresh one), still GENERATING; and that report is
   * the scan's single row.
   */
  lemma GenerateStoresReport(t: Table, fault: Fault, g: ScanGenerator.ScanGen, env: ScanGenerator.Env,
                             ticks: nat, teamInfo: TeamInfo, reportData: Json)
    requires t.Valid() && t.UniqueKeys() && Accepts(fault)
    requires ParseScanRequest(reportData).Success?
    requires ScanGenerator.GenerateSpec(g, env, teamInfo,
               ScanGenerator.ScanRequestData(ParseScanRequest(reportData).value)).Success?
    ensures var req := ParseScanRequest(reportData).value;
      var data := ScanGenerator.GenerateSpec(g, env, teamInfo, ScanGenerator.ScanRequestData(req)).value;
      var (r, t') := GenerateReport(t, fault, g, env, ticks, teamInfo, reportData);
      && r.Success? && r.value.Scan?
      && var rep := r.value.scan;
      && var init := InitialReport(req);
      && rep == Filled(init.(base := init.base.(id := rep.GetID())), data, teamInfo)
      && rep.GetStatus() == StatusGenerating
      && (t.KeyIds(req.scanId) == {} ==> rep.GetID() == t.nextId)
      && (t.KeyIds(req.scanId) != {} ==> t.KeyIds(req.scanId) == {rep.GetID()})
      && t'.Valid() && t'.UniqueKeys()
      && t'.KeyIds(req.scanId) == {rep.GetID()}
      && t'.rows[rep.GetID()] == ToDBReport(rep)
  {
    var req := ParseScanRequest(reportData).value;
    var data := ScanGenerator.GenerateSpec(g, env, teamInfo, ScanGenerator.ScanRequestData(req)).value;
    var init := InitialReport(req);
    SaveUpserts(t, fault, init);
    SavePreservesInvariants(t, fault, Scan(init));
    var (_, saved1, t1) := SaveSpec(t, fault, Scan(init));
    var report := saved1.scan;
    var id := report.GetID();
    HeartbeatsStable(t1, fault, report, ticks);
    var filled := Filled(report, data, teamInfo);
    SaveUpserts(t1, fault, filled);
    SavePreservesInvariants(t1, fault, Scan(filled));
    var (_, saved2, t2) := SaveSpec(t1, fault, Scan(filled));
    assert saved2.GetID() == id;
    assert saved2.scan == filled;
  }

  /** Finishing a report that cannot be read returns the read's error and changes nothing. */
  lemma FinishReadError(t: Table, fault: Fault, id: ReportId, status: string)
    requires Find(t, fault, id).Failure?
    ensures FinishReport(t, fault, id, status) == (Some(Find(t, fault, id).error), t)
  {
  }

  /**
   * With the database accepting every statement, finishing a stored report
   * changes its status and nothing else: the row reads back as before with
   * the new status, and no other row and no id changes.
   */
  lemma FinishChangesOnlyStatus(t: Table, fault: Fault, id: ReportId, status: string)
    requires t.Valid() && t.UniqueKeys() && Accepts(fault)
    requires id in t.rows
    ensures var (err, t') := FinishReport(t, fault, id, status);
      var before := ToModelReport(t.rows[id]);
      && err.None?
      && t'.nextId == t.nextId && t'.rows.Keys == t.rows.Keys
      && ToModelReport(t'.rows[id]) == before.(base := before.base.(status := status))
      && forall k :: k in t.rows && k != id ==> t'.rows[k] == t.rows[k]
  {
    var m := ToModelReport(t.rows[id]);
    var m' := m.(base := m.base.(status := status));
    UpdateExisting(t, fault, m');
    ReadBackStable(t.rows[id], status);
  }

  /**
   * Finishing twice with the same status is finishing once, whatever the
   * database rejects.
   */
  lemma FinishIdempotent(t: Table, fault: Fault, id: ReportId, status: string)
    requires t.Valid() && t.UniqueKeys()
    ensures var t1 := FinishReport(t, fault, id, status).1;
      FinishReport(t1, fault, id, status).1 == t1
  {
    if Find(t, fault, id).Success? {
      var m := ToModelReport(t.rows[id]);
      var m' := m.(base := m.base.(status := status));
      if fault(SelectByScanID(m'.scanId)).None? {
        UpdateExisting(t, fault, m');
        if fault(UpdateRow(ToDBReport(m'))).None? {
          var t1 := t.(rows := t.rows[id := ToDBReport(m')]);
          assert FinishReport(t, fault, id, status).1 == t1;
          SavePreservesInvariants(t, fault, Scan(m'));
          ReadBackStable(t.rows[id], status);
          assert Find(t1, fault, id) == Success(Scan(m'));
          assert m'.(base := m'.base.(status := status)) == m';
          UpdateExisting(t1, fault, m');
          assert t1.rows[id := ToDBReport(m')] == t1.rows;
        }
      }
    }
  }

  /** The scan use case over its generator, the process environment and the scan repository. */
  class ScanUC {
    const generator: ScanGenerator.ScanGen
    const env: ScanGenerator.Env
    const repository: ScanReportsRepository

    /** `newScanUC`. */
    constructor (generator: ScanGenerator.ScanGen, env: ScanGenerator.Env, repository: ScanReportsRepository)
      ensures this.generator == generator && this.env == env && this.repository == repository
    {
      this.generator := generator;
      this.env := env;
      this.repository := repository;
    }

    /** `rfshReport`, for `ticks` ticks of its ticker. */
    method RefreshReport(r: ScanReport, ticks: nat)
      requires repository.Valid()
      modifies repository
      ensures repository.Valid()
      ensures repository.table == Heartbeats(old(repository.table), repository.fault, r, ticks).1
    {
      var snapshot := r;
      for k := 0 to ticks
        invariant repository.Valid()
        invariant (snapshot, repository.table) == Heartbeats(old(repository.table), repository.fault, r, k)
      {
        snapshot := snapshot.(base := snapshot.base.(status := StatusGenerating));
        var ignored, saved := repository.SaveReport(Scan(snapshot));
        snapshot := saved.scan;
      }
    }

    /** `Finish`. */
    method Finish(reportId: ReportId, status: string) returns (err: Option<Error>)
      requires repository.Valid()
      modifies repository
      ensures repository.Valid()
      ensures (err, repository.table) == FinishReport(old(repository.table), repository.fault, reportId, status)
    {
      var report := repository.GetReport(reportId);
      if report.Failure? {
        return Some(report.error);
      }
      var scanReport := report.value.scan;
      scanReport := scanReport.(base := scanReport.base.(status := status));
      var saved;
      err, saved := repository.SaveReport(Scan(scanReport));
    }

    /** `Generate`, with the refresher ticking `ticks` times before the generator returns. */
    method Generate(teamInfo: TeamInfo, reportData: Json, ticks: nat) returns (r: Result<Report, Error>)
      requires repository.Valid()
      modifies repository
      ensures repository.Valid()
      ensures (r, repository.table)
           == GenerateReport(old(repository.table), repository.fault, generator, env, ticks, teamInfo, reportData)
    {
      var scanReq := ParseScanRequest(reportData);
      if scanReq.Failure? {
        return Failure(scanReq.error);
      }
      var report := InitialReport(scanReq.value);
      var err, saved := repository.SaveReport(Scan(report));
      if err.Some? {
        return Failure(err.value);
      }
      report := saved.scan;
      RefreshReport(report, ticks);
      var data := ScanGenerator.Generate(generator, env, teamInfo, ScanGenerator.ScanRequestData(scanReq.value));
      if data.Failure? {
        var ignored := Finish(report.base.id, StatusFailed);
        return Failure(data.error);
      }
      report := Filled(report, data.value, teamInfo);
      err, saved := repository.SaveReport(Scan(report));
      if err.Some? {
        return Failure(err.value);
      }
      return Success(saved);
    }
  }
}
