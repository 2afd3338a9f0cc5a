/**
 * The live report use case: it stores a report in state GENERATING, runs
 * the live report generator, and stores the generated e-mail, or marks the
 * report FAILED when generation fails. `Finish` sets a stored report's
 * status.
 */
module LiveReportUC {
  import opened Wrappers
  import opened Errors
  import opened Json
  import opened Model
  import opened Processor
  import LiveReportGenerator
  import opened Repo = LiveReportsRepository

  type LiveReportRequest = LiveReportGenerator.LiveReportRequest

  /** The database accepts every statement. */
  ghost predicate Accepts(fault: Fault)
  {
    forall s :: fault(s).None?
  }

  /** mapstructure filling a string field from the member of that name. */
  function StringField(req: Json, key: string): Result<string, Error>
  {
    DecodeString(Member(req, key), key)
  }

  /** mapstructure filling an int field from the member of that name. */
  function IntField(req: Json, key: string): Result<int, Error>
  {
    DecodeInt(Member(req, key), key)
  }

  /** Every field of the request can be filled from the request data. */
  predicate FieldsDecode(req: Json)
  {
    && StringField(req, "team_id").Success?
    && StringField(req, "date_from").Success?
    && StringField(req, "date_to").Success?
    && StringField(req, "live_report_url").Success?
    && IntField(req, "info").Success?
    && IntField(req, "low").Success?
    && IntField(req, "medium").Success?
    && IntField(req, "high").Success?
    && IntField(req, "critical").Success?
    && IntField(req, "info_diff").Success?
    && IntField(req, "low_diff").Success?
    && IntField(req, "medium_diff").Success?
    && IntField(req, "high_diff").Success?
    && IntField(req, "critical_diff").Success?
    && IntField(req, "info_fixed").Success?
    && IntField(req, "low_fixed").Success?
    && IntField(req, "medium_fixed").Success?
    && IntField(req, "high_fixed").Success?
    && IntField(req, "critical_fixed").Success?
  }

  /** The request mapstructure fills from request data whose fields all decode. */
  function Fields(req: Json): LiveReportRequest
    requires FieldsDecode(req)
  {
    var s := k => StringField(req, k);
    var n := k => IntField(req, k);
    LiveReportGenerator.LiveReportRequest(
      s("team_id").value,
      n("info").value, n("low").value, n("medium").value, n("high").value, n("critical").value,
      n("info_diff").value, n("low_diff").value, n("medium_diff").value, n("high_diff").value,
      n("critical_diff").value,
      n("info_fixed").value, n("low_fixed").value, n("medium_fixed").value, n("high_fixed").value,
      n("critical_fixed").value,
      s("date_from").value, s("date_to").value, s("live_report_url").value)
  }

  /**
   * `parseLiveReportRequest`: mapstructure fills the request from the
   * decoded request data; a decoding error or an empty team id, start date
   * or end date is an invalid request.
   */
  function ParseLiveReportRequest(req: Json): (r: Result<LiveReportRequest, Error>)
    ensures r.Failure? ==> r.error == InvalidRequest
    ensures r.Success? ==> r.value.teamId != "" && r.value.dateFrom != "" && r.value.dateTo != ""
    ensures r.Success? ==> Member(req, "team_id") == JString(r.value.teamId)
                           && Member(req, "date_from") == JString(r.value.dateFrom)
                           && Member(req, "date_to") == JString(r.value.dateTo)
  {
    if !IsStructLike(req) || !FieldsDecode(req) then Failure(InvalidRequest)
    else
      var lr := Fields(req);
      if lr.teamId == "" || lr.dateFrom == "" || lr.dateTo == "" then Failure(InvalidRequest) else Success(lr)
  }

  /**
   * Request data whose members carry a request's fields, with a team and
   * both dates, is parsed as that request.
   */
  lemma ParseRequestFields(req: Json, lr: LiveReportRequest)
    requires req.JObject?
    requires Member(req, "team_id") == JString(lr.teamId)
    requires Member(req, "info") == JNumber(lr.info)
    requires Member(req, "low") == JNumber(lr.low)
    requires Member(req, "medium") == JNumber(lr.medium)
    requires Member(req, "high") == JNumber(lr.high)
    requires Member(req, "critical") == JNumber(lr.critical)
    requires Member(req, "info_diff") == JNumber(lr.infoDiff)
    requires Member(req, "low_diff") == JNumber(lr.lowDiff)
    requires Member(req, "medium_diff") == JNumber(lr.mediumDiff)
    requires Member(req, "high_diff") == JNumber(lr.highDiff)
    requires Member(req, "critical_diff") == JNumber(lr.criticalDiff)
    requires Member(req, "info_fixed") == JNumber(lr.infoFixed)
    requires Member(req, "low_fixed") == JNumber(lr.lowFixed)
    requires Member(req, "medium_fixed") == JNumber(lr.mediumFixed)
    requires Member(req, "high_fixed") == JNumber(lr.highFixed)
    requires Member(req, "critical_fixed") == JNumber(lr.criticalFixed)
    requires Member(req, "date_from") == JString(lr.dateFrom)
    requires Member(req, "date_to") == JString(lr.dateTo)
    requires Member(req, "live_report_url") == JString(lr.url)
    requires lr.teamId != "" && lr.dateFrom != "" && lr.dateTo != ""
    ensures ParseLiveReportRequest(req) == Success(lr)
  {
  }

  /**
   * mapstructure leaves a field that the request data does not carry at its
   * zero value, so leaving a member out and setting it to null parse alike.
   */
  lemma {:induction false} AbsentFieldAsNull(m: map<string, Json>, key: string)
    requires key !in m
    ensures ParseLiveReportRequest(JObject(m[key := JNull])) == ParseLiveReportRequest(JObject(m))
  {
    var v, w := JObject(m[key := JNull]), JObject(m);
    forall k: string
      ensures StringField(v, k) == StringField(w, k) && IntField(v, k) == IntField(w, k)
    {
      AbsentReadsAsNull(m, key, k);
    }
    assert FieldsDecode(v) == FieldsDecode(w);
    if FieldsDecode(w) {
      assert Fields(v) == Fields(w);
    }
  }

  /** The report stored before generation: only the status, team and dates are set. */
  function InitialReport(req: LiveReportRequest): LiveReport
  {
    LiveReport(NewBase(StatusGenerating), req.teamId, req.dateFrom, req.dateTo)
  }

  /** The report with the generated e-mail copied in and the team's recipients as its addressees. */
  function Filled(report: LiveReport, data: LiveReportGenerator.LiveReportData, teamInfo: TeamInfo): LiveReport
  {
    report.(base := report.base.(notification := Notification(data.emailSubject, data.emailBody, NotifFmtHTML),
                                 deliveredTo := teamInfo.recipients))
  }

  /** `Finish`: read the report, set its status and save it. */
  ghost function FinishReport(t: Table, fault: Fault, id: ReportId, status: string): (Option<Error>, Table)
  {
    match Find(t, fault, id)
    case Failure(e) => (Some(e), t)
    case Success(report) =>
      var r := report.live;
      var res := SaveSpec(t, fault, Live(r.(base := r.base.(status := status))));
      (res.0, res.2)
  }

  /**
   * `Generate`: parse; save the initial report; on a generator error finish
   * the report as FAILED and return the error; otherwise save the filled
   * report and return it.
   */
  ghost function GenerateReport(t: Table, fault: Fault, g: LiveReportGenerator.LiveGen,
                                teamInfo: TeamInfo, reportData: Json): (Result<Report, Error>, Table)
  {
    match ParseLiveReportRequest(reportData)
    case Failure(e) => (Failure(e), t)
    case Success(req) =>
      var (err1, saved1, t1) := SaveSpec(t, fault, Live(InitialReport(req)));
      if err1.Some? then (Failure(err1.value), t1)
      else
        var report := saved1.live;
        match LiveReportGenerator.Generate(g, teamInfo, LiveReportGenerator.LiveRequestData(req))
        case Failure(e) => (Failure(e), FinishReport(t1, fault, report.base.id, StatusFailed).1)
        case Success(data) =>
          var (err2, saved2, t2) := SaveSpec(t1, fault, Live(Filled(report, data, teamInfo)));
          if err2.Some? then (Failure(err2.value), t2) else (Success(saved2), t2)
  }

  /** A save the database refuses leaves the table as it was. */
  lemma FailedSaveKeepsTable(t: Table, fault: Fault, report: Report)
    requires SaveSpec(t, fault, report).0.Some?
    ensures SaveSpec(t, fault, report).2 == t
  {
  }

  /** Saving a report whose id holds the row of its key updates that row in place. */
  lemma UpdateExisting(t: Table, fault: Fault, r: LiveReport)
    requires t.Valid() && t.UniqueKeys()
    requires r.GetID() in t.rows && t.rows[r.GetID()].RowKey() == ReportKey(r)
    requires fault(SelectByKey(ReportKey(r))).None?
    ensures SaveSpec(t, fault, Live(r)) == (UpdateSpec(t, fault, r).0, Live(r), UpdateSpec(t, fault, r).1)
  {
    UniqueKeyIds(t, ReportKey(r));
    assert r.GetID() in t.KeyIds(ReportKey(r));
  }

  /** An invalid request is refused before anything is stored. */
  lemma InvalidRequestStoresNothing(t: Table, fault: Fault, g: LiveReportGenerator.LiveGen,
                                    teamInfo: TeamInfo, reportData: Json)
    requires ParseLiveReportRequest(reportData).Failure?
    ensures GenerateReport(t, fault, g, teamInfo, reportData) == (Failure(InvalidRequest), t)
  {
  }

  /**
   * When the initial report cannot be saved, the save's error is returned,
   * the table is unchanged and the generator is never run: the outcome is
   * the same whatever the generator.
   */
  lemma FirstSaveFailure(t: Table, fault: Fault, g: LiveReportGenerator.LiveGen, g': LiveReportGenerator.LiveGen,
                         teamInfo: TeamInfo, reportData: Json)
    requires ParseLiveReportRequest(reportData).Success?
    requires SaveSpec(t, fault, Live(InitialReport(ParseLiveReportRequest(reportData).value))).0.Some?
    ensures var err := SaveSpec(t, fault, Live(InitialReport(ParseLiveReportRequest(reportData).value))).0.value;
      GenerateReport(t, fault, g, teamInfo, reportData) == (Failure(err), t)
    ensures GenerateReport(t, fault, g', teamInfo, reportData) == GenerateReport(t, fault, g, teamInfo, reportData)
  {
    FailedSaveKeepsTable(t, fault, Live(InitialReport(ParseLiveReportRequest(reportData).value)));
  }

  /**
   * With the database accepting every statement, a generator error is
   * returned and the single row of the request's team and dates is left in
   * state FAILED.
   */
  lemma GeneratorFailureMarksFailed(t: Table, fault: Fault, g: LiveReportGenerator.LiveGen,
                                    teamInfo: TeamInfo, reportData: Json)
    requires t.Valid() && t.UniqueKeys() && Accepts(fault)
    requires ParseLiveReportRequest(reportData).Success?
    requires LiveReportGenerator.Generate(g, teamInfo,
               LiveReportGenerator.LiveRequestData(ParseLiveReportRequest(reportData).value)).Failure?
    ensures var req := ParseLiveReportRequest(reportData).value;
      var key := Key(req.teamId, req.dateFrom, req.dateTo);
      var e := LiveReportGenerator.Generate(g, teamInfo, LiveReportGenerator.LiveRequestData(req)).error;
      var (r, t') := GenerateReport(t, fault, g, teamInfo, reportData);
      && r == Failure(e)
      && t'.Valid() && t'.UniqueKeys()
      && |t'.KeyIds(key)| == 1
      && forall id :: id in t'.KeyIds(key) ==> t'.rows[id].status == StatusFailed
  {
    var req := ParseLiveReportRequest(reportData).value;
    var init := InitialReport(req);
    var key := ReportKey(init);
    SaveUpserts(t, fault, init);
    SavePreservesInvariants(t, fault, Live(init));
    var (_, saved1, t1) := SaveSpec(t, fault, Live(init));
    var report := saved1.live;
    var id := report.GetID();
    var m := ToModelLiveReport(t1.rows[id]);
    var failed := m.(base := m.base.(status := StatusFailed));
    assert FinishReport(t1, fault, id, StatusFailed).1 == SaveSpec(t1, fault, Live(failed)).2;
    SaveUpserts(t1, fault, failed);
    SavePreservesInvariants(t1, fault, Live(failed));
    UniqueKeyIds(t1, ReportKey(failed));
    var (_, saved2, t2) := SaveSpec(t1, fault, Live(failed));
    assert saved2.GetID() == id;
    assert t2.KeyIds(key) == {id};
  }

  /**
   * With the database accepting every statement and the generator
   * succeeding, the returned report is the initial report filled with the
   * generated e-mail, under the id the first save gave it (the existing
   * row's id for the same team and dates, or a fresh one), still
   * GENERATING; and that report is the single row for its team and dates.
   */
  lemma GenerateStoresReport(t: Table, fault: Fault, g: LiveReportGenerator.LiveGen,
                             teamInfo: TeamInfo, reportData: Json)
    requires t.Valid() && t.UniqueKeys() && Accepts(fault)
    requires ParseLiveReportRequest(reportData).Success?
    requires LiveReportGenerator.Generate(g, teamInfo,
               LiveReportGenerator.LiveRequestData(ParseLiveReportRequest(reportData).value)).Success?
    ensures var req := ParseLiveReportRequest(reportData).value;
      var key := Key(req.teamId, req.dateFrom, req.dateTo);
      var data := LiveReportGenerator.Generate(g, teamInfo, LiveReportGenerator.LiveRequestData(req)).value;
      var (r, t') := GenerateReport(t, fault, g, teamInfo, reportData);
      && r.Success? && r.value.Live?
      && var rep := r.value.live;
      && var init := InitialReport(req);
      && rep == Filled(init.(base := init.base.(id := rep.GetID())), data, teamInfo)
      && rep.GetStatus() == StatusGenerating
      && (t.KeyIds(key) == {} ==> rep.GetID() == t.nextId)
      && (t.KeyIds(key) != {} ==> t.KeyIds(key) == {rep.GetID()})
      && t'.Valid() && t'.UniqueKeys()
      && t'.KeyIds(key) == {rep.GetID()}
      && t'.rows[rep.GetID()] == ToDBLiveReport(rep)
  {
    var req := ParseLiveReportRequest(reportData).value;
    var data := LiveReportGenerator.Generate(g, teamInfo, LiveReportGenerator.LiveRequestData(req)).value;
    var init := InitialReport(req);
    SaveUpserts(t, fault, init);
    SavePreservesInvariants(t, fault, Live(init));
    var (_, saved1, t1) := SaveSpec(t, fault, Live(init));
    var report := saved1.live;
    var id := report.GetID();
    var filled := Filled(report, data, teamInfo);
    SaveUpserts(t1, fault, filled);
    SavePreservesInvariants(t1, fault, Live(filled));
    var (_, saved2, t2) := SaveSpec(t1, fault, Live(filled));
    assert saved2.GetID() == id;
    assert saved2.live == filled;
  }

  /** Finishing a report that cannot be read returns the read's error and changes nothing. */
  lemma FinishReadError(t: Table, fault: Fault, id: ReportId, status: string)
    requires Find(t, fault, id).Failure?
    ensures FinishReport(t, fault, id, status) == (Some(Find(t, fault, id).error), t)
  {
  }

  /**
   * With the database accepting every statement, finishing a stored report
   * changes its status and nothing else: the row reads back as before with
   * the new status, and no other row and no id changes.
   */
  lemma FinishChangesOnlyStatus(t: Table, fault: Fault, id: ReportId, status: string)
    requires t.Valid() && t.UniqueKeys() && Accepts(fault)
    requires id in t.rows
    ensures var (err, t') := FinishReport(t, fault, id, status);
      var before := ToModelLiveReport(t.rows[id]);
      && err.None?
      && t'.nextId == t.nextId && t'.rows.Keys == t.rows.Keys
      && ToModelLiveReport(t'.rows[id]) == before.(base := before.base.(status := status))
      && forall k :: k in t.rows && k != id ==> t'.rows[k] == t.rows[k]
  {
    var m := ToModelLiveReport(t.rows[id]);
    var m' := m.(base := m.base.(status := status));
    UpdateExisting(t, fault, m');
    ReadBackStable(t.rows[id], status);
  }

  /**
   * Finishing twice with the same status is finishing once, whatever the
   * database rejects.
   */
  lemma FinishIdempotent(t: Table, fault: Fault, id: ReportId, status: string)
    requires t.Valid() && t.UniqueKeys()
    ensures var t1 := FinishReport(t, fault, id, status).1;
      FinishReport(t1, fault, id, status).1 == t1
  {
    if Find(t, fault, id).Success? {
      var m := ToModelLiveReport(t.rows[id]);
      var m' := m.(base := m.base.(status := status));
      if fault(SelectByKey(ReportKey(m'))).None? {
        UpdateExisting(t, fault, m');
        if fault(UpdateRow(ToDBLiveReport(m'))).None? {
          var t1 := t.(rows := t.rows[id := ToDBLiveReport(m')]);
          assert FinishReport(t, fault, id, status).1 == t1;
          SavePreservesInvariants(t, fault, Live(m'));
          ReadBackStable(t.rows[id], status);
          assert Find(t1, fault, id) == Success(Live(m'));
          assert m'.(base := m'.base.(status := status)) == m';
          UpdateExisting(t1, fault, m');
          assert t1.rows[id := ToDBLiveReport(m')] == t1.rows;
        }
      }
    }
  }

  /** The live report use case over its generator and the live reports repository. */
  class LiveReportUC {
    const generator: LiveReportGenerator.LiveGen
    const repository: LiveReportsRepository

    /** `newLiveReportUC`. */
    constructor (generator: LiveReportGenerator.LiveGen, repository: LiveReportsRepository)
      ensures this.generator == generator && this.repository == repository
    {
      this.generator := generator;
      this.repository := repository;
    }

    /** `Finish`. */
    method Finish(reportId: ReportId, status: string) returns (err: Option<Error>)
      requires repository.Valid()
      modifies repository
      ensures repository.Valid()
      ensures (err, repository.table) == FinishReport(old(repository.table), repository.fault, reportId, status)
    {
      var report := repository.GetReport(reportId);
      if report.Failure? {
        return Some(report.error);
      }
      var liveReport := report.value.live;
      liveReport := liveReport.(base := liveReport.base.(status := status));
      var saved;
      err, saved := repository.SaveReport(Live(liveReport));
    }

    /** `Generate`. */
    method Generate(teamInfo: TeamInfo, reportData: Json) returns (r: Result<Report, Error>)
      requires repository.Valid()
      modifies repository
      ensures repository.Valid()
      ensures (r, repository.table) == GenerateReport(old(repository.table), repository.fault, generator, teamInfo, reportData)
    {
      var liveReportReq := ParseLiveReportRequest(reportData);
      if liveReportReq.Failure? {
        return Failure(liveReportReq.error);
      }
      var report := InitialReport(liveReportReq.value);
      var err, saved := repository.SaveReport(Live(report));
      if err.Some? {
        return Failure(err.value);
      }
      report := saved.live;
      var data := LiveReportGenerator.Generate(generator, teamInfo, LiveReportGenerator.LiveRequestData(liveReportReq.value));
      if data.Failure? {
        var ignored := Finish(report.base.id, StatusFailed);
        return Failure(data.error);
      }
      report := Filled(report, data.value, teamInfo);
      err, saved := repository.SaveReport(Live(report));
      if err.Some? {
        return Failure(err.value);
      }
      return Success(saved);
    }
  }
}
