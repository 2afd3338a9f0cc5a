/**
 * The scan reports repository: scan reports stored in a `scan_reports`
 * table, one row per scan, saved by upsert on `scan_id`.
 *
 * The table is an in-memory map from report id to row; the database
 * assigns fresh ids on insert. Database failures come from `fault`, which
 * says for each statement whether the database rejects it.
 */
module ScanReportsRepository {
  import opened Wrappers
  import opened Errors
  import opened Strings
  import Base64
  import opened Model

  /** The separator of the stored recipient list. */
  const Comma: char := ','

  /** A `scan_reports` row (timestamps are not modelled). */
  datatype ScanRow = ScanRow(
    id: ReportId,
    scanId: string,
    report: string,
    reportJson: string,
    emailSubject: string,
    /** The notification body, base64-encoded. */
    emailBody: string,
    /** The recipients, joined with commas. */
    deliveredTo: string,
    status: string,
    programName: string,
    risk: int)

  /** `toDBReport`: the row a report is stored as. */
  function ToDBReport(r: ScanReport): ScanRow
  {
    ScanRow(r.base.id, r.scanId, r.reportUrl, r.reportJsonUrl, r.base.notification.subject,
            Base64.Encode(r.base.notification.body), Join(r.base.deliveredTo, Comma),
            r.base.status, r.programName, r.risk)
  }

  /**
   * `toModelReport`: the report a row reads back as. A body that is not
   * valid base64 reads back empty; the format is always HTML and files are
   * not stored.
   */
  function ToModelReport(row: ScanRow): ScanReport
  {
    var body := match Base64.Decode(row.emailBody) case Some(b) => b case None => [];
    ScanReport(
      BaseReport(row.id, [], Notification(row.emailSubject, body, NotifFmtHTML), Split(row.deliveredTo, Comma), row.status),
      row.scanId, row.report, row.reportJson, row.programName, row.risk)
  }

  /** Reading back a stored report. */
  lemma {:induction false} RowRoundTrip(r: ScanReport)
    ensures var back := ToModelReport(ToDBReport(r));
      && back.base.id == r.base.id && back.base.status == r.base.status
      && back.scanId == r.scanId && back.reportUrl == r.reportUrl && back.reportJsonUrl == r.reportJsonUrl
      && back.programName == r.programName && back.risk == r.risk
      && back.base.notification.subject == r.base.notification.subject
      && back.base.notification.body == r.base.notification.body
      && back.base.notification.fmt == NotifFmtHTML
      && back.base.files == []
      && (back.base.deliveredTo == r.base.deliveredTo <==>
            (r.base.deliveredTo != [] && forall i :: 0 <= i < |r.base.deliveredTo| ==> Comma !in r.base.deliveredTo[i]))
  {
    Base64.DecodeEncode(r.base.notification.body);
    SplitJoin(r.base.deliveredTo, Comma);
  }

  /**
   * A report read from a row, with its status possibly changed, is stored
   * as a row that reads back as that same report.
   */
  lemma {:induction false} ReadBackStable(row: ScanRow, status: string)
    ensures var r := ToModelReport(row);
      var r' := r.(base := r.base.(status := status));
      ToModelReport(ToDBReport(r')) == r'
  {
    var r := ToModelReport(row);
    Base64.DecodeEncode(r.base.notification.body);
    JoinSplit(row.deliveredTo, Comma);
  }

  /** A statement the repository issues to the database. */
  datatype Statement =
    | FindByID(id: ReportId)
    | SelectByScanID(scanId: string)
    | InsertRow(row: ScanRow)
    | UpdateRow(row: ScanRow)

  /** Whether the database rejects a statement, and with which message. */
  type Fault = Statement -> Option<string>

  /** The `scan_reports` table and the next id the database will assign. */
  datatype Table = Table(rows: map<ReportId, ScanRow>, nextId: ReportId)
  {
    /** Ids are positive, below `nextId`, and stored in their rows. */
    ghost predicate Valid()
    {
      nextId > NoId && NoId !in rows
      && forall id :: id in rows ==> id < nextId && rows[id].id == id
    }

    /** The database's unique constraint on `scan_id`. */
    ghost predicate UniqueKeys()
    {
      forall i, j :: i in rows && j in rows && rows[i].scanId == rows[j].scanId ==> i == j
    }

    /** The ids of the rows for a scan. */
    function KeyIds(scanId: string): set<ReportId>
    {
      set id | id in rows && rows[id].scanId == scanId
    }
  }

  /** `GetReport`: the report stored under `id`. */
  function Find(t: Table, fault: Fault, id: ReportId): Result<Report, Error>
  {
    match fault(FindByID(id))
    case Some(msg) => Failure(External(msg))
    case None =>
      if id in t.rows then Success(Scan(ToModelReport(t.rows[id]))) else Failure(ReportNotFound)
  }

  /** `GetReportByScanID`: no row is not-found, several rows an error, one row that report. */
  ghost function ByScanID(t: Table, fault: Fault, scanId: string): Result<ScanReport, Error>
  {
    match fault(SelectByScanID(scanId))
    case Some(msg) => Failure(External(msg))
    case None =>
      var ids := t.KeyIds(scanId);
      if |ids| == 0 then Failure(ReportNotFound)
      else if |ids| > 1 then Failure(MultipleReports)
      else var id :| id in ids; Success(ToModelReport(t.rows[id]))
  }

  /** `Insert`: the row is stored under a fresh id, which is written back into the report. */
  function InsertSpec(t: Table, fault: Fault, r: ScanReport): (Option<Error>, ScanReport, Table)
  {
    match fault(InsertRow(ToDBReport(r)))
    case Some(msg) => (Some(External(msg)), r, t)
    case None =>
      var stored := r.(base := r.base.(id := t.nextId));
      (None, stored, Table(t.rows[t.nextId := ToDBReport(stored)], t.nextId + 1))
  }

  /** `Update`: the row with the report's id is replaced; with no such row nothing changes. */
  function UpdateSpec(t: Table, fault: Fault, r: ScanReport): (Option<Error>, Table)
  {
    match fault(UpdateRow(ToDBReport(r)))
    case Some(msg) => (Some(External(msg)), t)
    case None => (None, if r.base.id in t.rows then t.(rows := t.rows[r.base.id := ToDBReport(r)]) else t)
  }

  /**
   * `SaveReport`: a live report is refused; otherwise a report whose scan
   * has no row is inserted, and one whose scan has a row takes that row's
   * id and replaces it. Returns the error, the report as the caller sees it
   * afterwards (with its id written back) and the new table.
   */
  ghost function SaveSpec(t: Table, fault: Fault, report: Report): (r: (Option<Error>, Report, Table))
    ensures report.Scan? ==> r.1.Scan? && r.1.scan == report.scan.(base := report.scan.base.(id := r.1.GetID()))
    ensures report.Live? ==> r == (Some(InvalidReportData), report, t)
  {
    match report
    case Live(_) => (Some(InvalidReportData), report, t)
    case Scan(r) =>
      match ByScanID(t, fault, r.scanId)
      case Failure(e) =>
        if e == ReportNotFound then
          var (err, stored, t') := InsertSpec(t, fault, r);
          (err, Scan(stored), t')
        else (Some(e), report, t)
      case Success(found) =>
        var r' := r.(base := r.base.(id := found.base.id));
        var (err, t') := UpdateSpec(t, fault, r');
        (err, Scan(r'), t')
  }

  /** Under the unique constraint, the rows of a scan are at most one. */
  lemma {:induction false} UniqueKeyIds(t: Table, scanId: string)
    requires t.UniqueKeys()
    ensures |t.KeyIds(scanId)| <= 1
    ensures forall id :: id in t.KeyIds(scanId) ==> t.KeyIds(scanId) == {id}
  {
    var ids := t.KeyIds(scanId);
    if ids != {} {
      var id :| id in ids;
      assert ids == {id};
    }
  }

  /**
   * Saving keeps the table well formed and keeps `scan_id` unique, whatever
   * the database rejects.
   */
  lemma SavePreservesInvariants(t: Table, fault: Fault, report: Report)
    requires t.Valid()
    ensures var t' := SaveSpec(t, fault, report).2;
      t'.Valid() && (t.UniqueKeys() ==> t'.UniqueKeys())
  {
    if report.Scan? && t.UniqueKeys() {
      var r := report.scan;
      UniqueKeyIds(t, r.scanId);
      var ids := t.KeyIds(r.scanId);
      var (err, saved, t') := SaveSpec(t, fault, report);
      if t'.rows != t.rows {
        // The one row written is the scan's, under the id of its previous row if any.
        var k := saved.GetID();
        if ids != {} {
          var id :| id in ids;
          Singleton(ids, id);
          assert k == id;
        }
        assert t'.rows == t.rows[k := t'.rows[k]] && t'.rows[k].scanId == r.scanId;
        forall i, j | i in t'.rows && j in t'.rows && t'.rows[i].scanId == t'.rows[j].scanId
          ensures i == j
        {
          assert i != k ==> t'.rows[i] == t.rows[i];
          assert j != k ==> t'.rows[j] == t.rows[j];
          assert i == k && j != k ==> j in ids;
          assert j == k && i != k ==> i in ids;
        }
      }
    }
  }

  /**
   * Upsert: when the database accepts the statements, a save leaves exactly
   * one row for the scan, holding the saved report under its id; that id is
   * the existing row's if there was one and a fresh one otherwise; no other
   * row changes.
   */
  lemma SaveUpserts(t: Table, fault: Fault, r: ScanReport)
    requires t.Valid() && t.UniqueKeys()
    requires fault(SelectByScanID(r.scanId)).None?
    requires forall row :: fault(InsertRow(row)).None? && fault(UpdateRow(row)).None?
    ensures var (err, saved, t') := SaveSpec(t, fault, Scan(r));
      var old_ids := t.KeyIds(r.scanId);
      && err.None? && saved.Scan?
      && t'.KeyIds(r.scanId) == {saved.GetID()}
      && t'.rows[saved.GetID()] == ToDBReport(saved.scan)
      && saved.scan == r.(base := r.base.(id := saved.GetID()))
      && (old_ids == {} ==> saved.GetID() == t.nextId && saved.GetID() !in t.rows)
      && (old_ids != {} ==> old_ids == {saved.GetID()} && t'.nextId == t.nextId)
      && t'.rows.Keys == t.rows.Keys + {saved.GetID()}
      && (forall id :: id in t.rows && id != saved.GetID() ==> t'.rows[id] == t.rows[id])
  {
    UniqueKeyIds(t, r.scanId);
    var (err, saved, t') := SaveSpec(t, fault, Scan(r));
    var ids := t.KeyIds(r.scanId);
    if ids != {} {
      var id :| id in ids;
      Singleton(ids, id);
      assert saved.GetID() == id;
    }
    assert t'.KeyIds(r.scanId) == {saved.GetID()};
  }

  /**
   * Saving the same report again changes nothing further: the second save
   * finds the row of the first and rewrites it with the same contents.
   */
  lemma SaveIdempotent(t: Table, fault: Fault, r: ScanReport)
    requires t.Valid() && t.UniqueKeys()
    requires fault(SelectByScanID(r.scanId)).None?
    requires forall row :: fault(InsertRow(row)).None? && fault(UpdateRow(row)).None?
    ensures var (_, saved, t1) := SaveSpec(t, fault, Scan(r));
      var (err2, saved2, t2) := SaveSpec(t1, fault, Scan(r));
      err2.None? && saved2 == saved && t2 == t1
  {
    SaveUpserts(t, fault, r);
    var (_, saved, t1) := SaveSpec(t, fault, Scan(r));
    SavePreservesInvariants(t, fault, Scan(r));
    SaveUpserts(t1, fault, r);
    var (_, saved2, t2) := SaveSpec(t1, fault, Scan(r));
    var id := saved.GetID();
    assert t1.KeyIds(r.scanId) == {id};
    assert saved2.GetID() == id;
    assert saved2 == saved;
    assert t2.rows.Keys == t1.rows.Keys;
    assert forall k :: k in t1.rows ==> t2.rows[k] == t1.rows[k];
    assert t2.rows == t1.rows;
  }

  /** After a successful save, reading the saved id gives back the saved report as stored. */
  lemma ReadAfterSave(t: Table, fault: Fault, r: ScanReport)
    requires t.Valid() && t.UniqueKeys()
    requires fault(SelectByScanID(r.scanId)).None?
    requires forall row :: fault(InsertRow(row)).None? && fault(UpdateRow(row)).None?
    requires forall id :: fault(FindByID(id)).None?
    ensures var (_, saved, t') := SaveSpec(t, fault, Scan(r));
      Find(t', fault, saved.GetID()) == Success(Scan(ToModelReport(ToDBReport(saved.scan))))
  {
    SaveUpserts(t, fault, r);
  }

  /** Absent ids are not found. */
  lemma AbsentNotFound(t: Table, fault: Fault, id: ReportId)
    requires fault(FindByID(id)).None? && id !in t.rows
    ensures Find(t, fault, id) == Failure(ReportNotFound)
  {
  }

  /** The scan reports repository over its table. */
  class ScanReportsRepository {
    const fault: Fault
    var table: Table

    ghost predicate Valid()
      reads this
    {
      table.Valid()
    }

    /**
     * `newScanReportsRepository`: the repository wraps the database as it is, with
     * whatever rows it already holds under the table's own constraints.
     */
    constructor (fault: Fault, t: Table)
      requires t.Valid() && t.UniqueKeys()
      ensures this.fault == fault && table == t && Valid()
    {
      this.fault := fault;
      table := t;
    }

    method GetReport(id: ReportId) returns (r: Result<Report, Error>)
      ensures r == Find(table, fault, id)
    {
      var f := fault(FindByID(id));
      if f.Some? {
        return Failure(External(f.value));
      }
      if id !in table.rows {
        return Failure(ReportNotFound);
      }
      r := Success(Scan(ToModelReport(table.rows[id])));
    }

    method GetReportByScanID(scanId: string) returns (r: Result<ScanReport, Error>)
      ensures r == ByScanID(table, fault, scanId)
    {
      var f := fault(SelectByScanID(scanId));
      if f.Some? {
        return Failure(External(f.value));
      }
      var ids := table.KeyIds(scanId);
      if |ids| == 0 {
        return Failure(ReportNotFound);
      }
      if |ids| > 1 {
        return Failure(MultipleReports);
      }
      var id :| id in ids;
      Singleton(ids, id);
      r := Success(ToModelReport(table.rows[id]));
    }

    method Insert(report: ScanReport) returns (err: Option<Error>, stored: ScanReport)
      requires Valid()
      modifies this
      ensures Valid()
      ensures (err, stored, table) == InsertSpec(old(table), fault, report)
    {
      var row := ToDBReport(report);
      var f := fault(InsertRow(row));
      if f.Some? {
        return Some(External(f.value)), report;
      }
      err := None;
      stored := report.(base := report.base.(id := table.nextId));
      table := Table(table.rows[table.nextId := ToDBReport(stored)], table.nextId + 1);
    }

    method Update(report: ScanReport) returns (err: Option<Error>)
      requires Valid()
      modifies this
      ensures Valid()
      ensures (err, table) == UpdateSpec(old(table), fault, report)
    {
      var row := ToDBReport(report);
      var f := fault(UpdateRow(row));
      if f.Some? {
        return Some(External(f.value));
      }
      err := None;
      if row.id in table.rows {
        table := table.(rows := table.rows[row.id := row]);
      }
    }

    method SaveReport(report: Report) returns (err: Option<Error>, saved: Report)
      requires Valid()
      modifies this
      ensures Valid()
      ensures (err, saved, table) == SaveSpec(old(table), fault, report)
    {
      if !report.Scan? {
        return Some(InvalidReportData), report;
      }
      var scanReport := report.scan;
      var found := GetReportByScanID(scanReport.scanId);
      if found.Failure? {
        if found.error == ReportNotFound {
          var stored;
          err, stored := Insert(scanReport);
          return err, Scan(stored);
        }
        return Some(found.error), report;
      }
      scanReport := scanReport.(base := scanReport.base.(id := found.value.base.id));
      err := Update(scanReport);
      saved := Scan(scanReport);
    }
  }
}
