/**
 * The live reports repository: live reports stored in a `live_reports`
 * table, one row per team and date range, saved by upsert on
 * `(team_id, date_from, date_to)`.
 *
 * The table is an in-memory map from report id to row; the database
 * assigns fresh ids on insert. Database failures come from `fault`, which
 * says for each statement whether the database rejects it.
 */
module LiveReportsRepository {
  import opened Wrappers
  import opened Errors
  import opened Strings
  import Base64
  import opened Model

  /** The separator of the stored recipient list. */
  const Comma: char := ','

  /** The natural key of a live report. */
  datatype Key = Key(teamId: string, dateFrom: string, dateTo: string)

  /** A `live_reports` row (timestamps are not modelled). */
  datatype LiveRow = LiveRow(
    id: ReportId,
    teamId: string,
    dateFrom: string,
    dateTo: string,
    emailSubject: string,
    /** The notification body, base64-encoded. */
    emailBody: string,
    /** The recipients, joined with commas. */
    deliveredTo: string,
    status: string)
  {
    function RowKey(): Key { Key(teamId, dateFrom, dateTo) }
  }

  function ReportKey(r: LiveReport): Key
  {
    Key(r.teamId, r.dateFrom, r.dateTo)
  }

  /** `toDBLiveReport`: the row a report is stored as. */
  function ToDBLiveReport(r: LiveReport): LiveRow
  {
    LiveRow(r.base.id, r.teamId, r.dateFrom, r.dateTo, r.base.notification.subject,
            Base64.Encode(r.base.notification.body), Join(r.base.deliveredTo, Comma), r.base.status)
  }

  /**
   * `toModelLiveReport`: the report a row reads back as. A body that is not
   * valid base64 reads back empty; the format is always HTML and files are
   * not stored.
   */
  function ToModelLiveReport(row: LiveRow): LiveReport
  {
    var body := match Base64.Decode(row.emailBody) case Some(b) => b case None => [];
    LiveReport(
      BaseReport(row.id, [], Notification(row.emailSubject, body, NotifFmtHTML), Split(row.deliveredTo, Comma), row.status),
      row.teamId, row.dateFrom, row.dateTo)
  }

  /** Reading back a stored report. */
  lemma {:induction false} RowRoundTrip(r: LiveReport)
    ensures var back := ToModelLiveReport(ToDBLiveReport(r));
      && back.base.id == r.base.id && back.base.status == r.base.status
      && ReportKey(back) == ReportKey(r)
      && back.base.notification.subject == r.base.notification.subject
      && back.base.notification.body == r.base.notification.body
      && back.base.notification.fmt == NotifFmtHTML
      && back.base.files == []
      && (back.base.deliveredTo == r.base.deliveredTo <==>
            (r.base.deliveredTo != [] && forall i :: 0 <= i < |r.base.deliveredTo| ==> Comma !in r.base.deliveredTo[i]))
  {
    Base64.DecodeEncode(r.base.notification.body);
    SplitJoin(r.base.deliveredTo, Comma);
  }

  /**
   * A report read from a row, with its status possibly changed, is stored
   * as a row that reads back as that same report.
   */
  lemma {:induction false} ReadBackStable(row: LiveRow, status: string)
    ensures var r := ToModelLiveReport(row);
      var r' := r.(base := r.base.(status := status));
      ToModelLiveReport(ToDBLiveReport(r')) == r'
  {
    var r := ToModelLiveReport(row);
    Base64.DecodeEncode(r.base.notification.body);
    JoinSplit(row.deliveredTo, Comma);
  }

  /** A statement the repository issues to the database. */
  datatype Statement =
    | FindByID(id: ReportId)
    | SelectByKey(key: Key)
    | InsertRow(row: LiveRow)
    | UpdateRow(row: LiveRow)

  /** Whether the database rejects a statement, and with which message. */
  type Fault = Statement -> Option<string>

  /** The `live_reports` table and the next id the database will assign. */
  datatype Table = Table(rows: map<ReportId, LiveRow>, nextId: ReportId)
  {
    /** Ids are positive, below `nextId`, and stored in their rows. */
    ghost predicate Valid()
    {
      nextId > NoId && NoId !in rows
      && forall id :: id in rows ==> id < nextId && rows[id].id == id
    }

    /** The database's unique constraint on `(team_id, date_from, date_to)`. */
    ghost predicate UniqueKeys()
    {
      forall i, j :: i in rows && j in rows && rows[i].RowKey() == rows[j].RowKey() ==> i == j
    }

    /** The ids of the rows for a key. */
    function KeyIds(key: Key): set<ReportId>
    {
      set id | id in rows && rows[id].RowKey() == key
    }
  }

  /** `GetReport`: the report stored under `id`. */
  function Find(t: Table, fault: Fault, id: ReportId): Result<Report, Error>
  {
    match fault(FindByID(id))
    case Some(msg) => Failure(External(msg))
    case None =>
      if id in t.rows then Success(Live(ToModelLiveReport(t.rows[id]))) else Failure(ReportNotFound)
  }

  /** `GetReportByTeamAndDateRange`: no row is not-found, several rows an error, one row that report. */
  ghost function ByKey(t: Table, fault: Fault, key: Key): Result<LiveReport, Error>
  {
    match fault(SelectByKey(key))
    case Some(msg) => Failure(External(msg))
    case None =>
      var ids := t.KeyIds(key);
      if |ids| == 0 then Failure(ReportNotFound)
      else if |ids| > 1 then Failure(MultipleReports)
      else var id :| id in ids; Success(ToModelLiveReport(t.rows[id]))
  }

  /** `Insert`: the row is stored under a fresh id, which is written back into the report. */
  function InsertSpec(t: Table, fault: Fault, r: LiveReport): (Option<Error>, LiveReport, Table)
  {
    match fault(InsertRow(ToDBLiveReport(r)))
    case Some(msg) => (Some(External(msg)), r, t)
    case None =>
      var stored := r.(base := r.base.(id := t.nextId));
      (None, stored, Table(t.rows[t.nextId := ToDBLiveReport(stored)], t.nextId + 1))
  }

  /** `Update`: the row with the report's id is replaced; with no such row nothing changes. */
  function UpdateSpec(t: Table, fault: Fault, r: LiveReport): (Option<Error>, Table)
  {
    match fault(UpdateRow(ToDBLiveReport(r)))
    case Some(msg) => (Some(External(msg)), t)
    case None => (None, if r.base.id in t.rows then t.(rows := t.rows[r.base.id := ToDBLiveReport(r)]) else t)
  }

  /**
   * `SaveReport`: a scan report is refused; otherwise a report whose key
   * has no row is inserted, and one whose key has a row takes that row's
   * id and replaces it. Returns the error, the report as the caller sees it
   * afterwards (with its id written back) and the new table.
   */
  ghost function SaveSpec(t: Table, fault: Fault, report: Report): (r: (Option<Error>, Report, Table))
    ensures report.Live? ==> r.1.Live? && r.1.live == report.live.(base := report.live.base.(id := r.1.GetID()))
    ensures report.Scan? ==> r == (Some(InvalidReportData), report, t)
  {
    match report
    case Scan(_) => (Some(InvalidReportData), report, t)
    case Live(r) =>
      match ByKey(t, fault, ReportKey(r))
      case Failure(e) =>
        if e == ReportNotFound then
          var (err, stored, t') := InsertSpec(t, fault, r);
          (err, Live(stored), t')
        else (Some(e), report, t)
      case Success(found) =>
        var r' := r.(base := r.base.(id := found.base.id));
        var (err, t') := UpdateSpec(t, fault, r');
        (err, Live(r'), t')
  }

  /** Under the unique constraint, the rows of a key are at most one. */
  lemma {:induction false} UniqueKeyIds(t: Table, key: Key)
    requires t.UniqueKeys()
    ensures |t.KeyIds(key)| <= 1
    ensures forall id :: id in t.KeyIds(key) ==> t.KeyIds(key) == {id}
  {
    var ids := t.KeyIds(key);
    if ids != {} {
      var id :| id in ids;
      assert ids == {id};
    }
  }

  /**
   * Saving keeps the table well formed and keeps `(team_id, date_from, date_to)` unique, whatever
   * the database rejects.
   */
  lemma SavePreservesInvariants(t: Table, fault: Fault, report: Report)
    requires t.Valid()
    ensures var t' := SaveSpec(t, fault, report).2;
      t'.Valid() && (t.UniqueKeys() ==> t'.UniqueKeys())
  {
    if report.Live? && t.UniqueKeys() {
      var r := report.live;
      UniqueKeyIds(t, ReportKey(r));
      var ids := t.KeyIds(ReportKey(r));
      var (err, saved, t') := SaveSpec(t, fault, report);
      if t'.rows != t.rows {
        // The one row written is the key's, under the id of its previous row if any.
        var k := saved.GetID();
        if ids != {} {
          var id :| id in ids;
          Singleton(ids, id);
          assert k == id;
        }
        assert t'.rows == t.rows[k := t'.rows[k]] && t'.rows[k].RowKey() == ReportKey(r);
        forall i, j | i in t'.rows && j in t'.rows && t'.rows[i].RowKey() == t'.rows[j].RowKey()
          ensures i == j
        {
          assert i != k ==> t'.rows[i] == t.rows[i];
          assert j != k ==> t'.rows[j] == t.rows[j];
          assert i == k && j != k ==> j in ids;
          assert j == k && i != k ==> i in ids;
        }
      }
    }
  }

  /**
   * Upsert: when the database accepts the statements, a save leaves exactly
   * one row for the key, holding the saved report under its id; that id is
   * the existing row's if there was one and a fresh one otherwise; no other
   * row changes.
   */
  lemma SaveUpserts(t: Table, fault: Fault, r: LiveReport)
    requires t.Valid() && t.UniqueKeys()
    requires fault(SelectByKey(ReportKey(r))).None?
    requires forall row :: fault(InsertRow(row)).None? && fault(UpdateRow(row)).None?
    ensures var (err, saved, t') := SaveSpec(t, fault, Live(r));
      var old_ids := t.KeyIds(ReportKey(r));
      && err.None? && saved.Live?
      && t'.KeyIds(ReportKey(r)) == {saved.GetID()}
      && t'.rows[saved.GetID()] == ToDBLiveReport(saved.live)
      && saved.live == r.(base := r.base.(id := saved.GetID()))
      && (old_ids == {} ==> saved.GetID() == t.nextId && saved.GetID() !in t.rows)
      && (old_ids != {} ==> old_ids == {saved.GetID()} && t'.nextId == t.nextId)
      && t'.rows.Keys == t.rows.Keys + {saved.GetID()}
      && (forall id :: id in t.rows && id != saved.GetID() ==> t'.rows[id] == t.rows[id])
  {
    UniqueKeyIds(t, ReportKey(r));
    var (err, saved, t') := SaveSpec(t, fault, Live(r));
    var ids := t.KeyIds(ReportKey(r));
    if ids != {} {
      var id :| id in ids;
      Singleton(ids, id);
      assert saved.GetID() == id;
    }
    assert t'.KeyIds(ReportKey(r)) == {saved.GetID()};
  }

  /**
   * Saving the same report again changes nothing further: the second save
   * finds the row of the first and rewrites it with the same contents.
   */
  lemma SaveIdempotent(t: Table, fault: Fault, r: LiveReport)
    requires t.Valid() && t.UniqueKeys()
    requires fault(SelectByKey(ReportKey(r))).None?
    requires forall row :: fault(InsertRow(row)).None? && fault(UpdateRow(row)).None?
    ensures var (_, saved, t1) := SaveSpec(t, fault, Live(r));
      var (err2, saved2, t2) := SaveSpec(t1, fault, Live(r));
      err2.None? && saved2 == saved && t2 == t1
  {
    SaveUpserts(t, fault, r);
    var (_, saved, t1) := SaveSpec(t, fault, Live(r));
    SavePreservesInvariants(t, fault, Live(r));
    SaveUpserts(t1, fault, r);
    var (_, saved2, t2) := SaveSpec(t1, fault, Live(r));
    var id := saved.GetID();
    assert t1.KeyIds(ReportKey(r)) == {id};
    assert saved2.GetID() == id;
    assert saved2 == saved;
    assert t2.rows.Keys == t1.rows.Keys;
    assert forall k :: k in t1.rows ==> t2.rows[k] == t1.rows[k];
    assert t2.rows == t1.rows;
  }

  /** After a successful save, reading the saved id gives back the saved report as stored. */
  lemma ReadAfterSave(t: Table, fault: Fault, r: LiveReport)
    requires t.Valid() && t.UniqueKeys()
    requires fault(SelectByKey(ReportKey(r))).None?
    requires forall row :: fault(InsertRow(row)).None? && fault(UpdateRow(row)).None?
    requires forall id :: fault(FindByID(id)).None?
    ensures var (_, saved, t') := SaveSpec(t, fault, Live(r));
      Find(t', fault, saved.GetID()) == Success(Live(ToModelLiveReport(ToDBLiveReport(saved.live))))
  {
    SaveUpserts(t, fault, r);
  }

  /** Absent ids are not found. */
  lemma AbsentNotFound(t: Table, fault: Fault, id: ReportId)
    requires fault(FindByID(id)).None? && id !in t.rows
    ensures Find(t, fault, id) == Failure(ReportNotFound)
  {
  }

  /** The live reports repository over its table. */
  class LiveReportsRepository {
    const fault: Fault
    var table: Table

    ghost predicate Valid()
      reads this
    {
      table.Valid()
    }

    /**
     * `newLiveReportsRepository`: the repository wraps the database as it is, with
     * whatever rows it already holds under the table's own constraints.
     */
    constructor (fault: Fault, t: Table)
      requires t.Valid() && t.UniqueKeys()
      ensures this.fault == fault && table == t && Valid()
    {
      this.fault := fault;
      table := t;
    }

    method GetReport(id: ReportId) returns (r: Result<Report, Error>)
      ensures r == Find(table, fault, id)
    {
      var f := fault(FindByID(id));
      if f.Some? {
        return Failure(External(f.value));
      }
      if id !in table.rows {
        return Failure(ReportNotFound);
      }
      r := Success(Live(ToModelLiveReport(table.rows[id])));
    }

    method GetReportByTeamAndDateRange(teamId: string, dateFrom: string, dateTo: string) returns (r: Result<LiveReport, Error>)
      ensures r == ByKey(table, fault, Key(teamId, dateFrom, dateTo))
    {
      var key := Key(teamId, dateFrom, dateTo);
      var f := fault(SelectByKey(key));
      if f.Some? {
        return Failure(External(f.value));
      }
      var ids := table.KeyIds(key);
      if |ids| == 0 {
        return Failure(ReportNotFound);
      }
      if |ids| > 1 {
        return Failure(MultipleReports);
      }
      var id :| id in ids;
      Singleton(ids, id);
      r := Success(ToModelLiveReport(table.rows[id]));
    }

    method Insert(report: LiveReport) returns (err: Option<Error>, stored: LiveReport)
      requires Valid()
      modifies this
      ensures Valid()
      ensures (err, stored, table) == InsertSpec(old(table), fault, report)
    {
      var row := ToDBLiveReport(report);
      var f := fault(InsertRow(row));
      if f.Some? {
        return Some(External(f.value)), report;
      }
      err := None;
      stored := report.(base := report.base.(id := table.nextId));
      table := Table(table.rows[table.nextId := ToDBLiveReport(stored)], table.nextId + 1);
    }

    method Update(report: LiveReport) returns (err: Option<Error>)
      requires Valid()
      modifies this
      ensures Valid()
      ensures (err, table) == UpdateSpec(old(table), fault, report)
    {
      var row := ToDBLiveReport(report);
      var f := fault(UpdateRow(row));
      if f.Some? {
        return Some(External(f.value));
      }
      err := None;
      if row.id in table.rows {
        table := table.(rows := table.rows[row.id := row]);
      }
    }

    method SaveReport(report: Report) returns (err: Option<Error>, saved: Report)
      requires Valid()
      modifies this
      ensures Valid()
      ensures (err, saved, table) == SaveSpec(old(table), fault, report)
    {
      if !report.Live? {
        return Some(InvalidReportData), report;
      }
      var liveReport := report.live;
      var found := GetReportByTeamAndDateRange(liveReport.teamId, liveReport.dateFrom, liveReport.dateTo);
      if found.Failure? {
        if found.error == ReportNotFound {
          var stored;
          err, stored := Insert(liveReport);
          return err, Live(stored);
        }
        return Some(found.error), report;
      }
      liveReport := liveReport.(base := liveReport.base.(id := found.value.base.id));
      err := Update(liveReport);
      saved := Live(liveReport);
    }
  }
}
