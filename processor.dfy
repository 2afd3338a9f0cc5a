/**
 * The reports processor (`reportsProcessor.ProcessMessage`): parse the
 * generation request, find the use case for its type, generate, upload,
 * optionally notify, and finish, pushing counters along the way.
 *
 * The use cases, the uploader and the notifier are collaborators given by
 * their outcomes; `ProcessMessage` returns its error together with the
 * calls it made on them, in order (metric pushes included).
 */
module Processor {
  import opened Wrappers
  import opened Errors
  import opened Json
  import opened Strings
  import opened Model

  /** The team a report is addressed to. */
  datatype TeamInfo = TeamInfo(id: string, name: string, recipients: seq<string>)

  /** A generation request: report type, team, type-specific data and whether to send the notification. */
  datatype GenRequest = GenRequest(typ: string, teamInfo: TeamInfo, data: Json, autoSend: bool)

  /** encoding/json filling the `team_info` struct. */
  function DecodeTeamInfo(v: Json): Result<TeamInfo, Error>
  {
    if !IsStructLike(v) then Failure(JsonType("team_info"))
    else
      match (DecodeString(Member(v, "id"), "id"), DecodeString(Member(v, "name"), "name"),
             DecodeStrings(Member(v, "recipients"), "recipients"))
      case (Success(id), Success(name), Success(recipients)) => Success(TeamInfo(id, name, recipients))
      case (Failure(e), _, _) => Failure(e)
      case (_, Failure(e), _) => Failure(e)
      case (_, _, Failure(e)) => Failure(e)
  }

  /** encoding/json filling a `genRequest`; `data` is kept as the decoded document. */
  function DecodeGenRequest(v: Json): Result<GenRequest, Error>
  {
    if !IsStructLike(v) then Failure(JsonType(""))
    else
      match (DecodeString(Member(v, "type"), "type"), DecodeTeamInfo(Member(v, "team_info")),
             DecodeBool(Member(v, "auto_send"), "auto_send"))
      case (Success(typ), Success(team), Success(autoSend)) => Success(GenRequest(typ, team, Member(v, "data"), autoSend))
      case (Failure(e), _, _) => Failure(e)
      case (_, Failure(e), _) => Failure(e)
      case (_, _, Failure(e)) => Failure(e)
  }

  /**
   * `parseGenRequest`: a decoding failure is returned wrapped around
   * `ErrInvalidRequest`; a request without team id or type is `ErrInvalidRequest`.
   */
  function ParseGenRequest(decode: Decoder, reqData: string): (r: Result<GenRequest, Error>)
    ensures r.Failure? ==> Is(r.error, InvalidRequest)
    ensures decode(reqData).None? ==> r == Failure(Wrapped(InvalidRequest, JsonSyntax))
    ensures r.Success? <==>
      (decode(reqData).Some? && DecodeGenRequest(decode(reqData).value).Success?
       && DecodeGenRequest(decode(reqData).value).value.teamInfo.id != ""
       && DecodeGenRequest(decode(reqData).value).value.typ != "")
    ensures r.Success? ==> r.value == DecodeGenRequest(decode(reqData).value).value
  {
    match decode(reqData)
    case None => Failure(Wrapped(InvalidRequest, JsonSyntax))
    case Some(v) =>
      match DecodeGenRequest(v)
      case Failure(e) => Failure(Wrapped(InvalidRequest, e))
      case Success(req) =>
        if req.teamInfo.id == "" || req.typ == "" then Failure(InvalidRequest) else Success(req)
  }

  /** A request document with every field given parses back to that request. */
  lemma ParseWellFormedRequest(decode: Decoder, text: string, typ: string, team: TeamInfo, data: Json, autoSend: bool)
    requires typ != "" && team.id != ""
    requires decode(text) == Some(JObject(map[
      "type" := JString(typ),
      "team_info" := JObject(map["id" := JString(team.id), "name" := JString(team.name),
                                 "recipients" := JArray(seq(|team.recipients|, i requires 0 <= i < |team.recipients| => JString(team.recipients[i])))]),
      "data" := data,
      "auto_send" := JBool(autoSend)]))
    ensures ParseGenRequest(decode, text) == Success(GenRequest(typ, team, data, autoSend))
  {
    var items := seq(|team.recipients|, i requires 0 <= i < |team.recipients| => JString(team.recipients[i]));
    var r := DecodeEach(items, "recipients");
    assert r.Success?;
    assert r.value == team.recipients;
  }

  datatype MetricType = Count

  /** A metric as pushed to the metrics client. */
  datatype Metric = Metric(name: string, typ: MetricType, value: int, tags: seq<string>)

  const GeneratedMetricName: string := "vulcan.report.generated"
  const NotifiedMetricName: string := "vulcan.report.notified"

  /** `pushGenMetric`: one generated report of this type. */
  function GenMetric(reportType: string): Metric
  {
    Metric(GeneratedMetricName, Count, 1, ["reporttype:" + reportType])
  }

  /** `pushNotifMetric`: one notified report of this type. */
  function NotifMetric(reportType: string): Metric
  {
    Metric(NotifiedMetricName, Count, 1, ["reporttype:" + reportType])
  }

  /** A use case as the processor sees it: what `Generate` returns and what `Finish` returns. */
  datatype UseCase = UseCase(
    generate: (TeamInfo, Json) -> Result<Report, Error>,
    finish: (ReportId, string) -> Option<Error>)

  /** The processor's collaborators, fixed at construction. */
  datatype ReportsProcessor = ReportsProcessor(
    /** The JSON parser. */
    decode: Decoder,
    /** The registered use cases, by report type. */
    generateUCC: map<string, UseCase>,
    /** The uploader's outcome for a list of files. */
    upload: seq<FileInfo> -> Option<Error>,
    /** The notifier's outcome for a subject, body, format and recipient list. */
    notify: (string, Bytes, NotifFmt, seq<string>) -> Option<Error>)

  /** A call the processor makes on a collaborator. */
  datatype Effect =
    | GenerateCall(typ: string, teamInfo: TeamInfo, data: Json)
    | UploadCall(files: seq<FileInfo>)
    | NotifyCall(subject: string, body: Bytes, fmt: NotifFmt, recipients: seq<string>)
    | FinishCall(typ: string, reportId: ReportId, status: string)
    | PushMetric(metric: Metric)

  /** The error and the calls of processing `mssg`, step by step as the source orders them. */
  function Pipeline(p: ReportsProcessor, mssg: string): (Option<Error>, seq<Effect>)
  {
    match ParseGenRequest(p.decode, mssg)
    case Failure(e) => (Some(e), [])
    case Success(req) =>
      if req.typ !in p.generateUCC then (Some(UnsupportedReportType), [])
      else
        var uc := p.generateUCC[req.typ];
        var gen := [GenerateCall(req.typ, req.teamInfo, req.data)];
        match uc.generate(req.teamInfo, req.data)
        case Failure(e) => (Some(e), gen)
        case Success(report) =>
          var id := report.GetID();
          var up := gen + [UploadCall(report.GetFiles())];
          if p.upload(report.GetFiles()).Some? then
            (p.upload(report.GetFiles()), up + [FinishCall(req.typ, id, StatusFailed)])
          else
            var generated := up + [PushMetric(GenMetric(req.typ))];
            var n := report.GetNotification();
            var sent := generated + [NotifyCall(n.subject, n.body, n.fmt, req.teamInfo.recipients)];
            if req.autoSend && p.notify(n.subject, n.body, n.fmt, req.teamInfo.recipients).Some? then
              (p.notify(n.subject, n.body, n.fmt, req.teamInfo.recipients), sent + [FinishCall(req.typ, id, StatusFailed)])
            else
              var before := if req.autoSend then sent + [PushMetric(NotifMetric(req.typ))] else generated;
              (uc.finish(id, StatusFinished), before + [FinishCall(req.typ, id, StatusFinished)])
  }

  /** `ProcessMessage`, proved to make the calls and return the error of `Pipeline`. */
  method ProcessMessage(p: ReportsProcessor, mssg: string) returns (err: Option<Error>, effects: seq<Effect>)
    ensures (err, effects) == Pipeline(p, mssg)
  {
    effects := [];
    var parsed := ParseGenRequest(p.decode, mssg);
    if parsed.Failure? {
      return Some(parsed.error), effects;
    }
    var req := parsed.value;
    if req.typ !in p.generateUCC {
      return Some(UnsupportedReportType), effects;
    }
    var generateUC := p.generateUCC[req.typ];

    // Generate.
    effects := [GenerateCall(req.typ, req.teamInfo, req.data)];
    var generated := generateUC.generate(req.teamInfo, req.data);
    if generated.Failure? {
      return Some(generated.error), effects;
    }
    var report := generated.value;

    // Upload.
    effects := effects + [UploadCall(report.GetFiles())];
    err := p.upload(report.GetFiles());
    if err.Some? {
      effects := effects + [FinishCall(req.typ, report.GetID(), StatusFailed)];
      return err, effects;
    }
    effects := effects + [PushMetric(GenMetric(req.typ))];

    // Notify.
    if req.autoSend {
      var notif := report.GetNotification();
      effects := effects + [NotifyCall(notif.subject, notif.body, notif.fmt, req.teamInfo.recipients)];
      err := p.notify(notif.subject, notif.body, notif.fmt, req.teamInfo.recipients);
      if err.Some? {
        effects := effects + [FinishCall(req.typ, report.GetID(), StatusFailed)];
        return err, effects;
      }
      effects := effects + [PushMetric(NotifMetric(req.typ))];
    }

    // Set report as finished.
    effects := effects + [FinishCall(req.typ, report.GetID(), StatusFinished)];
    err := generateUC.finish(report.GetID(), StatusFinished);
  }

  /** Number of `Finish` calls among the effects. */
  function FinishCount(effects: seq<Effect>): nat
  {
    if effects == [] then 0 else FinishCount(effects[..|effects| - 1]) + (if effects[|effects| - 1].FinishCall? then 1 else 0)
  }

  /** Number of pushes of the metric named `name`. */
  function MetricCount(effects: seq<Effect>, name: string): nat
  {
    if effects == [] then 0
    else
      var e := effects[|effects| - 1];
      MetricCount(effects[..|effects| - 1], name) + (if e.PushMetric? && e.metric.name == name then 1 else 0)
  }

  lemma {:induction false} CountsAppend(a: seq<Effect>, b: seq<Effect>, name: string)
    ensures FinishCount(a + b) == FinishCount(a) + FinishCount(b)
    ensures MetricCount(a + b, name) == MetricCount(a, name) + MetricCount(b, name)
    decreases |b|
  {
    if b == [] {
      assert a + b == a;
    } else {
      assert (a + b)[..|a + b| - 1] == a + b[..|b| - 1];
      CountsAppend(a, b[..|b| - 1], name);
    }
  }

  lemma CountsOne(e: Effect, name: string)
    ensures FinishCount([e]) == (if e.FinishCall? then 1 else 0)
    ensures MetricCount([e], name) == (if e.PushMetric? && e.metric.name == name then 1 else 0)
  {
    assert [e][..0] == [];
  }

  /** Whether the request parses, its type is registered and its use case generates a report. */
  predicate Generated(p: ReportsProcessor, mssg: string)
  {
    var parsed := ParseGenRequest(p.decode, mssg);
    parsed.Success? && parsed.value.typ in p.generateUCC
    && p.generateUCC[parsed.value.typ].generate(parsed.value.teamInfo, parsed.value.data).Success?
  }

  /**
   * Before a report exists nothing is finished and nothing is counted: an
   * invalid request or an unregistered type makes no call at all, and a
   * `Generate` error is returned unchanged after the one `Generate` call.
   */
  lemma NoFinishWithoutReport(p: ReportsProcessor, mssg: string)
    requires !Generated(p, mssg)
    ensures var (err, effects) := Pipeline(p, mssg);
      var parsed := ParseGenRequest(p.decode, mssg);
      && err.Some?
      && (parsed.Failure? ==> err == Some(parsed.error) && effects == [])
      && (parsed.Success? && parsed.value.typ !in p.generateUCC ==> err == Some(UnsupportedReportType) && effects == [])
      && (parsed.Success? && parsed.value.typ in p.generateUCC ==>
            err == Some(p.generateUCC[parsed.value.typ].generate(parsed.value.teamInfo, parsed.value.data).error)
            && effects == [GenerateCall(parsed.value.typ, parsed.value.teamInfo, parsed.value.data)])
  {
  }

  /**
   * The headline property: once `Generate` has produced a report, `Finish`
   * is called exactly once, as the very last call, for that report; its
   * status is FAILED when the upload or the notification failed and
   * FINISHED otherwise; the error returned is the upload error, else the
   * notify error, else the result of `Finish(FINISHED)`.
   */
  lemma FinishExactlyOnce(p: ReportsProcessor, mssg: string)
    requires Generated(p, mssg)
    ensures var (err, effects) := Pipeline(p, mssg);
      var req := ParseGenRequest(p.decode, mssg).value;
      var uc := p.generateUCC[req.typ];
      var report := uc.generate(req.teamInfo, req.data).value;
      var n := report.GetNotification();
      var upErr := p.upload(report.GetFiles());
      var notifyErr := p.notify(n.subject, n.body, n.fmt, req.teamInfo.recipients);
      var failed := upErr.Some? || (req.autoSend && notifyErr.Some?);
      && FinishCount(effects) == 1
      && effects[|effects| - 1] == FinishCall(req.typ, report.GetID(), if failed then StatusFailed else StatusFinished)
      && err == (if upErr.Some? then upErr
                 else if req.autoSend && notifyErr.Some? then notifyErr
                 else uc.finish(report.GetID(), StatusFinished))
  {
    var (err, effects) := Pipeline(p, mssg);
    var req := ParseGenRequest(p.decode, mssg).value;
    var report := p.generateUCC[req.typ].generate(req.teamInfo, req.data).value;
    var last := effects[|effects| - 1];
    assert effects == effects[..|effects| - 1] + [last];
    CountsAppend(effects[..|effects| - 1], [last], "");
    CountsOne(last, "");
    NoFinishBeforeLast(p, mssg);
  }

  /** Every call before the last one is not a `Finish`. */
  lemma NoFinishBeforeLast(p: ReportsProcessor, mssg: string)
    requires Generated(p, mssg)
    ensures var effects := Pipeline(p, mssg).1;
      |effects| >= 1 && FinishCount(effects[..|effects| - 1]) == 0
  {
    var effects := Pipeline(p, mssg).1;
    var init := effects[..|effects| - 1];
    forall i | 0 <= i < |init| ensures !init[i].FinishCall? {
    }
    NoFinishCount(init);
  }

  lemma {:induction false} NoFinishCount(effects: seq<Effect>)
    requires forall i :: 0 <= i < |effects| ==> !effects[i].FinishCall?
    ensures FinishCount(effects) == 0
  {
    if effects != [] {
      NoFinishCount(effects[..|effects| - 1]);
    }
  }

  /** The count of a sequence one call longer. */
  lemma CountsSnoc(a: seq<Effect>, e: Effect, name: string)
    ensures FinishCount(a + [e]) == FinishCount(a) + (if e.FinishCall? then 1 else 0)
    ensures MetricCount(a + [e], name) == MetricCount(a, name) + (if e.PushMetric? && e.metric.name == name then 1 else 0)
  {
    assert (a + [e])[..|a + [e]| - 1] == a;
  }

  /** Before a report exists no counter is pushed. */
  lemma NoMetricWithoutReport(p: ReportsProcessor, mssg: string, name: string)
    requires !Generated(p, mssg)
    ensures MetricCount(Pipeline(p, mssg).1, name) == 0
  {
    var effects := Pipeline(p, mssg).1;
    if effects != [] {
      assert effects == [] + [effects[0]];
      CountsSnoc([], effects[0], name);
    }
  }

  /**
   * The counters once a report exists: one "generated" count when the
   * upload succeeded, and one "notified" count when the notification was
   * also sent; never more.
   */
  lemma MetricCountsWithReport(p: ReportsProcessor, mssg: string, name: string)
    requires Generated(p, mssg)
    requires name == GeneratedMetricName || name == NotifiedMetricName
    ensures var effects := Pipeline(p, mssg).1;
      var req := ParseGenRequest(p.decode, mssg).value;
      var report := p.generateUCC[req.typ].generate(req.teamInfo, req.data).value;
      var n := report.GetNotification();
      var uploaded := p.upload(report.GetFiles()).None?;
      var notified := uploaded && req.autoSend && p.notify(n.subject, n.body, n.fmt, req.teamInfo.recipients).None?;
      && MetricCount(effects, GeneratedMetricName) == (if uploaded then 1 else 0)
      && MetricCount(effects, NotifiedMetricName) == (if notified then 1 else 0)
  {
    var req := ParseGenRequest(p.decode, mssg).value;
    var report := p.generateUCC[req.typ].generate(req.teamInfo, req.data).value;
    var n := report.GetNotification();
    var e1 := [GenerateCall(req.typ, req.teamInfo, req.data)];
    var e2 := e1 + [UploadCall(report.GetFiles())];
    var e3 := e2 + [PushMetric(GenMetric(req.typ))];
    var e4 := e3 + [NotifyCall(n.subject, n.body, n.fmt, req.teamInfo.recipients)];
    var e5 := e4 + [PushMetric(NotifMetric(req.typ))];
    var failed := FinishCall(req.typ, report.GetID(), StatusFailed);
    var finished := FinishCall(req.typ, report.GetID(), StatusFinished);
    forall m | m == GeneratedMetricName || m == NotifiedMetricName
      ensures MetricCount(e2, m) == 0 && MetricCount(e2 + [failed], m) == 0
      ensures MetricCount(e3, m) == (if m == GeneratedMetricName then 1 else 0)
      ensures MetricCount(e4, m) == MetricCount(e3, m) && MetricCount(e4 + [failed], m) == MetricCount(e3, m)
      ensures MetricCount(e3 + [finished], m) == MetricCount(e3, m)
      ensures MetricCount(e5, m) == 1 && MetricCount(e5 + [finished], m) == 1
    {
      assert e1 == [] + e1;
      CountsSnoc([], e1[0], m);
      CountsSnoc(e1, UploadCall(report.GetFiles()), m);
      CountsSnoc(e2, failed, m);
      CountsSnoc(e2, PushMetric(GenMetric(req.typ)), m);
      CountsSnoc(e3, NotifyCall(n.subject, n.body, n.fmt, req.teamInfo.recipients), m);
      CountsSnoc(e3, finished, m);
      CountsSnoc(e4, failed, m);
      CountsSnoc(e4, PushMetric(NotifMetric(req.typ)), m);
      CountsSnoc(e5, finished, m);
    }
  }

  /** With `auto_send` the notifier is given the report's subject, body and format and the request's recipients; without it, it is never called. */
  lemma NotifierArguments(p: ReportsProcessor, mssg: string)
    requires Generated(p, mssg)
    ensures var effects := Pipeline(p, mssg).1;
      var req := ParseGenRequest(p.decode, mssg).value;
      var report := p.generateUCC[req.typ].generate(req.teamInfo, req.data).value;
      var n := report.GetNotification();
      && (forall i :: 0 <= i < |effects| && effects[i].NotifyCall? ==>
            req.autoSend && effects[i] == NotifyCall(n.subject, n.body, n.fmt, req.teamInfo.recipients))
      && (req.autoSend && p.upload(report.GetFiles()).None? ==>
            NotifyCall(n.subject, n.body, n.fmt, req.teamInfo.recipients) in effects)
  {
  }
}
