# vulcan-reports-generator, modelled in Dafny

This project models the core of the Vulcan reports generator. The service reads
report-generation requests from an SQS queue. The requests arrive wrapped in an
SNS envelope. For each request it does four things:

- it generates a report, either a *scan* report or a *live* report;
- it stores the report in a database and keeps its status up to date
  (GENERATING, then FINISHED or FAILED);
- it uploads the report files;
- it can also e-mail a notification through SES.

The model covers these parts of the service:

- **Queue consumer** (`queue.dfy`). It unwraps and validates messages. An
  invalid message is deleted without being processed; a valid one is deleted
  only after it has been processed without error. When a receive returns no
  messages, the wait time backs off to the configured maximum.
- **Processor** (`processor.dfy`). It parses a request, dispatches it to the
  use case for its type, and runs generate, upload, notify and finish in that
  order. It also pushes the metrics.
- **Use cases** (`scan_uc.dfy`, `livereport_uc.dfy`, `generate_uc.dfy`). These
  store the initial report, run the generator, fill the report in, and mark it
  FAILED when generation fails. `Finish` rewrites only the report's status. The
  scan use case also re-saves the report as GENERATING while the generator runs.
- **Generators** (`scan_generator.dfy`, `scan_printer.dfy`,
  `livereport_generator.dfy`, `generator.dfy`). These build the report data,
  the e-mail subject, and the list of files to upload with their buckets and keys.
- **Directory listing** (`files.dfy`). This is the recursive listing of report
  files.
- **Repositories** (`scan_reports_repository.dfy`,
  `live_reports_repository.dfy`, `reports_repository.dfy`). A report is saved as
  an upsert keyed by scan id, or by team and date range. The model covers the
  row mapping (base64-encoded body, comma-joined recipients) and the repository
  factory.
- **Other services** (`ses.dfy`, `dto.dfy`, `config.dfy`). These are the SES
  notifier, the API's report DTO and the log-level configuration.

The collaborators are modelled as parameters:

- **Database.** It is a table of rows keyed by a numeric id, with the next free
  id alongside. A `fault` oracle decides, for each SQL statement, whether the
  database reports an error.
- **SQS, S3 and SES clients, the template engine and the security-overview
  library.** These are functions given to the model, and only their outcomes
  are modelled.
- **Directory reads and the working directory.** These are given values. The
  model does not read the disk.

Report ids are natural numbers. Id 0 stands for Go's empty, unset id.

Support modules:

- `wrappers.dfy`: Option and Result.
- `errors.dfy`: the error values the code returns, with `Is` playing
  `errors.Is`.
- `json.dfy`: decoded JSON values and the field-decoding rules of
  `encoding/json`.
- `strings.dfy`: `strings.Split`, `strings.Join`, prefixes and suffixes, and
  ASCII lower-casing.
- `base64.dfy`: standard base64 with padding, from section 4 of RFC 4648.
- `model.dfy`: the report entities and their constants.

A message whose processing fails is logged and *not* deleted
(`pkg/queue/sqs.go:163-170`), so it becomes visible again after the
visibility timeout. The model does the same
(`Queue.FailedProcessingNotDeleted`).

## Model

| member | source | states |
|---|---|---|
| Base64.Char | pkg/storage/scan_reports_repository.go:137 | every 6-bit value maps to an alphabet character that decodes back to that value |
| Base64.Encode | pkg/storage/scan_reports_repository.go:137 | the encoding of any byte string has a length that is a multiple of 4 |
| Base64.GroupRoundTrip | pkg/storage/scan_reports_repository.go:106 | decoding the four characters of any encoded 3-byte group gives back the three bytes |
| Base64.DecodeEncode | pkg/storage/scan_reports_repository.go:105-146 | decoding the stored e-mail body gives back exactly the bytes that were encoded, for every body |
| Strings.Split | pkg/storage/scan_reports_repository.go:116 | splitting gives one more piece than there are separators, and no piece contains the separator |
| Strings.CountZero | pkg/storage/scan_reports_repository.go:116 | a string has no separators exactly when the separator does not occur in it |
| Strings.SplitJoin | pkg/storage/scan_reports_repository.go:105-146 | splitting the joined recipient list gives back the list if and only if the list is non-empty and no recipient contains a comma |
| Strings.SplitJoinClean | pkg/api/dto.go:80 | a non-empty, comma-free list survives join then split |
| Strings.JoinSplit | pkg/storage/scan_reports_repository.go:105-146 | joining the pieces of a split gives back the stored string, for every string |
| Strings.ToLower | pkg/report/scan_printer.go:72 | lower-casing keeps the length and lower-cases each character in place |
| Json.DecodeStringsEncode | pkg/report/processor.go:165 | decoding a `[]string` field from the array encoding of any list of strings gives back that list, in order |
| Json.AbsentReadsAsNull | pkg/report/scan_uc.go:121 | a struct field reads an absent member exactly as a member set to null |
| Json.DecodeEach | pkg/report/processor.go:165 | an array decodes when and only when every element is a string or null, keeping order and length |
| Files.PathJoin | pkg/utils/files/files.go:31 | the joined path lies under the directory |
| Files.NonEmptyAppend | pkg/report/scan_generator.go:189 | dropping empty path elements works piece by piece, so the non-empty elements keep their order and multiplicity; an empty element is dropped and any other is kept |
| Files.JoinPathPair | pkg/report/scan_generator.go:115 | joining two elements joins them with a slash; an empty element is dropped |
| Files.JoinPathTriple | pkg/report/scan_generator.go:189 | joining the working directory, the output directory and the scan id nests them, and an empty working directory is dropped |
| Files.RelPath | pkg/report/scan_generator.go:162 | the relative path of a file under a directory, joined back onto the directory, is the file's path |
| Files.ListDirFiles | pkg/utils/files/files.go:15-44 | the loop over the directory entries gives the recursive listing: regular files and subdirectory contents, in order, with the first error stopping it |
| Files.FailurePersists | pkg/utils/files/files.go:35-38 | once a subdirectory fails to be read, the whole listing fails with that error |
| Files.FlattenUnderDir | pkg/utils/files/files.go:15-44 | every listed file path lies under the listed directory |
| Files.FlattenEntriesUnderDir | pkg/utils/files/files.go:29-41 | every path the entries contribute lies under the directory |
| Files.FlattenFailsOnUnreadable | pkg/utils/files/files.go:33-38 | an unreadable subdirectory anywhere among the entries makes the listing fail |
| Files.FlattenShapes | pkg/utils/files/files.go:29-41 | an empty directory lists nothing; a regular file lists its joined path; other entries such as links are skipped |
| Model.ConstantsAsDeclared | pkg/model/report.go:15-32 | the three statuses are distinct; HTML is format 0 and text is 1; the two report types are "scan" and "livereport" |
| Model.AccessorsReadStoredFields | pkg/model/scan_report.go:21-47 | every accessor returns the stored field of the report's base, and the live accessors return its team and dates |
| Queue.RemoveSnsEnvelope | pkg/queue/sqs.go:218-226 | unwrapping succeeds exactly when the text parses as a JSON object (or null) whose "Message" is a string, null or missing; it then gives that message ("" when absent), and otherwise the envelope-format error |
| Queue.UnwrapEnvelope | pkg/queue/sqs.go:218-226 | an envelope around a payload gives back the payload; an object with no Message gives ""; a bare JSON string is refused |
| Queue.ValidateMssg | pkg/queue/sqs.go:208-213 | a nil message or nil body is refused as a nil message; otherwise the body is unwrapped |
| Queue.MessageEffects | pkg/queue/sqs.go:149-175 | the calls for one message process exactly its valid body and delete exactly the handles that should be deleted |
| Queue.BatchEffects | pkg/queue/sqs.go:149-176 | over a batch, the bodies processed are the valid bodies in order, and the handles deleted are the invalid ones and the successfully processed ones, in order |
| Queue.FailedProcessingNotDeleted | pkg/queue/sqs.go:163-170 | a valid message whose processing fails is processed and not deleted |
| Queue.AllProcessedAllDeleted | pkg/queue/sqs.go:149-176 | when every message is valid and processes without error, every message is processed and every message is deleted |
| Queue.AllValidCounts | pkg/queue/sqs.go:149-176 | the same batch has as many valid bodies and handles to delete as it has messages |
| Queue.NilMessagePanics | pkg/queue/sqs.go:151-160 | the code as written has no defined outcome for a nil message, while the corrected batch skips it |
| Queue.AsWrittenAgreesWithoutNil | pkg/queue/sqs.go:199-206 | on batches without a nil message, the code as written and the corrected model make the same calls |
| Queue.SqsConsumer.constructor | pkg/queue/sqs.go:86-95 | a new consumer has its configuration and processor, the default wait time and no calls yet |
| Queue.SqsConsumer.Query | pkg/queue/sqs.go:182-190 | a receive asks for at most 10 messages, with the current wait time and the configured visibility timeout |
| Queue.SqsConsumer.ReadAndProcess | pkg/queue/sqs.go:135-179 | a receive error is returned with the wait time unchanged; an empty receive sets the maximum wait time and a non-empty one the default; the calls made are the receive followed by the batch's calls |
| Processor.ParseGenRequest | pkg/report/processor.go:162-175 | a request parses exactly when the JSON decodes with a team id and a type; every failure is an invalid request, wrapping the syntax error when the text is not JSON |
| Processor.ParseWellFormedRequest | pkg/report/processor.go:162-175 | a well-formed request text parses to exactly the type, team, data and auto-send flag it carries |
| Processor.ProcessMessage | pkg/report/processor.go:75-133 | the returned error and the calls made are those of the processing pipeline |
| Processor.NoFinishWithoutReport | pkg/report/processor.go:76-98 | when no report is generated, processing fails and makes no call other than the one Generate; the error is the parse error, the unsupported type, or Generate's error |
| Processor.FinishExactlyOnce | pkg/report/processor.go:108-132 | once a report is generated, Finish is called exactly once, as the last call. Its status is FAILED when the upload or the notification failed, and FINISHED otherwise. The error is the upload error, then the notify error, then Finish's result |
| Processor.NoFinishBeforeLast | pkg/report/processor.go:108-132 | no call before the last one is Finish |
| Processor.NoMetricWithoutReport | pkg/report/processor.go:89-98 | no metric is pushed when no report was generated |
| Processor.MetricCountsWithReport | pkg/report/processor.go:108-129 | the generated metric is pushed once exactly when the upload succeeded; the notified metric once exactly when the notification was sent and succeeded |
| Processor.NotifierArguments | pkg/report/processor.go:116-127 | the notifier is called only with auto-send, and with the report's subject, body and format and the team's recipients |
| ScanGenerator.ParseScanReq | pkg/report/scan_generator.go:192-198 | a scan request is accepted exactly when it is one and has a program name and a scan id; otherwise it is an invalid request |
| ScanGenerator.ReportDirLayout | pkg/report/scan_generator.go:177-190 | an absolute output directory gives output/scan; a relative one is placed under the working directory, whose error is returned |
| ScanGenerator.FInfoFilesEntries | pkg/report/scan_generator.go:159-172 | each listed file becomes one file info with its path, the bucket, and its path relative to the directory as key, in order |
| ScanGenerator.BuildFInfoFiles | pkg/report/scan_generator.go:152-175 | the loop builds the file infos of the recursive listing, or returns the listing's error |
| ScanGenerator.GetReportFiles | pkg/report/scan_generator.go:105-142 | the files are the public directory's files followed by the private directory's, or the first error |
| ScanGenerator.Generate | pkg/report/scan_generator.go:68-101 | generation follows the steps of its specification: parse, print, list the files, compose the subject |
| ScanGenerator.InvalidRequestRefused | pkg/report/scan_generator.go:69-72 | an invalid request fails with ErrInvalidRequest before the printer or the disk is used |
| ScanGenerator.PrinterErrorReturned | pkg/report/scan_generator.go:80-83 | a printer error is returned as it is |
| ScanGenerator.GeneratedData | pkg/report/scan_generator.go:92-100 | the generated data is the printer's, with the report files and the subject "[action] subject - team - program" |
| ScanGenerator.ReportFilesDestinations | pkg/report/scan_generator.go:113-141 | the public files go to the public bucket and the private files to the private bucket, each keyed by its path relative to its directory |
| ScanPrinter.JsonURLShape | pkg/report/scan_printer.go:71-76 | the JSON URL is non-empty exactly when the URL ends in ".html" ignoring case; it then keeps the stem and ends in ".json" |
| ScanPrinter.JsonURLOnce | pkg/report/scan_printer.go:71-76 | converting a JSON URL again gives "" |
| ScanPrinter.JsonURLExamples | pkg/report/scan_printer.go:71-76 | "A.HTML" becomes "A.json"; ".htm" and "" give "" |
| ScanPrinter.PrintedData | pkg/report/scan_printer.go:38-62 | printed data carries the JSON URL of its report URL and the action for its risk, no files and no subject yet |
| LiveReportGenerator.ParseLiveReportReq | pkg/report/livereport_generator.go:175-181 | a live request is accepted exactly when it is one and has a team and both dates; otherwise it is an invalid request |
| LiveReportGenerator.EmailReportRows | pkg/report/livereport_generator.go:127-145 | the e-mail data has the dates and the link, five severity rows Critical to Informational with total and new counts, and five fixed rows |
| LiveReportGenerator.InvalidRequestRefused | pkg/report/livereport_generator.go:88-91 | an invalid request fails with ErrInvalidRequest whatever the template |
| LiveReportGenerator.GeneratedData | pkg/report/livereport_generator.go:87-107 | a valid request yields the template's output as body and "subject - team" as subject, or the template's error |
| LiveReportGenerator.PrintOutcome | pkg/report/livereport_generator.go:147-157 | printing fails exactly when the template fails, and then returns empty data |
| Generator.NewGeneratorDispatch | pkg/report/generator.go:32-58 | "scan" builds a scan generator from the decoded configuration with its printer; "livereport" builds a live generator; bad configurations are refused; other types are an invalid generator type |
| Generator.EmptyConfigDecodes | pkg/report/generator.go:37-48 | an empty table or null decodes to empty settings, while a string or a number does not decode |
| ScanReportsRepository.RowRoundTrip | pkg/storage/scan_reports_repository.go:105-146 | storing then reading a report keeps every stored field and the body; the format reads back as HTML; the recipients come back exactly when the list is non-empty and comma-free |
| ScanReportsRepository.ReadBackStable | pkg/storage/scan_reports_repository.go:105-146 | a report read from a row, with a new status, survives storing and reading again unchanged |
| ScanReportsRepository.SaveSpec | pkg/storage/scan_reports_repository.go:35-55 | saving a scan report returns it with its id written back; a live report is refused with ErrInvalidReportData and nothing changes |
| ScanReportsRepository.UniqueKeyIds | pkg/storage/scan_reports_repository.go:77-81 | under the unique constraint on scan id, at most one id holds a scan's row |
| ScanReportsRepository.SavePreservesInvariants | pkg/storage/scan_reports_repository.go:35-55 | saving keeps the table well-formed and keeps the scan id unique |
| ScanReportsRepository.SaveUpserts | pkg/storage/scan_reports_repository.go:35-55 | without database errors, a save inserts under a fresh id or updates the existing row for the scan, stores the report's row, and leaves every other row alone |
| ScanReportsRepository.SaveIdempotent | pkg/storage/scan_reports_repository.go:35-55 | saving the same report twice is the same as saving it once |
| ScanReportsRepository.ReadAfterSave | pkg/storage/scan_reports_repository.go:57-66 | after a save, reading the saved id gives the stored report |
| ScanReportsRepository.AbsentNotFound | pkg/storage/scan_reports_repository.go:57-66 | reading an id that is not in the table gives ErrReportNotFound |
| ScanReportsRepository.ScanReportsRepository.constructor | pkg/storage/scan_reports_repository.go:29-33 | a new repository wraps the given database with the rows it already holds |
| ScanReportsRepository.ScanReportsRepository.GetReport | pkg/storage/scan_reports_repository.go:57-66 | the read gives the stored report, ErrReportNotFound, or the database error |
| ScanReportsRepository.ScanReportsRepository.GetReportByScanID | pkg/storage/scan_reports_repository.go:68-84 | the lookup gives the one report for the scan, not found, "multiple reports", or the database error |
| ScanReportsRepository.ScanReportsRepository.Insert | pkg/storage/scan_reports_repository.go:86-97 | the insert stores the row under a fresh id and returns the report with that id, or the database error and no change |
| ScanReportsRepository.ScanReportsRepository.Update | pkg/storage/scan_reports_repository.go:99-103 | the update rewrites the row of the report's id, or returns the database error and changes nothing |
| ScanReportsRepository.ScanReportsRepository.SaveReport | pkg/storage/scan_reports_repository.go:35-55 | the save behaves as its specification, so the upsert lemmas apply to it |
| LiveReportsRepository.RowRoundTrip | pkg/storage/live_reports_repository.go:101-136 | storing then reading a live report keeps the team, the dates, the status, the subject and the body; the recipients come back exactly when the list is non-empty and comma-free |
| LiveReportsRepository.ReadBackStable | pkg/storage/live_reports_repository.go:101-136 | a live report read from a row, with a new status, survives storing and reading again unchanged |
| LiveReportsRepository.SaveSpec | pkg/storage/live_reports_repository.go:31-51 | saving a live report returns it with its id written back; a scan report is refused with ErrInvalidReportData |
| LiveReportsRepository.UniqueKeyIds | pkg/storage/live_reports_repository.go:64-80 | under the unique constraint on team and date range, at most one id holds a key's row |
| LiveReportsRepository.SavePreservesInvariants | pkg/storage/live_reports_repository.go:31-51 | saving keeps the table well-formed and keeps the key unique |
| LiveReportsRepository.SaveUpserts | pkg/storage/live_reports_repository.go:31-51 | without database errors, a save inserts or updates the key's one row and leaves every other row alone |
| LiveReportsRepository.SaveIdempotent | pkg/storage/live_reports_repository.go:31-51 | saving the same live report twice is the same as saving it once |
| LiveReportsRepository.ReadAfterSave | pkg/storage/live_reports_repository.go:53-62 | after a save, reading the saved id gives the stored report |
| LiveReportsRepository.AbsentNotFound | pkg/storage/live_reports_repository.go:53-62 | reading an id that is not in the table gives ErrReportNotFound |
| LiveReportsRepository.LiveReportsRepository.constructor | pkg/storage/live_reports_repository.go:25-29 | a new repository wraps the given database with the rows it already holds |
| LiveReportsRepository.LiveReportsRepository.GetReport | pkg/storage/live_reports_repository.go:53-62 | the read gives the stored report, ErrReportNotFound, or the database error |
| LiveReportsRepository.LiveReportsRepository.GetReportByTeamAndDateRange | pkg/storage/live_reports_repository.go:64-80 | the lookup gives the one report for the key, not found, "multiple reports", or the database error |
| LiveReportsRepository.LiveReportsRepository.Insert | pkg/storage/live_reports_repository.go:82-93 | the insert stores the row under a fresh id, or returns the database error with no change |
| LiveReportsRepository.LiveReportsRepository.Update | pkg/storage/live_reports_repository.go:95-99 | the update rewrites the row of the report's id, or returns the database error |
| LiveReportsRepository.LiveReportsRepository.SaveReport | pkg/storage/live_reports_repository.go:31-51 | the save behaves as its specification, so the upsert lemmas apply to it |
| Storage.NewReportsRepository | pkg/storage/reports_repository.go:38-45 | only "livereport" builds a repository, a new live one over the given database; every other type is ErrInvalidRepositoryType |
| Storage.RepositoryTypes | pkg/storage/reports_repository.go:38-45 | "livereport" is a repository type and "scan" is not |
| Storage.DistinctSentinels | pkg/storage/reports_repository.go:20-27 | the three repository errors are distinct |
| UseCases.NewGenerateUCDispatch | pkg/report/generate_uc.go:25-42 | "scan" builds the scan use case, "livereport" the live one, each over the given generator and repository, and every other type is ErrUnsupportedReportType |
| ScanUC.ParseScanRequest | pkg/report/scan_uc.go:119-126 | parsing fails only with ErrInvalidRequest; it succeeds with a non-empty scan id and program name read from the request's fields |
| ScanUC.ParseScanRequestAccepts | pkg/report/scan_uc.go:119-126 | a request with non-empty scan_id and program_name strings parses to exactly those |
| ScanUC.AbsentFieldAsNull | pkg/report/scan_uc.go:119-126 | request data that leaves a member out parses exactly as the same data with that member set to null |
| ScanUC.FailedSaveKeepsTable | pkg/storage/scan_reports_repository.go:35-55 | a save that returns an error leaves the table as it was |
| ScanUC.UpdateExisting | pkg/storage/scan_reports_repository.go:41-54 | saving a report whose id already holds its scan's row is an update of that row |
| ScanUC.HeartbeatsStable | pkg/report/scan_uc.go:129-144 | while no database error occurs, the periodic GENERATING saves rewrite the report's row with the same content and change nothing |
| ScanUC.InvalidRequestStoresNothing | pkg/report/scan_uc.go:40-43 | an invalid request returns ErrInvalidRequest and stores nothing |
| ScanUC.FirstSaveFailure | pkg/report/scan_uc.go:59-62 | when the initial save fails, its error is returned, and the generator, the disk and the heartbeats play no part |
| ScanUC.GeneratorFailureMarksFailed | pkg/report/scan_uc.go:69-74 | when generation fails, its error is returned and the scan's one stored report is FAILED |
| ScanUC.GenerateStoresReport | pkg/report/scan_uc.go:45-98 | on success the returned report is the initial report filled with the generated data and the team's recipients, still GENERATING, under the scan's previous id or a fresh one, and it is the scan's one stored row |
| ScanUC.FinishReadError | pkg/report/scan_uc.go:101-105 | when the report cannot be read, Finish returns that error and stores nothing |
| ScanUC.FinishChangesOnlyStatus | pkg/report/scan_uc.go:101-117 | Finish on a stored report rewrites only its status and leaves every other row alone |
| ScanUC.FinishIdempotent | pkg/report/scan_uc.go:101-117 | finishing twice with the same status leaves the table as finishing once |
| ScanUC.ScanUC.constructor | pkg/report/scan_uc.go:31-37 | the use case holds the given generator and repository |
| ScanUC.ScanUC.RefreshReport | pkg/report/scan_uc.go:129-144 | each tick saves the report as GENERATING; the repository ends as the heartbeats specify |
| ScanUC.ScanUC.Finish | pkg/report/scan_uc.go:101-117 | Finish reads the report, sets its status and saves it, as its specification says |
| ScanUC.ScanUC.Generate | pkg/report/scan_uc.go:39-99 | Generate returns and stores what its specification gives, so the lemmas above apply to it |
| LiveReportUC.ParseLiveReportRequest | pkg/report/livereport_uc.go:107-114 | parsing fails only with ErrInvalidRequest; it succeeds with a non-empty team and dates read from the request's fields |
| LiveReportUC.ParseRequestFields | pkg/report/livereport_uc.go:107-114 | a request holding all the fields, with a team and both dates, parses to exactly those values |
| LiveReportUC.AbsentFieldAsNull | pkg/report/livereport_uc.go:107-114 | request data that leaves a member out parses exactly as the same data with that member set to null |
| LiveReportUC.FailedSaveKeepsTable | pkg/storage/live_reports_repository.go:31-51 | a save that returns an error leaves the table as it was |
| LiveReportUC.UpdateExisting | pkg/storage/live_reports_repository.go:36-50 | saving a report whose id already holds its key's row is an update of that row |
| LiveReportUC.InvalidRequestStoresNothing | pkg/report/livereport_uc.go:32-35 | an invalid request returns ErrInvalidRequest and stores nothing |
| LiveReportUC.FirstSaveFailure | pkg/report/livereport_uc.go:54-57 | when the initial save fails, its error is returned and the generator plays no part |
| LiveReportUC.GeneratorFailureMarksFailed | pkg/report/livereport_uc.go:59-63 | when generation fails, its error is returned and the key's one stored report is FAILED |
| LiveReportUC.GenerateStoresReport | pkg/report/livereport_uc.go:37-84 | on success the returned report is the initial report filled with the subject, body and recipients, still GENERATING, and it is the key's one stored row |
| LiveReportUC.FinishReadError | pkg/report/livereport_uc.go:87-91 | when the report cannot be read, Finish returns that error and stores nothing |
| LiveReportUC.FinishChangesOnlyStatus | pkg/report/livereport_uc.go:87-105 | Finish on a stored report rewrites only its status |
| LiveReportUC.FinishIdempotent | pkg/report/livereport_uc.go:87-105 | finishing twice with the same status leaves the table as finishing once |
| LiveReportUC.LiveReportUC.constructor | pkg/report/livereport_uc.go:23-29 | the use case holds the given generator and repository |
| LiveReportUC.LiveReportUC.Finish | pkg/report/livereport_uc.go:87-105 | Finish reads the report, sets its status and saves it, as its specification says |
| LiveReportUC.LiveReportUC.Generate | pkg/report/livereport_uc.go:31-85 | Generate returns and stores what its specification gives, so the lemmas above apply to it |
| Ses.IsValidConfig | pkg/notify/ses.go:89-103 | the loop accepts a configuration exactly when the sender parses and is non-empty, the region is non-empty, and every CC address parses |
| Ses.Pointers | pkg/notify/ses.go:105-110 | one pointer per string, each pointing at that string, in order |
| Ses.ValuesPointers | pkg/notify/ses.go:105-110 | dereferencing the converted list gives back the strings |
| Ses.StringSliceToAWSString | pkg/notify/ses.go:105-110 | the loop builds the pointer list of the strings |
| Ses.BuildInput | pkg/notify/ses.go:57-87 | only HTML and text are accepted, and anything else is ErrUnsupportedFmt. The input carries the recipients, the CC list, the sender and the UTF-8 subject, with the message as an HTML or a text body |
| Ses.NotifyUnsupportedFmt | pkg/notify/ses.go:43-47 | an unsupported format fails before anything is sent |
| Ses.NotifySends | pkg/notify/ses.go:43-55 | for HTML or text, Notify sends the built input to the recipients and returns the send's outcome |
| Ses.NewSESNotifier | pkg/notify/ses.go:32-41 | a notifier is built exactly when the configuration is valid; otherwise it is ErrInvalidConfig |
| Ses.InvalidConfigCases | pkg/notify/ses.go:89-103 | a missing sender or region, an unparsable sender, or any unparsable CC address makes the configuration invalid |
| Dto.ScanDTOFields | pkg/api/dto.go:64-84 | only scan reports convert; the DTO copies every field and the comma-joined recipients split back to the list when it is non-empty and comma-free |
| Dto.ReportDTODispatch | pkg/api/dto.go:53-62 | "scan" converts a scan report, and every other type is an unsupported report type |
| Config.ParseLevelName | cmd/vulcan-reports-generator/config.go:74-93 | the name of every level parses back to that level |
| Config.ParseLogLevelNames | cmd/vulcan-reports-generator/config.go:74-93 | a level other than Info is parsed only from its own lower-case name; anything else, such as "DEBUG" or "", is Info |

## Left out

- Concurrency. The consumer group, its goroutines and the WaitGroup are left
  out (`pkg/queue/sqs.go:52-133`). A single consumer's loop is one call of
  `ReadAndProcess`. The scan use case's refresh goroutine runs beside the
  generator and can still save once after the final save, because cancelling it
  does not wait for it. The model runs a given number of refresh ticks before
  the generator returns. It does not capture the save that can land late.
- Timestamps. `CreatedAt`, `UpdatedAt` and `UpdateStatusAt` come from the wall
  clock, so they are not modelled.
- Databases and clients. The SQL, SQS, S3 and SES clients, the HTTP API
  (`pkg/api/api.go`, `pkg/api/service.go`), the S3 uploader and `main` are not
  part of this model. Their results are parameters.
- Decoding with `mapstructure` and `encoding/json`. Only exact-case keys and
  integer numbers are modelled. Case-insensitive key matching, float truncation
  and weak decoding hooks are not.
- Processor.ProcessMessage: the deferred clean-up that removes the report files
  from disk (`os.Remove`) is not modelled, because the model has no file
  system.
- LiveReportGenerator: `template.Must` panics when the template does not parse
  at start-up. In the model, parsing always yields a template, given as a
  function; the panic is not modelled.
- ScanPrinter: the security-overview library call is given as a function. The
  clean-up of its debug file is not modelled.
- Base64.Decode: only the canonical padded encoding is modelled. Go's decoder
  also returns a partial result on malformed input, and the repository ignores
  that error; the model returns no bytes instead.
- Files.PathJoin: `filepath.Join` also cleans `.` and `..` elements and
  duplicate slashes. The model joins clean, non-empty elements with a single
  slash.
- Strings.ToLower: only ASCII letters are lower-cased. Go also folds Unicode
  letters.
- ScanReportsRepository.ScanReportsRepository.Insert: the row id comes from
  `nextId`. The database's own id generation is not modelled.
- Config: parsing the TOML configuration file (`parseConfig`) and the logger
  set-up are not modelled.
- Ses.Notify: it has no contract of its own. Its behaviour is stated by
  `NotifyUnsupportedFmt` and `NotifySends`.

## Findings

| source | as written | input that shows it | evidently intended | confidence | as-written member | corrected member |
|---|---|---|---|---|---|---|
| pkg/queue/sqs.go:151-160 | a message that fails validation because the message itself is nil is then passed to `deleteMessage`, which reads its receipt handle (`pkg/queue/sqs.go:199-203`) and panics on the nil pointer | a receive that returns a batch holding a nil message | skip the nil message and go on with the rest of the batch | not executed | Queue.BatchCallsAsWritten | Queue.BatchCalls |
