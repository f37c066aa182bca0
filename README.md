# Anti-plagiarism system: the similarity pipeline and its helpers, in Dafny

This project models the core of a three-service document anti-plagiarism system: an API gateway, a storing service and an analysis service.

- **Comparator** (`comparator.dfy`). A document is normalised to its lower-cased letters and digits and cut into the set of its 3-character shingles. Two documents score the Jaccard ratio of their shingle sets times 100. Two empty normalised texts score 100, exactly one empty text scores 0, and two texts without any shingle score 0. That last case includes a non-empty text shorter than 3 compared with itself.
- **Analysis use case** (`analysis_usecase.dfy`). The service lists the bucket, drops the target key, and scores every other readable document against the target. It keeps the maximum, starting at 0 and skipping candidates that fail. It classifies the target as plagiarism when that maximum is at least 50, and inserts exactly one report. The report table is insert-only, so repeated analyses of one task leave several reports. A lookup may return any of them.
- **Upload watcher** (`storing_usecase.dfy`). The storing service validates an upload's extension and creates the task row. It presigns the upload URL and then starts a watcher. The watcher polls the object store at most 30 times with 2-second pauses, under a 5-minute deadline. It calls the analysis service once, and only after an existence check sees the object. Poll answers and their durations are inputs, so time is a derived clock rather than `time.Sleep`. The same file derives object keys (task id + `path.Ext(filename)`) and reads tasks and file contents.
- **Error classifiers**:
  - the analysis service's `handleMinioError` and its hand-written substring search (`analysis_minio.dfy`);
  - the storing service's `handleDBError` (`storing_pgdb.dfy`);
  - the `mapError` switch shared by both gRPC servers (`storing_transport.dfy`, reused in `analysis_transport.dfy`);
  - the gateway's gRPC-to-HTTP table and error response (`gateway_errors.dfy`).
- **Word tokeniser and frequency counter** of the word-cloud client (`wordcloud.dfy`).
- **String helpers**:
  - `path.Ext` (`paths.dfy`), shared by the storing service's key derivation and the gateway's `makeObjectKey` (`gateway_analysis.dfy`);
  - URL host rewriting and endpoint prefix stripping (`storing_minio.dfy`);
  - environment defaults and database URL assembly (`storing_config.dfy`).

Go errors are one record, `Errdefs.GoError` (`errdefs.dfy`). It holds what the code asks of an error: its `Error()` text, the sentinels `errors.Is` finds, the typed errors `errors.As` can extract, and a gRPC status. A nil error is `None`.

Loops in the source are methods with loop invariants. Each such method is proved equal to a specification function, and the properties are lemmas about those functions. State that the source mutates is a class: the report and task tables, the analysis client the watcher calls, the configuration, and the HTTP response writer.

Two behaviours of the code that the model keeps as written:

- A text that is non-empty after normalisation does not always score 100 against itself. When its normalised text is shorter than 3 characters it has no shingles, the union is empty, and `calculateSimilarity` returns 0. `Comparator.ShortSelfSimilarity` proves this, and `Comparator.SelfSimilarity` proves the score of 100 for normalised texts of length 3 or more.
- The storing service's MinIO client reads `cfg.InternalEndpoint` and `cfg.ExternalEndpoint`. The configuration struct only has `Endpoint`. The endpoint normalisation is therefore modelled on plain strings.

## Model

| member | source | states |
|---|---|---|
| Comparator.Normalized | analysis-service/internal/usecase/comparator.go:27-35 | the normalised text is no longer than the input and holds only letters and digits that are already lower-case |
| Comparator.NormalizeText | analysis-service/internal/usecase/comparator.go:27-35 | the builder loop yields exactly `Normalized(text)`: each letter or digit lower-cased, in order, and every other character dropped |
| Comparator.CreateNGrams | analysis-service/internal/usecase/comparator.go:64-71 | the map-filling loop yields exactly the set of slices `text[i..i+n]` for `0 <= i <= len-n` |
| Comparator.CountShared | analysis-service/internal/usecase/comparator.go:49-54 | the counting loop over the first set yields the size of the intersection |
| Comparator.CalculateSimilarity | analysis-service/internal/usecase/comparator.go:37-62 | the score: 100 for two empty texts, 0 for exactly one, otherwise the Jaccard percentage of the 3-gram sets, and 0 on an empty union |
| Comparator.CompareFiles | analysis-service/internal/usecase/comparator.go:15-25 | never returns an error, and the score is the similarity of the two normalised texts |
| Comparator.UnionSize | analysis-service/internal/usecase/comparator.go:56 | the union computed as size(A) + size(B) − size(A∩B) is the size of A∪B; the intersection is no larger than either set and the union no smaller |
| Comparator.NormalizedAppend | analysis-service/internal/usecase/comparator.go:29-33 | normalisation distributes over concatenation (it works character by character) |
| Comparator.NormalizedEmpty | analysis-service/internal/usecase/comparator.go:29-33 | a text normalises to "" exactly when it has no letter or digit |
| Comparator.NormalizedIdempotent | analysis-service/internal/usecase/comparator.go:27-35 | normalising a normalised text changes nothing |
| Comparator.NGramsMembership | analysis-service/internal/usecase/comparator.go:66-69 | a string is an n-gram exactly when it has length n and occurs in the text at some index |
| Comparator.NGramsSize | analysis-service/internal/usecase/comparator.go:66 | a text shorter than n has no n-gram; otherwise it has at most len-n+1 |
| Comparator.JaccardBounds | analysis-service/internal/usecase/comparator.go:56-61 | the Jaccard percentage of any two sets lies in [0, 100] |
| Comparator.SimilarityBounds | analysis-service/internal/usecase/comparator.go:37-62 | every score lies in [0, 100] |
| Comparator.SimilaritySymmetric | analysis-service/internal/usecase/comparator.go:37-62 | the score is the same with the arguments swapped |
| Comparator.SelfSimilarity | analysis-service/internal/usecase/comparator.go:56-61 | a normalised text of length at least 3 scores exactly 100 against itself |
| Comparator.ShortSelfSimilarity | analysis-service/internal/usecase/comparator.go:57-58 | a non-empty normalised text shorter than 3 scores 0 even against itself (empty union) |
| Comparator.DisjointSimilarity | analysis-service/internal/usecase/comparator.go:49-61 | two non-empty texts with disjoint 3-gram sets score 0 |
| Comparator.BlankScores | analysis-service/internal/usecase/comparator.go:38-43 | two contents without letters or digits score 100; one without against one with scores 0 |
| Comparator.SelfScore | analysis-service/internal/usecase/comparator.go:15-25 | a raw content whose normalised text has 3 or more characters scores 100 against itself |
| Unicode.Lower | analysis-service/internal/infrastructure/wordcloud/client.go:69 | `strings.ToLower` keeps the length and lower-cases each character in place |
| AnalysisUsecase.FilterKeys | analysis-service/internal/usecase/service.go:178-186 | the loop yields the keys with every copy of the target removed, the rest in order and with their multiplicities |
| AnalysisUsecase.WithoutCounts | analysis-service/internal/usecase/service.go:178-186 | filtering keeps every other key as often as it occurs and removes every copy of the target |
| AnalysisUsecase.WithoutAppend | analysis-service/internal/usecase/service.go:180-184 | filtering preserves order: it distributes over concatenation |
| AnalysisUsecase.MaxScore | analysis-service/internal/usecase/service.go:72-103 | the running maximum, started at 0, is never negative |
| AnalysisUsecase.MaxScoreIsMaximum | analysis-service/internal/usecase/service.go:72-102 | the folded maximum is at least 0, bounds every successful candidate's score, and is 0 or some candidate's score |
| AnalysisUsecase.MaxScoreDeterminedBySuccesses | analysis-service/internal/usecase/service.go:72-102 | the maximum depends only on which successfully scored keys are scanned |
| AnalysisUsecase.MaxScoreOrderIndependent | analysis-service/internal/usecase/service.go:74-103 | scanning the candidates in any permuted order gives the same maximum |
| AnalysisUsecase.FailedCandidateSkipped | analysis-service/internal/usecase/service.go:80-94 | a candidate whose fetch or comparison fails changes neither the maximum nor the scan of the others |
| AnalysisUsecase.NoSuccessScoresZero | analysis-service/internal/usecase/service.go:72 | with no successful candidate, an empty corpus included, the maximum is 0 |
| AnalysisUsecase.CompareText | analysis-service/internal/usecase/comparator.go:15-25 | a pair of ASCII contents gets `CompareFiles`' score, which lies in [0, 100]; any other pair is declined with an error |
| AnalysisUsecase.TextComparator | analysis-service/internal/usecase/comparator.go:11-25 | the comparator the service uses scores exactly the ASCII pairs, each with `CompareFiles`' score in [0, 100], and gives the same answer for both argument orders |
| AnalysisUsecase.TextComparatorBounds | analysis-service/internal/usecase/service.go:72-102 | with the text comparator the maximum lies in [0, 100] |
| AnalysisUsecase.Verdict | analysis-service/internal/usecase/service.go:39-122 | a report exists exactly when the listing and the target fetch succeed; it carries the task id and the time, a non-negative percentage, and `isPlagiarism` iff the percentage is >= 50 |
| AnalysisUsecase.VerdictErrors | analysis-service/internal/usecase/service.go:45-67 | a listing failure is returned first; then a target-fetch failure; a missing target is a NotFound error |
| AnalysisUsecase.VerdictReport | analysis-service/internal/usecase/service.go:72-122 | the report carries the task id and the time; its percentage is the maximum over the other keys; `isPlagiarism` holds iff the percentage is >= 50 (inclusive) |
| AnalysisUsecase.DuplicateScoresHundred | analysis-service/internal/usecase/service.go:72-102 | a candidate with the target's own ASCII text (3 or more normalised characters) makes the maximum exactly 100 |
| AnalysisUsecase.DuplicateIsPlagiarism | analysis-service/internal/usecase/service.go:39-135 | a document stored under another key with the same ASCII text yields the report (taskId, true, 100) |
| AnalysisUsecase.ReportRepository.CreateReport | analysis-service/internal/infrastructure/pgdb/repository.go:35-56 | an insert appends the report (no uniqueness check) or returns the database error and changes nothing |
| AnalysisUsecase.ReportRepository.GetReport | analysis-service/internal/infrastructure/pgdb/repository.go:58-77 | an unordered single-row select returns some row of the task, NotFound when there is none, or the query error |
| AnalysisUsecase.AnalysisService.AnalyseTask | analysis-service/internal/usecase/service.go:39-135 | the scan loop keeps the running maximum; an early failure returns (false, err) and writes nothing; otherwise exactly one report is inserted, with (true, nil) or (false, insert error) |
| AnalysisUsecase.AnalysisService.GetReport | analysis-service/internal/usecase/service.go:137-159 | returns the repository's report or its error unchanged |
| AnalysisUsecase.AnalyseTwice | analysis-service/internal/usecase/service.go:117-134 | two successful analyses of one task append the same `Verdict` report twice: nothing deduplicates them |
| AnalysisMinio.FirstMatchFrom | analysis-service/internal/infrastructure/minio/errors.go:89-96 | the first index at or after i where `sub` occurs, or -1 when it occurs nowhere from i on |
| AnalysisMinio.IndexOf | analysis-service/internal/infrastructure/minio/errors.go:89-96 | the scanning loop returns the smallest i with `s[i..i+len(sub)] == sub`, or -1 exactly when there is none |
| AnalysisMinio.Contains | analysis-service/internal/infrastructure/minio/errors.go:82-87 | the short-circuit expression is true iff `sub` occurs contiguously in `s`, an empty `sub` included |
| AnalysisMinio.IsNetworkError | analysis-service/internal/infrastructure/minio/errors.go:46-64 | true iff the message contains one of the seven network patterns |
| AnalysisMinio.IsReadError | analysis-service/internal/infrastructure/minio/errors.go:66-80 | true iff the message contains one of the three read patterns |
| AnalysisMinio.HandleMinioError | analysis-service/internal/infrastructure/minio/errors.go:11-44 | nil maps to nil and only nil does; a non-nil error wraps exactly the one kind chosen by the first matching test |
| AnalysisMinio.HandleMinioErrorKeepsText | analysis-service/internal/infrastructure/minio/errors.go:20-43 | a non-nil error is never lost: the result is non-nil and ends with the original error text |
| AnalysisMinio.MinioCodeTable | analysis-service/internal/infrastructure/minio/errors.go:17-28 | NoSuchKey/NoSuchBucket give NotFound, InvalidBucketName/InvalidObjectName give InvalidArgument, and every other code gives Unavailable |
| AnalysisMinio.NotFoundOnlyFromMissing | analysis-service/internal/infrastructure/minio/errors.go:19-43 | NotFound is produced iff the error is a MinIO response with code NoSuchKey or NoSuchBucket |
| AnalysisMinio.NetworkBeforeRead | analysis-service/internal/infrastructure/minio/errors.go:35-41 | a message that matches a network pattern is Unavailable even when it also matches a read pattern |
| AnalysisMinio.InvalidArgumentSources | analysis-service/internal/infrastructure/minio/errors.go:17-43 | InvalidArgument comes exactly from a bad-name code, or from a read pattern that no earlier test claimed |
| AnalysisMinio.GetAllKeys | analysis-service/internal/infrastructure/minio/client.go:54-69 | the keys exactly when the listing succeeds; a listing failure wraps the kind `handleMinioError` picks for it |
| AnalysisMinio.GetFile | analysis-service/internal/infrastructure/minio/client.go:39-52 | the content exactly when the object exists and can be read; a read failure wraps the kind `handleMinioError` picks for it |
| AnalysisMinio.MissingObjectIsNotFound | analysis-service/internal/infrastructure/minio/client.go:39-43 | reading a key absent from the store fails with a NotFound error |
| AnalysisTransport.AnalyseTask | analysis-service/internal/transport/handler.go:34-62 | an unparsable task id gives InvalidArgument and writes no report; service errors pass through `mapError`; on success the status is the service's `true` |
| AnalysisTransport.GetReport | analysis-service/internal/transport/handler.go:64-93 | an unparsable task id gives InvalidArgument; otherwise the response copies the task id text and the verdict of a stored report of that task, or the mapped error |
| StoringUsecase.ObjectKey | storing-service/internal/usecase/service.go:81 | the key starts with the task id; it is the id alone exactly when the last element of the file name has no '.', and otherwise the id is followed by '.' |
| StoringUsecase.ObjectKeyShape | storing-service/internal/usecase/service.go:81 | the key is the id text followed by `Ext(filename)`, a '.'-led suffix of the file name, empty iff the last element has no '.' |
| StoringUsecase.FindTask | storing-service/internal/infrastucture/pgdb/repository.go:17-20 | a lookup by primary key finds a row with that id, or none exists |
| StoringUsecase.FindStoredTask | storing-service/internal/infrastucture/pgdb/repository.go:63-84 | with unique ids a stored row is found by its id |
| StoringUsecase.TaskRepository.CreateTask | storing-service/internal/infrastucture/pgdb/repository.go:35-61 | an insert appends the row, or returns the translated error (AlreadyExists on a duplicate id) and changes nothing; unique ids are preserved |
| StoringUsecase.TaskRepository.GetTask | storing-service/internal/infrastucture/pgdb/repository.go:63-84 | returns the row with the id, NotFound when there is none, or the translated query error |
| StoringUsecase.CheckFileExists | storing-service/internal/usecase/service.go:262-272 | never (true, err): a successful stat gives (true, nil), a NoSuchKey/NotFound code (false, nil), any other error (false, err) |
| StoringUsecase.Watch | storing-service/internal/usecase/service.go:201-260 | a run from attempt i makes between i and 30 checks; it ends Found only on a check that saw the object, and RetriesExhausted only after all 30 |
| StoringUsecase.WatchFrom | storing-service/internal/usecase/service.go:201-260 | at most 30 checks; Found only on the first check that sees the object before the deadline; TimedOut only once the deadline passed; exhaustion means no check saw the object |
| StoringUsecase.FirstSightingFound | storing-service/internal/usecase/service.go:209-251 | if the object is first seen on check j before the deadline, the watch ends Found after j+1 checks |
| StoringUsecase.FastChecksNeverTimeOut | storing-service/internal/usecase/service.go:202-209 | when every check takes at most 8 s, the 30-attempt cap is reached before the 5-minute deadline |
| StoringUsecase.CheckErrorContinues | storing-service/internal/usecase/service.go:219-227 | an existence-check error consumes an attempt and polling continues |
| StoringUsecase.AnalysisClient.AnalyseTask | storing-service/internal/usecase/service.go:234 | each call is recorded with its task id and key, and returns the service's reply |
| StoringUsecase.StoringService.UploadTask | storing-service/internal/usecase/service.go:46-110 | an empty extension gives InvalidArgument before any repository call; a creation error is returned as-is; a presign error becomes Unavailable; only after both succeed is a watcher started, with the task id and key |
| StoringUsecase.StoringService.GetTask | storing-service/internal/usecase/service.go:112-152 | the repository error is passed on; a presign failure for the key id + Ext(filename) becomes Unavailable; otherwise the task carries the stored id, file name, uploader and creation time and exactly the presigned download URL, re-hosted to the external endpoint |
| StoringUsecase.StoringService.GetFileContent | storing-service/internal/usecase/service.go:154-199 | the repository error is passed on; otherwise the content under the key id + Ext(filename), with get and read failures as Unavailable |
| StoringUsecase.StoringService.StartAnalysisAsync | storing-service/internal/usecase/service.go:201-260 | the polling loop ends as `Watch` says, and requests analysis once, with its own task id and key, exactly when it ends Found |
| StoringUsecase.WatchOnce | storing-service/internal/usecase/service.go:201-260 | whatever the polls, a watch makes at most 30 checks and calls analysis at most once, and only on Found |
| StoringPgdb.HandleDbError | storing-service/internal/infrastucture/pgdb/errors.go:11-28 | nil maps to nil; no-rows maps to NotFound before any Postgres code; a known code maps to its sentinel |
| StoringPgdb.HandleDbErrorNormalForm | storing-service/internal/infrastucture/pgdb/errors.go:11-28 | each error is either translated to a sentinel or returned unchanged, and no result is translatable again |
| StoringPgdb.HandleDbErrorIdempotent | storing-service/internal/infrastucture/pgdb/errors.go:11-28 | translating twice is the same as translating once |
| StoringPgdb.PgCodeTable | storing-service/internal/infrastucture/pgdb/errors.go:21-24 | 23505 is the only code giving AlreadyExists; 23503, 23502 and 23514 are the only codes giving InvalidArgument |
| StoringTransport.MapError | storing-service/internal/transport/handler.go:123-138 | nil maps to nil and only nil does; any other error becomes a non-OK status whose message is the error text unchanged |
| StoringTransport.MapErrorTable | storing-service/internal/transport/handler.go:123-138 | first match wins in the order NotFound, InvalidArgument, AlreadyExists, Unavailable; Internal exactly when no sentinel is wrapped |
| StoringTransport.MapSentinelError | analysis-service/internal/transport/handler.go:113-128 | an error wrapping one sentinel gets that sentinel's code and keeps its text |
| StoringTransport.UploadTask | storing-service/internal/transport/handler.go:34-63 | an unparsable `uploaded_by` gives InvalidArgument and touches nothing; otherwise each failure of the use case (uuid, extension, insert fault, duplicate id, presign) comes back through `mapError`, and success carries the new id and the presigned upload URL; the handler succeeds exactly when one watcher was started |
| StoringTransport.GetTask | storing-service/internal/transport/handler.go:65-93 | an unparsable `file_id` gives InvalidArgument; service errors go through `mapError`; a task the service finds is answered with its id, file name, URL, uploader and creation time |
| StoringTransport.GetFileContent | storing-service/internal/transport/handler.go:95-121 | an unparsable `file_id` gives InvalidArgument; otherwise the service's content, or its error through `mapError` |
| StoringTransport.BadIdIgnoresService | storing-service/internal/transport/handler.go:68-74 | with an unparsable id the answer does not depend on the service's state (it is not called) |
| GatewayErrors.MapGrpcCodeToHttp | api-gateway/internal/transport/error_mapper.go:47-86 | total; the status is 200 iff the code is OK, and always a valid HTTP status with a non-empty name |
| GatewayErrors.HttpStatusClasses | api-gateway/internal/transport/error_mapper.go:47-86 | every non-OK code is 4xx/5xx; unlisted codes give (500, INTERNAL); 400, 404, 409 and 503 come exactly from their listed codes |
| GatewayErrors.GrpcErrorReply | api-gateway/internal/transport/error_mapper.go:16-45 | nil writes nothing; a non-status error gives 500 "Internal server error"; otherwise the mapped status and code, with Error == Message and an empty message replaced by the code name |
| GatewayErrors.BackendErrorToHttp | api-gateway/internal/transport/error_mapper.go:32-45 | a back-end error relayed through `mapError` reaches the client as 404/400/409/503/500 by its sentinel, with its text as the message |
| GatewayErrors.HandleGrpcError | api-gateway/internal/transport/error_mapper.go:16-45 | the writer receives exactly the Content-Type header, status and body of `GrpcErrorReply`, and nothing for nil |
| Errdefs.CodeName | api-gateway/internal/transport/error_mapper.go:35-37 | `codes.Code.String()` is never empty, so an empty message is always replaced by something |
| StoringMinio.TrimPrefix | storing-service/internal/infrastucture/minio/client.go:23-24 | removes the prefix once when present, otherwise returns the input |
| StoringMinio.NormalizeEndpointStrips | storing-service/internal/infrastucture/minio/client.go:23-24 | normalisation strips exactly one of "", "http://", "https://" or "http://https://" from the front |
| StoringMinio.NormalizeEndpointOfHost | storing-service/internal/infrastucture/minio/client.go:23-24 | a bare host is kept, and a host behind one scheme prefix loses it |
| StoringMinio.ReplaceHost | storing-service/internal/infrastucture/minio/client.go:108-117 | the copy's host is the external endpoint; the scheme becomes "http" iff it was empty and the endpoint has no scheme prefix; every other field is the input's |
| StoringMinio.ReplaceHostIdempotent | storing-service/internal/infrastucture/minio/client.go:108-117 | rewriting a rewritten URL again changes nothing |
| StoringMinio.NormalizedEndpointGetsScheme | storing-service/internal/infrastucture/minio/client.go:108-115 | for an endpoint written as a bare host, "http://" + host or "https://" + host, the rewritten URL has the bare host and an empty scheme becomes "http"; a doubled prefix such as "http://http://x" is the exception |
| StoringMinio.DoublePrefixKeepsEmptyScheme | storing-service/internal/infrastucture/minio/client.go:24 | only one prefix of each kind is stripped: "http://http://minio" normalises to "http://minio", so an empty scheme stays empty |
| StoringMinio.NormalizeEndpoint | storing-service/internal/infrastucture/minio/client.go:23-24 | the normalised endpoint is a tail of the endpoint, and all of it when it starts with neither "http://" nor "https://" |
| StoringMinio.PresignedPutObject | storing-service/internal/infrastucture/minio/client.go:82-92 | the presign error is returned unchanged; otherwise the URL is re-hosted to the external endpoint with its path kept |
| StoringMinio.PresignedGetObject | storing-service/internal/infrastucture/minio/client.go:95-105 | as for upload URLs, for download URLs |
| StoringConfig.GetEnv | storing-service/internal/config/config.go:84-89 | the environment value when set and non-empty, otherwise the fallback |
| StoringConfig.WithDbUrlCases | storing-service/internal/config/config.go:91-108 | a set URL is kept; User is checked before Name; otherwise only the URL changes and becomes non-empty; it fails iff URL is empty and User or Name is |
| StoringConfig.WithDbUrlIdempotent | storing-service/internal/config/config.go:91-108 | a second `makeDbUrl` changes nothing |
| StoringConfig.ConnectionUrlShape | storing-service/internal/config/config.go:99-105 | the URL is "postgresql://" + user + ":" … "/" + name + "?sslmode=disable" |
| StoringConfig.Config.MakeDbUrl | storing-service/internal/config/config.go:91-108 | updates only the database settings in place, as `WithDbUrl` says, or returns its error and changes nothing |
| StoringConfig.LoadConfigNeverFails | storing-service/internal/config/config.go:50-82 | the defaults give a non-empty user and name, so the URL is always assembled |
| StoringConfig.LoadConfig | storing-service/internal/config/config.go:50-82 | never fails; every field is its environment value or its default, and the URL is assembled |
| Paths.Ext | storing-service/internal/usecase/service.go:57 | the extension is no longer than the path, and is empty or starts with '.' |
| Paths.ExtIsSuffix | storing-service/internal/usecase/service.go:57 | the extension is a suffix of the path no longer than its last element |
| Paths.ExtStartsAtLastDot | storing-service/internal/usecase/service.go:57 | a non-empty extension is '.' followed by characters other than '.' |
| Paths.ExtShape | storing-service/internal/usecase/service.go:57 | a non-empty extension starts with '.', is a suffix of the last element, and has no other '.' |
| Paths.ExtEmptyIff | storing-service/internal/usecase/service.go:57-61 | the extension is empty exactly when the last path element has no '.' |
| GatewayAnalysis.AnalyseTaskRequest | api-gateway/internal/infrastructure/analysis/client.go:29-35 | the request carries the task id unchanged and a key that starts with it |
| GatewayAnalysis.MakeObjectKey | api-gateway/internal/infrastructure/analysis/client.go:51-54 | the key starts with the id; it is the id alone exactly when the last element of the file name has no '.', and otherwise the id is followed by '.' |
| GatewayAnalysis.MakeObjectKeyShape | api-gateway/internal/infrastructure/analysis/client.go:51-54 | the key is the id alone when the last element has no '.', else the id plus a '.'-led suffix of the file name |
| GatewayAnalysis.KeyAgreesWithStoring | api-gateway/internal/infrastructure/analysis/client.go:53 | for the same id and file name the gateway's key equals the storing service's key |
| WordCloud.TrailingRunIsSuffix | analysis-service/internal/infrastructure/wordcloud/client.go:74-83 | the current word is the longest suffix of letters and digits read so far |
| WordCloud.ExtractWords | analysis-service/internal/infrastructure/wordcloud/client.go:67-90 | the scanning loop returns the maximal letter/digit runs of the lower-cased text that are longer than 2, in order, with the trailing run flushed |
| WordCloud.RunsWellFormed | analysis-service/internal/infrastructure/wordcloud/client.go:74-87 | every run is non-empty and made of letters and digits only |
| WordCloud.RunsSplitAtSeparator | analysis-service/internal/infrastructure/wordcloud/client.go:77-82 | a non-word character splits the runs: those of a + [c] + b are those of a followed by those of b |
| WordCloud.RunsOfWord | analysis-service/internal/infrastructure/wordcloud/client.go:75-76 | a non-empty string of letters and digits is a single run |
| WordCloud.WordsWellFormed | analysis-service/internal/infrastructure/wordcloud/client.go:67-90 | every output word is longer than 2 and made of lower-case letters and digits only |
| WordCloud.CountWordFrequency | analysis-service/internal/infrastructure/wordcloud/client.go:92-112 | keys are exactly the input words that are not stop words and are longer than 2, each counted by its number of occurrences |
| WordCloud.FrequenciesAreKeptMultiplicities | analysis-service/internal/infrastructure/wordcloud/client.go:105-109 | the counted words keep each counted word's multiplicity and drop the rest, so the counts sum to at most the number of words |

## Left out

- Comparator.CompareFiles: requires ASCII content. `unicode.IsLetter`, `IsDigit` and `ToLower` are modelled on ASCII only, where Go's byte lengths (used by `createNGrams`) and rune counts agree. Non-ASCII letters, case mappings and multi-byte shingles are not modelled.
- WordCloud.ExtractWords: requires ASCII content, for the same reason. `currentWord.Len()` counts bytes, which equals characters only on ASCII.
- WordCloud.CountWordFrequency: a word counts when it has more than 2 characters, while `len(word)` counts bytes. The two agree on the ASCII words `ExtractWords` produces; a non-ASCII word passed in directly is measured in characters.
- AnalysisUsecase.TextComparator: Go's comparator scores every pair and never fails. The model scores exactly the pairs of ASCII contents, with the same score as Go, and declines every other pair with an error. `AnalysisService.AnalyseTask` then skips a non-ASCII candidate, so on a corpus with non-ASCII documents the model's maximum can be lower than Go's; it is never higher. `DuplicateScoresHundred` and `DuplicateIsPlagiarism` require ASCII text for that reason.
- StoringUsecase.Task: `url` holds the parsed URL record, while Go stores the text of `uploadUrl.String()`. URL serialisation is not modelled.
- Floating point: scores are Dafny `real`, not `float64`. The `float32` narrowing of the percentage in the analysis `GetReport` response is not modelled.
- Concurrency: the watcher is a directly invoked sequential method. `UploadTask` records the watcher it would spawn with `go` in its `launched` list.
- Time: `time.Sleep` and `context.WithTimeout` are replaced by per-check durations supplied as input plus the fixed 2 s pause. The deadline's effect on an in-flight stat or analysis call appears only through that call's supplied outcome.
- Object storage and presigning are abstract inputs: a listing plus a key-to-content map with failure outcomes, a stat result per poll, and functions giving the internal presigned URL. The clients' connect and bucket retry loops are not modelled.
- SQL repositories are tables held in classes with injected faults. The report table has no uniqueness constraint, and its lookup returns any matching row. The analysis service's own `handleDBError` is not part of this model; "no rows" is taken to mean NotFound, as in the storing service.
- analysis-service/internal/errdefs is not part of this model. Its sentinels are taken to be the same four as the storing service's.
- The two identical `mapError` switches are one member, `StoringTransport.MapError`, which both services' handlers use.
- UUID generation and parsing are inputs: a possibly failing new id, and a parse function from text to id or error. `os.Getenv` is an input map. Timestamps are integers, and `time.Time.String()` is not modelled. Logging is dropped.
- Left out entirely:
  - the word cloud's URL/JSON construction and HTTP fetch, and `GenerateWordCloud`;
  - the HTTP gateway handlers, router and middleware;
  - the gRPC clients and servers, and the `cmd/main.go` files;
  - the gateway's configuration, whose `getEnv` is the one modelled here.
- JSON encoding of the gateway's error body is not modelled. The body is recorded as a value.
