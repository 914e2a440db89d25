# APOD archive worker — a Dafny model

This project models the core of a small Go service that archives NASA's
Astronomy Picture of the Day. Every day, at a configured wall-clock time, its
worker asks the upstream API for the day's payload. If the payload's date is
not yet stored, the worker downloads the image to `./storage/apod/<date>.jpg`
and inserts a record keyed by that date. A read-only HTTP API lists the
archive and looks entries up by date.

The model covers:

- the worker: the next-run computation, the request URL and the control flow of
  one run over an abstract HTTP answer;
- the service: the check-download-insert transaction, the image path, and the
  by-date and list reads with their error mapping;
- the in-memory repository that the service tests use as the store;
- the handler: routes, the error-to-status mapping and the error body;
- configuration: the environment getters with their defaults;
- the database start-up retry loop.

Module layout, one file each:

| module | file | models |
|---|---|---|
| `Wrappers`, `Errors`, `Domain` | wrappers.dfy, errors.dfy, domain.dfy | `Option`; Go error values (`errors.Is`, `reflect.DeepEqual`); the record and the payload |
| `Decimal` | decimal.dfy | digits, `%d`, Go's `getnum` |
| `Calendar` | calendar.dfy | the "2006-01-02" layout, proved equal to RFC 3339 `full-date` |
| `Times` | times.dfy | instants in one fixed-offset zone, the "15:04" layout |
| `Store` | store.dfy | `InMemoryApodImagesRepo` as the class `MemoryRepo` |
| `Service`, `ServiceScenarios` | service.dfy, service_scenarios.dfy | `ApodImagesService`, the service tests |
| `Handler` | handler.dfy | `APODImagesHandler`, `writeErrorResponse`, `Init` |
| `Config` | config.dfy | `ParseConfigFromEnv` and its getters |
| `Worker` | worker.dfy | `APODWorker` |
| `InitDb` | initdb.dfy | `InitDB` |

A Go error is modelled by the datatype `Errors.Error`. It has three forms:

- one of the three package-level sentinels;
- a fresh `errors.New`/`fmt.Errorf` value;
- a `%w` wrapper around another error.

`Is` follows the wrap chain and compares sentinels by identity, as
`errors.Is` does. `DeepEqual` compares error texts, as testify's
`assert.Equal` does.

I/O is represented by inputs:

- The upstream GET is a `Worker.Reply`: a transport error, or a status with a
  decoded payload or a decode error.
- The image download is a `Service.ImageFetch`. It holds the GET error, the
  status, and the errors of `MkdirAll`, `Create` and `io.Copy`.
- Connection attempt `i` of `InitDB` reports `connect(i)`.
- `migrateErr` is what the migration reports.
- The environment is a `map<string, string>`.
- The parsers `strconv.Atoi` and `time.ParseDuration` are function parameters.
- A repository that can fail is represented by `Service.StoreFaults`: the
  errors its `ExistsByDate` and `Save` report.

### Where the code departs from the behaviour it is meant to have (the model follows the code)

- **Tie-break in the scheduler.** The scheduler is meant to pick the first run time strictly
  after now, deferring to tomorrow on equality. The code compares with a strict `After`
  (internal/service/worker.go:54), so at exactly HH:MM:00.000000000 the next
  run *is* `now`. `Worker.NextRunWithinADay` states this.
- **Upstream URL.** The request is meant to be `<ApiURL>?api_key=<key>` with the
  base URL `https://api.nasa.gov/planetary/apod`. The code's default `ApiURL`
  already ends in `?api_key=<key>` (internal/config/config.go:58), and the
  worker appends `?api_key=<key>` again (internal/service/worker.go:64).
  `Worker.DefaultURLRepeatsApiKey` states the resulting doubled URL.
- **Duplicate inserts.** A repository's `Save` is meant to fail on a duplicate date. The
  in-memory store overwrites (internal/service/service_test.go:99-102). The
  service never reaches `Save` for a stored date, so the difference never shows.
- **Empty archive.** The list endpoint is meant to answer 404 for an empty
  archive (internal/handler/handler.go maps ErrImagesNotFound to 404). The in-memory repository, though, reports an empty store with
  its own `errors.New("images not found")`. That value is not
  `ErrImagesNotFound`:
  - the service test's `assert.Equal` accepts it, because the texts match;
  - `errors.Is` does not, so the handler would answer 500.

  `ServiceScenarios.GetAllImagesScenario` and
  `Handler.ClearedMemoryRepoListAnswers500` state this.
- **Hour of "15:04".** Go's layout hour `15` reads one or two digits, so
  `WORKER_RUN_TIME=9:30` parses as 09:30. The minute needs exactly two digits.

## Model

| member | source | states |
|---|---|---|
| Calendar.ParseDate | internal/service/service.go:121 | any date the "2006-01-02" layout accepts is a real calendar date: four-digit year, month 1-12, day within the month |
| Calendar.ParseDateIsFullDate | internal/service/service.go:121 | the layout accepts exactly the RFC 3339 full-date strings (day limits and leap years included) and reads year, month, day off them |
| Calendar.FormatThenParse | internal/service/service.go:121 | every valid date written as YYYY-MM-DD parses back to itself |
| Calendar.ParseThenFormat | internal/service/service.go:121 | every accepted string is exactly the YYYY-MM-DD text of the date it yields |
| Times.OnSameDay | internal/service/worker.go:52 | the candidate is on now's day, in now's zone, at the run hour and minute with zero seconds and nanoseconds |
| Times.Add24h | internal/service/worker.go:55 | adding 24h in a fixed-offset zone moves exactly one day later on the absolute timeline and keeps the wall clock |
| Times.ParseTimeOfDayIsClockText | internal/config/config.go:96 | "15:04" accepts exactly H:MM or HH:MM with hour below 24 and minute below 60; for both forms the hour and minute are the digits read off |
| Times.FormatThenParseTimeOfDay | internal/config/config.go:96-97 | every time of day written as HH:MM parses back to itself |
| Worker.CalculateNextRunTime | internal/service/worker.go:51-59 | the result is at the run hour and minute with zero seconds and nanoseconds, in now's zone; it is today unless now is strictly after today's candidate, then tomorrow |
| Worker.NextRunWithinADay | internal/service/worker.go:54 | the next run is never before now and less than 24h after it; it equals now exactly when now is the run time to the nanosecond |
| Worker.BeforeRunTimeRunsToday | internal/service/worker_test.go:16-21 | 08:00 with run time 09:00 gives 09:00 the same day |
| Worker.AfterRunTimeRunsTomorrow | internal/service/worker_test.go:22-27 | 10:00 with run time 09:00 gives 09:00 the next day |
| Worker.MidnightRunsTomorrow | internal/service/worker_test.go:28-33 | 23:59 with run time 00:00 gives midnight of the next day |
| Worker.RequestURL | internal/service/worker.go:64 | the request is the configured URL followed by exactly "?api_key=" and the key |
| Worker.PayloadToSave | internal/service/worker.go:67-83 | a payload reaches the service iff the GET succeeded, the status is exactly 200 and the body decoded |
| Worker.APODWorker.constructor | internal/service/worker.go:23-32 | the worker takes URL, run-on-start flag and run time from the worker configuration |
| Worker.APODWorker.FetchAPOD | internal/service/worker.go:61-92 | requests the URL; without a saveable payload the store is unchanged, with one the store becomes what the ingestion transaction makes of it; no error escapes |
| Worker.DefaultURLRepeatsApiKey | internal/config/config.go:58 | with NASA_API_URL unset the worker requests ".../apod?api_key=KEY?api_key=KEY" |
| Store.Lookup | internal/service/service_test.go:86-92 | the stored record for a present date, the "image not found" error for an absent one |
| Store.MemoryRepo.constructor | internal/service/service_test.go:69-73 | a new repository is empty |
| Store.MemoryRepo.Save | internal/service/service_test.go:99-102 | stores the record under its date, overwriting, leaves other dates unchanged, keeps every record under its own date, never fails |
| Store.MemoryRepo.ExistsByDate | internal/service/service_test.go:94-97 | true iff the date is a key; never fails |
| Store.MemoryRepo.GetImageByDate | internal/service/service_test.go:86-92 | answers the lookup of the date |
| Store.MemoryRepo.GetAllImages | internal/service/service_test.go:75-84 | fails with its own "images not found" iff the store is empty; otherwise lists every stored record exactly once, one per date |
| Store.MemoryRepo.Clear | internal/service/service_test.go:58 | the repository is emptied |
| Service.ImagePath | internal/service/service.go:94-101 | the path is the storage directory, "/", the date and ".jpg" |
| Service.ImagePathInjective | internal/service/service.go:100-101 | before path cleaning, the image path depends on the date alone and distinct dates get distinct paths |
| Service.FullDateHasNoPathSyntax | internal/service/service.go:100-101 | a full-date contains no '/' and no '.', so path cleaning cannot merge the image paths of two full-dates |
| Service.DownloadImage | internal/service/service.go:79-117 | succeeds iff the GET works, the status is 200 and directory, file and copy succeed; then yields the date's image path; any non-200 status is an error naming the status |
| Service.Metadata | internal/service/service.go:61-67 | the saved record copies title, explanation, date and copyright, leaves the id at zero and carries the image path |
| Service.Ingest | internal/service/service.go:41-77 | an ExistsByDate error is wrapped and stops before downloading; a stored date stops with "already saved"; a failed download is wrapped as "failed to download image" and stops before Save; after a successful download the record is inserted, and the ingestion commits exactly when Save succeeds, otherwise Save's error comes back unwrapped; failures leave the store unchanged; stored records are never altered |
| Service.ApodImagesService.constructor | internal/service/service.go:34-39 | the service keeps the repository it is given |
| Service.ApodImagesService.SaveAPODData | internal/service/service.go:41-77 | the new store, the error and the calls made are those of the ingestion transaction over the in-memory repository |
| Service.ByDate | internal/service/service.go:120-135 | ErrInvalidDate iff the date is not a full-date, whatever the repository says; any repository error becomes ErrImageNotFound; for a full-date, the repository's record is returned unchanged and any repository error becomes ErrImageNotFound |
| Service.AllImages | internal/service/service.go:137-151 | repository errors pass through unchanged; ErrImagesNotFound only for an empty success or that error itself; a non-empty list passes unchanged |
| Service.ApodImagesService.GetImageByDate | internal/service/service.go:120-135 | over the in-memory store: ErrInvalidDate for a malformed date, the stored record, or ErrImageNotFound |
| Service.ApodImagesService.GetAllImages | internal/service/service.go:137-151 | over the in-memory store: the repository's own error when empty, else every record once |
| Service.SecondIngestIsNoOp | internal/service/service.go:42-51 | after a committed ingestion, ingesting the same date again fails, leaves the store unchanged and downloads nothing |
| Service.IngestKeepsKeyedByDate | internal/service/service.go:61-69 | ingestion keeps every record filed under its own date |
| Service.IngestThenRead | internal/service/service.go:41-77 | after a committed ingestion of a well-formed date, reading that date returns the saved record |
| ServiceScenarios.GetImageByDateScenario | internal/service/service_test.go:13-40 | saved record read back equal; "invalid-date" gives ErrInvalidDate; an unsaved date gives ErrImageNotFound |
| ServiceScenarios.GetAllImagesScenario | internal/service/service_test.go:42-63 | one saved record is listed alone; after clearing, the error is the repository's own, deep-equal to ErrImagesNotFound but not errors.Is it |
| ServiceScenarios.IngestTwiceScenario | internal/service/service.go:42-51 | ingesting one payload twice: first commits, second reports "already saved" after only the existence check |
| Handler.WriteErrorResponse | internal/handler/handler.go:80-87 | JSON body with exactly the keys code and message, code equal to the status written |
| Handler.GetAllImages | internal/handler/handler.go:36-52 | success is 200 with the JSON list; ErrImagesNotFound is 404 "Images not found"; any other error is 500 "Internal Server Error" |
| Handler.GetImageByDate | internal/handler/handler.go:54-78 | success is 200 with the record; ErrInvalidDate is 400 "Invalid date format. Use YYYY-MM-DD.", ErrImageNotFound 404 "Image not found", anything else 500 "Internal Server Error" |
| Handler.Route | internal/handler/handler.go:24-27 | only GET and OPTIONS on /api/apod and on /api/apod/{date} are routed, {date} being one non-empty segment other than "." and "..", which the router's path cleaning redirects |
| Handler.RouteByDate | internal/handler/handler.go:26 | every request for one date path segment other than "." and ".." reaches the by-date handler with that date |
| Handler.ByDateNeverInternalError | internal/handler/handler.go:58-73 | through the service a by-date request is never 500: 400 iff malformed, 404 iff well-formed and the repository failed, 200 iff found |
| Handler.ListStatus | internal/handler/handler.go:38-47 | through the service the list is 404 iff the repository returned nothing or ErrImagesNotFound, 200 iff it returned records |
| Handler.ClearedMemoryRepoListAnswers500 | internal/service/service_test.go:76-78 | the emptied in-memory repository's error makes the list request answer 500 |
| Handler.InvalidMonthAnswers400 | internal/handler/handler.go:62-65 | "2024-13-40" answers 400 with "Invalid date format. Use YYYY-MM-DD." |
| Config.Fallback | internal/config/config.go:76-113 | the parsed value of a set variable that parses, the default otherwise |
| Config.GetEnvOrDefault | internal/config/config.go:69-74 | the variable's value whenever it is set, even empty; the default otherwise |
| Config.Getenv | internal/config/config.go:53 | an unset variable reads as the empty string |
| Config.GetEnvAsInt | internal/config/config.go:76-83 | the value Atoi reads when the variable is set and parses; the default when it is unset or does not parse |
| Config.ParseBool | internal/config/config.go:87 | true for exactly 1 t T TRUE true True, false for exactly 0 f F FALSE false False, otherwise no value |
| Config.GetEnvAsBool | internal/config/config.go:85-92 | the value ParseBool reads when the variable is set and parses; the default when it is unset or does not parse |
| Config.GetEnvAsTime | internal/config/config.go:94-104 | the variable's "15:04" value, else the parsed default, else the zero time |
| Config.GetEnvAsDuration | internal/config/config.go:106-113 | the value ParseDuration reads when the variable is set and parses; the default when it is unset or does not parse |
| Config.ParseConfigFromEnv | internal/config/config.go:37-67 | for every environment, each field is its own variable's value when set (and parseable, for the int, duration, bool and time fields) and its default otherwise, whatever else is set; a set NASA_API_URL is the worker's URL, else the default prefix followed by the key |
| Config.DefaultRunTime | internal/config/config.go:56 | "03:00" reads as hour 3, minute 0 |
| Config.DefaultsOfEmptyEnvironment | internal/config/config.go:37-67 | with nothing set: localhost/5432/user/password/database, 3 retries, 5s wait, 0.0.0.0:8080, 03:00, run on start, URL prefix with empty key |
| Config.UnparsableFallsBack | internal/config/config.go:76-113 | set but unparsable retry count, wait, flag and run time fall back to their defaults |
| Config.SetButEmptyIsKept | internal/config/config.go:69-74 | a string variable set to "" is taken as "" |
| InitDb.InitDB | internal/repository/init.go:13-43 | at most ReconnRetry attempts, all but the last refused; none and nil/nil when ReconnRetry is not positive; first connection plus migration returns the repository; a failed migration returns nil and a wrapped error; if all fail, nil and the last connect error; one wait of TimeWaitPerTry after each refused attempt, the last included |

## Left out

- `Start` (internal/service/worker.go:34-49): goroutines and `time.Sleep`. Only its per-tick computation, `CalculateNextRunTime`, is modelled.
- Real HTTP, JSON decoding and encoding, and writing bytes to files. These are inputs of the model (`Reply`, `ImageFetch`), and responses are values. The model does not record the file content or the partial files a failed download leaves behind.
- Service.ImagePath: `filepath.Join` also cleans the path. The actual path has no leading "./", and any ".", ".." or repeated "/" inside the date is collapsed. That cleaning is not modelled. The upstream date is not validated before the download, so a date with path syntax can reach another file: "a/../b" and "b" both give `storage/apod/b.jpg`. `Service.ImagePathInjective` holds only of the uncleaned path. `Service.FullDateHasNoPathSyntax` shows that cleaning leaves a full-date unchanged.
- Service.ApodImagesService.SaveAPODData: runs only against the in-memory repository, which never reports an error. The error branches of a failing repository are stated about `Service.Ingest` through `StoreFaults`.
- The SQL repository, the migration library, the HTTP server, the application wiring, CORS, flags and `.env` loading, and logging. These are out of the core. internal/models is not part of this model: `APODResponse` carries the fields the service reads.
- Request contexts and their cancellation.
- Time zones with daylight-saving shifts: one fixed-offset zone is modelled. Only the hour and minute of the configured run time are kept, not the `time.Time` date fields.
- The grammars of `strconv.Atoi` and `time.ParseDuration`: they are parameters, "parses to v or does not parse".
- 64-bit integer limits of Go's `int` and `time.Duration`: integers are unbounded.
- The router's 405 answer for other methods, its 301 redirect for a path that cleaning changes (such as `/api/apod/..`), and CORS preflight interception: a request that is not routed is `None`.
