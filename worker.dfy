/**
 * The ingestion worker: when the next daily run falls, and what one run does
 * with the upstream API's answer.
 */
module Worker {
  import opened Wrappers
  import opened Errors
  import opened Domain
  import opened Times
  import opened Service
  import opened Config

  /**
   * The next run at `runTime`: today's `runTime` in `now`'s zone, unless
   * `now` is strictly after it, in which case the same time tomorrow.
   */
  function CalculateNextRunTime(runTime: TimeOfDay, now: Instant): (next: Instant)
    ensures next.loc == now.loc
    ensures next.Hour() == runTime.hour && next.Minute() == runTime.minute
    ensures next.Second() == 0 && next.Nanosecond() == 0
    ensures !After(now, OnSameDay(now, runTime)) ==> next.day == now.day
    ensures After(now, OnSameDay(now, runTime)) ==> next.day == now.day + 1
  {
    var nextRun := OnSameDay(now, runTime);
    if After(now, nextRun) then Add24h(nextRun) else nextRun
  }

  /**
   * The next run is never before `now` and less than a day after it; it is
   * `now` itself exactly when `now` falls on the run time to the nanosecond.
   */
  lemma NextRunWithinADay(runTime: TimeOfDay, now: Instant)
    ensures var next := CalculateNextRunTime(runTime, now);
            && UnixNanos(now) <= UnixNanos(next) < UnixNanos(now) + NanosPerDay
            && (next == now <==> now.nanos == ClockNanos(runTime))
  {
  }

  /** 08:00 with run time 09:00: the same day at 09:00. */
  lemma BeforeRunTimeRunsToday(day: int, utc: Zone)
    ensures CalculateNextRunTime(TimeOfDay(9, 0), Instant(day, 8 * NanosPerHour, utc))
              == Instant(day, 9 * NanosPerHour, utc)
  {
  }

  /** 10:00 with run time 09:00: the next day at 09:00. */
  lemma AfterRunTimeRunsTomorrow(day: int, utc: Zone)
    ensures CalculateNextRunTime(TimeOfDay(9, 0), Instant(day, 10 * NanosPerHour, utc))
              == Instant(day + 1, 9 * NanosPerHour, utc)
  {
  }

  /** 23:59 with run time 00:00: midnight starting the next day. */
  lemma MidnightRunsTomorrow(day: int, utc: Zone)
    ensures CalculateNextRunTime(TimeOfDay(0, 0), Instant(day, 23 * NanosPerHour + 59 * NanosPerMinute, utc))
              == Instant(day + 1, 0, utc)
  {
  }

  /** The request the worker sends: the configured URL with "?api_key=<key>" appended. */
  function RequestURL(apodURL: string, apiKey: string): (url: string)
    ensures |url| == |apodURL| + 9 + |apiKey|
    ensures url[..|apodURL|] == apodURL
    ensures url[|apodURL|..] == "?api_key=" + apiKey
  {
    apodURL + "?api_key=" + apiKey
  }

  /** The outcome of decoding the JSON body. */
  datatype Decoded = Malformed(err: Error) | Payload(data: APODResponse)

  /** The outcome of the GET to the upstream API. */
  datatype Reply = GetFailed(err: Error) | Replied(status: int, body: Decoded)

  /** The payload a run hands to the service: only that of a 200 whose body decodes. */
  function PayloadToSave(reply: Reply): (p: Option<APODResponse>)
    ensures p.Some? <==> reply.Replied? && reply.status == 200 && reply.body.Payload?
    ensures p.Some? ==> p.value == reply.body.data
  {
    match reply
    case GetFailed(_) => None
    case Replied(status, body) =>
      if status != 200 then None
      else match body
        case Malformed(_) => None
        case Payload(data) => Some(data)
  }

  class APODWorker {
    const apodService: ApodImagesService
    const apiKey: string
    const apodURL: string
    const runImmediately: bool
    const runTime: TimeOfDay

    constructor (apodService: ApodImagesService, apiKey: string, workerConfig: WorkerConfig)
      ensures this.apodService == apodService && this.apiKey == apiKey
      ensures apodURL == workerConfig.apiURL
      ensures runImmediately == workerConfig.runFetchingOnStart
      ensures runTime == workerConfig.runTime
    {
      this.apodService := apodService;
      this.apiKey := apiKey;
      this.apodURL := workerConfig.apiURL;
      this.runImmediately := workerConfig.runFetchingOnStart;
      this.runTime := workerConfig.runTime;
    }

    /**
     * One run: request the API, and save the payload only when the request
     * succeeded with status 200 and the body decoded. Every failure,
     * including that of the save, ends the run without an error escaping it.
     * Returns the URL requested.
     */
    method FetchAPOD(reply: Reply, fetch: ImageFetch) returns (url: string)
      modifies apodService.repository
      ensures url == RequestURL(apodURL, apiKey)
      ensures PayloadToSave(reply).None? ==> apodService.repository.images == old(apodService.repository.images)
      ensures PayloadToSave(reply).Some? ==>
                apodService.repository.images
                  == Ingest(old(apodService.repository.images), PayloadToSave(reply).value, NoFaults, fetch).images
    {
      url := apodURL + "?api_key=" + apiKey;
      if reply.GetFailed? {
        return;
      }
      if reply.status != 200 {
        return;
      }
      if reply.body.Malformed? {
        return;
      }
      var err, calls := apodService.SaveAPODData(reply.body.data, fetch);
    }
  }

  /**
   * With NASA_API_URL unset, the configured URL already ends in
   * "?api_key=<key>", and the worker appends a second "?api_key=<key>".
   */
  lemma DefaultURLRepeatsApiKey(env: Env, parsers: Parsers)
    requires "NASA_API_URL" !in env
    ensures var c := ParseConfigFromEnv(env, parsers);
            var key := c.nasaApiKey;
            RequestURL(c.workerConfig.apiURL, key)
              == "https://api.nasa.gov/planetary/apod?api_key=" + key + "?api_key=" + key
  {
  }
}
