/**
 * The HTTP handlers: the route table, and the mapping of the service's
 * results to a status and a JSON body. A response is a value; writing it to
 * the connection is left to the server.
 */
module Handler {
  import opened Wrappers
  import opened Errors
  import opened Domain
  import opened Decimal
  import opened Calendar
  import opened Service

  const StatusOK: int := 200
  const StatusBadRequest: int := 400
  const StatusNotFound: int := 404
  const StatusInternalServerError: int := 500

  const ContentTypeJSON: string := "application/json"

  datatype Json =
    | JInt(i: int)
    | JString(s: string)
    | JObject(fields: map<string, Json>)
    | JImage(image: ApodImageMetaData)
    | JImages(images: seq<ApodImageMetaData>)

  /** Status line, Content-Type header and body of a response. */
  datatype Response = Response(status: int, contentType: string, body: Json)

  /** An error response: a JSON object with exactly the keys "code" and "message", the code being the status. */
  ghost predicate ErrorShaped(r: Response) {
    && r.contentType == ContentTypeJSON
    && r.body.JObject?
    && r.body.fields.Keys == {"code", "message"}
    && r.body.fields["code"] == JInt(r.status)
    && r.body.fields["message"].JString?
  }

  function WriteErrorResponse(code: int, message: string): (r: Response)
    ensures ErrorShaped(r) && r.status == code && r.body.fields["message"] == JString(message)
  {
    Response(code, ContentTypeJSON, JObject(map["code" := JInt(code), "message" := JString(message)]))
  }

  /** GET /api/apod given the service's answer. */
  function GetAllImages(result: Result<seq<ApodImageMetaData>>): (r: Response)
    ensures result.Success? ==> r == Response(StatusOK, ContentTypeJSON, JImages(result.value))
    ensures result.Failure? ==> ErrorShaped(r)
    ensures result.Failure? && Is(result.error, ImagesNotFound) ==>
              r == WriteErrorResponse(StatusNotFound, "Images not found")
    ensures result.Failure? && !Is(result.error, ImagesNotFound) ==>
              r == WriteErrorResponse(StatusInternalServerError, "Internal Server Error")
  {
    match result
    case Failure(err) =>
      if Is(err, ImagesNotFound) then WriteErrorResponse(StatusNotFound, "Images not found")
      else WriteErrorResponse(StatusInternalServerError, "Internal Server Error")
    case Success(images) =>
      Response(StatusOK, ContentTypeJSON, JImages(images))
  }

  /** GET /api/apod/{date} given the service's answer. */
  function GetImageByDate(result: Result<ApodImageMetaData>): (r: Response)
    ensures result.Success? ==> r == Response(StatusOK, ContentTypeJSON, JImage(result.value))
    ensures result.Failure? ==> ErrorShaped(r)
    ensures result.Failure? ==>
              r.status == (if Is(result.error, InvalidDate) then StatusBadRequest
                           else if Is(result.error, ImageNotFound) then StatusNotFound
                           else StatusInternalServerError)
    ensures result.Failure? && Is(result.error, InvalidDate) ==>
              r == WriteErrorResponse(StatusBadRequest, "Invalid date format. Use YYYY-MM-DD.")
    ensures result.Failure? && !Is(result.error, InvalidDate) && Is(result.error, ImageNotFound) ==>
              r == WriteErrorResponse(StatusNotFound, "Image not found")
    ensures result.Failure? && !Is(result.error, InvalidDate) && !Is(result.error, ImageNotFound) ==>
              r == WriteErrorResponse(StatusInternalServerError, "Internal Server Error")
  {
    match result
    case Failure(err) =>
      if Is(err, InvalidDate) then WriteErrorResponse(StatusBadRequest, "Invalid date format. Use YYYY-MM-DD.")
      else if Is(err, ImageNotFound) then WriteErrorResponse(StatusNotFound, "Image not found")
      else WriteErrorResponse(StatusInternalServerError, "Internal Server Error")
    case Success(image) =>
      Response(StatusOK, ContentTypeJSON, JImage(image))
  }

  /** The two routes `Init` registers, each for OPTIONS and GET. */
  datatype Endpoint = ListImages | ImageByDate(date: string)

  const Methods: set<string> := {"OPTIONS", "GET"}
  const ListPath: string := "/api/apod"
  const ByDatePrefix: string := "/api/apod/"

  /**
   * A `{date}` value the router passes on: one non-empty path segment. The
   * router cleans paths before matching and answers a redirect for a path
   * that cleaning changes, so the dot segments "." and ".." never reach a
   * handler.
   */
  predicate IsDateSegment(date: string) {
    && date != "" && date != "." && date != ".."
    && forall i :: 0 <= i < |date| ==> date[i] != '/'
  }

  /** The router: which handler a request reaches, and the `{date}` it carries. */
  function Route(verb: string, path: string): (r: Option<Endpoint>)
    ensures r.Some? ==> verb in Methods
    ensures r == Some(ListImages) <==> verb in Methods && path == ListPath
    ensures r.Some? && r.value.ImageByDate? ==>
              && path == ByDatePrefix + r.value.date
              && IsDateSegment(r.value.date)
  {
    if verb !in Methods then None
    else if path == ListPath then Some(ListImages)
    else if |path| > |ByDatePrefix| && path[..|ByDatePrefix|] == ByDatePrefix
            && path[|ByDatePrefix|..] != "." && path[|ByDatePrefix|..] != ".."
            && forall i :: |ByDatePrefix| <= i < |path| ==> path[i] != '/'
    then
      assert path == ByDatePrefix + path[|ByDatePrefix|..];
      Some(ImageByDate(path[|ByDatePrefix|..]))
    else None
  }

  /** Every request for one date is routed to that date. */
  lemma RouteByDate(verb: string, date: string)
    requires verb in Methods && IsDateSegment(date)
    ensures Route(verb, ByDatePrefix + date) == Some(ImageByDate(date))
  {
    var path := ByDatePrefix + date;
    assert path[..|ByDatePrefix|] == ByDatePrefix;
    assert path[|ByDatePrefix|..] == date;
    assert path != ListPath by { assert |path| > |ListPath|; }
  }

  /**
   * Through the service, a by-date request never answers 500: a malformed
   * date is 400, a repository error of any kind is 404, a record is 200.
   */
  lemma ByDateNeverInternalError(date: string, reply: Result<ApodImageMetaData>)
    ensures var r := GetImageByDate(ByDate(date, reply));
            && r.status != StatusInternalServerError
            && (r.status == StatusBadRequest <==> !IsFullDate(date))
            && (r.status == StatusNotFound <==> IsFullDate(date) && reply.Failure?)
            && (r.status == StatusOK <==> IsFullDate(date) && reply.Success?)
  {
  }

  /**
   * Through the service, the list request answers 404 exactly when the
   * repository returned nothing or itself failed with ErrImagesNotFound, and
   * 500 for any other repository failure.
   */
  lemma ListStatus(reply: Result<seq<ApodImageMetaData>>)
    ensures var r := GetAllImages(AllImages(reply));
            && (r.status == StatusNotFound <==>
                  reply == Success([]) || (reply.Failure? && Is(reply.error, ImagesNotFound)))
            && (r.status == StatusOK <==> reply.Success? && reply.value != [])
  {
  }

  /**
   * An emptied in-memory repository reports its own "images not found" error,
   * which is not ErrImagesNotFound: the list request then answers 500.
   */
  lemma ClearedMemoryRepoListAnswers500()
    ensures GetAllImages(AllImages(Failure(New("images not found"))))
              == WriteErrorResponse(StatusInternalServerError, "Internal Server Error")
  {
  }

  /** A month 13 is refused with 400 and the documented message, whatever the store holds. */
  lemma InvalidMonthAnswers400(reply: Result<ApodImageMetaData>)
    ensures GetImageByDate(ByDate("2024-13-40", reply))
              == WriteErrorResponse(StatusBadRequest, "Invalid date format. Use YYYY-MM-DD.")
  {
    var s := "2024-13-40";
    assert s[5..7] == "13";
    NumberOfTwo("13");
  }
}
