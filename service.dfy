/**
 * The APOD images service: the ingestion transaction (check, download,
 * insert) and the read path with its error taxonomy.
 */
module Service {
  import opened Wrappers
  import opened Errors
  import opened Domain
  import opened Decimal
  import opened Calendar
  import opened Store

  const StorageDir: string := "./storage/apod"

  /** Where the image of `date` is written: the storage directory joined with "<date>.jpg". */
  function ImagePath(date: string): (path: string)
    ensures |path| == |StorageDir| + |date| + 5
    ensures path[..|StorageDir| + 1] == StorageDir + "/"
    ensures path[|path| - 4..] == ".jpg"
  {
    StorageDir + "/" + date + ".jpg"
  }

  /** Two dates never share an image file. */
  lemma ImagePathInjective(a: string, b: string)
    requires ImagePath(a) == ImagePath(b)
    ensures a == b
  {
    var n := |StorageDir| + 1;
    assert ImagePath(a)[n..|ImagePath(a)| - 4] == a;
    assert ImagePath(b)[n..|ImagePath(b)| - 4] == b;
  }

  /**
   * A full-date holds no '/' and no '.', so the path cleaning that
   * `filepath.Join` applies leaves the date part of its image path as it is.
   */
  lemma FullDateHasNoPathSyntax(date: string)
    requires IsFullDate(date)
    ensures forall i :: 0 <= i < |date| ==> date[i] != '/' && date[i] != '.'
  {
    forall i | 0 <= i < |date|
      ensures date[i] != '/' && date[i] != '.'
    {
      if i < 4 { assert IsDigit(date[..4][i]); }
      else if 5 <= i < 7 { assert IsDigit(date[5..7][i - 5]); }
      else if 8 <= i { assert IsDigit(date[8..][i - 8]); }
    }
  }

  /**
   * What the I/O of one image download reports, step by step: the GET's
   * transport error, the response status, and the errors of creating the
   * directory, creating the file and copying the body into it.
   */
  datatype ImageFetch = ImageFetch(
    getErr: Option<Error>,
    status: int,
    mkdirErr: Option<Error>,
    createErr: Option<Error>,
    copyErr: Option<Error>)

  /** The download of the image at `url` for `date`: the file path on success. */
  function DownloadImage(url: string, date: string, fetch: ImageFetch): (r: Result<string>)
    ensures r.Success? <==>
              && fetch.getErr.None? && fetch.status == 200
              && fetch.mkdirErr.None? && fetch.createErr.None? && fetch.copyErr.None?
    ensures r.Success? ==> r.value == ImagePath(date)
    ensures fetch.getErr.None? && fetch.status != 200 ==>
              r == Failure(New("received non-200 response code while downloading image: " + FormatInt(fetch.status)))
  {
    if fetch.getErr.Some? then
      Failure(Wrapped("failed to download image from " + url, fetch.getErr.value))
    else if fetch.status != 200 then
      Failure(New("received non-200 response code while downloading image: " + FormatInt(fetch.status)))
    else if fetch.mkdirErr.Some? then
      Failure(Wrapped("failed to create storage directory", fetch.mkdirErr.value))
    else if fetch.createErr.Some? then
      Failure(Wrapped("failed to create image file", fetch.createErr.value))
    else if fetch.copyErr.Some? then
      Failure(Wrapped("failed to save image to file", fetch.copyErr.value))
    else
      Success(ImagePath(date))
  }

  /** The record saved for a payload: the payload's fields, the image path, and an id left at zero. */
  function Metadata(data: APODResponse, path: string): (m: ApodImageMetaData)
    ensures m.id == 0 && m.date == data.date && m.localStorageImagePath == path
    ensures m.title == data.title && m.explanation == data.explanation && m.copyright == data.copyright
  {
    ApodImageMetaData(0, data.title, data.explanation, data.date, data.copyright, path)
  }

  /**
   * The errors a repository reports, for repositories that can fail: the
   * answer of ExistsByDate and of Save. The in-memory repository reports
   * neither.
   */
  datatype StoreFaults = StoreFaults(onExists: Option<Error>, onSave: Option<Error>)

  const NoFaults: StoreFaults := StoreFaults(None, None)

  /** The operations on the repository and the network that an ingestion performs, in order. */
  datatype Call =
    | CheckExists(date: string)
    | Download(url: string, date: string)
    | Insert(record: ApodImageMetaData)

  datatype Ingestion = Ingestion(images: Table, err: Option<Error>, calls: seq<Call>)

  const AlreadySaved: Error := New("APOD for today was already saved")

  /** The outcome of saving a full ingestion of `data` into `images`. */
  ghost predicate Committed(images: Table, data: APODResponse, r: Ingestion) {
    && r.err == None
    && r.images == images[data.date := Metadata(data, ImagePath(data.date))]
  }

  /**
   * SaveAPODData against a repository holding `images`: check the date,
   * download, insert. Every failure leaves the store as it was.
   */
  function Ingest(images: Table, data: APODResponse, faults: StoreFaults, fetch: ImageFetch): (r: Ingestion)
    ensures r.err.None? ==>
              && Committed(images, data, r)
              && r.calls == [CheckExists(data.date), Download(data.url, data.date),
                             Insert(Metadata(data, ImagePath(data.date)))]
    ensures r.err.Some? ==> r.images == images
    ensures |r.calls| >= 1 && r.calls[0] == CheckExists(data.date)
    ensures faults.onExists.Some? ==>
              && r.err == Some(Wrapped("failed to check if APOD data exists", faults.onExists.value))
              && r.calls == [CheckExists(data.date)]
    ensures faults.onExists.None? && data.date in images ==>
              r.err == Some(AlreadySaved) && r.calls == [CheckExists(data.date)]
    ensures faults.onExists.None? && data.date !in images && DownloadImage(data.url, data.date, fetch).Failure? ==>
              && r.err == Some(Wrapped("failed to download image", DownloadImage(data.url, data.date, fetch).error))
              && r.calls == [CheckExists(data.date), Download(data.url, data.date)]
    ensures faults.onExists.None? && data.date !in images && DownloadImage(data.url, data.date, fetch).Success? ==>
              && r.calls == [CheckExists(data.date), Download(data.url, data.date),
                             Insert(Metadata(data, ImagePath(data.date)))]
              && (faults.onSave.Some? ==> r.err == faults.onSave)
              && (faults.onSave.None? ==> Committed(images, data, r))
    ensures forall i :: 0 <= i < |r.calls| && r.calls[i].Insert? ==>
              && i == 2
              && DownloadImage(data.url, data.date, fetch).Success?
              && r.calls[i].record == Metadata(data, ImagePath(data.date))
    ensures forall d :: d in images ==> d in r.images && r.images[d] == images[d]
  {
    var check := CheckExists(data.date);
    if faults.onExists.Some? then
      Ingestion(images, Some(Wrapped("failed to check if APOD data exists", faults.onExists.value)), [check])
    else if data.date in images then
      Ingestion(images, Some(AlreadySaved), [check])
    else
      var download := Download(data.url, data.date);
      match DownloadImage(data.url, data.date, fetch)
      case Failure(e) =>
        Ingestion(images, Some(Wrapped("failed to download image", e)), [check, download])
      case Success(path) =>
        var record := Metadata(data, path);
        if faults.onSave.Some? then
          Ingestion(images, faults.onSave, [check, download, Insert(record)])
        else
          Ingestion(images[data.date := record], None, [check, download, Insert(record)])
  }

  /**
   * `GetImageByDate`'s handling of a date and of the repository's answer for
   * it: a malformed date is refused whatever the repository would say, and
   * every repository error becomes ErrImageNotFound.
   */
  function ByDate(date: string, reply: Result<ApodImageMetaData>): (r: Result<ApodImageMetaData>)
    ensures r == Failure(ErrInvalidDate) <==> !IsFullDate(date)
    ensures r.Failure? ==> r.error == ErrInvalidDate || r.error == ErrImageNotFound
    ensures r.Success? ==> r == reply
    ensures IsFullDate(date) && reply.Success? ==> r == reply
    ensures IsFullDate(date) && reply.Failure? ==> r == Failure(ErrImageNotFound)
  {
    ParseDateIsFullDate(date);
    if ParseDate(date).None? then Failure(ErrInvalidDate)
    else if reply.Failure? then Failure(ErrImageNotFound)
    else reply
  }

  /**
   * `GetAllImages`'s handling of the repository's answer: errors pass through
   * untouched, an empty list becomes ErrImagesNotFound, anything else is
   * returned as it is.
   */
  function AllImages(reply: Result<seq<ApodImageMetaData>>): (r: Result<seq<ApodImageMetaData>>)
    ensures reply.Failure? ==> r == reply
    ensures reply.Success? && |reply.value| > 0 ==> r == reply
    ensures r.Success? ==> |r.value| > 0
    ensures r == Failure(ErrImagesNotFound) <==> reply == Success([]) || reply == Failure(ErrImagesNotFound)
  {
    if reply.Failure? then reply
    else if |reply.value| == 0 then Failure(ErrImagesNotFound)
    else reply
  }

  class ApodImagesService {
    const repository: MemoryRepo

    constructor (repository: MemoryRepo)
      ensures this.repository == repository
    {
      this.repository := repository;
    }

    /**
     * Ingests one payload into the repository: an error, and no change to
     * the store, unless the date is new and the image download succeeds.
     */
    method SaveAPODData(data: APODResponse, fetch: ImageFetch) returns (err: Option<Error>, calls: seq<Call>)
      modifies repository
      ensures Ingestion(repository.images, err, calls) == Ingest(old(repository.images), data, NoFaults, fetch)
      ensures old(repository.Valid()) ==> repository.Valid()
    {
      // The in-memory repository never reports an error from ExistsByDate or Save.
      var found, _ := repository.ExistsByDate(data.date);
      calls := [CheckExists(data.date)];
      if found {
        return Some(AlreadySaved), calls;
      }
      var path := DownloadImage(data.url, data.date, fetch);
      calls := calls + [Download(data.url, data.date)];
      if path.Failure? {
        return Some(Wrapped("failed to download image", path.error)), calls;
      }
      var metadata := Metadata(data, path.value);
      var _ := repository.Save(metadata);
      calls := calls + [Insert(metadata)];
      err := None;
    }

    method GetImageByDate(date: string) returns (r: Result<ApodImageMetaData>)
      ensures !IsFullDate(date) ==> r == Failure(ErrInvalidDate)
      ensures IsFullDate(date) && date in repository.images ==> r == Success(repository.images[date])
      ensures IsFullDate(date) && date !in repository.images ==> r == Failure(ErrImageNotFound)
    {
      ParseDateIsFullDate(date);
      if ParseDate(date).None? {
        return Failure(ErrInvalidDate);
      }
      var reply := repository.GetImageByDate(date);
      r := ByDate(date, reply);
    }

    method GetAllImages() returns (r: Result<seq<ApodImageMetaData>>)
      requires repository.Valid()
      ensures repository.images == map[] ==> r == Failure(New("images not found"))
      ensures repository.images != map[] ==> r.Success? && Enumerates(r.value, repository.images)
    {
      var reply := repository.GetAllImages();
      r := AllImages(reply);
    }
  }

  /** A second ingestion of a date that was committed changes nothing, downloads nothing, and fails. */
  lemma SecondIngestIsNoOp(images: Table, data: APODResponse, faults1: StoreFaults, fetch1: ImageFetch,
                           faults2: StoreFaults, fetch2: ImageFetch)
    requires Ingest(images, data, faults1, fetch1).err.None?
    ensures var once := Ingest(images, data, faults1, fetch1);
            var twice := Ingest(once.images, data, faults2, fetch2);
            && twice.images == once.images
            && twice.err.Some?
            && twice.calls == [CheckExists(data.date)]
  {
  }

  /** Ingestion keeps every record filed under its own date: at most one record per date, the right one. */
  lemma IngestKeepsKeyedByDate(images: Table, data: APODResponse, faults: StoreFaults, fetch: ImageFetch)
    requires KeyedByDate(images)
    ensures KeyedByDate(Ingest(images, data, faults, fetch).images)
  {
  }

  /** After a committed ingestion of a well-formed date, reading that date back gives the saved record. */
  lemma IngestThenRead(images: Table, data: APODResponse, faults: StoreFaults, fetch: ImageFetch)
    requires IsFullDate(data.date)
    requires Ingest(images, data, faults, fetch).err.None?
    ensures var r := Ingest(images, data, faults, fetch);
            ByDate(data.date, Lookup(r.images, data.date)) == Success(Metadata(data, ImagePath(data.date)))
  {
  }
}
