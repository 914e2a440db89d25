/** The service tests' scenarios, run against the in-memory repository. */
module ServiceScenarios {
  import opened Wrappers
  import opened Errors
  import opened Domain
  import opened Decimal
  import opened Calendar
  import opened Store
  import opened Service

  /** The record the tests save: only a date and a title. */
  function TestImage(date: string): ApodImageMetaData {
    ApodImageMetaData(0, "Test", "", date, "", "")
  }

  lemma TestDatesAreFullDates()
    ensures IsFullDate("2023-09-18") && IsFullDate("2023-09-19")
  {
    assert "2023-09-18"[..4] == "2023";
    assert "2023-09-18"[5..7] == "09" && "2023-09-18"[8..] == "18";
    assert "2023-09-19"[..4] == "2023";
    assert "2023-09-19"[5..7] == "09" && "2023-09-19"[8..] == "19";
    NumberOfTwo("09");
    NumberOfTwo("18");
    NumberOfTwo("19");
  }

  /**
   * A saved record is read back equal; a malformed date is ErrInvalidDate;
   * a well-formed date that was never saved is ErrImageNotFound.
   */
  method GetImageByDateScenario() returns (found: Result<ApodImageMetaData>,
                                           invalid: Result<ApodImageMetaData>,
                                           missing: Result<ApodImageMetaData>)
    ensures found == Success(TestImage("2023-09-18"))
    ensures invalid == Failure(ErrInvalidDate)
    ensures missing == Failure(ErrImageNotFound)
  {
    var repo := new MemoryRepo();
    var service := new ApodImagesService(repo);
    var _ := repo.Save(TestImage("2023-09-18"));
    TestDatesAreFullDates();
    found := service.GetImageByDate("2023-09-18");
    invalid := service.GetImageByDate("invalid-date");
    missing := service.GetImageByDate("2023-09-19");
  }

  /**
   * One saved record is listed alone. Once the repository is cleared, the
   * failure is the repository's own "images not found" error passed through:
   * the test's equality check accepts it because the texts agree, yet it is
   * not the service's ErrImagesNotFound value.
   */
  method GetAllImagesScenario() returns (listed: Result<seq<ApodImageMetaData>>,
                                         cleared: Result<seq<ApodImageMetaData>>)
    ensures listed.Success? && |listed.value| == 1 && listed.value[0].date == "2023-09-18"
    ensures cleared == Failure(New("images not found"))
    ensures DeepEqual(cleared.error, ErrImagesNotFound) && !Is(cleared.error, ImagesNotFound)
  {
    var repo := new MemoryRepo();
    var service := new ApodImagesService(repo);
    var _ := repo.Save(TestImage("2023-09-18"));
    listed := service.GetAllImages();
    assert "2023-09-18" in repo.images;
    var i :| 0 <= i < |listed.value| && listed.value[i].date == "2023-09-18";
    repo.Clear();
    cleared := service.GetAllImages();
  }

  /** Ingesting the same payload twice: the first commits, the second is refused and downloads nothing. */
  method IngestTwiceScenario(data: APODResponse, fetch: ImageFetch) returns (first: Option<Error>, second: Option<Error>,
                                                                          secondCalls: seq<Call>)
    requires DownloadImage(data.url, data.date, fetch).Success?
    ensures first == None
    ensures second == Some(AlreadySaved) && secondCalls == [CheckExists(data.date)]
  {
    var repo := new MemoryRepo();
    var service := new ApodImagesService(repo);
    var firstCalls;
    first, firstCalls := service.SaveAPODData(data, fetch);
    second, secondCalls := service.SaveAPODData(data, fetch);
  }
}
