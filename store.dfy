/**
 * The archive store with the semantics of the in-memory repository the
 * service tests run against: a dictionary from date to record that `Save`
 * writes in place.
 */
module Store {
  import opened Wrappers
  import opened Errors
  import opened Domain

  type Table = map<string, ApodImageMetaData>

  /** Every record is filed under its own date, as `Save` files it. */
  ghost predicate KeyedByDate(images: Table) {
    forall d :: d in images ==> images[d].date == d
  }

  /** `list` holds exactly the stored records, each once, in some order. */
  ghost predicate Enumerates(list: seq<ApodImageMetaData>, images: Table) {
    && |list| == |images|
    && (forall i :: 0 <= i < |list| ==> list[i].date in images && images[list[i].date] == list[i])
    && (forall i, j :: 0 <= i < j < |list| ==> list[i].date != list[j].date)
    && (forall d :: d in images ==> exists i :: 0 <= i < |list| && list[i].date == d)
  }

  /** The repository's answer to a lookup by date. */
  function Lookup(images: Table, date: string): (r: Result<ApodImageMetaData>)
    ensures r.Success? <==> date in images
    ensures r.Success? ==> r.value == images[date]
    ensures r.Failure? ==> r.error == New("image not found")
  {
    if date in images then Success(images[date]) else Failure(New("image not found"))
  }

  class MemoryRepo {
    var images: Table

    ghost predicate Valid()
      reads this
    {
      KeyedByDate(images)
    }

    constructor ()
      ensures images == map[] && Valid()
    {
      images := map[];
    }

    /** Stores `metadata` under its date, replacing any record already there; never fails. */
    method Save(metadata: ApodImageMetaData) returns (err: Option<Error>)
      modifies this
      ensures images == old(images)[metadata.date := metadata]
      ensures old(Valid()) ==> Valid()
      ensures err == None
    {
      images := images[metadata.date := metadata];
      err := None;
    }

    /** Whether a record is filed under `date`; never fails. */
    method ExistsByDate(date: string) returns (found: bool, err: Option<Error>)
      ensures found <==> date in images
      ensures err == None
    {
      found := date in images;
      err := None;
    }

    method GetImageByDate(date: string) returns (r: Result<ApodImageMetaData>)
      ensures r == Lookup(images, date)
    {
      if date in images {
        r := Success(images[date]);
      } else {
        r := Failure(New("image not found"));
      }
    }

    /**
     * All stored records, one per date, in the order the dictionary yields
     * them; an empty store is an error of its own making.
     */
    method GetAllImages() returns (r: Result<seq<ApodImageMetaData>>)
      requires Valid()
      ensures r.Failure? <==> images == map[]
      ensures r.Failure? ==> r.error == New("images not found")
      ensures r.Success? ==> Enumerates(r.value, images)
    {
      if |images| == 0 {
        return Failure(New("images not found"));
      }
      var list: seq<ApodImageMetaData> := [];
      var remaining := images.Keys;
      while remaining != {}
        invariant remaining <= images.Keys
        invariant |list| + |remaining| == |images.Keys|
        invariant forall i :: 0 <= i < |list| ==>
                    list[i].date in images.Keys - remaining && images[list[i].date] == list[i]
        invariant forall i, j :: 0 <= i < j < |list| ==> list[i].date != list[j].date
        invariant forall d :: d in images.Keys - remaining ==>
                    exists i :: 0 <= i < |list| && list[i].date == d
        decreases remaining
      {
        var d :| d in remaining;
        ghost var before, left := list, remaining;
        list := list + [images[d]];
        remaining := remaining - {d};
        forall d' | d' in images.Keys - remaining
          ensures exists i :: 0 <= i < |list| && list[i].date == d'
        {
          if d' == d {
            assert list[|list| - 1].date == d';
          } else {
            assert d' in images.Keys - left;
            var i :| 0 <= i < |before| && before[i].date == d';
            assert list[i].date == d';
          }
        }
      }
      assert images.Keys - remaining == images.Keys;
      assert |images.Keys| == |images|;
      return Success(list);
    }

    /** Empties the store, as the tests do by replacing the dictionary. */
    method Clear()
      modifies this
      ensures images == map[] && Valid()
    {
      images := map[];
    }
  }
}
