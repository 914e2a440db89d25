/** The archive record and the upstream payload. */
module Domain {

  /** One archived picture: a row of the store, filed under its `date`. */
  datatype ApodImageMetaData = ApodImageMetaData(
    id: int,
    title: string,
    explanation: string,
    date: string,
    copyright: string,
    localStorageImagePath: string)

  /** The decoded JSON answer of the upstream API: the fields the service reads. */
  datatype APODResponse = APODResponse(
    title: string,
    explanation: string,
    date: string,
    copyright: string,
    url: string)
}
