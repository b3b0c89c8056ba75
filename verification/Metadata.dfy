/** Metadata as the transport holds it, as PHP sees it, and as a request carries it. */
module Metadata {
  import opened Base

  /** One entry in iteration order; a value that does not decode is None. */
  datatype Entry = Entry(key: string, value: Option<Bytes>)

  type MetadataMap = seq<Entry>

  datatype Status = Status(code: int, message: string, details: Bytes, metadata: MetadataMap)

  // ---- status details ----

  const DETAILS_KEY := "grpc-status-details-bin"

  function Without(m: MetadataMap, key: string): MetadataMap {
    if m == [] then []
    else if m[0].key == key then Without(m[1..], key)
    else [m[0]] + Without(m[1..], key)
  }

  /** Replace all values of a key by one, in the place of the first, or append it. */
  function InsertBin(m: MetadataMap, key: string, value: Bytes): MetadataMap {
    if m == [] then [Entry(key, Some(value))]
    else if m[0].key == key then [Entry(key, Some(value))] + Without(m[1..], key)
    else [m[0]] + InsertBin(m[1..], key, value)
  }

  /** The metadata of an error status with its details put back. */
  function StatusMetadata(status: Status): MetadataMap {
    if status.details == [] then status.metadata
    else InsertBin(status.metadata, DETAILS_KEY, status.details)
  }
}
