/** The API types the log moves around (package api/v1). Offsets are Go
    `uint64`s; they are unbounded here. */
module Api {

  newtype byte = x: int | 0 <= x < 256

  /** `api.Record`: an opaque value and the offset the log gave it. */
  datatype Record = Record(value: seq<byte>, offset: nat)

  /** `api.ProduceRequest`. */
  datatype ProduceRequest = ProduceRequest(record: Record)
}
