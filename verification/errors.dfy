/** The classifier's failures and the `Required` helper that turns an absent value into one. */
module Errors {
  import opened Wrappers

  /** What can stop a classification.
      - `MissingField(f)`: a required value is absent or has the wrong type; its message reads
        "failed to parse f". The `DANMU_MSG` check for a null common-data slot fails with the
        very same text, so it is `MissingField("common data")` here.
      - `DecodeFailure`: base64 or protobuf decoding of an `INTERACT_WORD_V2` payload failed.
      - `UnknownInteractType`: an `INTERACT_WORD_V2` sub-code outside 1, 2 and 3. */
  datatype Error =
    | MissingField(field: string)
    | DecodeFailure
    | UnknownInteractType

  /** `Option::required(field)`: succeeds exactly when the value is present, keeping it, and
      otherwise reports the field by name. */
  function Required<T>(o: Option<T>, field: string): (r: Result<T, Error>)
    ensures r.Success? <==> o.Some?
    ensures r.Success? ==> r.value == o.value
    ensures r.Failure? ==> r.error == MissingField(field)
  {
    match o
    case Some(v) => Success(v)
    case None => Failure(MissingField(field))
  }
}
