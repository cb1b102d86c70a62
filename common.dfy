/** Values shared by every stage of the pipeline: failure wrappers, decoded JSON
    documents and the payload-level field names of the market-data provider. */
module Common {

  datatype Option<+T> = None | Some(value: T)

  datatype Result<+T, +E> = Ok(value: T) | Err(error: E)

  /** A decoded JSON document. Numbers keep their source text: nothing in the
      pipeline's decision rules does arithmetic on them. */
  datatype Json =
    | JNull
    | JBool(b: bool)
    | JNum(text: string)
    | JStr(s: string)
    | JArr(items: seq<Json>)
    | JObj(fields: map<string, Json>)

  /** A provider payload: the top-level JSON object of one response body. */
  type Payload = map<string, Json>

  /** The provider's error signal. */
  const ErrorMessageKey: string := "Error Message"
  /** The provider's rate-limit / informational signal. */
  const NoteKey: string := "Note"
  /** The field holding the daily series, a mapping from date to price bar. */
  const SeriesKey: string := "Time Series (Daily)"
}
