/** Values shared by every handler: optional values, JSON documents and the
    tuning constants of constants.py. */
module Common {

  datatype Option<T> = None | Some(value: T)

  /** A JSON value, as the request body decodes to and a response encodes from. */
  datatype Json =
    | JNull
    | JBool(b: bool)
    | JInt(i: int)
    | JFloat(r: real)
    | JStr(s: string)
    | JArray(elems: seq<Json>)
    | JObject(fields: map<string, Json>)

  /** The number of items the list handler returns per request. */
  const NUM_ITEMS_PER_REQUEST: nat := 5

  /** The number of search results fetched per page of the item index. */
  const NUM_ITEMS_PER_PAGE: nat := 50
}
