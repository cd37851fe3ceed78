/** Decoded JSON values as the music API's responses hold them, and the two
    Python operations the exporters apply to them: subscripting (`j[key]`,
    `j[0]`), with the exception each one raises when it fails. */
module Json {

  datatype Json =
    | JNull
    | JBool(b: bool)
    | JInt(i: int)
    | JStr(s: string)
    | JArr(elems: seq<Json>)
    | JObj(fields: map<string, Json>)

  /** The exceptions that end an export. */
  datatype Error =
    | KeyError(key: Json)           // a dict subscripted with a key it does not hold
    | IndexError                    // a list or str subscripted past its end
    | TypeError                     // a value that does not support the subscript or iteration
    | ConnectionError(url: string)  // the server gave no response for this URL
    | InvalidUrl                    // a `next` value that is not a string handed to the HTTP client

  datatype Result<+T> = Ok(value: T) | Err(error: Error) {
    predicate IsFailure() { Err? }

    function PropagateFailure<U>(): Result<U>
      requires Err?
    {
      Err(error)
    }

    function Extract(): T
      requires Ok?
    {
      value
    }
  }

  /** True when `j[key]` succeeds. */
  predicate HasField(j: Json, key: string) {
    j.JObj? && key in j.fields
  }

  /** Python's `j[key]` for a str key: only a dict holding the key answers. */
  function Get(j: Json, key: string): Result<Json> {
    match j
    case JObj(fields) => if key in fields then Ok(fields[key]) else Err(KeyError(JStr(key)))
    case _ => Err(TypeError)
  }

  /** Python's `j[0]`: a list or str gives its first element (a str's first
      element is a one-character str); a dict, whose keys are all strings
      here, has no key 0. */
  function First(j: Json): Result<Json> {
    match j
    case JArr(elems) => if |elems| > 0 then Ok(elems[0]) else Err(IndexError)
    case JStr(s) => if |s| > 0 then Ok(JStr([s[0]])) else Err(IndexError)
    case JObj(_) => Err(KeyError(JInt(0)))
    case _ => Err(TypeError)
  }
}
