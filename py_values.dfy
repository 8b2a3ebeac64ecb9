/** Python values as the helpers in tavus_utils.py see them once the HTTP
    layer has decoded a JSON body, together with the few pieces of Python's
    semantics the helpers rely on: truthiness, `dict.get`, the emptiness test
    `s.strip()`, and the exceptions the helpers can raise. */
module PyValues {

  datatype Option<T> = None | Some(value: T)

  datatype Result<T, E> = Success(value: T) | Failure(error: E)

  /** A decoded JSON value. Numbers are modelled as integers. */
  datatype Json =
    | JNull
    | JBool(b: bool)
    | JNum(n: int)
    | JStr(s: string)
    | JList(items: seq<Json>)
    | JObj(fields: map<string, Json>)

  /** The exceptions the modelled code can raise. */
  datatype PyError =
    | AttributeError        // `.get` called on something that is not a dict
    | TypeError             // subscript, iteration or `str.join` on a value of the wrong type
    | KeyError              // `d[k]` where `k` is not a key of `d`
    | ValueError            // an argument guard rejected its input
    | HttpError(status: int) // `raise_for_status` on a 4xx or 5xx reply
    | JsonDecodeError       // `response.json()` on a body that is not JSON

  /** Python's `bool(v)`. */
  predicate Truthy(v: Json) {
    match v
    case JNull => false
    case JBool(b) => b
    case JNum(n) => n != 0
    case JStr(s) => s != ""
    case JList(xs) => xs != []
    case JObj(m) => m != map[]
  }

  /** `d.get(k)`: an absent key reads as `None`. */
  function Get(d: map<string, Json>, k: string): Json {
    if k in d then d[k] else JNull
  }

  /** Python's `str.isspace` for one character: the characters of bidirectional
      class WS, B or S, and those of general category Zs. */
  predicate IsSpace(c: char) {
    var n := c as int;
    (0x09 <= n <= 0x0D) || (0x1C <= n <= 0x20) || n == 0x85 || n == 0xA0 ||
    n == 0x1680 || (0x2000 <= n <= 0x200A) || n == 0x2028 || n == 0x2029 ||
    n == 0x202F || n == 0x205F || n == 0x3000
  }

  /** `not s.strip()`: the string holds nothing but whitespace. */
  predicate IsBlank(s: string) {
    forall i :: 0 <= i < |s| ==> IsSpace(s[i])
  }

  /** `isinstance(v, str) and v.strip()`. */
  predicate IsNonBlankString(v: Json) {
    v.JStr? && !IsBlank(v.s)
  }
}
