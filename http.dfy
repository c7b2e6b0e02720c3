/**
 * The JSON reply envelope every endpoint answers with (`success`, `message`, `errors`,
 * `count`, `total`, `page`, `pages`, `data`), the JSON values that an external
 * service may send back, and JavaScript's truthiness on them.
 */
module Http {
  import opened Wrappers

  /** A JSON value as `response.json()` produces it (numbers restricted to integers). */
  datatype Json =
    | JNull
    | JBool(b: bool)
    | JNum(n: int)
    | JStr(s: string)
    | JArr(items: seq<Json>)
    | JObj(fields: seq<(string, Json)>)

  /** JavaScript truthiness: `null`, `false`, `0` and `""` are falsy, arrays and objects are not. */
  predicate Truthy(j: Json) {
    match j
    case JNull => false
    case JBool(b) => b
    case JNum(n) => n != 0
    case JStr(s) => s != []
    case JArr(_) => true
    case JObj(_) => true
  }

  /** JavaScript truthiness of a string: not empty. */
  predicate NonEmpty(s: string) {
    s != []
  }

  /** A string that may be missing, tested as `if (x)`: present and not empty. */
  predicate TruthyText(v: Option<string>) {
    v.Some? && NonEmpty(v.value)
  }

  /**
   * `x || fallback` for a property `x` that may be missing, where `truthy` is
   * JavaScript's truthiness on the values `x` can take.
   */
  function OrElse<T>(x: Option<T>, truthy: T -> bool, fallback: T): (r: T)
    ensures x.Some? && truthy(x.value) ==> r == x.value
    ensures !(x.Some? && truthy(x.value)) ==> r == fallback
  {
    if x.Some? && truthy(x.value) then x.value else fallback
  }

  /** The HTTP status and JSON body of a reply; absent keys are `None`. */
  datatype Reply<D> = Reply(
    status: nat,
    success: bool,
    message: Option<string>,
    errors: Option<seq<string>>,
    count: Option<Json>,
    total: Option<nat>,
    page: Option<int>,
    pages: Option<Json>,
    data: Option<D>)

  /** `{ success: false, message }` with the given status. */
  function Failure<D>(status: nat, message: string): Reply<D> {
    Reply(status, false, Some(message), None, None, None, None, None, None)
  }

  /** `{ success: true, message?, data }` with the given status. */
  function Success<D>(status: nat, message: Option<string>, data: D): Reply<D> {
    Reply(status, true, message, None, None, None, None, None, Some(data))
  }

  /** `{ success: true, message }` with the given status and no data. */
  function Notice<D>(status: nat, message: string): Reply<D> {
    Reply(status, true, Some(message), None, None, None, None, None, None)
  }

  /** What a middleware does: call `next()` or answer the request itself. */
  datatype Gate<D> = Next | Halt(reply: Reply<D>)
}
