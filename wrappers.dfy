/** Option, the model of a JavaScript value that may be `undefined` or `null`. */
module Wrappers {

  datatype Option<+T> = None | Some(value: T) {

    /** The wrapped value, or `default` when there is none. */
    function GetOr(default: T): T {
      match this
      case Some(v) => v
      case None => default
    }
  }
}

/** What the API helpers see of their environment and of the network: the two environment
    values (`NEXT_PUBLIC_API_URL`, `NEXT_PUBLIC_PROJECT_ID`), the outcome of a `fetch`, and
    the decoded JSON body. */
module Api {
  import opened Wrappers

  /** An unset variable is the empty string: both are falsy. */
  datatype Config = Config(apiUrl: string, projectId: string) {

    /** `apiUrl && projectId` */
    predicate Present() {
      apiUrl != "" && projectId != ""
    }
  }

  /** The outcome of `fetch` followed by `response.json()`: an exception (network failure or
      a body that is not JSON), a response whose `ok` is false, or a decoded body. */
  datatype Response<T> = Threw | NotOk(status: int) | Ok(body: T)

  /** A decoded JSON value, as far as the API helpers look into it: records `R` are the objects
      the helpers map, and an object may carry a nested `data` member. An array element is
      `None` when it is `null` or `undefined`; any other element reads as a record. */
  datatype Json<R> =
    | JUndefined
    | JNull
    | JFalsy                          // false, 0 or ""
    | JScalar                         // true, a non-zero number or a non-empty string
    | JArray(elements: seq<Option<R>>)
    | JObject(record: R, data: Json<R>)
  {
    /** JavaScript truthiness. */
    predicate Truthy() {
      !(JUndefined? || JNull? || JFalsy?)
    }

    /** `this.data`: `None` when reading a member of `null` or `undefined` throws. */
    function Member(): (m: Option<Json<R>>)
      ensures m.None? <==> JUndefined? || JNull?
    {
      match this
      case JUndefined => None
      case JNull => None
      case JObject(_, d) => Some(d)
      case _ => Some(JUndefined)
    }

    /** `this?.data` */
    function OptionalMember(): Json<R> {
      match Member()
      case None => JUndefined
      case Some(d) => d
    }
  }

  /** No element is `null` or `undefined`, so reading a member of each one does not throw. */
  predicate NoNullElement<R>(es: seq<Option<R>>) {
    forall i :: 0 <= i < |es| ==> es[i].Some?
  }
}
