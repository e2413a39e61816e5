/** Values shared by the browser script, the Express server and the Netlify
    function: optional string fields as JavaScript sees them, the JSON body of a
    waiting-list submission and the result of the outbound request. */
module Common {

  datatype Option<T> = None | Some(value: T)

  /** JavaScript's `!x` on a field that is either absent (`undefined`/`null`) or a string. */
  predicate Falsy(x: Option<string>) {
    x.None? || x.value == []
  }

  /** JavaScript's `a || b` on two such fields: `a` when it is truthy, otherwise `b`. */
  function Or(a: Option<string>, b: Option<string>): (r: Option<string>)
    ensures !Falsy(a) ==> r == a
    ensures Falsy(a) ==> r == b
  {
    if Falsy(a) then b else a
  }

  /** The JSON body of a submission (`type` is a keyword here, hence `formType`). */
  datatype Body = Body(
    formType: Option<string>,
    name: Option<string>,
    email: Option<string>,
    postalCode: Option<string>,
    cleaningDetails: Option<string>,
    canWorkInCanada: Option<string>,
    cleaningExperience: Option<string>)

  /** What the outbound `fetch` to the spreadsheet script came back with:
      a 2xx response, another status, or a rejected promise. */
  datatype Outcome = Ok | NotOk(status: int) | TransportError
}
