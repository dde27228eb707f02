/** The shape every async thunk of the store shares: an HTTP request that
    either answers or fails, and a settled action that is fulfilled with a
    payload or rejected with `error.response?.data?.message || <fallback>`. */
module Thunks {

  import opened Js

  /** The outcome of an HTTP request: the response body, or the failure with
      its `error.response` (undefined when there was no response at all). */
  datatype Http = Ok(data: Value) | HttpError(response: Value)

  /** A settled thunk: its `fulfilled` or its `rejected` action. */
  datatype Settled<T> = Fulfilled(payload: T) | Rejected(reason: Value)

  /** `error.response?.data?.message || fallback`. */
  function RejectionMessage(response: Value, fallback: string): (r: Value)
    ensures fallback != "" ==> Truthy(r)
    ensures Truthy(Get(Get(response, "data"), "message")) ==> r == Get(Get(response, "data"), "message")
    ensures !Truthy(Get(Get(response, "data"), "message")) ==> r == Str(fallback)
  {
    Or(Get(Get(response, "data"), "message"), Str(fallback))
  }

  /** A thunk whose body is `return response.data`. */
  function ReturnData(http: Http, fallback: string): (r: Settled<Value>)
    ensures http.Ok? <==> r.Fulfilled?
    ensures http.Ok? ==> r.payload == http.data
    ensures http.HttpError? ==> r.reason == RejectionMessage(http.response, fallback)
  {
    match http
    case Ok(data) => Fulfilled(data)
    case HttpError(response) => Rejected(RejectionMessage(response, fallback))
  }

  /** A thunk that resolves to its argument once the request succeeds
      (`deleteCourier`, `cancelBooking`, `deleteUser`). */
  function ReturnArgument(http: Http, argument: Value, fallback: string): (r: Settled<Value>)
    ensures http.Ok? <==> r.Fulfilled?
    ensures http.Ok? ==> r.payload == argument
    ensures http.HttpError? ==> r.reason == RejectionMessage(http.response, fallback)
  {
    match http
    case Ok(_) => Fulfilled(argument)
    case HttpError(response) => Rejected(RejectionMessage(response, fallback))
  }
}
