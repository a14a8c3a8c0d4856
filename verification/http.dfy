/** The part of an HTTP reply that a route handler decides: a status code and a JSON body. */
module Http {

  /** A reply; the body type `B` is the set of JSON shapes the handler can send. */
  datatype Response<B> = Response(status: nat, body: B)

  const StatusOk: nat := 200
  const StatusBadRequest: nat := 400
  const StatusUnauthorized: nat := 401
  const StatusNotFound: nat := 404
  const StatusServerError: nat := 500
}
