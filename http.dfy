/** The HTTP statuses the handlers use and the shape of their JSON responses. */
module Http {

  const StatusOK: int := 200
  const StatusCreated: int := 201
  const StatusBadRequest: int := 400
  const StatusUnauthorized: int := 401
  const StatusNotFound: int := 404
  const StatusInternalServerError: int := 500

  /** A response body: `{"error": …}`, `{"message": …}`, or an endpoint's own payload. */
  datatype Body<P> = Error(error: string) | Message(message: string) | Payload(payload: P)

  datatype Response<P> = Response(status: int, body: Body<P>)
}
