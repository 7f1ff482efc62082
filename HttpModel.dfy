/**
 * What an HTTP call gives back to the testers. The network itself is not
 * modelled: each response is an input to the model.
 */
module HttpModel {

  /**
   * The result of `requests.get(...)` as the load testers see it: a response
   * with its status code, or an exception (timeout, refused connection, DNS
   * or TLS failure, ...).
   */
  datatype Response = Status(code: int) | TransportError
}
