/** The optional value used for the server's optional fields and arguments
    (`schema?: GraphQLSchema`, `options?: GraphQLServerOptions`, ...). */
module Wrappers {

  datatype Option<+T> = None | Some(value: T) {

    /** The wrapped value, or `default` when absent (the source's `x || default`). */
    function GetOr(default: T): T {
      match this
      case Some(v) => v
      case None => default
    }
  }
}
