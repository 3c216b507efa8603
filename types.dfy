/** Values shared by every part of the streaming client model. */
module Types {

  /** An optional value; Go's `nil` error is `None`. Usable with `:-`. */
  datatype Option<+T> = None | Some(value: T) {
    predicate IsFailure() {
      None?
    }

    function PropagateFailure<U>(): Option<U>
      requires None?
    {
      None
    }

    function Extract(): T
      requires Some?
    {
      value
    }
  }

  /** A byte of an inbound websocket message. */
  newtype byte = x: int | 0 <= x < 256

  /**
   * The errors the client produces or passes on. Go's sentinel error values
   * become constructors; `errors.Wrap(cause, context)` becomes `Wrapped`.
   */
  datatype Error =
    | Opaque(description: string)              // an error from code outside the model (transport, handler)
    | Wrapped(context: string, cause: Error)   // errors.Wrap / errors.Wrapf
    | ErrDepth                                 // orderbook depth out of range
    | ErrForbidden                             // "invalid token"
    | ErrUnauthorized                          // "token not provided"
    | ErrCloseSent                             // websocket.ErrCloseSent
    | NetError(temporary: bool, description: string)  // a value implementing net.Error
}
