/** Small value types shared by every component of the deploy layer. */
module Wrappers {

  datatype Option<+T> = None | Some(value: T)

  datatype Result<+T, +E> = Ok(value: T) | Err(error: E)

  /** One field of a partial update: absent from the change set, or set to a value. */
  datatype Change<+T> = Keep | Set(value: T) {

    function Apply(before: T): T {
      match this
      case Keep => before
      case Set(v) => v
    }
  }

  /** How long the process survives: for ever, or until it has made n durable effects. */
  datatype Lifetime = Immortal | Effects(n: nat)
}
