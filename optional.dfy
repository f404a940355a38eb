/** The optional value used wherever the player's TypeScript writes `T | null` or `T | undefined`. */
module Optional {

  datatype Option<+T> = None | Some(value: T) {

    /** The value, or `default` when there is none (the `??` operator). */
    function GetOr(default: T): T {
      match this
      case Some(v) => v
      case None => default
    }
  }
}
