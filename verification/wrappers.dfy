/** Optional values: the model's rendering of TypeScript's optional fields
    (`views?`, `tags?`, `created_at?`, `interests?`) and of `User | null`. */
module Wrappers {

  datatype Option<+T> = None | Some(value: T) {

    /** The wrapped value, or `default` when there is none (the `x || d` idiom). */
    function GetOr(default: T): T {
      match this
      case Some(v) => v
      case None => default
    }
  }
}
