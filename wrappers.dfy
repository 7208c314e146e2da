/** Optional values: TypeScript's optional properties (`label?: string`),
    nullable state (`AIResponse | null`) and `undefined` array cells. */
module Wrappers {

  datatype Option<+T> = None | Some(value: T) {

    /** The value, or `default` when absent (TypeScript's `x ?? default`). */
    function GetOr(default: T): T {
      match this
      case Some(v) => v
      case None => default
    }
  }
}
