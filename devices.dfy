/**
 * `Device` and the error set that opener.rs and mode.rs use. Both come from
 * a revision of the crate whose lib.rs and error.rs are not part of this
 * model; they are given here only as far as those two files use them.
 */
module Devices {
  import opened Native

  /** The errors opener.rs and mode.rs construct; `Error::unknown(context)`
      carries the context's native diagnostic string. */
  datatype Error =
    | AllocationFailed
    | EnumerationFailed
    | DeviceNotFound
    | AccessFailed
    | ClaimFailed
    | RequestFailed
    | Unknown(diagnostic: string)

  /** An opened device; it owns its native context. */
  class Device {
    var context: Handle

    constructor (context: Handle)
      ensures this.context == context
    {
      this.context := context;
    }

    ghost predicate Valid(lib: Library)
      reads this, lib
    {
      lib.Valid() && !context.Null? && context.addr in lib.live
    }
  }
}
