/** The optional value used for every answer that may be missing: an SNMP
    object that did not answer, a page that could not be fetched, a string
    that is not a number, a device that is not in the registry. */
module Wrappers {

  datatype Option<+T> = None | Some(value: T) {

    /** The value held, or `default` when there is none. */
    function GetOr(default: T): T {
      match this
      case Some(v) => v
      case None => default
    }
  }
}
