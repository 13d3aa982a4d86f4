/** Outcome codes shared by every test handler of the suite. */
module Tnf {

  /** The classification a handler reports once its interaction is over. */
  datatype Code = Success | Failure | Error
}
