/** How a command to Redis or Postgres can fare: it succeeds, fails without effect, or is
    applied although an error is reported. */
module Faults {
  datatype Fault = NoFault | NotApplied | AppliedWithError
}
