/** How a request that changes stored data ends. */
module Outcomes {
  /** Recorded, not recorded, or recorded although it reported an error. */
  datatype Outcome = Stored | Lost | StoredButFailed
}
