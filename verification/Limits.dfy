/** The limit that the poller and the forwarder share. */
module Limits {

  /** How many requests in a row may fail before a signalling goroutine gives up. */
  const MAX_CONSECUTIVE_ERRORS := 10
}
