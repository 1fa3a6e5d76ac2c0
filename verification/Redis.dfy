/** How a command sent to Redis can end, as its caller sees it. */
module Redis {
  // Answered; applied but reported as failed; not applied.
  datatype Ack = Answered | Lost | Failed
}
