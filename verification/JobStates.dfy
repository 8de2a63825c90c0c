/** The states of a stored job. */
module JobStates {
  datatype JobState = WaitDependencies | Pending | Enqueued | Started | Done | Cancelled | Failed
}
