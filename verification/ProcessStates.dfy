/** The process states of the supervisor.states library, and the two lists of them that
    Supvisors tests. */
module ProcessStates {
  datatype ProcessState = Stopped | Starting | Running | Backoff | Stopping | Exited | Fatal | Unknown

  predicate InRunningStates(s: ProcessState) {
    s.Running? || s.Backoff? || s.Starting?
  }

  predicate InStoppedStates(s: ProcessState) {
    s.Stopped? || s.Exited? || s.Fatal? || s.Unknown?
  }
}
