/** What an event carries, as far as the settle loop reads it. */
module Events {
  import opened Wrappers

  datatype Kind =
    | AuthorityRequired
    | WorkflowCompleted
    | WorkflowObserved
    | WorkflowFailed
    | WorkflowTimedOut
    | WorkflowStopped
    | WorkflowAwaitingAuthority
    | WorkflowAwaitingReview
    | WorkflowBlockedExternal
    | WorkflowNotConverged
    | WorkflowRestorationRefused
    | WorkflowWorkspaceQuarantined
    | Other(name: string)

  // `options` are the ids the payload's decision offers, None when the payload
  // cannot be read as a decision.
  datatype Event = Event(task: string, kind: Kind, options: Option<seq<string>>)
}
