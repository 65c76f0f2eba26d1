/** Vocabulary shared by the durable runtime and the CLI loop: risk tiers,
    run statuses and the run state machine. */
module Domain {

  datatype Option<+T> = None | Some(value: T)

  datatype RiskTier = ReadOnly | LowRiskWrite | SensitiveWrite | Destructive

  /** The tiers at which a human must approve a call before it executes. */
  predicate RequiresApproval(tier: RiskTier) {
    tier.SensitiveWrite? || tier.Destructive?
  }

  /** A call left in `started` by a crash may be run again only under this policy. */
  predicate RetrySafe(tier: RiskTier, idempotent: bool) {
    tier.ReadOnly? || (tier.LowRiskWrite? && idempotent)
  }

  datatype RunStatus =
    | Pending
    | Running
    | WaitingUserInput
    | WaitingApproval
    | Completed
    | Failed
    | Cancelled
    | TimedOut

  predicate Terminal(status: RunStatus) {
    status.Completed? || status.Failed? || status.Cancelled? || status.TimedOut?
  }

  predicate Waiting(status: RunStatus) {
    status.WaitingUserInput? || status.WaitingApproval?
  }

  function AllowedTransitions(status: RunStatus): set<RunStatus> {
    match status
    case Pending => {Running, Cancelled}
    case Running =>
      {Running, WaitingUserInput, WaitingApproval, Completed, Failed, Cancelled, TimedOut}
    case WaitingUserInput => {Running, Cancelled, TimedOut}
    case WaitingApproval => {Running, Cancelled, TimedOut, Failed}
    case Completed => {}
    case Failed => {}
    case Cancelled => {}
    case TimedOut => {}
  }

  /** What `assert_valid_transition` lets through: the table, plus staying put. */
  predicate ValidTransition(current: RunStatus, target: RunStatus) {
    target == current || target in AllowedTransitions(current)
  }

  /** A tool call as the model wrote it; the arguments are JSON text. */
  datatype Call = Call(id: string, name: string, arguments: string)

  function Max(a: int, b: int): int {
    if a < b then b else a
  }
}
