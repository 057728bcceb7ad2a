/** Run states, their transition table, and the technical-retry rule (domain.py, workflow.py). */
module Domain {
  import opened Prelude

  datatype Direction = ChinaToUk | UkToChina

  datatype Status =
    | Pending
    | InProgress
    | AwaitingBrandLock
    | Blocked
    | Completed
    | Failed
    | Ready
    | FailedRetryable
    | FailedFinal

  function AllowedTransitions(status: Status): set<Status> {
    match status
    case Pending => {InProgress, Blocked, Failed}
    case InProgress =>
      {AwaitingBrandLock, Blocked, Completed, Failed, Ready, FailedRetryable, FailedFinal}
    case AwaitingBrandLock => {InProgress, Failed}
    case Blocked => {InProgress, Failed}
    case Completed => {}
    case Failed => {}
    case Ready => {InProgress}
    case FailedRetryable => {InProgress}
    case FailedFinal => {}
  }

  const MAX_WARNING_CODES := 32

  datatype ProjectRun = ProjectRun(
    direction: Direction,
    status: Status,
    warningCodes: seq<string>,
    createdAt: int
  ) {
    predicate Valid() {
      |warningCodes| <= MAX_WARNING_CODES && Unique(warningCodes)
    }

    /** The run with a new status, or None where the table refuses the transition. */
    function WithStatus(next: Status): Option<ProjectRun> {
      if next in AllowedTransitions(status) then Some(this.(status := next)) else None
    }
  }

  datatype RetryCondition =
    | ConnectionBeforeAcceptance
    | AcceptedWithCallId
    | AcceptanceUnknown
    | InvalidSchema
    | SafetyRefusal
    | BrandLockFailure
    | CulturalAmbiguity

  datatype RetryAction =
    | RetryOnce
    | PollExisting
    | RequireExplicitAcknowledgement
    | RepairOnce
    | DoNotRetry
    | RecomposeSameLayersOnce
    | RequireHumanReview

  datatype RetryDecision = RetryDecision(action: RetryAction, nextStatus: Status)

  const MAX_CALL_ID_LENGTH := 128

  /** The actions after which the same operation may be executed a second time. */
  const RETRYING_ACTIONS: set<RetryAction> := {RetryOnce, RepairOnce, RecomposeSameLayersOnce}

  /** None models the raised ValueError. */
  function DecideRetry(condition: RetryCondition, attemptCount: int, callId: Option<string>):
    Option<RetryDecision>
  {
    if attemptCount < 0 then None
    else match condition
      case AcceptedWithCallId =>
        if callId.None? || |callId.value| == 0 || |callId.value| > MAX_CALL_ID_LENGTH then None
        else Some(RetryDecision(PollExisting, InProgress))
      case ConnectionBeforeAcceptance =>
        if attemptCount >= 1 then Some(RetryDecision(DoNotRetry, FailedFinal))
        else Some(RetryDecision(RetryOnce, InProgress))
      case BrandLockFailure =>
        if attemptCount >= 1 then Some(RetryDecision(DoNotRetry, FailedFinal))
        else Some(RetryDecision(RecomposeSameLayersOnce, InProgress))
      case InvalidSchema =>
        if attemptCount >= 1 then Some(RetryDecision(DoNotRetry, FailedFinal))
        else Some(RetryDecision(RepairOnce, InProgress))
      case AcceptanceUnknown => Some(RetryDecision(RequireExplicitAcknowledgement, FailedRetryable))
      case CulturalAmbiguity => Some(RetryDecision(RequireHumanReview, Ready))
      case SafetyRefusal => Some(RetryDecision(DoNotRetry, FailedFinal))
  }
}
