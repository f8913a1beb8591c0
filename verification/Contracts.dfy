/** The value types that cross the queues: messages, error codes, status events. */
module Contracts {

  datatype Option<+T> = None | Some(value: T)

  /** A call to another service returns normally, or throws after having been applied or not. */
  datatype Reply = Done | Threw(applied: bool)

  datatype Provider = Smtp | Gmail | Outlook

  datatype ErrorCode =
    | ProviderTimeout
    | ProviderRateLimited
    | ProviderUnavailable
    | ProviderAuthFailed
    | InvalidRecipient
    | ProviderRejected
    | Unknown

  /** What a provider adapter throws. `Unexpected` is anything that is neither of the two
      provider error classes. */
  datatype SendError =
    | Transient(code: ErrorCode)
    | Permanent(code: ErrorCode)
    | Unexpected

  /** A queued message. `valid` is false when the body fails JSON or schema validation; the
      other fields then only serve to tell messages apart. */
  datatype Message = Message(job: nat, attempt: nat, provider: Provider, valid: bool)

  datatype Status = Delivered | RetryScheduled | DeadLettered

  datatype StatusEvent = StatusEvent(job: nat, status: Status, attempt: nat, code: Option<ErrorCode>)
}
