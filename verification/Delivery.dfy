/** The worker delivery protocol as a state machine. Every `await` of the worker is one step;
    between any two steps any other worker, the broker or a fault may act. */
module Delivery {
  import opened Contracts
  import opened RetryPolicy

  /******* Broker *******/

  datatype Queue = Main | Tier(tier: nat) | Dead

  /** Where a broker copy is: in a queue, delivered and unacknowledged, or acknowledged. */
  datatype Place = Queued(queue: Queue) | Held(holder: nat) | Acked

  datatype Copy = Copy(msg: Message, place: Place)

  /******* Ledger *******/

  datatype Outcome = Pending | Delivered | Failed

  type Key = (nat, nat)

  function KeyOf(msg: Message): Key { (msg.job, msg.attempt) }

  /** The row of a message is open while a delivery of it may still be reserved. */
  predicate OpenRow(row: Option<Outcome>) { row == None || row == Some(Pending) }

  /******* Workers *******/

  const RATE_LIMIT_DEFER_TIER := 1
  const BREAKER_DEFER_TIER := 2

  /** What the handler of one delivery will do next. */
  datatype Stage =
    | Taken                                             // before the rate limiter is asked
    | Rejecting                                         // invalid body, before the dead-letter publish
    | Deferring(tier: nat)                              // before the publish to a retry tier
    | Inserting                                         // before INSERT .. ON CONFLICT DO NOTHING
    | Checking                                          // row existed, before the SELECT
    | Sending                                           // reserved, before provider.send
    | Confirming                                        // mail accepted, before complete(DELIVERED)
    | Failing(decision: FailureDecision, code: ErrorCode) // before complete(FAILED)
    | Handing(decision: FailureDecision, code: ErrorCode) // row FAILED, before the successor publish
    | Announcing(event: StatusEvent)                    // before the status publish
    | Settling(ack: bool)                               // before ack or nack with requeue
    | Gone

  function FirstStage(msg: Message): Stage { if msg.valid then Taken else Rejecting }

  /** One activation of the consumer's handler. It is attached while the broker still counts the
      copy as delivered to it; a handler that outlives its connection runs on detached. */
  datatype Holder = Holder(msg: Message, copy: nat, stage: Stage, attached: bool)

  /******* What the environment decides at each step *******/

  /** `mailed` marks an error reported for a mail that the server accepted all the same. */
  datatype SendResult = Accepted | Refused(error: SendError, mailed: bool)

  datatype Action =
    | Admit(allowed: bool, breakerOpen: bool)
    | AdmitThrew
    | Publish(reply: Reply)
    | Insert(reply: Reply)
    | Select(ok: bool)
    | Send(result: SendResult)
    | Complete(reply: Reply)
    | Settle
    | Crash    // the worker process dies
    | Detach   // the connection is lost, the handler keeps running

  /** What a step means for the accounts of its job. `Split`: a fault puts a copy back in play beside
      work already done or still running. `Redone`: a fault returns an attempt whose send call was
      spent. `Stranded`: a fault hits a handler between its FAILED row and the successor publish. */
  datatype Mark = Nothing | Called(result: SendResult) | Split | Redone | Stranded {
    function Calls(): nat { if Called? then 1 else 0 }

    function Mails(): nat { if Called? && (result.Accepted? || result.mailed) then 1 else 0 }

    function Splits(): nat { if Split? || (Called? && result.Refused? && result.mailed) then 1 else 0 }

    function Redoes(): nat {
      if Redone? || (Called? && result.Refused? && result.error.Unexpected? && !result.mailed) then 1 else 0
    }

    function Strands(): nat { if Stranded? then 1 else 0 }
  }

  /** What has happened to each job, counted: send calls made, mails the server accepted, and faults. */
  datatype Accounts = Accounts(
    calls: map<nat, nat>, mails: map<nat, nat>, splits: map<nat, nat>, redoes: map<nat, nat>, strands: map<nat, nat>)

  function Count(counts: map<nat, nat>, job: nat): nat { if job in counts then counts[job] else 0 }

  function Add(counts: map<nat, nat>, job: nat, n: nat): map<nat, nat> { counts[job := Count(counts, job) + n] }

  function Post(a: Accounts, job: nat, m: Mark): Accounts {
    Accounts(Add(a.calls, job, m.Calls()), Add(a.mails, job, m.Mails()), Add(a.splits, job, m.Splits()),
             Add(a.redoes, job, m.Redoes()), Add(a.strands, job, m.Strands()))
  }

  /** `issued`, `buried`, `written` and `submitted` are histories: messages ever put on the main
      queue or a tier, messages ever put on the dead-letter queue, ledger outcomes ever written,
      and the first message of each job. */
  datatype State = State(
    copies: seq<Copy>,
    holders: seq<Holder>,
    ledger: map<Key, Outcome>,
    events: set<StatusEvent>,
    submitted: map<nat, Message>,
    issued: set<Message>,
    buried: set<Message>,
    written: set<(Key, Outcome)>,
    accounts: Accounts)

  function Initial(): State {
    State([], [], map[], {}, map[], {}, {}, {}, Accounts(map[], map[], map[], map[], map[]))
  }

  function RowIn(ledger: map<Key, Outcome>, msg: Message): Option<Outcome> {
    if KeyOf(msg) in ledger then Some(ledger[KeyOf(msg)]) else None
  }

  predicate OpenIn(ledger: map<Key, Outcome>, msg: Message) { OpenRow(RowIn(ledger, msg)) }

  function Row(s: State, msg: Message): Option<Outcome> { RowIn(s.ledger, msg) }

  function Calls(s: State, job: nat): nat { Count(s.accounts.calls, job) }

  function Mails(s: State, job: nat): nat { Count(s.accounts.mails, job) }

  function Splits(s: State, job: nat): nat { Count(s.accounts.splits, job) }

  function Redoes(s: State, job: nat): nat { Count(s.accounts.redoes, job) }

  function Strands(s: State, job: nat): nat { Count(s.accounts.strands, job) }

  /******* One step of a handler *******/

  /** Everything one step of a handler changes. */
  datatype Effect = Effect(
    stage: Stage,
    attached: bool,
    release: Option<Place>,
    write: Option<Outcome>,
    publish: Option<Copy>,
    event: Option<StatusEvent>,
    mark: Mark)

  /** The row a handler's own message has after its step. */
  function RowAfter(row: Option<Outcome>, e: Effect): Option<Outcome> {
    if e.write.Some? then e.write else row
  }

  function GoTo(h: Holder, stage: Stage): Effect {
    Effect(stage, h.attached, None, None, None, None, Nothing)
  }

  /** The handler's activation ends and the broker disposes of the copy, if it is still attached. */
  function Leave(h: Holder, place: Place): Effect {
    Effect(Gone, false, if h.attached then Some(place) else None, None, None, None, Nothing)
  }

  /** Where a failed publish leaves the handler: whatever it reached, the copy is requeued. */
  function PublishTo(h: Holder, copy: Copy, reply: Reply, next: Stage): Effect {
    match reply
    case Done => GoTo(h, next).(publish := Some(copy))
    case Threw(true) => GoTo(h, Settling(false)).(publish := Some(copy))
    case Threw(false) => GoTo(h, Settling(false))
  }

  function Reject(h: Holder, reply: Reply): Effect {
    PublishTo(h, Copy(h.msg, Queued(Dead)), reply, Settling(true))
      .(mark := if reply == Threw(true) then Split else Nothing)
  }

  function Admission(h: Holder, allowed: bool, breakerOpen: bool): Effect {
    if !allowed then GoTo(h, Deferring(RATE_LIMIT_DEFER_TIER))
    else if breakerOpen then GoTo(h, Deferring(BREAKER_DEFER_TIER))
    else GoTo(h, Inserting)
  }

  function Defer(h: Holder, tier: nat, reply: Reply): Effect {
    PublishTo(h, Copy(h.msg, Queued(Tier(tier))), reply, Settling(true))
      .(mark := if reply == Threw(true) then Split else Nothing)
  }

  function InsertRow(h: Holder, row: Option<Outcome>, reply: Reply): Effect {
    var write := if row == None then Some(Pending) else None;
    match reply
    case Done => GoTo(h, if row == None then Sending else Checking).(write := write)
    case Threw(applied) => GoTo(h, Settling(false)).(write := if applied then write else None)
  }

  function SelectRow(h: Holder, row: Option<Outcome>, ok: bool): Effect {
    if !ok then GoTo(h, Settling(false))
    else if row == Some(Pending) then GoTo(h, Sending)
    else GoTo(h, Settling(true))
  }

  /** Only the SMTP provider is registered; resolving another one throws a permanent error. */
  function SendMail(h: Holder, result: SendResult): Effect {
    if h.msg.provider != Smtp then
      GoTo(h, Failing(DeadLetter, ProviderRejected))
    else
      var stage :=
        match result
        case Accepted => Confirming
        case Refused(Transient(code), _) => Failing(DecideFailureAction(h.msg.attempt), code)
        case Refused(Permanent(code), _) => Failing(DeadLetter, code)
        case Refused(Unexpected, _) => Settling(false);
      GoTo(h, stage).(mark := Called(result))
  }

  /** `complete` is an UPDATE: it changes nothing when the row does not exist. */
  function UpdateRow(row: Option<Outcome>, outcome: Outcome): Option<Outcome> {
    if row == None then None else Some(outcome)
  }

  function Confirm(h: Holder, row: Option<Outcome>, reply: Reply): Effect {
    var event := StatusEvent(h.msg.job, Status.Delivered, h.msg.attempt, None);
    match reply
    case Done => GoTo(h, Announcing(event)).(write := UpdateRow(row, Outcome.Delivered))
    case Threw(true) => GoTo(h, Settling(false)).(write := UpdateRow(row, Outcome.Delivered))
    case Threw(false) => GoTo(h, Settling(false)).(mark := Split)
  }

  function Fail(h: Holder, row: Option<Outcome>, decision: FailureDecision, code: ErrorCode, reply: Reply): Effect {
    match reply
    case Done => GoTo(h, Handing(decision, code)).(write := UpdateRow(row, Failed))
    case Threw(true) =>
      GoTo(h, Settling(false)).(write := UpdateRow(row, Failed), mark := Stranded)
    case Threw(false) => GoTo(h, Settling(false)).(mark := Redone)
  }

  /** What succeeds a failed attempt: the next attempt on its tier, or a dead-letter copy. */
  function Successor(msg: Message, decision: FailureDecision): Copy {
    match decision
    case Retry(attempt, tier, _) => Copy(msg.(attempt := attempt), Queued(Tier(tier)))
    case DeadLetter => Copy(msg, Queued(Dead))
  }

  function FailureEvent(msg: Message, decision: FailureDecision, code: ErrorCode): StatusEvent {
    match decision
    case Retry(attempt, _, _) => StatusEvent(msg.job, RetryScheduled, attempt, Some(code))
    case DeadLetter => StatusEvent(msg.job, DeadLettered, msg.attempt, Some(code))
  }

  function HandOver(h: Holder, decision: FailureDecision, code: ErrorCode, reply: Reply): Effect {
    PublishTo(h, Successor(h.msg, decision), reply, Announcing(FailureEvent(h.msg, decision, code)))
      .(mark := if reply == Threw(false) then Stranded else Nothing)
  }

  function Announce(h: Holder, event: StatusEvent, reply: Reply): Effect {
    match reply
    case Done => GoTo(h, Settling(true)).(event := Some(event))
    case Threw(true) => GoTo(h, Settling(false)).(event := Some(event))
    case Threw(false) => GoTo(h, Settling(false))
  }

  function Die(h: Holder, row: Option<Outcome>): Effect {
    Leave(h, Queued(Main)).(mark :=
      if h.stage.Handing? then Stranded
      else if !h.attached || !OpenRow(row) then Nothing
      else if h.stage.Confirming? || h.stage == Settling(true) then Split
      else if h.stage.Failing? then Redone
      else Nothing)
  }

  function LoseConnection(h: Holder, row: Option<Outcome>): Effect {
    Effect(h.stage, false, Some(Queued(Main)), None, None, None,
           if OpenRow(row) && h.stage != Settling(false) then Split else Nothing)
  }

  function OnPublish(h: Holder, reply: Reply): Option<Effect> {
    match h.stage
    case Rejecting => Some(Reject(h, reply))
    case Deferring(tier) => Some(Defer(h, tier, reply))
    case Handing(decision, code) => Some(HandOver(h, decision, code, reply))
    case Announcing(event) => Some(Announce(h, event, reply))
    case _ => None
  }

  function OnComplete(h: Holder, row: Option<Outcome>, reply: Reply): Option<Effect> {
    match h.stage
    case Confirming => Some(Confirm(h, row, reply))
    case Failing(decision, code) => Some(Fail(h, row, decision, code, reply))
    case _ => None
  }

  /** The step handler `h` takes on `action` when it finds `row` in the ledger, if it can take one. */
  function Next(h: Holder, row: Option<Outcome>, action: Action): Option<Effect> {
    match action
    case Admit(allowed, breakerOpen) => if h.stage.Taken? then Some(Admission(h, allowed, breakerOpen)) else None
    case AdmitThrew => if h.stage.Taken? then Some(GoTo(h, Settling(false))) else None
    case Publish(reply) => OnPublish(h, reply)
    case Insert(reply) => if h.stage.Inserting? then Some(InsertRow(h, row, reply)) else None
    case Select(ok) => if h.stage.Checking? then Some(SelectRow(h, row, ok)) else None
    case Send(result) => if h.stage.Sending? then Some(SendMail(h, result)) else None
    case Complete(reply) => OnComplete(h, row, reply)
    case Settle => if h.stage.Settling? then Some(Leave(h, if h.stage.ack then Acked else Queued(Main))) else None
    case Crash => if h.stage.Gone? then None else Some(Die(h, row))
    case Detach => if h.attached then Some(LoseConnection(h, row)) else None
  }

  function Relocate(copies: seq<Copy>, i: nat, place: Option<Place>): seq<Copy> {
    if place.Some? && i < |copies| then copies[i := copies[i].(place := place.value)] else copies
  }

  function Apply(s: State, i: nat, e: Effect): State
    requires i < |s.holders|
  {
    var h := s.holders[i];
    var key := KeyOf(h.msg);
    s.(copies := Relocate(s.copies, h.copy, e.release) + (if e.publish.Some? then [e.publish.value] else []),
       holders := s.holders[i := h.(stage := e.stage, attached := e.attached)],
       ledger := if e.write.Some? then s.ledger[key := e.write.value] else s.ledger,
       written := if e.write.Some? then s.written + {(key, e.write.value)} else s.written,
       events := if e.event.Some? then s.events + {e.event.value} else s.events,
       issued := if e.publish.Some? && e.publish.value.place != Queued(Dead) then s.issued + {e.publish.value.msg}
                 else s.issued,
       buried := if e.publish.Some? && e.publish.value.place == Queued(Dead) then s.buried + {e.publish.value.msg}
                 else s.buried,
       accounts := Post(s.accounts, h.msg.job, e.mark))
  }

  /******* One step of the system *******/

  datatype Label =
    | Submit(msg: Message)              // the API publishes the first attempt of a job
    | Deliver(copy: nat)                // the broker delivers a copy to some worker
    | Expire(copy: nat)                 // a retry tier's TTL returns a copy to the main queue
    | Act(holder: nat, action: Action)  // a handler moves, or a fault hits it

  function Step(s: State, l: Label): Option<State> {
    match l
    case Submit(msg) =>
      if msg.attempt == 0 && msg.job !in s.submitted then
        Some(s.(copies := s.copies + [Copy(msg, Queued(Main))],
                submitted := s.submitted[msg.job := msg],
                issued := s.issued + {msg}))
      else None
    case Deliver(c) =>
      if c < |s.copies| && s.copies[c].place == Queued(Main) then
        var msg := s.copies[c].msg;
        Some(s.(copies := s.copies[c := s.copies[c].(place := Held(|s.holders|))],
                holders := s.holders + [Holder(msg, c, FirstStage(msg), true)]))
      else None
    case Expire(c) =>
      if c < |s.copies| && s.copies[c].place.Queued? && s.copies[c].place.queue.Tier? then
        Some(s.(copies := s.copies[c := s.copies[c].(place := Queued(Main))]))
      else None
    case Act(i, action) =>
      if i < |s.holders| then
        var h := s.holders[i];
        match Next(h, Row(s, h.msg), action)
        case None => None
        case Some(e) => Some(Apply(s, i, e))
      else None
  }

  /** The state after a run, if every label is enabled when it comes. */
  function Run(s: State, labels: seq<Label>): Option<State> {
    if labels == [] then Some(s)
    else
      match Run(s, labels[..|labels| - 1])
      case None => None
      case Some(mid) => Step(mid, labels[|labels| - 1])
  }

  ghost predicate Reachable(s: State) {
    exists labels :: Run(Initial(), labels) == Some(s)
  }
}
