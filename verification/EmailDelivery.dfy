/** The mail consumer as code: the guard, the delivery service and the consumer, with every exception
    they let through or catch. Their control flow follows the delivery protocol step by step while
    anything else may happen at each `await`, so all that is proved of its runs holds of them; and at
    every step they have asked the rate limiter and the circuit breaker, and told the breaker, exactly
    what their steps so far demand. */
module EmailDelivery {
  import opened Contracts
  import opened RetryPolicy
  import opened Delivery
  import opened DeliveryLog
  import opened DeliveryRuns
  import opened DeliveryTheorems
  import opened Topology
  import opened DeliveryWorld

  class IdempotencyGuard {
    const world: World

    constructor (world: World)
      ensures this.world == world
    {
      this.world := world;
    }

    /** Whether the attempt may be sent. True means that this call inserted the row or found it PENDING,
        false that it found it otherwise; `None` stands for an exception, here and below. */
    method Reserve(h: nat, msg: Message) returns (reserved: Option<bool>)
      requires world.At(h, msg, Inserting, [])
      modifies world, world.breaker, world.limiter
      ensures old(world.trace) <= world.trace
      ensures reserved == Some(true) ==>
                || FoundRow(world.trace, |old(world.trace)|, h, msg, None, Insert(Done))
                || FoundRow(world.trace, |old(world.trace)|, h, msg, Some(Pending), Select(true))
      ensures reserved == Some(false) ==>
                exists row :: row != Some(Pending) &&
                    FoundRow(world.trace, |old(world.trace)|, h, msg, row, Select(true))
      ensures world.At(h, msg, if reserved == Some(true) then Sending else Settling(reserved == Some(false)), [])
    {
      hide World.At, FoundRow;
      ghost var start := |world.trace|;
      var inserted := world.InsertPending(h, msg);
      if inserted == None { return None; }
      if inserted.value { return Some(true); }
      ghost var between := world.trace;
      var existing := world.SelectOutcome(h, msg);
      if existing == None { return None; }
      FoundSince(world.trace, start, |between|, h, msg, existing.value);
      return Some(existing.value == Some(Pending));
    }

    /** The UPDATE that closes the row, the only way from the send or its failure on. */
    method Complete(h: nat, msg: Message, outcome: Outcome, ghost stage: Stage) returns (ok: bool)
      requires world.At(h, msg, stage, [])
      requires if outcome == Outcome.Delivered then stage.Confirming? else outcome == Failed && stage.Failing?
      modifies world, world.breaker, world.limiter
      ensures old(world.trace) <= world.trace
      ensures ok <==> world.replies(|old(world.trace)|) == Done
      ensures ok ==> world.At(h, msg, CompletedStage(msg, stage), [])
      ensures !ok ==> world.At(h, msg, Settling(false), if stage.Failing? then [] else [Told(msg, ToldFailure)])
      ensures ok ==> (KeyOf(msg), outcome) in world.state.written
      ensures Remembers(old(world.state), world.state)
    {
      hide World.At;
      ok := world.UpdateOutcome(h, msg, outcome, stage);
    }
  }

  lemma FoundSince(labels: seq<Label>, start: nat, later: nat, h: nat, msg: Message, row: Option<Outcome>)
    requires start <= later && FoundRow(labels, later, h, msg, row, Select(true))
    ensures FoundRow(labels, start, h, msg, row, Select(true))
  {
    var k: nat :| later <= k < |labels| && labels[k] == Act(h, Select(true)) && RowAt(labels[..k], msg) == Some(row);
  }

  datatype DeliveryOutcome = ACK | REQUEUE

  /** The row was closed as FAILED, the next attempt published and the retry reported with its cause. */
  predicate RetryIsOut(s: State, msg: Message, code: ErrorCode) {
    && (KeyOf(msg), Failed) in s.written
    && msg.(attempt := msg.attempt + 1) in s.issued
    && StatusEvent(msg.job, RetryScheduled, msg.attempt + 1, Some(code)) in s.events
  }

  /** The row was closed as FAILED, the message dead-lettered and that reported with its cause. */
  predicate DeadLetterIsOut(s: State, msg: Message, code: ErrorCode) {
    && (KeyOf(msg), Failed) in s.written
    && msg in s.buried
    && StatusEvent(msg.job, DeadLettered, msg.attempt, Some(code)) in s.events
  }

  class DeliveryService {
    const world: World
    const idempotency: IdempotencyGuard

    ghost predicate Wired() { idempotency.world == world }

    constructor (world: World)
      ensures this.world == world && Wired()
    {
      this.world := world;
      idempotency := new IdempotencyGuard(world);
    }

    /** One delivery of a valid message. However its calls end, it ends before the settling of the
        delivery, to be acknowledged if and only if it returns ACK. Limiter and breaker were asked before
        anything else, their true answers decided whether it was deferred, and the breaker has been told
        of the mail or the failure. */
    method Process(h: nat, msg: Message) returns (outcome: Option<DeliveryOutcome>)
      requires Wired() && world.At(h, msg, Taken, [])
      modifies world, world.breaker, world.limiter
      ensures old(world.trace) <= world.trace
      ensures outcome == None || world.scripts(|old(world.log)|) == Done
      ensures world.At(h, msg, Settling(outcome == Some(ACK)), [])
    {
      hide World.At, World.AtGranted;
      var allowed := world.Acquire(h, msg);
      if allowed == None { return None; }
      if !allowed.value {
        outcome := Defer(h, msg, RATE_LIMIT_DEFER_TIER);
        return;
      }
      var open := world.IsOpen(h, msg);
      if open {
        outcome := Defer(h, msg, BREAKER_DEFER_TIER);
        return;
      }
      var reserved := idempotency.Reserve(h, msg);
      if reserved == None { return None; }
      if !reserved.value { return Some(ACK); }
      var error := Deliver(h, msg);
      if error == None { return Some(ACK); }
      outcome := HandleFailure(h, msg, error.value);
    }

    /** The body of the try block: send, tell the breaker, complete, announce. A failed send ends in the
        error of the mail client; later exceptions are unexpected errors. Only the failure is still to
        be told to the breaker. */
    method Deliver(h: nat, msg: Message) returns (error: Option<SendError>)
      requires Wired() && world.At(h, msg, Sending, [])
      modifies world, world.breaker, world.limiter
      ensures old(world.trace) <= world.trace
      ensures var sent := ErrorOf(msg, world.mails(|old(world.trace)|));
              if sent.Some? then error == sent else error == None || error == Some(Unexpected)
      ensures match error
              case None => world.At(h, msg, Settling(true), [])
              case Some(e) => world.At(h, msg, FailureStage(msg, e), FailureOwed(msg, e))
      ensures error == None ==>
                && (KeyOf(msg), Outcome.Delivered) in world.state.written
                && StatusEvent(msg.job, Status.Delivered, msg.attempt, None) in world.state.events
    {
      hide World.At;
      error := world.Send(h, msg);
      if error.Some? { return; }
      world.RecordSuccess(h, msg, Confirming);
      var completed := idempotency.Complete(h, msg, Outcome.Delivered, Confirming);
      if !completed { return Some(Unexpected); }
      var event := StatusEvent(msg.job, Status.Delivered, msg.attempt, None);
      var announced := world.PublishStatus(h, msg, STATUS_EXCHANGE, STATUS_ROUTING_KEY, event);
      if !announced { return Some(Unexpected); }
    }

    /** Every error but a permanent one is told to the breaker, once. Transient ones are retried while
        attempts are left, unexpected ones requeued, the others dead-lettered. */
    method HandleFailure(h: nat, msg: Message, error: SendError) returns (outcome: Option<DeliveryOutcome>)
      requires Wired() && world.At(h, msg, FailureStage(msg, error), FailureOwed(msg, error))
      modifies world, world.breaker, world.limiter
      ensures old(world.trace) <= world.trace
      ensures outcome == Some(REQUEUE) <==> error.Unexpected?
      ensures outcome == Some(ACK) ==>
                if error.Transient? && msg.attempt < 5 then RetryIsOut(world.state, msg, error.code)
                else DeadLetterIsOut(world.state, msg, error.code)
      ensures world.At(h, msg, Settling(outcome == Some(ACK)), [])
    {
      hide World.At;
      match error {
        case Transient(code) =>
          var decision := DecideFailureAction(msg.attempt);
          world.RecordFailure(h, msg, Failing(decision, code));
          if decision.Retry? {
            outcome := Retry(h, msg, decision, code);
            return;
          }
          outcome := DeadLetter(h, msg, code);
        case Permanent(code) =>
          outcome := DeadLetter(h, msg, code);
        case Unexpected =>
          world.RecordFailure(h, msg, Settling(false));
          return Some(REQUEUE);
      }
    }

    method Retry(h: nat, msg: Message, decision: FailureDecision, code: ErrorCode)
      returns (outcome: Option<DeliveryOutcome>)
      requires Wired() && decision == DecideFailureAction(msg.attempt) && decision.Retry?
      requires world.At(h, msg, Failing(decision, code), [])
      modifies world, world.breaker, world.limiter
      ensures old(world.trace) <= world.trace
      ensures outcome != Some(REQUEUE)
      ensures outcome == Some(ACK) ==> RetryIsOut(world.state, msg, code)
      ensures world.At(h, msg, Settling(outcome == Some(ACK)), [])
    {
      hide World.At;
      var completed := idempotency.Complete(h, msg, Failed, Failing(decision, code));
      if !completed { return None; }
      var next, stage := msg.(attempt := decision.attempt), Handing(decision, code);
      var queue := RetryQueueName(decision.tier);
      var published := world.Publish(h, msg, RETRY_EXCHANGE, queue, next, Tier(decision.tier), stage);
      if !published { return None; }
      var event := StatusEvent(msg.job, RetryScheduled, decision.attempt, Some(code));
      var announced := world.PublishStatus(h, msg, STATUS_EXCHANGE, STATUS_ROUTING_KEY, event);
      return if announced then Some(ACK) else None;
    }

    method DeadLetter(h: nat, msg: Message, code: ErrorCode) returns (outcome: Option<DeliveryOutcome>)
      requires Wired() && world.At(h, msg, Failing(FailureDecision.DeadLetter, code), [])
      modifies world, world.breaker, world.limiter
      ensures old(world.trace) <= world.trace
      ensures outcome != Some(REQUEUE)
      ensures outcome == Some(ACK) ==> DeadLetterIsOut(world.state, msg, code)
      ensures world.At(h, msg, Settling(outcome == Some(ACK)), [])
    {
      hide World.At;
      var completed := idempotency.Complete(h, msg, Failed, Failing(FailureDecision.DeadLetter, code));
      if !completed { return None; }
      var stage := Handing(FailureDecision.DeadLetter, code);
      var published := world.Publish(h, msg, DEAD_LETTER_EXCHANGE, DEAD_LETTER_ROUTING_KEY, msg, Dead, stage);
      if !published { return None; }
      var event := StatusEvent(msg.job, DeadLettered, msg.attempt, Some(code));
      var announced := world.PublishStatus(h, msg, STATUS_EXCHANGE, STATUS_ROUTING_KEY, event);
      return if announced then Some(ACK) else None;
    }

    method Defer(h: nat, msg: Message, tier: nat) returns (outcome: Option<DeliveryOutcome>)
      requires world.At(h, msg, Deferring(tier), [])
      modifies world, world.breaker, world.limiter
      ensures old(world.trace) <= world.trace
      ensures outcome == Some(ACK) <==> world.replies(|old(world.trace)|) == Done
      ensures outcome != Some(REQUEUE)
      ensures world.At(h, msg, Settling(outcome == Some(ACK)), [])
    {
      hide World.At;
      var published := world.Publish(h, msg, RETRY_EXCHANGE, RetryQueueName(tier), msg, Tier(tier), Deferring(tier));
      return if published then Some(ACK) else None;
    }
  }

  const DRAIN_TIMEOUT_MS := 10_000

  /** There is always another number. */
  lemma {:induction false} Bound(ns: set<nat>) returns (b: nat)
    ensures forall n: nat :: n in ns ==> n < b
  {
    if ns == {} {
      b := 0;
    } else {
      var n :| n in ns;
      var rest := Bound(ns - {n});
      b := if n < rest then rest else n + 1;
      assert forall m: nat :: m in ns ==> m == n || m in ns - {n};
    }
  }

  lemma SomeOther(all: set<nat>, some: set<nat>)
    requires some <= all && |some| < |all|
    ensures exists n: nat :: n in all - some
  {
    assert all == some + (all - some);
    var n :| n in all - some;
  }

  class EmailConsumer {
    const world: World
    const delivery: DeliveryService
    var inFlight: int
    var consumerTag: Option<string>

    /** The activations that are between taking a delivery and ending. */
    ghost var active: set<nat>

    ghost predicate Valid()
      reads this, world, world.breaker, world.limiter
    {
      world.Valid() && delivery.world == world && delivery.Wired() && inFlight == |active|
    }

    constructor (world: World)
      requires world.Valid()
      ensures Valid() && this.world == world && active == {} && consumerTag == None
    {
      this.world := world;
      delivery := new DeliveryService(world);
      inFlight := 0;
      consumerTag := None;
      active := {};
    }

    /** An activation begins: the count goes up. */
    method Begin(ghost h: nat)
      requires Valid() && h !in active
      modifies this`inFlight, this`active
      ensures Valid() && active == old(active) + {h}
    {
      inFlight := inFlight + 1;
      active := active + {h};
    }

    /** An activation ends, on whatever path: the count goes down. */
    method End(ghost h: nat)
      requires Valid() && h in active
      modifies this`inFlight, this`active
      ensures Valid() && active == old(active) - {h}
    {
      inFlight := inFlight - 1;
      active := active - {h};
    }

    /** Other activations of this consumer begin and end meanwhile; those in `staying` go on. */
    method Activations(staying: set<nat>, mayBegin: bool)
      requires Valid() && staying <= active
      modifies this`inFlight, this`active
      ensures Valid() && staying <= active
      ensures !mayBegin ==> active <= old(active)
    {
      hide World.Valid;
      var begins: seq<bool> := *;
      for i := 0 to |begins|
        invariant Valid() && staying <= active
        invariant !mayBegin ==> active <= old(active)
      {
        if begins[i] && mayBegin {
          ghost var h := Bound(active);
          Begin(h);
        } else if !begins[i] && inFlight > |staying| {
          SomeOther(active, staying);
          ghost var h :| h in active - staying;
          End(h);
        }
      }
    }

    /** Shutdown cancels the consumer and then waits, a tenth of a second at a time, until nothing is in
        flight or the time is up. If the cancelling went through no activation begins any more. Returns
        the time on a clock that runs at least as fast as the waiting. */
    method OnModuleDestroy(start: int, channelReady: bool, cancelled: Reply) returns (now: int)
      requires Valid()
      modifies this`inFlight, this`active
      ensures Valid() && now >= start
      ensures active == {} || now >= start + 10_000
      ensures consumerTag.Some? && channelReady && cancelled == Done ==> active <= old(active)
      ensures old(active) == {} ==> now == start && active == {}
    {
      hide World.Valid;
      var mayBegin := !(consumerTag.Some? && channelReady && cancelled == Done);
      now := start;
      while inFlight > 0 && now < start + DRAIN_TIMEOUT_MS
        invariant Valid() && now >= start
        invariant !mayBegin ==> active <= old(active)
        invariant old(active) == {} ==> now == start && active == {}
        decreases start + DRAIN_TIMEOUT_MS - now
      {
        var slack: int := *;
        now := now + 100 + (if slack > 0 then slack else 0);
        Activations({}, mayBegin);
      }
    }

    /** One activation. With a channel the delivery is settled exactly once on every path, the
        activation ends and is no longer counted in flight; what is acknowledged has been handed over. */
    method Handle(raw: Option<nat>, channelReady: bool) returns (acked: Option<bool>)
      requires Valid()
      requires raw.Some? ==>
                 && raw.value !in active
                 && raw.value < |world.state.holders|
                 && var msg := world.state.holders[raw.value].msg;
                    world.At(raw.value, msg, FirstStage(msg), [])
      modifies this`inFlight, this`active, world, world.breaker, world.limiter
      ensures Valid() && old(world.trace) <= world.trace
      ensures acked.Some? <==> raw.Some? && channelReady
      ensures acked == None ==> world.trace == old(world.trace) && active == old(active)
      ensures acked.Some? ==>
                var h, msg := raw.value, old(world.state.holders[raw.value].msg);
                && world.At(h, msg, Gone, [])
                && Settles(world.trace, h) == 1
                && h !in active
                && (acked.value ==> HandedOver(world.state, msg))
    {
      hide World.At, World.Valid, Settles, HandedOver;
      if raw == None || !channelReady { return None; }
      var h := raw.value;
      var msg := world.state.holders[h].msg;
      Begin(h);
      var ack := ProcessAndSettle(h, msg);
      acked := Some(ack);
      End(h);
    }

    /** The try block and its catch: an exception means a requeue. */
    method ProcessAndSettle(h: nat, msg: Message) returns (ack: bool)
      requires Valid() && h in active && world.At(h, msg, FirstStage(msg), [])
      modifies this`inFlight, this`active, world, world.breaker, world.limiter
      ensures Valid() && h in active && old(world.trace) <= world.trace
      ensures world.At(h, msg, Gone, [])
      ensures Settles(world.trace, h) == 1
      ensures ack ==> HandedOver(world.state, msg)
    {
      hide World.At, World.Valid, Settles, HandedOver;
      var outcome := Process(h, msg);
      Activations({h}, true);
      ack := outcome == Some(ACK);
      SettleDelivery(h, msg, ack);
    }

    /** A body that does not parse is dead-lettered as it is, the others are delivered. */
    method Process(h: nat, msg: Message) returns (outcome: Option<DeliveryOutcome>)
      requires Valid() && world.At(h, msg, FirstStage(msg), [])
      modifies world, world.breaker, world.limiter
      ensures Valid() && old(world.trace) <= world.trace
      ensures !msg.valid ==> outcome == if world.replies(|old(world.trace)|) == Done then Some(ACK) else None
      ensures world.At(h, msg, Settling(outcome == Some(ACK)), [])
    {
      hide World.Valid;
      if !msg.valid {
        var published := world.Publish(h, msg, DEAD_LETTER_EXCHANGE, DEAD_LETTER_ROUTING_KEY, msg, Dead, Rejecting);
        return if published then Some(ACK) else None;
      }
      outcome := delivery.Process(h, msg);
    }

    method SettleDelivery(h: nat, msg: Message, ack: bool)
      requires world.At(h, msg, Settling(ack), [])
      modifies world
      ensures world.Valid() && world.At(h, msg, Gone, []) && old(world.trace) <= world.trace
      ensures Settles(world.trace, h) == 1
      ensures ack ==> HandedOver(world.state, msg)
    {
      hide World.LogValid, AllDestined, Expected, Words, HandedOver;
      ghost var before := world.state;
      assert Reachable(before);
      FirstSettle(world.trace, h);
      world.Take(Act(h, Settle));
      if ack {
        AckHandsOver(before, h, world.state);
      }
    }
  }

  lemma FirstSettle(labels: seq<Label>, h: nat)
    requires Run(Initial(), labels).Some?
    requires var s := Run(Initial(), labels).value; h < |s.holders| && !s.holders[h].stage.Gone?
    ensures Settles(labels + [Act(h, Settle)], h) == 1
  {
    SettledOnce(labels, h);
    assert (labels + [Act(h, Settle)])[..|labels|] == labels;
  }
}
