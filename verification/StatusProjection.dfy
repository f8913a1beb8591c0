/** The status consumer of the API, and what the job rows it maintains may say about the worker
    protocol. */
module StatusProjection {
  import opened Contracts
  import opened RetryPolicy
  import opened Delivery
  import opened DeliveryStructure
  import opened DeliveryMeasures
  import opened DeliveryHandover
  import opened DeliveryTheorems
  import opened DeliveryLedger
  import opened JobsTable

  /** What the consumer does to a row for an event that it processes at time `at`. */
  function UpdateOf(event: StatusEvent, at: int): Update {
    match event.status
    case Delivered => MarkDelivered(at)
    case RetryScheduled => MarkRetryScheduled
    case DeadLettered => MarkDeadLettered(event.code)
  }

  /** What the API is to make of an event for a row: the status it reports; of a delivery also the time,
      and no error any more; of a dead letter its code, if it has one. */
  predicate Follows(row: JobRow, event: StatusEvent, at: int, next: JobRow) {
    && next.key == row.key && next.status == Reported(event.status)
    && match event.status
       case Delivered => next.deliveredAt == Some(at) && next.lastErrorCode == None
       case RetryScheduled => next.deliveredAt == row.deliveredAt && next.lastErrorCode == row.lastErrorCode
       case DeadLettered =>
         && next.deliveredAt == row.deliveredAt
         && next.lastErrorCode == if event.code.Some? then event.code else row.lastErrorCode
  }

  lemma UpdateFollows(row: JobRow, event: StatusEvent, at: int)
    ensures Follows(row, event, at, Updated(row, UpdateOf(event, at)))
  {}

  /** One more update in the history of a row. */
  function Extended(history: map<nat, (nat, seq<Update>)>, job: nat, u: Update): map<nat, (nat, seq<Update>)>
    requires job in history
  {
    history[job := (history[job].0, history[job].1 + [u])]
  }

  /******* The consumer *******/

  /** What becomes of a broker delivery. `Escaped` stands for an exception out of the handler. */
  datatype Settlement = Ack | Requeue | Unsettled | Escaped

  /** A broker delivery: nothing when the broker cancels the consumer, else a body that parses to an
      event or does not. */
  datatype Raw = Cancelled | Body(event: Option<StatusEvent>)

  class StatusConsumer {
    const repository: EmailJobsRepository

    constructor (repository: EmailJobsRepository)
      ensures this.repository == repository
    {
      this.repository := repository;
    }

    /** A malformed body is acknowledged and dropped, an event is acknowledged if and only if neither
        its update nor the acknowledgement threw. Otherwise it is requeued, even if the update was
        applied, unless the requeue throws too. */
    method Handle(raw: Raw, channelReady: bool, now: int, reply: Reply, ackThrows: bool, nackThrows: bool)
      returns (settled: Settlement)
      requires repository.Valid()
      modifies repository
      ensures repository.Valid() && repository.rows.Keys == old(repository.rows).Keys
      ensures settled == Unsettled <==> raw == Cancelled || !channelReady
      ensures settled == Ack <==> raw.Body? && channelReady && (raw.event.Some? ==> reply == Done) && !ackThrows
      ensures settled == Escaped ==> nackThrows && (ackThrows || raw.event.Some?)
      ensures settled == Requeue ==> !nackThrows
      ensures settled != Unsettled && raw.event.Some? && raw.event.value.job in repository.rows
              && reply != Threw(false) ==>
                var job, u := raw.event.value.job, UpdateOf(raw.event.value, now);
                && repository.history == Extended(old(repository.history), job, u)
                && Follows(old(repository.rows)[job], raw.event.value, now, repository.rows[job])
                && repository.rows == old(repository.rows)[job := repository.rows[job]]
      ensures settled == Unsettled || raw.event == None || raw.event.value.job !in repository.rows
              || reply == Threw(false) ==>
                repository.rows == old(repository.rows) && repository.history == old(repository.history)
    {
      if raw == Cancelled || !channelReady { return Unsettled; }
      var done := true;
      if raw.event.Some? {
        done := Apply(raw.event.value, now, reply);
      }
      if done && !ackThrows { return Ack; }
      return if nackThrows then Escaped else Requeue;
    }

    /** The update of one event; false when the statement throws, applied or not. */
    method Apply(event: StatusEvent, now: int, reply: Reply) returns (done: bool)
      requires repository.Valid()
      modifies repository
      ensures repository.Valid() && repository.rows.Keys == old(repository.rows).Keys
      ensures done <==> reply == Done
      ensures event.job in repository.rows && reply != Threw(false) ==>
                && repository.history == Extended(old(repository.history), event.job, UpdateOf(event, now))
                && Follows(old(repository.rows)[event.job], event, now, repository.rows[event.job])
                && repository.rows == old(repository.rows)[event.job := repository.rows[event.job]]
      ensures event.job !in repository.rows || reply == Threw(false) ==>
                repository.rows == old(repository.rows) && repository.history == old(repository.history)
    {
      if reply != Threw(false) {
        match event.status {
          case Delivered => repository.UpdateMany(event.job, MarkDelivered(now));
          case RetryScheduled => repository.UpdateMany(event.job, MarkRetryScheduled);
          case DeadLettered => repository.UpdateMany(event.job, MarkDeadLettered(event.code));
        }
      }
      done := reply == Done;
    }
  }

  /******* What a row may say *******/

  ghost predicate WroteDelivered(s: State, job: nat) { exists a: nat :: ((job, a), Outcome.Delivered) in s.written }

  ghost predicate IssuedRetry(s: State, job: nat) { exists m :: m in s.issued && m.job == job && m.attempt >= 1 }

  ghost predicate Buried(s: State, job: nat) { exists m :: m in s.buried && m.job == job }

  /** The row says nothing that has not happened. */
  ghost predicate RowSound(s: State, job: nat, row: JobRow) {
    && (row.status == Reported(Status.Delivered) ==>
        WroteDelivered(s, job) && row.deliveredAt.Some? && row.lastErrorCode == None)
    && (row.status == Reported(RetryScheduled) ==> IssuedRetry(s, job))
    && (row.status == Reported(DeadLettered) ==> Buried(s, job))
    && (row.deliveredAt.Some? ==> WroteDelivered(s, job))
    && (row.lastErrorCode.Some? ==> Buried(s, job))
  }

  lemma BackedUpdate(s: State, row: JobRow, event: StatusEvent, at: int)
    requires EventBacked(s, event) && IssuedOk(s) && RowSound(s, event.job, row)
    ensures RowSound(s, event.job, Updated(row, UpdateOf(event, at)))
  {
    match event.status
    case Delivered => assert ((event.job, event.attempt), Outcome.Delivered) in s.written;
    case RetryScheduled => assert s.submitted[event.job].(attempt := event.attempt) in s.issued;
    case DeadLettered => assert s.submitted[event.job].(attempt := event.attempt) in s.buried;
  }

  lemma GrowthKeepsSound(s: State, t: State, job: nat, row: JobRow)
    requires Grows(s, t) && RowSound(s, job, row)
    ensures RowSound(t, job, row)
  {}

  /** Without a splitting fault the two final statuses exclude each other: a job's events never say
      both DELIVERED and DEAD_LETTERED. */
  lemma FinalEventsExclude(s: State, d: StatusEvent, b: StatusEvent)
    requires Reachable(s) && d in s.events && b in s.events && d.job == b.job && Splits(s, d.job) == 0
    ensures !(d.status == Status.Delivered && b.status == DeadLettered)
  {
    if d.status == Status.Delivered && b.status == DeadLettered {
      ReachableInv(s);
      var job := d.job;
      assert EventBacked(s, d) && EventBacked(s, b);
      UnsplitReachedExclusively(s, job);
      ExclusivelyTidy(s, job);
      var w := ((job, d.attempt), Outcome.Delivered);
      assert RowOk(s, job, w);
      assert s.submitted[job].(attempt := d.attempt) in s.issued;
      RowCounts(s.ledger, job, d.attempt, MAX_ATTEMPTS + 1);
      var i := FindDeadCopy(s, s.submitted[job].(attempt := b.attempt));
      NonNegativeWeights();
      CopyCounts(s, GRAVE, OfJob(job), i);
      AtMostOncePlusFaults(s, job);
    }
  }
}
