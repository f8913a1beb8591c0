/** What the status queue is told: without a fault every delivery, retry and dead letter of a job is
    reported once nothing of the job is left in flight. */
module DeliveryReports {
  import opened Contracts
  import opened Delivery
  import opened DeliveryStructure
  import opened DeliveryHandover
  import opened DeliveryFaults
  import opened DeliveryTheorems

  predicate Says(event: StatusEvent, job: nat, status: Status, attempt: nat) {
    event.job == job && event.status == status && event.attempt == attempt
  }

  /** An event that says so was published to the status queue. */
  ghost predicate Reported(s: State, job: nat, status: Status, attempt: nat) {
    exists event :: event in s.events && Says(event, job, status, attempt)
  }

  /** A handler is about to publish it. */
  ghost predicate Announced(s: State, job: nat, status: Status, attempt: nat) {
    exists k: nat :: Announces(s, k, job, status, attempt)
  }

  predicate Announces(s: State, k: nat, job: nat, status: Status, attempt: nat) {
    && k < |s.holders| && s.holders[k].msg.job == job && s.holders[k].stage.Announcing?
    && Says(s.holders[k].stage.event, job, status, attempt)
  }

  ghost predicate Told(s: State, job: nat, status: Status, attempt: nat) {
    Reported(s, job, status, attempt) || Announced(s, job, status, attempt)
  }

  /** What has happened to an attempt of a job, by ledger and queues. */
  ghost predicate Happened(s: State, job: nat, status: Status, attempt: nat) {
    match status
    case Delivered => ((job, attempt), Outcome.Delivered) in s.written
    case RetryScheduled => attempt > 0 && exists m :: m in s.issued && m.job == job && m.attempt == attempt
    case DeadLettered => exists m :: m in s.buried && m.valid && m.job == job && m.attempt == attempt
  }

  /** What a step that is no fault says about its own effect. */
  predicate Tells(h: Holder, e: Effect) {
    && (h.stage.Announcing? ==> e.event == Some(h.stage.event))
    && (e.write == Some(Outcome.Delivered) ==>
          e.stage.Announcing? && Says(e.stage.event, h.msg.job, Status.Delivered, h.msg.attempt))
    && (e.publish.Some? && e.publish.value.place == Queued(Dead) && h.msg.valid ==>
          e.stage.Announcing? && Says(e.stage.event, h.msg.job, DeadLettered, h.msg.attempt))
    && (e.publish.Some? && e.publish.value.place != Queued(Dead) && e.publish.value.msg != h.msg ==>
          e.stage.Announcing? && Says(e.stage.event, h.msg.job, RetryScheduled, e.publish.value.msg.attempt))
  }

  lemma NextTells(h: Holder, row: Option<Outcome>, action: Action)
    requires Next(h, row, action).Some? && !IsFault(action)
    requires h.stage.Rejecting? ==> !h.msg.valid
    ensures Tells(h, Next(h, row, action).value)
  {}

  lemma ApplyTells(s: State, i: nat, e: Effect, status: Status, attempt: nat)
    requires i < |s.holders| && EffectOk(s, i, e) && Tells(s.holders[i], e) && s.holders[i].msg in s.issued
    requires var job := s.holders[i].msg.job;
             Happened(s, job, status, attempt) ==> Told(s, job, status, attempt)
    requires Happened(Apply(s, i, e), s.holders[i].msg.job, status, attempt)
    ensures Told(Apply(s, i, e), s.holders[i].msg.job, status, attempt)
  {
    var h, t := s.holders[i], Apply(s, i, e);
    if Happened(s, h.msg.job, status, attempt) {
      if event :| event in s.events && Says(event, h.msg.job, status, attempt) {
        assert event in t.events;
      } else {
        var k: nat :| Announces(s, k, h.msg.job, status, attempt);
        if k == i {
          assert h.stage.event in t.events;
        } else {
          assert Announces(t, k, h.msg.job, status, attempt);
        }
      }
    } else {
      assert Announces(t, i, h.msg.job, status, attempt);
    }
  }

  /** Steps of other jobs, of the broker and of the API touch nothing of it. */
  lemma OthersTell(s: State, l: Label, job: nat, status: Status, attempt: nat)
    requires WellFormed(s) && Step(s, l).Some? && !(l.Act? && s.holders[l.holder].msg.job == job)
    requires Happened(s, job, status, attempt) ==> Told(s, job, status, attempt)
    requires Happened(Step(s, l).value, job, status, attempt)
    ensures Told(Step(s, l).value, job, status, attempt)
  {
    OthersMakeNothing(s, l, job, status, attempt);
    StepGrowsEvents(s, l);
    hide Step, WellFormed, Happened;
    var t := Step(s, l).value;
    if event :| event in s.events && Says(event, job, status, attempt) {
      assert event in t.events;
    } else {
      var k: nat :| Announces(s, k, job, status, attempt);
      OthersStay(s, l, job, k);
      assert Announces(t, k, job, status, attempt);
    }
  }

  lemma OthersStay(s: State, l: Label, job: nat, k: nat)
    requires Step(s, l).Some? && !(l.Act? && s.holders[l.holder].msg.job == job)
    requires k < |s.holders| && s.holders[k].msg.job == job
    ensures k < |Step(s, l).value.holders| && Step(s, l).value.holders[k] == s.holders[k]
  {}

  lemma StepGrowsEvents(s: State, l: Label)
    requires Step(s, l).Some?
    ensures s.events <= Step(s, l).value.events
  {}

  lemma OthersMakeNothing(s: State, l: Label, job: nat, status: Status, attempt: nat)
    requires WellFormed(s) && Step(s, l).Some? && !(l.Act? && s.holders[l.holder].msg.job == job)
    requires Happened(Step(s, l).value, job, status, attempt)
    ensures Happened(s, job, status, attempt)
  {
    if l.Act? {
      var h := s.holders[l.holder];
      MessageOrigin(s, l.holder);
      assert HolderOk(s, l.holder);
      NextFits(s, l.holder, l.action);
      var e := Next(h, Row(s, h.msg), l.action).value;
      hide Next, WellFormed, HolderOk;
      assert EffectOk(s, l.holder, e);
    }
  }

  lemma StepTells(s: State, l: Label, job: nat, status: Status, attempt: nat)
    requires WellFormed(s) && Step(s, l).Some? && !FaultOn(s, l, job)
    requires Happened(s, job, status, attempt) ==> Told(s, job, status, attempt)
    ensures var t := Step(s, l).value; Happened(t, job, status, attempt) ==> Told(t, job, status, attempt)
  {
    if Happened(Step(s, l).value, job, status, attempt) {
      if l.Act? && s.holders[l.holder].msg.job == job {
        var h := s.holders[l.holder];
        MessageOrigin(s, l.holder);
        assert HolderOk(s, l.holder);
        NextFits(s, l.holder, l.action);
        NextTells(h, Row(s, h.msg), l.action);
        hide Next, WellFormed, HolderOk, Happened, Told;
        ApplyTells(s, l.holder, Next(h, Row(s, h.msg), l.action).value, status, attempt);
      } else {
        OthersTell(s, l, job, status, attempt);
      }
    }
  }

  /** In a run in which no fault hits the job, whatever has happened to it is on the status queue or about
      to be published to it. */
  lemma {:induction false} RunTells(labels: seq<Label>, job: nat, status: Status, attempt: nat)
    requires Run(Initial(), labels).Some? && Faults(labels, job) == 0
    ensures WellFormed(Run(Initial(), labels).value)
    ensures var s := Run(Initial(), labels).value;
            Happened(s, job, status, attempt) ==> Told(s, job, status, attempt)
  {
    if labels == [] {
      InitialInv();
    } else {
      var n := |labels| - 1;
      RunTells(labels[..n], job, status, attempt);
      var s := Run(Initial(), labels[..n]).value;
      StepKeepsWellFormed(s, labels[n]);
      StepTells(s, labels[n], job, status, attempt);
    }
  }

  /** Completeness of the events: in a run in which no fault hits the job, once nothing of it is left in
      flight the status queue has been told of its DELIVERED row, of every retry and of its dead letter. */
  lemma EventsAreComplete(labels: seq<Label>, job: nat, status: Status, attempt: nat)
    requires Run(Initial(), labels).Some? && Faults(labels, job) == 0 && Quiet(Run(Initial(), labels).value, job)
    requires Happened(Run(Initial(), labels).value, job, status, attempt)
    ensures Reported(Run(Initial(), labels).value, job, status, attempt)
  {
    RunTells(labels, job, status, attempt);
    hide Run;
  }

  /** And only of what has happened, whatever the faults. */
  lemma EventsAreSound(s: State, job: nat, status: Status, attempt: nat)
    requires Reachable(s) && Reported(s, job, status, attempt)
    ensures status == RetryScheduled ==> attempt > 0
    ensures status == DeadLettered ==> exists m :: m in s.buried && m.job == job && m.attempt == attempt
    ensures status != DeadLettered ==> Happened(s, job, status, attempt)
  {
    ReachableInv(s);
    var event :| event in s.events && Says(event, job, status, attempt);
    assert EventBacked(s, event);
    if status != Status.Delivered {
      assert s.submitted[job].(attempt := attempt) in s.issued + s.buried;
    }
  }
}
