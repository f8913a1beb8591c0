/** What holds in every state that any number of workers, crashes, lost connections, lost replies
    and redeliveries can lead to. */
module DeliveryTheorems {
  import opened Contracts
  import opened RetryPolicy
  import opened Sums
  import opened Delivery
  import opened DeliveryStructure
  import opened DeliveryMeasures
  import opened DeliveryAccounting
  import opened DeliveryHandover
  import opened DeliveryFaults

  /** A copy that will still be looked at while its row is open: queued, or held by a handler that
      has not decided to acknowledge it. */
  ghost predicate Live(s: State, i: nat) {
    && i < |s.copies|
    && OpenIn(s.ledger, s.copies[i].msg)
    && match s.copies[i].place
       case Queued(queue) => queue != Dead
       case Held(k) => k < |s.holders| && s.holders[k].attached && s.holders[k].stage != Settling(true)
       case Acked => false
  }

  ghost predicate DeadCopy(s: State, i: nat) { i < |s.copies| && s.copies[i].place == Queued(Dead) }

  lemma NonNegativeWeights()
    ensures NonNegative(TOKEN) && NonNegative(DUTY) && NonNegative(GRAVE) && NonNegative(WINDOW) &&
          NonNegative(UNCONFIRMED) && NonNegative(WORK)
  {}

  lemma FindDeadCopy(s: State, msg: Message) returns (i: nat)
    requires Inv(s) && msg in s.buried
    ensures DeadCopy(s, i) && s.copies[i].msg == msg
  {
    assert Kept(s, msg);
    var copy, n := Culprit(s, GRAVE, Only(msg));
    i := n;
  }

  /** An open row never outlives its last copy. */
  lemma FindCopy(s: State, msg: Message) returns (i: nat)
    requires Inv(s) && msg in s.issued && OpenIn(s.ledger, msg)
    ensures i < |s.copies| && s.copies[i].msg == msg
    ensures Live(s, i) || (!msg.valid && DeadCopy(s, i))
  {
    assert Kept(s, msg);
    if Duty(s, msg) >= 1 {
      var copy, n := Culprit(s, DUTY, Only(msg));
      if copy {
        i := n;
      } else {
        assert HolderOk(s, n);
        i := s.holders[n].copy;
      }
    } else {
      i := FindDeadCopy(s, msg);
    }
  }

  ghost predicate HandedOver(s: State, msg: Message) {
    || !OpenIn(s.ledger, msg)
    || (exists i: nat :: Live(s, i) && s.copies[i].msg == msg)
    || (!msg.valid && exists i: nat :: DeadCopy(s, i) && s.copies[i].msg == msg)
  }

  /** Settling a delivery, by acknowledgement or requeue, leaves the message handed over: its row is
      closed, or a copy of it is still in play, or (for a body that failed validation) it is in the
      dead-letter queue. */
  lemma AckHandsOver(s: State, k: nat, t: State)
    requires Reachable(s) && k < |s.holders| && Step(s, Act(k, Settle)) == Some(t)
    ensures HandedOver(t, s.holders[k].msg)
  {
    ReachableInv(s);
    StepKeepsInv(s, Act(k, Settle));
    MessageOrigin(s, k);
    var msg := s.holders[k].msg;
    if OpenIn(t.ledger, msg) {
      var i := FindCopy(t, msg);
    }
  }

  /** Every PENDING row still has a copy that some worker will process. */
  lemma PendingRowHasCopy(s: State, key: Key)
    requires Reachable(s) && key in s.ledger && s.ledger[key] == Pending
    ensures exists i: nat :: Live(s, i) && KeyOf(s.copies[i].msg) == key
  {
    ReachableInv(s);
    var msg := s.submitted[key.0].(attempt := key.1);
    var i := FindCopy(s, msg);
    assert KeyOf(s.copies[i].msg) == key;
  }

  /******* Zero loss *******/

  /** What the decision hands the message on to can still lead somewhere: a dead letter, or a next
      attempt whose row is open. */
  predicate LeadsOn(ledger: map<Key, Outcome>, msg: Message, decision: FailureDecision) {
    decision.Retry? ==> OpenIn(ledger, msg.(attempt := decision.attempt))
  }

  /** The handler is about to hand its message on, to where it can still lead somewhere. */
  ghost predicate HandingOn(s: State, k: nat) {
    && k < |s.holders| && s.holders[k].stage.Handing?
    && LeadsOn(s.ledger, s.holders[k].msg, s.holders[k].stage.decision)
  }

  /** A job is safe while it is delivered, dead-lettered, about to be handed on, or still in play. */
  ghost predicate Safe(s: State, job: nat) {
    || (exists a: nat :: (job, a) in s.ledger && s.ledger[(job, a)] == Outcome.Delivered)
    || (exists i: nat :: DeadCopy(s, i) && s.copies[i].msg.job == job)
    || (exists k: nat :: HandingOn(s, k) && s.holders[k].msg.job == job)
    || (exists i: nat :: Live(s, i) && s.copies[i].msg.job == job)
  }

  /** Follow the FAILED rows from one attempt to the next until something is found. */
  lemma {:induction false} FollowAttempts(s: State, msg: Message)
    requires Inv(s) && msg in s.issued && Strands(s, msg.job) == 0
    ensures Safe(s, msg.job)
    decreases MAX_ATTEMPTS + 1 - msg.attempt
  {
    hide Measure, Balanced;
    if OpenIn(s.ledger, msg) {
      var i := FindCopy(s, msg);
    } else if s.ledger[KeyOf(msg)] == Failed {
      assert Kept(s, msg);
      var next := msg.(attempt := msg.attempt + 1);
      if next in s.issued {
        FollowAttempts(s, next);
      } else if msg in s.buried {
        var i := FindDeadCopy(s, msg);
      } else {
        var copy, k := Culprit(s, WINDOW, Only(msg));
        assert HolderOk(s, k);
        assert KeyOf(next) !in s.ledger;
        assert HandingOn(s, k);
      }
    } else {
      assert s.ledger[(msg.job, msg.attempt)] == Outcome.Delivered;
    }
  }

  /** Zero loss: whatever else goes wrong, a job that no fault hit between a FAILED row and the
      publish of its successor is safe at every moment. */
  lemma NoLoss(s: State, job: nat)
    requires Reachable(s) && job in s.submitted && Strands(s, job) == 0
    ensures Safe(s, job)
  {
    ReachableInv(s);
    FollowAttempts(s, s.submitted[job]);
  }

  /******* At most one mail, and exactly one *******/

  ghost function DeadLetters(s: State, job: nat): int { Measure(s, GRAVE, OfJob(job)) }

  lemma DeadLettersAreTokens(s: State, job: nat)
    ensures 0 <= DeadLetters(s, job) <= Tokens(s, job)
  {
    NonNegativeWeights();
    MeasureNonNegative(s, GRAVE, OfJob(job));
    forall c: Copy
      ensures CopyWeight(GRAVE, OfJob(job), s.ledger)(c) <= CopyWeight(TOKEN, OfJob(job), s.ledger)(c)
    {
      assert CopyGrave(c.place, c.msg.attempt, OpenIn(s.ledger, c.msg)) <=
            CopyToken(c.place, c.msg.attempt, OpenIn(s.ledger, c.msg));
    }
    forall h: Holder
      ensures HolderWeight(GRAVE, OfJob(job), s.ledger)(h) <= HolderWeight(TOKEN, OfJob(job), s.ledger)(h)
    {
      assert HolderToken(h.stage, h.attached, h.msg.attempt, OpenIn(s.ledger, h.msg)) >= 0;
    }
    SumLower(s.copies, CopyWeight(GRAVE, OfJob(job), s.ledger), CopyWeight(TOKEN, OfJob(job), s.ledger));
    SumLower(s.holders, HolderWeight(GRAVE, OfJob(job), s.ledger), HolderWeight(TOKEN, OfJob(job), s.ledger));
  }

  /** Effectively once, with a fault budget: mails accepted for a job and its dead-letter copies
      together exceed one by no more than the faults that put a copy of it back in play, and the
      ledger never shows more deliveries than the mail server accepted. */
  lemma AtMostOncePlusFaults(s: State, job: nat)
    requires Reachable(s)
    ensures Mails(s, job) + DeadLetters(s, job) <= 1 + Splits(s, job)
    ensures DeliveredRows(s.ledger, job, MAX_ATTEMPTS + 1) <= Mails(s, job)
  {
    ReachableInv(s);
    assert Balanced(s, job);
    NonNegativeWeights();
    DeadLettersAreTokens(s, job);
    MeasureNonNegative(s, UNCONFIRMED, OfJob(job));
  }

  lemma {:induction false} RowCounts(ledger: map<Key, Outcome>, job: nat, a: nat, n: nat)
    requires a < n && (job, a) in ledger && ledger[(job, a)] == Outcome.Delivered
    ensures DeliveredRows(ledger, job, n) >= 1
  {
    if a < n - 1 {
      RowCounts(ledger, job, a, n - 1);
    }
  }

  lemma HeldCopyCounts(s: State, i: nat)
    requires Inv(s) && Live(s, i) && s.copies[i].place.Held?
    ensures var job := s.copies[i].msg.job; Tokens(s, job) + Mails(s, job) >= 1
  {
    var job, k := s.copies[i].msg.job, s.copies[i].place.holder;
    NonNegativeWeights();
    assert CopyOk(s, i);
    assert HolderOk(s, k);
    assert Balanced(s, job);
    HolderCounts(s, TOKEN, OfJob(job), k);
    HolderCounts(s, UNCONFIRMED, OfJob(job), k);
    MeasureNonNegative(s, TOKEN, OfJob(job));
  }

  lemma LiveCopyCounts(s: State, i: nat)
    requires Inv(s) && Live(s, i)
    ensures var job := s.copies[i].msg.job; Tokens(s, job) + Mails(s, job) >= 1
  {
    if s.copies[i].place.Held? {
      HeldCopyCounts(s, i);
    } else {
      NonNegativeWeights();
      CopyCounts(s, TOKEN, OfJob(s.copies[i].msg.job), i);
    }
  }

  lemma SafeCounts(s: State, job: nat)
    requires Inv(s) && Safe(s, job)
    ensures Tokens(s, job) + Mails(s, job) >= 1
  {
    hide Measure;
    NonNegativeWeights();
    MeasureNonNegative(s, TOKEN, OfJob(job));
    MeasureNonNegative(s, UNCONFIRMED, OfJob(job));
    if a: nat :| (job, a) in s.ledger && s.ledger[(job, a)] == Outcome.Delivered {
      assert s.submitted[job].(attempt := a) in s.issued;
      RowCounts(s.ledger, job, a, MAX_ATTEMPTS + 1);
      assert Balanced(s, job);
    } else if i: nat :| DeadCopy(s, i) && s.copies[i].msg.job == job {
      CopyCounts(s, TOKEN, OfJob(job), i);
    } else if k: nat :| HandingOn(s, k) && s.holders[k].msg.job == job {
      HolderCounts(s, TOKEN, OfJob(job), k);
    } else {
      var i: nat :| Live(s, i) && s.copies[i].msg.job == job;
      LiveCopyCounts(s, i);
    }
  }

  /** Conservation: as long as no fault has split a job, its mails, dead letters and copies that may
      still become one add up to exactly one, or to zero once it was stranded. */
  lemma Conservation(s: State, job: nat)
    requires Reachable(s) && job in s.submitted && Splits(s, job) == 0
    ensures Tokens(s, job) + Mails(s, job) == if Strands(s, job) == 0 then 1 else 0
    ensures Strands(s, job) <= 1
  {
    ReachableInv(s);
    assert Balanced(s, job);
    NonNegativeWeights();
    MeasureNonNegative(s, TOKEN, OfJob(job));
    if Strands(s, job) == 0 {
      NoLoss(s, job);
      SafeCounts(s, job);
    }
  }

  /** Nothing of the job is queued or being handled any more. */
  ghost predicate Quiet(s: State, job: nat) {
    && (forall c :: c in s.copies && c.msg.job == job ==> c.place == Queued(Dead) || c.place == Acked)
    && (forall h :: h in s.holders && h.msg.job == job ==> h.stage == Gone)
  }

  lemma QuietTokens(s: State, job: nat)
    requires Quiet(s, job)
    ensures Tokens(s, job) == DeadLetters(s, job)
  {
    forall c | c in s.copies
      ensures CopyWeight(GRAVE, OfJob(job), s.ledger)(c) == CopyWeight(TOKEN, OfJob(job), s.ledger)(c)
    {
      assert c.msg.job == job ==>
        CopyGrave(c.place, c.msg.attempt, OpenIn(s.ledger, c.msg)) ==
            CopyToken(c.place, c.msg.attempt, OpenIn(s.ledger, c.msg));
    }
    forall h | h in s.holders
      ensures HolderWeight(GRAVE, OfJob(job), s.ledger)(h) == HolderWeight(TOKEN, OfJob(job), s.ledger)(h)
    {
      assert h.msg.job == job ==>
        NoHolder(h.stage, h.attached, h.msg.attempt, OpenIn(s.ledger, h.msg)) ==
            HolderToken(h.stage, h.attached, h.msg.attempt, OpenIn(s.ledger, h.msg));
    }
    SumSame(s.copies, CopyWeight(GRAVE, OfJob(job), s.ledger), CopyWeight(TOKEN, OfJob(job), s.ledger));
    SumSame(s.holders, HolderWeight(GRAVE, OfJob(job), s.ledger), HolderWeight(TOKEN, OfJob(job), s.ledger));
  }

  /** Without a splitting fault a finished job ended in exactly one mail or exactly one dead letter,
      if and only if no fault hit it between a FAILED row and its successor; else in neither. */
  lemma FinishedJob(s: State, job: nat)
    requires Reachable(s) && job in s.submitted && Splits(s, job) == 0 && Quiet(s, job)
    ensures Strands(s, job) == 0 <==> Mails(s, job) + DeadLetters(s, job) == 1
    ensures Strands(s, job) == 1 <==> Mails(s, job) + DeadLetters(s, job) == 0
  {
    Conservation(s, job);
    QuietTokens(s, job);
  }

  /******* Bounded work *******/

  /** However often a job is deferred, redelivered or retried, the provider is called at most six
      times for it, plus six for each fault that split it and one for each that redid an attempt. */
  lemma BoundedCalls(s: State, job: nat)
    requires Reachable(s)
    ensures Calls(s, job) <= 6 * (1 + Splits(s, job)) + Redoes(s, job)
  {
    ReachableInv(s);
    assert Balanced(s, job);
    NonNegativeWeights();
    MeasureNonNegative(s, WORK, OfJob(job));
  }

  /******* Whole runs and their faults *******/

  /** In every run, the mails and dead letters of a job are at most one more than the faults that hit
      it, and its send calls at most six times that. */
  lemma FaultBudget(labels: seq<Label>, job: nat)
    requires Run(Initial(), labels).Some?
    ensures var s := Run(Initial(), labels).value;
            && Mails(s, job) + DeadLetters(s, job) <= 1 + Faults(labels, job)
            && Calls(s, job) <= 6 * (1 + Faults(labels, job))
  {
    var s := Run(Initial(), labels).value;
    assert Reachable(s);
    CountsAreFaults(labels, job);
    AtMostOncePlusFaults(s, job);
    BoundedCalls(s, job);
  }

  /** In a run in which no fault hits a job it is mailed at most once, it is never stranded but always
      safe, and when nothing of it is left in flight it has been mailed or dead-lettered, exactly once. */
  lemma FaultlessJob(labels: seq<Label>, job: nat)
    requires Run(Initial(), labels).Some? && Faults(labels, job) == 0
    ensures var s := Run(Initial(), labels).value;
            && Mails(s, job) + DeadLetters(s, job) <= 1
            && Strands(s, job) == 0
            && (job in s.submitted ==> Safe(s, job))
            && (job in s.submitted && Quiet(s, job) ==> Mails(s, job) + DeadLetters(s, job) == 1)
  {
    var s := Run(Initial(), labels).value;
    assert Reachable(s);
    CountsAreFaults(labels, job);
    AtMostOncePlusFaults(s, job);
    if job in s.submitted {
      NoLoss(s, job);
      if Quiet(s, job) {
        FinishedJob(s, job);
      }
    }
  }

  /******* What the ledger says of mails *******/

  /** Every DELIVERED ever written, overwritten since or not, stands for a mail that was accepted. */
  ghost predicate WritesMailed(s: State) {
    forall w :: w in s.written && w.1 == Outcome.Delivered ==> Mails(s, w.0.0) >= 1
  }

  lemma DeliveredAfterConfirming(h: Holder, row: Option<Outcome>, action: Action)
    requires Next(h, row, action).Some? && Next(h, row, action).value.write == Some(Outcome.Delivered)
    ensures h.stage.Confirming?
  {}

  lemma ConfirmingIsMailed(s: State, k: nat)
    requires Inv(s) && k < |s.holders| && s.holders[k].stage.Confirming?
    ensures Mails(s, s.holders[k].msg.job) >= 1
  {
    NonNegativeWeights();
    HolderCounts(s, UNCONFIRMED, OfJob(s.holders[k].msg.job), k);
    assert Balanced(s, s.holders[k].msg.job);
  }

  lemma ApplyKeepsWritesMailed(s: State, i: nat, e: Effect)
    requires i < |s.holders| && WritesMailed(s)
    requires e.write == Some(Outcome.Delivered) ==> Mails(s, s.holders[i].msg.job) >= 1
    ensures WritesMailed(Apply(s, i, e))
  {}

  lemma StepKeepsWritesMailed(s: State, l: Label)
    requires Inv(s) && WritesMailed(s) && Step(s, l).Some?
    ensures WritesMailed(Step(s, l).value)
  {
    if l.Act? {
      var h := s.holders[l.holder];
      var e := Next(h, Row(s, h.msg), l.action).value;
      if e.write == Some(Outcome.Delivered) {
        DeliveredAfterConfirming(h, Row(s, h.msg), l.action);
        ConfirmingIsMailed(s, l.holder);
      }
      ApplyKeepsWritesMailed(s, l.holder, e);
    }
  }

  lemma {:induction false} RunKeepsWritesMailed(labels: seq<Label>)
    requires Run(Initial(), labels).Some?
    ensures Inv(Run(Initial(), labels).value) && WritesMailed(Run(Initial(), labels).value)
  {
    if labels == [] {
      InitialInv();
    } else {
      var n := |labels| - 1;
      RunKeepsWritesMailed(labels[..n]);
      StepKeepsInv(Run(Initial(), labels[..n]).value, labels[n]);
      StepKeepsWritesMailed(Run(Initial(), labels[..n]).value, labels[n]);
    }
  }
}
