/** Concrete runs of one job: which faults really cost a second mail, the job, or a ledger row. */
module DeliveryScenarios {
  import opened Contracts
  import opened RetryPolicy
  import opened Delivery
  import opened DeliveryFaults

  const MAIL := Message(0, 0, Smtp, true)

  predicate LeadsTo(labels: seq<Label>, s: State, faults: nat) {
    Run(Initial(), labels) == Some(s) && Faults(labels, MAIL.job) == faults
  }

  /** Some run in which `faults` faults hit the job leads here. */
  ghost predicate ReachedWith(s: State, faults: nat) { exists labels :: LeadsTo(labels, s, faults) }

  lemma ReachesOn(s: State, l: Label, t: State, faults: nat)
    requires ReachedWith(s, faults) && Step(s, l) == Some(t)
    ensures ReachedWith(t, faults + if FaultOn(s, l, MAIL.job) then 1 else 0)
  {
    var labels :| LeadsTo(labels, s, faults);
    var longer := labels + [l];
    assert longer[..|longer| - 1] == labels;
    assert LeadsTo(longer, t, faults + if FaultOn(s, l, MAIL.job) then 1 else 0);
  }

  /** The counts a scenario follows. */
  predicate Counts(s: State, mails: nat, splits: nat, strands: nat) {
    Mails(s, MAIL.job) == mails && Splits(s, MAIL.job) == splits && Strands(s, MAIL.job) == strands
  }

  /** The job's only copy waits in the main queue over a PENDING row. */
  ghost predicate Waiting(s: State) {
    && s.copies == [Copy(MAIL, Queued(Main))]
    && Row(s, MAIL) == Some(Pending)
    && MAIL.job in s.submitted
  }

  /** The job's only copy is held by handler `k`, at some stage, over some row. */
  ghost predicate Handled(s: State, k: nat, stage: Stage, row: Option<Outcome>) {
    && k < |s.holders|
    && s.copies == [Copy(MAIL, Held(k))]
    && s.holders[k] == Holder(MAIL, 0, stage, true)
    && Row(s, MAIL) == row
    && MAIL.job in s.submitted
  }

  /** From `s` to `t` no handler but `k` has moved. */
  ghost predicate Aside(s: State, t: State, k: nat) {
    && |s.holders| <= |t.holders|
    && forall j: nat :: j < |s.holders| && j != k ==> t.holders[j] == s.holders[j]
  }

  lemma AsideTwice(s: State, mid: State, t: State, k: nat)
    requires Aside(s, mid, k) && Aside(mid, t, k)
    ensures Aside(s, t, k)
  {}

  lemma Start(s: State) returns (t: State)
    requires Waiting(s)
    ensures Step(s, Deliver(0)) == Some(t) && Handled(t, |s.holders|, Taken, Some(Pending))
    ensures t.accounts == s.accounts && Aside(s, t, |s.holders|)
  {
    t := Step(s, Deliver(0)).value;
  }

  lemma ApplyKept(s: State, k: nat, stage: Stage, row: Option<Outcome>, e: Effect)
    requires Handled(s, k, stage, row)
    requires e.attached && e.release == None && e.publish == None
    ensures Handled(Apply(s, k, e), k, e.stage, RowAfter(row, e))
    ensures Apply(s, k, e).accounts == Post(s.accounts, MAIL.job, e.mark) && Aside(s, Apply(s, k, e), k)
  {
    assert Relocate(s.copies, 0, e.release) + [] == s.copies;
  }

  lemma StepIs(s: State, i: nat, action: Action, e: Effect)
    requires i < |s.holders| && Next(s.holders[i], Row(s, s.holders[i].msg), action) == Some(e)
    ensures Step(s, Act(i, action)) == Some(Apply(s, i, e))
  {}

  /** Handler `k` takes a step that moves no copy. */
  lemma Take(s: State, k: nat, stage: Stage, row: Option<Outcome>, action: Action, e: Effect, faults: nat)
    returns (t: State)
    requires ReachedWith(s, faults) && Handled(s, k, stage, row) && !IsFault(action)
    requires Next(Holder(MAIL, 0, stage, true), row, action) == Some(e)
    requires e.attached && e.release == None && e.publish == None
    ensures ReachedWith(t, faults) && Handled(t, k, e.stage, RowAfter(row, e))
    ensures t.accounts == Post(s.accounts, MAIL.job, e.mark) && Aside(s, t, k)
  {
    hide LeadsTo;
    StepIs(s, k, action, e);
    ApplyKept(s, k, stage, row, e);
    t := Apply(s, k, e);
    ReachesOn(s, Act(k, action), t, faults);
  }

  /** The handler's process dies and the copy is requeued. */
  lemma TakeCrash(s: State, k: nat, stage: Stage, faults: nat) returns (t: State)
    requires ReachedWith(s, faults) && Handled(s, k, stage, Some(Pending)) && stage != Gone
    ensures ReachedWith(t, faults + 1) && Waiting(t)
    ensures t.accounts == Post(s.accounts, MAIL.job, Die(Holder(MAIL, 0, stage, true), Some(Pending)).mark)
  {
    hide LeadsTo;
    var e := Die(Holder(MAIL, 0, stage, true), Some(Pending));
    StepIs(s, k, Crash, e);
    t := Apply(s, k, e);
    assert Relocate(s.copies, 0, e.release) + [] == [Copy(MAIL, Queued(Main))];
    ReachesOn(s, Act(k, Crash), t, faults);
  }

  lemma Recount(s: State, t: State, mark: Mark, mails: nat, splits: nat, strands: nat)
    requires Counts(s, mails, splits, strands) && t.accounts == Post(s.accounts, MAIL.job, mark)
    ensures Counts(t, mails + mark.Mails(), splits + mark.Splits(), strands + mark.Strands())
  {}

  lemma MailStep(row: Option<Outcome>)
    ensures Next(Holder(MAIL, 0, Sending, true), row, Send(Accepted))
         == Some(GoTo(Holder(MAIL, 0, Sending, true), Confirming).(mark := Called(Accepted)))
  {}

  lemma TakeMail(s: State, k: nat, mails: nat, splits: nat, faults: nat) returns (t: State)
    requires ReachedWith(s, faults) && Handled(s, k, Sending, Some(Pending)) && Counts(s, mails, splits, 0)
    ensures ReachedWith(t, faults) && Handled(t, k, Confirming, Some(Pending)) && Counts(t, mails + 1, splits, 0) &&
          Aside(s, t, k)
  {
    hide LeadsTo;
    MailStep(Some(Pending));
    t := Take(s, k, Sending, Some(Pending), Send(Accepted),
        GoTo(Holder(MAIL, 0, Sending, true), Confirming).(mark := Called(Accepted)), faults);
    Recount(s, t, Called(Accepted), mails, splits, 0);
  }

  /** The redelivered copy takes over the PENDING row and is mailed (again). */
  lemma MailAgain(s: State, mails: nat, splits: nat, faults: nat) returns (k: nat, t: State)
    requires ReachedWith(s, faults) && Waiting(s) && Counts(s, mails, splits, 0)
    ensures k == |s.holders| && Aside(s, t, k)
    ensures ReachedWith(t, faults) && Handled(t, k, Confirming, Some(Pending)) && Counts(t, mails + 1, splits, 0)
  {
    hide LeadsTo;
    k := |s.holders|;
    var s1 := Start(s);
    ReachesOn(s, Deliver(0), s1, faults);
    var h := Holder(MAIL, 0, Taken, true);
    var s2 := Take(s1, k, Taken, Some(Pending), Admit(true, false), GoTo(h, Inserting), faults);
    Recount(s1, s2, Nothing, mails, splits, 0);
    var s3 := Take(s2, k, Inserting, Some(Pending), Insert(Done), GoTo(h, Checking), faults);
    Recount(s2, s3, Nothing, mails, splits, 0);
    k, t := CheckAndMail(s3, k, mails, splits, faults);
    AsideTwice(s, s1, s2, k);
    AsideTwice(s, s2, s3, k);
    AsideTwice(s, s3, t, k);
  }

  lemma CheckAndMail(s: State, k: nat, mails: nat, splits: nat, faults: nat) returns (l: nat, t: State)
    requires ReachedWith(s, faults) && Handled(s, k, Checking, Some(Pending)) && Counts(s, mails, splits, 0)
    ensures l == k && Aside(s, t, k)
    ensures ReachedWith(t, faults) && Handled(t, k, Confirming, Some(Pending)) && Counts(t, mails + 1, splits, 0)
  {
    hide LeadsTo;
    l := k;
    var h := Holder(MAIL, 0, Checking, true);
    var s1 := Take(s, k, Checking, Some(Pending), Select(true), GoTo(h, Sending), faults);
    Recount(s, s1, Nothing, mails, splits, 0);
    t := TakeMail(s1, k, mails, splits, faults);
    AsideTwice(s, s1, t, k);
  }

  /** A new job up to the moment its first attempt is reserved. */
  lemma FirstReservation() returns (t: State)
    ensures ReachedWith(t, 0) && Handled(t, 0, Sending, Some(Pending)) && Counts(t, 0, 0, 0) && |t.holders| == 1
  {
    hide LeadsTo;
    Unstarted();
    var s0 := Step(Initial(), Submit(MAIL)).value;
    ReachesOn(Initial(), Submit(MAIL), s0, 0);
    assert s0.copies == [Copy(MAIL, Queued(Main))];
    var s1 := Step(s0, Deliver(0)).value;
    ReachesOn(s0, Deliver(0), s1, 0);
    t := ReserveFirst(s1);
  }

  lemma Unstarted()
    ensures ReachedWith(Initial(), 0)
  {
    assert LeadsTo([], Initial(), 0);
  }

  lemma ReserveFirst(s: State) returns (t: State)
    requires ReachedWith(s, 0) && Handled(s, 0, Taken, None) && Counts(s, 0, 0, 0) && |s.holders| == 1
    ensures ReachedWith(t, 0) && Handled(t, 0, Sending, Some(Pending)) && Counts(t, 0, 0, 0) && |t.holders| == 1
  {
    hide LeadsTo;
    var admitted := GoTo(Holder(MAIL, 0, Taken, true), Inserting);
    StepIs(s, 0, Admit(true, false), admitted);
    ApplyKept(s, 0, Taken, None, admitted);
    var s1 := Apply(s, 0, admitted);
    ReachesOn(s, Act(0, Admit(true, false)), s1, 0);
    var inserted := InsertRow(Holder(MAIL, 0, Inserting, true), None, Done);
    StepIs(s1, 0, Insert(Done), inserted);
    ApplyKept(s1, 0, Inserting, None, inserted);
    t := Apply(s1, 0, inserted);
    ReachesOn(s1, Act(0, Insert(Done)), t, 0);
  }

  /** Mailed and crashed before the ledger knew, over and over. */
  lemma {:induction false} Rounds(n: nat) returns (k: nat, t: State)
    ensures ReachedWith(t, n) && Handled(t, k, Confirming, Some(Pending)) && Counts(t, n + 1, n, 0)
  {
    hide LeadsTo;
    if n == 0 {
      var s := FirstReservation();
      k := 0;
      t := TakeMail(s, 0, 0, 0, 0);
    } else {
      var j, s := Rounds(n - 1);
      var mid := TakeCrash(s, j, Confirming, n - 1);
      Recount(s, mid, Split, n, n - 1, 0);
      k, t := MailAgain(mid, n, n, n);
    }
  }

  /** For every number of faults some run makes the mail server accept one mail more than that: the
      fault budget of effectively-once delivery cannot be smaller, and redelivery does not by itself
      mean one send. */
  lemma FaultBoundIsTight(n: nat)
    ensures exists labels :: Run(Initial(), labels).Some? && Faults(labels, MAIL.job) == n
                             && Mails(Run(Initial(), labels).value, MAIL.job) == n + 1
                             && Splits(Run(Initial(), labels).value, MAIL.job) == n
  {
    var k, t := Rounds(n);
    var labels :| LeadsTo(labels, t, n);
    assert Mails(Run(Initial(), labels).value, MAIL.job) == n + 1;
  }

  /** The job was stranded, not mailed and not split. */
  predicate OnlyStranded(s: State) { MAIL.job in s.submitted && Counts(s, 0, 0, 1) }

  /** One refused send and one crash between the FAILED row and the retry publish are enough to
      strand a job that nothing else went wrong with. */
  lemma CrashInWindowStrands()
    ensures exists s :: ReachedWith(s, 1) && OnlyStranded(s)
  {
    hide LeadsTo;
    var s := FirstReservation();
    var refused := Refused(Transient(ProviderUnavailable), false);
    var decision := DecideFailureAction(0);
    var failing := Failing(decision, ProviderUnavailable);
    var refusal := GoTo(Holder(MAIL, 0, Sending, true), failing).(mark := Called(refused));
    var s1 := Take(s, 0, Sending, Some(Pending), Send(refused), refusal, 0);
    Recount(s, s1, Called(refused), 0, 0, 0);
    var failure := Fail(Holder(MAIL, 0, failing, true), Some(Pending), decision, ProviderUnavailable, Done);
    var s2 := Take(s1, 0, failing, Some(Pending), Complete(Done), failure, 0);
    Recount(s1, s2, Nothing, 0, 0, 0);
    CrashInWindow(s2, Handing(decision, ProviderUnavailable));
  }

  lemma CrashInWindow(s: State, stage: Stage)
    requires ReachedWith(s, 0) && stage.Handing? && Handled(s, 0, stage, Some(Failed)) && Counts(s, 0, 0, 0)
    ensures exists t :: ReachedWith(t, 1) && OnlyStranded(t)
  {
    hide LeadsTo;
    var death := Die(Holder(MAIL, 0, stage, true), Some(Failed));
    StepIs(s, 0, Crash, death);
    var t := Apply(s, 0, death);
    ReachesOn(s, Act(0, Crash), t, 0);
    Recount(s, t, Stranded, 0, 0, 0);
    assert OnlyStranded(t);
  }

  /******* Two writers *******/

  /** A handler that lost its connection before it called the provider. */
  const ZOMBIE := Holder(MAIL, 0, Sending, false)

  /** The step overwrites the DELIVERED row of the job's first attempt with FAILED. */
  predicate Overwrites(s: State, l: Label) {
    && Row(s, MAIL) == Some(Outcome.Delivered)
    && Step(s, l).Some? && Row(Step(s, l).value, MAIL) == Some(Failed)
  }

  /** One lost connection is enough to have a DELIVERED row overwritten: the redelivered copy is mailed
      and recorded, and the handler that lost its connection then fails and records that. */
  lemma DeliveredRowOverwritten()
    ensures exists s, l :: ReachedWith(s, 1) && Overwrites(s, l)
  {
    hide LeadsTo;
    var s := FirstReservation();
    var lost := LoseConnection(Holder(MAIL, 0, Sending, true), Some(Pending));
    StepIs(s, 0, Detach, lost);
    var s1 := Apply(s, 0, lost);
    assert Relocate(s.copies, 0, lost.release) + [] == [Copy(MAIL, Queued(Main))];
    ReachesOn(s, Act(0, Detach), s1, 0);
    Recount(s, s1, Split, 0, 0, 0);
    var k, s2 := MailAgain(s1, 0, 1, 1);
    var confirmed := Confirm(Holder(MAIL, 0, Confirming, true), Some(Pending), Done);
    var s3 := Take(s2, k, Confirming, Some(Pending), Complete(Done), confirmed, 1);
    assert s1.holders[0] == ZOMBIE && s2.holders[0] == ZOMBIE;
    ZombieFails(s3);
  }

  lemma ZombieFails(s: State)
    requires ReachedWith(s, 1) && s.holders != [] && s.holders[0] == ZOMBIE && Row(s, MAIL) == Some(Outcome.Delivered)
    ensures exists t, l :: ReachedWith(t, 1) && Overwrites(t, l)
  {
    hide LeadsTo;
    var refused := Refused(Transient(ProviderUnavailable), false);
    var refusal := SendMail(ZOMBIE, refused);
    StepIs(s, 0, Send(refused), refusal);
    var t := Apply(s, 0, refusal);
    ReachesOn(s, Act(0, Send(refused)), t, 1);
    assert Overwrites(t, Act(0, Complete(Done)));
  }
}
