/** Where a job can still get to. A job always comes to rest if only faults and deferrals stop; it can
    still be mailed or dead-lettered exactly as long as something hopeful is left of it. */
module DeliveryLoss {
  import opened Contracts
  import opened RetryPolicy
  import opened Delivery
  import opened DeliveryStructure
  import opened DeliveryMeasures
  import opened DeliveryAccounting
  import opened DeliveryHandover
  import opened DeliveryFaults
  import opened DeliveryScenarios
  import opened DeliveryTheorems
  import opened DeliveryLedger
  import opened DeliveryRuns

  /******* Going on without faults and deferrals *******/

  predicate Smooth(l: Label) { !Costly(l) && !(l.Act? && IsFault(l.action)) }

  predicate AllSmooth(labels: seq<Label>) { forall l :: l in labels ==> Smooth(l) }

  /** What a handler does next when nothing goes wrong. */
  function Onward(stage: Stage): Action {
    match stage
    case Taken => Admit(true, false)
    case Inserting => Insert(Done)
    case Checking => Select(true)
    case Sending => Send(Accepted)
    case Confirming => Complete(Done)
    case Failing(_, _) => Complete(Done)
    case Settling(_) => Settle
    case _ => Publish(Done)
  }

  lemma OnwardIsSmooth(s: State, k: nat)
    requires k < |s.holders| && !s.holders[k].stage.Gone?
    ensures var l := Act(k, Onward(s.holders[k].stage)); Smooth(l) && Step(s, l).Some?
  {}

  lemma {:induction false} RunAppends(s: State, labels: seq<Label>, more: seq<Label>)
    requires Run(s, labels).Some?
    ensures Run(s, labels + more) == Run(Run(s, labels).value, more)
  {
    hide Step;
    if more == [] {
      assert labels + [] == labels;
    } else {
      var n := |more| - 1;
      RunAppends(s, labels, more[..n]);
      assert (labels + more)[..|labels| + n] == labels + more[..n];
    }
  }

  lemma RunBegins(s: State, l: Label, more: seq<Label>)
    requires Step(s, l).Some?
    ensures Run(s, [l] + more) == Run(Step(s, l).value, more)
  {
    hide Step;
    assert [l][..0] == [];
    RunAppends(s, [l], more);
  }

  /******* Coming to rest *******/

  /** As long as anything of the job is queued or being handled, some step that is neither a fault nor
      a deferral can be taken. */
  lemma Progress(s: State, job: nat) returns (l: Label)
    requires CopiesOk(s) && HoldersOk(s) && !Quiet(s, job)
    ensures Smooth(l) && Step(s, l).Some?
  {
    if h :| h in s.holders && h.msg.job == job && h.stage != Gone {
      var k: nat :| k < |s.holders| && s.holders[k] == h;
      l := Act(k, Onward(h.stage));
      OnwardIsSmooth(s, k);
    } else {
      var c :| c in s.copies && c.msg.job == job && !(c.place == Queued(Dead) || c.place == Acked);
      var i: nat :| i < |s.copies| && s.copies[i] == c;
      assert CopyOk(s, i);
      assert c.place.Held? ==> HolderOk(s, c.place.holder);
      l := if c.place == Queued(Main) then Deliver(i) else Expire(i);
    }
  }

  /** A run without faults and deferrals is no longer than the rank of the state it begins with, so by
      Progress each one brings every job to rest if it is only continued. */
  lemma {:induction false} SmoothRunsAreShort(s: State, labels: seq<Label>)
    requires WellFormed(s) && Run(s, labels).Some? && AllSmooth(labels)
    ensures WellFormed(Run(s, labels).value)
    ensures |labels| + Rank(Run(s, labels).value) <= Rank(s)
    ensures |labels| <= Rank(s)
  {
    hide Step, WellFormed, Rank;
    if labels == [] {
      RankNonNegative(s);
    } else {
      var n := |labels| - 1;
      var mid := Run(s, labels[..n]).value;
      SmoothRunsAreShort(s, labels[..n]);
      assert Smooth(labels[n]);
      assert Step(mid, labels[n]) == Run(s, labels);
      StepKeepsWellFormed(mid, labels[n]);
      StepRank(mid, labels[n]);
      RankNonNegative(Run(s, labels).value);
    }
  }

  /** So from every state some run without faults and deferrals brings the job to rest. */
  lemma {:induction false} ComesToRest(s: State, job: nat) returns (labels: seq<Label>)
    requires WellFormed(s)
    ensures AllSmooth(labels) && Run(s, labels).Some? && Quiet(Run(s, labels).value, job)
    decreases Rank(s)
  {
    RankNonNegative(s);
    if Quiet(s, job) {
      labels := [];
    } else {
      var l := Progress(s, job);
      var t := Step(s, l).value;
      StepKeepsWellFormed(s, l);
      StepRank(s, l);
      RankNonNegative(t);
      var more := ComesToRest(t, job);
      RunBegins(s, l, more);
      labels := [l] + more;
    }
  }

  /******* Hope *******/

  predicate HopefulCopy(s: State, job: nat, i: nat) {
    && i < |s.copies| && s.copies[i].msg.job == job
    && match s.copies[i].place
       case Queued(Dead) => true
       case Queued(_) => OpenIn(s.ledger, s.copies[i].msg)
       case _ => false
  }

  predicate HopefulHolder(s: State, job: nat, k: nat) {
    && k < |s.holders| && s.holders[k].msg.job == job
    && var h := s.holders[k];
       match h.stage
       case Sending => true
       case Failing(decision, _) => LeadsOn(s.ledger, h.msg, decision)
       case Handing(decision, _) => LeadsOn(s.ledger, h.msg, decision)
       case Confirming => false
       case Announcing(_) => false
       case Settling(ack) => !ack && h.attached && OpenIn(s.ledger, h.msg)
       case Gone => false
       case _ => OpenIn(s.ledger, h.msg)
  }

  /** The job has been mailed, or something is left of it that can still become a mail or a dead letter. */
  ghost predicate Hopeful(s: State, job: nat) {
    || Mails(s, job) >= 1
    || (exists i: nat :: HopefulCopy(s, job, i))
    || (exists k: nat :: HopefulHolder(s, job, k))
  }

  ghost predicate Lost(s: State, job: nat) { !Hopeful(s, job) }

  /** A mail was accepted or a dead letter exists. */
  ghost predicate Resolved(s: State, job: nat) {
    Mails(s, job) >= 1 || exists i: nat :: DeadCopy(s, i) && s.copies[i].msg.job == job
  }

  lemma SomeDeadLetter(s: State, job: nat) returns (i: nat)
    requires DeadLetters(s, job) >= 1
    ensures DeadCopy(s, i) && s.copies[i].msg.job == job
  {
    forall h: Holder
      ensures HolderWeight(GRAVE, OfJob(job), s.ledger)(h) == 0
    {
      assert NoHolder(h.stage, h.attached, h.msg.attempt, OpenIn(s.ledger, h.msg)) == 0;
    }
    var copy, n := Culprit(s, GRAVE, OfJob(job));
    if copy {
      var c := s.copies[n];
      assert CopyWeight(GRAVE, OfJob(job), s.ledger)(c)
          == if c.msg.job == job then CopyGrave(c.place, c.msg.attempt, OpenIn(s.ledger, c.msg)) else 0;
    }
    i := n;
  }

  lemma ResolvedIsCounted(s: State, job: nat)
    ensures Resolved(s, job) <==> Mails(s, job) + DeadLetters(s, job) >= 1
  {
    hide DeadLetters;
    DeadLettersAreTokens(s, job);
    if i: nat :| DeadCopy(s, i) && s.copies[i].msg.job == job {
      DeadCopyCounts(s, i);
    }
    if DeadLetters(s, job) >= 1 {
      var i := SomeDeadLetter(s, job);
    }
  }

  lemma DeadCopyCounts(s: State, i: nat)
    requires DeadCopy(s, i)
    ensures DeadLetters(s, s.copies[i].msg.job) >= 1
  {
    NonNegativeWeights();
    CopyCounts(s, GRAVE, OfJob(s.copies[i].msg.job), i);
  }

  /******* Hope is never in vain *******/

  lemma CopyGoesOn(s: State, i: nat) returns (l: Label)
    requires i < |s.copies| && HopefulCopy(s, s.copies[i].msg.job, i) && s.copies[i].place != Queued(Dead)
    ensures Smooth(l) && Step(s, l).Some? && Hopeful(Step(s, l).value, s.copies[i].msg.job)
  {
    l := if s.copies[i].place == Queued(Main) then Deliver(i) else Expire(i);
    var t := Step(s, l).value;
    if l.Deliver? {
      assert HopefulHolder(t, s.copies[i].msg.job, |s.holders|);
    } else {
      assert HopefulCopy(t, s.copies[i].msg.job, i);
    }
  }

  /** What the next step of a hopeful handler leaves behind. */
  lemma OnwardKeepsHope(h: Holder, row: Option<Outcome>)
    requires Settled(h, row) && !h.stage.Gone? && !h.stage.Confirming? && !h.stage.Announcing?
    requires h.stage.Checking? ==> row == Some(Pending)
    requires h.stage in {Taken, Rejecting, Inserting} || h.stage.Deferring? ==> OpenRow(row)
    ensures Next(h, row, Onward(h.stage)).Some?
    ensures var e := Next(h, row, Onward(h.stage)).value;
            match h.stage
            case Sending => e.mark.Mails() == 1 || (e.stage.Failing? && e.stage.decision.DeadLetter?)
            case Failing(decision, code) => e.stage == Handing(decision, code)
            case Handing(decision, _) => e.publish == Some(Successor(h.msg, decision))
            case Rejecting => e.publish == Some(Copy(h.msg, Queued(Dead)))
            case Deferring(tier) => e.publish == Some(Copy(h.msg, Queued(Tier(tier)))) && e.write == None
            case Settling(ack) => e.write == None && (!ack && h.attached ==> e.release == Some(Queued(Main)))
            case _ => (e.stage.Inserting? || e.stage.Sending? || e.stage.Checking?) && OpenRow(RowAfter(row, e))
  {}

  lemma HolderGoesOn(s: State, k: nat) returns (l: Label)
    requires WellFormed(s) && k < |s.holders| && HopefulHolder(s, s.holders[k].msg.job, k)
    ensures Smooth(l) && Step(s, l).Some? && Hopeful(Step(s, l).value, s.holders[k].msg.job)
  {
    var h := s.holders[k];
    l := Act(k, Onward(h.stage));
    OnwardIsSmooth(s, k);
    var e := Next(h, Row(s, h.msg), Onward(h.stage)).value;
    MovesOf(s, k, Onward(h.stage), e);
    OnwardKeepsHope(h, Row(s, h.msg));
    assert HolderOk(s, k);
    HopeApplied(s, k, e);
  }

  lemma HopeApplied(s: State, k: nat, e: Effect)
    requires Moves(s, k, e) && HolderOk(s, k) && HopefulHolder(s, s.holders[k].msg.job, k)
    requires Next(s.holders[k], Row(s, s.holders[k].msg), Onward(s.holders[k].stage)) == Some(e)
    ensures Hopeful(Apply(s, k, e), s.holders[k].msg.job)
  {
    var h, t := s.holders[k], Apply(s, k, e);
    OnwardKeepsHope(h, Row(s, h.msg));
    hide Next;
    match h.stage
    case Handing(decision, _) =>
      assert t.copies[|s.copies|] == Successor(h.msg, decision);
      assert HopefulCopy(t, h.msg.job, |s.copies|);
    case Rejecting =>
      assert HopefulCopy(t, h.msg.job, |s.copies|);
    case Deferring(_) =>
      assert HopefulCopy(t, h.msg.job, |s.copies|);
    case Settling(_) =>
      assert HopefulCopy(t, h.msg.job, h.copy);
    case Sending =>
      assert e.mark.Mails() == 0 ==> HopefulHolder(t, h.msg.job, k);
    case Taken =>
      assert HopefulHolder(t, h.msg.job, k);
    case Inserting =>
      assert HopefulHolder(t, h.msg.job, k);
    case Checking =>
      assert HopefulHolder(t, h.msg.job, k);
    case Failing(_, _) =>
      assert HopefulHolder(t, h.msg.job, k);
    case _ =>
  }

  /** A hopeful job can take a smooth step after which it is still hopeful, until it is resolved. */
  lemma HopeGoesOn(s: State, job: nat) returns (l: Label)
    requires WellFormed(s) && Hopeful(s, job) && !Resolved(s, job)
    ensures Smooth(l) && Step(s, l).Some? && Hopeful(Step(s, l).value, job)
  {
    if i: nat :| HopefulCopy(s, job, i) {
      assert !DeadCopy(s, i);
      l := CopyGoesOn(s, i);
    } else {
      var k: nat :| HopefulHolder(s, job, k);
      l := HolderGoesOn(s, k);
    }
  }

  lemma {:induction false} HopeIsFulfilled(s: State, job: nat) returns (labels: seq<Label>)
    requires WellFormed(s) && Hopeful(s, job)
    ensures AllSmooth(labels) && Run(s, labels).Some? && Resolved(Run(s, labels).value, job)
    decreases Rank(s)
  {
    RankNonNegative(s);
    if Resolved(s, job) {
      labels := [];
    } else {
      var l := HopeGoesOn(s, job);
      var t := Step(s, l).value;
      StepKeepsWellFormed(s, l);
      StepRank(s, l);
      RankNonNegative(t);
      var more := HopeIsFulfilled(t, job);
      RunBegins(s, l, more);
      labels := [l] + more;
    }
  }

  /******* A lost job stays lost *******/

  /** No step of a hopeless handler mails or leaves anything hopeful behind. */
  predicate StaysHopeless(h: Holder, row: Option<Outcome>, e: Effect) {
    && e.mark.Mails() == 0
    && (e.publish.Some? ==>
          e.publish.value.place != Queued(Dead)
          && (e.publish.value.msg == h.msg
              || (h.stage.Handing? && h.stage.decision.Retry?
                  && e.publish.value.msg == h.msg.(attempt := h.stage.decision.attempt))))
    && RowAfter(row, e).Some? && RowAfter(row, e) != Some(Pending)
    && match e.stage
       case Sending => false
       case Rejecting => h.stage.Rejecting?
       case Failing(decision, code) => h.stage == Failing(decision, code)
       case Handing(decision, code) => h.stage == Handing(decision, code) || h.stage == Failing(decision, code)
       case _ => true
  }

  lemma HopelessStep(h: Holder, row: Option<Outcome>, action: Action)
    requires Settled(h, row) && Next(h, row, action).Some? && row.Some? && row != Some(Pending)
    requires !h.stage.Sending? && !h.stage.Confirming?
    requires h.stage.Failing? || h.stage.Handing? ==> h.stage.decision.Retry?
    ensures StaysHopeless(h, row, Next(h, row, action).value)
  {}

  /** Every row of a lost job is closed, nobody is about to send or confirm, and what is about to fail or
      to be handed on leads to a closed row. */
  lemma LostMeans(s: State, job: nat)
    requires Inv(s) && Lost(s, job)
    ensures forall m :: m in s.issued && m.job == job ==> !OpenIn(s.ledger, m)
    ensures forall k: nat :: k < |s.holders| && s.holders[k].msg.job == job ==>
              var h := s.holders[k];
              && !h.stage.Sending? && !h.stage.Confirming?
              && (h.stage.Failing? || h.stage.Handing? ==>
                    h.stage.decision.Retry? && !OpenIn(s.ledger, h.msg.(attempt := h.stage.decision.attempt)))
  {
    forall m | m in s.issued && m.job == job
      ensures !OpenIn(s.ledger, m)
    {
      if OpenIn(s.ledger, m) {
        OpenMessageIsHopeful(s, m);
      }
    }
    forall k: nat | k < |s.holders| && s.holders[k].msg.job == job
      ensures !s.holders[k].stage.Confirming? && !HopefulHolder(s, job, k)
    {
      if s.holders[k].stage.Confirming? {
        ConfirmingIsMailed(s, k);
      }
    }
  }

  lemma LiveCopyIsHopeful(s: State, i: nat)
    requires Inv(s) && Live(s, i)
    ensures Hopeful(s, s.copies[i].msg.job)
  {
    if s.copies[i].place.Held? {
      var k := s.copies[i].place.holder;
      assert CopyOk(s, i) && HolderOk(s, k);
      if s.holders[k].stage.Confirming? {
        ConfirmingIsMailed(s, k);
      } else {
        HeldLiveIsHopeful(s, k);
      }
    } else {
      assert HopefulCopy(s, s.copies[i].msg.job, i);
    }
  }

  lemma HeldLiveIsHopeful(s: State, k: nat)
    requires IssuedOk(s) && LedgerOk(s) && k < |s.holders| && HolderOk(s, k) && s.holders[k].msg in s.issued
    requires var h := s.holders[k];
             h.attached && h.stage != Settling(true) && !h.stage.Confirming? && OpenIn(s.ledger, h.msg)
    ensures HopefulHolder(s, s.holders[k].msg.job, k)
  {
    var h := s.holders[k];
    if h.stage.Failing? && h.stage.decision.Retry? && (h.msg.job, h.msg.attempt + 1) in s.ledger {
      EarlierRows(s, h.msg.job, h.msg.attempt, h.msg.attempt + 1);
    }
  }

  lemma OpenMessageIsHopeful(s: State, m: Message)
    requires Inv(s) && m in s.issued && OpenIn(s.ledger, m)
    ensures Hopeful(s, m.job)
  {
    var i := FindCopy(s, m);
    if Live(s, i) {
      LiveCopyIsHopeful(s, i);
    } else {
      assert HopefulCopy(s, m.job, i);
    }
  }

  lemma LostActStep(s: State, i: nat, action: Action, job: nat)
    requires Inv(s) && Lost(s, job) && Step(s, Act(i, action)).Some?
    ensures Lost(Step(s, Act(i, action)).value, job)
  {
    var h := s.holders[i];
    var row := Row(s, h.msg);
    var e := Next(h, row, action).value;
    MovesOf(s, i, action, e);
    MessageOrigin(s, i);
    LostMeans(s, job);
    if h.msg.job == job {
      HopelessStep(h, row, action);
    }
    hide Inv, Next;
    LostApply(s, i, e, job);
  }

  lemma LostApplyCopy(s: State, i: nat, e: Effect, job: nat, c: nat)
    requires Moves(s, i, e) && Lost(s, job)
    requires s.holders[i].msg.job == job ==>
               && !OpenIn(s.ledger, s.holders[i].msg)
               && StaysHopeless(s.holders[i], Row(s, s.holders[i].msg), e)
    ensures !HopefulCopy(Apply(s, i, e), job, c)
  {
    assert !HopefulCopy(s, job, c) && !HopefulHolder(s, job, i);
  }

  lemma LostApplyHolder(s: State, i: nat, e: Effect, job: nat, k: nat)
    requires Moves(s, i, e) && Lost(s, job)
    requires s.holders[i].msg.job == job ==>
               && !OpenIn(s.ledger, s.holders[i].msg)
               && StaysHopeless(s.holders[i], Row(s, s.holders[i].msg), e)
    ensures !HopefulHolder(Apply(s, i, e), job, k)
  {
    assert !HopefulHolder(s, job, k);
  }

  lemma LostApply(s: State, i: nat, e: Effect, job: nat)
    requires Moves(s, i, e) && Lost(s, job)
    requires s.holders[i].msg.job == job ==>
               && !OpenIn(s.ledger, s.holders[i].msg)
               && StaysHopeless(s.holders[i], Row(s, s.holders[i].msg), e)
    ensures Lost(Apply(s, i, e), job)
  {
    hide HopefulCopy, HopefulHolder;
    forall c: nat
      ensures !HopefulCopy(Apply(s, i, e), job, c)
    {
      LostApplyCopy(s, i, e, job, c);
    }
    forall k: nat
      ensures !HopefulHolder(Apply(s, i, e), job, k)
    {
      LostApplyHolder(s, i, e, job, k);
    }
  }

  lemma LostBrokerStep(s: State, l: Label, job: nat)
    requires job in s.submitted && Lost(s, job) && Step(s, l).Some? && !l.Act?
    ensures Lost(Step(s, l).value, job)
  {
    var t := Step(s, l).value;
    forall c: nat
      ensures !HopefulCopy(t, job, c)
    {
      assert !HopefulCopy(s, job, c);
    }
    forall k: nat
      ensures !HopefulHolder(t, job, k)
    {
      assert !HopefulHolder(s, job, k);
      if l.Deliver? {
        assert !HopefulCopy(s, job, l.copy);
      }
    }
  }

  lemma {:induction false} LostRun(s: State, labels: seq<Label>, job: nat)
    requires Inv(s) && job in s.submitted && Lost(s, job) && Run(s, labels).Some?
    ensures var t := Run(s, labels).value; Inv(t) && job in t.submitted && Lost(t, job)
  {
    if labels == [] {
    } else {
      var n := |labels| - 1;
      LostRun(s, labels[..n], job);
      var mid := Run(s, labels[..n]).value;
      StepKeepsInv(mid, labels[n]);
      hide Step, Hopeful, Inv;
      if labels[n].Act? {
        LostActStep(mid, labels[n].holder, labels[n].action, job);
      } else {
        LostBrokerStep(mid, labels[n], job);
      }
    }
  }

  /** A lost job stays lost, whatever happens next: no redelivery, retry or fault brings it back. */
  lemma LostForever(s: State, labels: seq<Label>, job: nat)
    requires Reachable(s) && job in s.submitted && Lost(s, job) && Run(s, labels).Some?
    ensures Lost(Run(s, labels).value, job)
  {
    ReachableInv(s);
    LostRun(s, labels, job);
  }

  /** The run ends with a mail of the job accepted or a dead letter of it. */
  ghost predicate Resolves(s: State, labels: seq<Label>, job: nat) {
    Run(s, labels).Some? && Mails(Run(s, labels).value, job) + DeadLetters(Run(s, labels).value, job) >= 1
  }

  /** What being lost means: a job is lost exactly when no continuation whatsoever gets it mailed or
      dead-lettered. As long as it is not, a run without any fault or deferral does. */
  lemma LostIffNeverResolved(s: State, job: nat)
    requires Reachable(s) && job in s.submitted
    ensures Lost(s, job) <==> forall labels :: !Resolves(s, labels, job)
    ensures !Lost(s, job) ==> exists labels :: AllSmooth(labels) && Resolves(s, labels, job)
  {
    ReachableInv(s);
    if Lost(s, job) {
      forall labels
        ensures !Resolves(s, labels, job)
      {
        if Run(s, labels).Some? {
          LostRun(s, labels, job);
          LostIsUnresolved(Run(s, labels).value, job);
        }
      }
    } else {
      var labels := HopeIsFulfilled(s, job);
      ResolvedIsCounted(Run(s, labels).value, job);
      assert Resolves(s, labels, job);
    }
  }

  lemma LostIsUnresolved(s: State, job: nat)
    requires Lost(s, job)
    ensures Mails(s, job) + DeadLetters(s, job) == 0
  {
    DeadLettersAreTokens(s, job);
    ResolvedIsCounted(s, job);
    assert forall i: nat :: DeadCopy(s, i) && s.copies[i].msg.job == job ==> HopefulCopy(s, job, i);
  }

  /******* What loses a job *******/

  lemma SafeIsHopeful(s: State, job: nat)
    requires Inv(s) && WritesMailed(s) && Safe(s, job)
    ensures Hopeful(s, job)
  {
    if a: nat :| (job, a) in s.ledger && s.ledger[(job, a)] == Outcome.Delivered {
      assert ((job, a), Outcome.Delivered) in s.written;
    } else if i: nat :| DeadCopy(s, i) && s.copies[i].msg.job == job {
      assert HopefulCopy(s, job, i);
    } else if k: nat :| HandingOn(s, k) && s.holders[k].msg.job == job {
      assert HopefulHolder(s, job, k);
    } else {
      var i: nat :| Live(s, i) && s.copies[i].msg.job == job;
      LiveCopyIsHopeful(s, i);
    }
  }

  lemma HopeCounts(s: State, job: nat)
    requires Hopeful(s, job)
    ensures Tokens(s, job) + Mails(s, job) >= 1
  {
    NonNegativeWeights();
    MeasureNonNegative(s, TOKEN, OfJob(job));
    if i: nat :| HopefulCopy(s, job, i) {
      CopyCounts(s, TOKEN, OfJob(job), i);
    } else if k: nat :| HopefulHolder(s, job, k) {
      HolderCounts(s, TOKEN, OfJob(job), k);
    }
  }

  /** A lost job is not safe, and where no fault has split a job it is one or the other. */
  lemma LostOrSafe(s: State, job: nat)
    requires Reachable(s) && job in s.submitted
    ensures Lost(s, job) ==> !Safe(s, job)
    ensures Splits(s, job) == 0 ==> Lost(s, job) || Safe(s, job)
  {
    var labels :| Run(Initial(), labels) == Some(s);
    RunKeepsWritesMailed(labels);
    if Safe(s, job) {
      SafeIsHopeful(s, job);
    } else if Splits(s, job) == 0 {
      LostIffStranded(s, job);
      if Strands(s, job) == 0 {
        NoLoss(s, job);
      }
    }
  }

  /** Where no fault has split a job, it is lost exactly when a fault stranded it. */
  lemma LostIffStranded(s: State, job: nat)
    requires Reachable(s) && job in s.submitted && Splits(s, job) == 0
    ensures Lost(s, job) <==> Strands(s, job) >= 1
  {
    var labels :| Run(Initial(), labels) == Some(s);
    RunKeepsWritesMailed(labels);
    Conservation(s, job);
    if Strands(s, job) == 0 {
      NoLoss(s, job);
      SafeIsHopeful(s, job);
    } else if Hopeful(s, job) {
      HopeCounts(s, job);
    }
  }

  /** So a job can be lost without any splitting fault at all, by one fault only. */
  lemma SomeJobIsLost()
    ensures exists s :: ReachedWith(s, 1) && MAIL.job in s.submitted && Splits(s, MAIL.job) == 0 && Lost(s, MAIL.job)
  {
    CrashInWindowStrands();
    var s :| ReachedWith(s, 1) && OnlyStranded(s);
    var labels :| LeadsTo(labels, s, 1);
    assert Reachable(s);
    LostIffStranded(s, MAIL.job);
  }

  /******* Every job ends *******/

  lemma SmoothStepsCountNothing(s: State, l: Label, job: nat)
    requires Step(s, l).Some? && Smooth(l)
    ensures var t := Step(s, l).value;
            Splits(t, job) == Splits(s, job) && Strands(t, job) == Strands(s, job)
            && (job in s.submitted ==> job in t.submitted)
  {
    if l.Act? {
      MarksAreFaults(s.holders[l.holder], Row(s, s.holders[l.holder].msg), l.action);
    }
  }

  lemma {:induction false} SmoothRunsCountNothing(s: State, labels: seq<Label>, job: nat)
    requires Run(s, labels).Some? && AllSmooth(labels)
    ensures var t := Run(s, labels).value;
            Splits(t, job) == Splits(s, job) && Strands(t, job) == Strands(s, job)
            && (job in s.submitted ==> job in t.submitted)
  {
    if labels == [] {
    } else {
      var n := |labels| - 1;
      SmoothRunsCountNothing(s, labels[..n], job);
      SmoothStepsCountNothing(Run(s, labels[..n]).value, labels[n], job);
    }
  }

  /** Once faults and deferrals stop, a job that no fault has split or stranded comes to rest with
      exactly one mail or dead letter. */
  lemma EndsWithOne(s: State, job: nat)
    requires Reachable(s) && job in s.submitted && Splits(s, job) == 0 && Strands(s, job) == 0
    ensures exists labels :: AllSmooth(labels) && Run(s, labels).Some?
                             && Quiet(Run(s, labels).value, job)
                             && Mails(Run(s, labels).value, job) + DeadLetters(Run(s, labels).value, job) == 1
  {
    ReachableInv(s);
    var labels := ComesToRest(s, job);
    SmoothRunsCountNothing(s, labels, job);
    var before :| Run(Initial(), before) == Some(s);
    RunAppends(Initial(), before, labels);
    assert Run(Initial(), before + labels) == Run(s, labels);
    FinishedJob(Run(s, labels).value, job);
  }
}
