/** Whole runs: every run is bounded by its submissions, deferrals and faults. */
module DeliveryRuns {
  import opened Contracts
  import opened Delivery
  import opened DeliveryStructure
  import opened DeliveryMeasures
  import opened DeliveryAccounting
  import opened DeliveryHandover

  /******* Progress *******/

  /** Submissions, deferral decisions and faults; every other step is progress. */
  predicate Costly(l: Label) {
    match l
    case Submit(_) => true
    case Deliver(_) => false
    case Expire(_) => false
    case Act(_, action) =>
      match action
      case Admit(allowed, breakerOpen) => !allowed || breakerOpen
      case AdmitThrew => true
      case Publish(reply) => reply != Done
      case Insert(reply) => reply != Done
      case Select(ok) => !ok
      case Send(result) => result.Refused? && result.error.Unexpected?
      case Complete(reply) => reply != Done
      case Settle => false
      case Crash => true
      case Detach => true
  }

  /** What one attempt, with all the attempts after it, can still take. */
  function Budget(attempt: nat): nat { 20 * Left(attempt) }

  function CopyRank(place: Place, attempt: nat, open: bool): int {
    match place
    case Queued(Main) => Budget(attempt) + 15
    case Queued(Tier(_)) => Budget(attempt) + 16
    case _ => 0
  }

  function HolderRank(stage: Stage, attached: bool, attempt: nat, open: bool): int {
    match stage
    case Taken => Budget(attempt) + 14
    case Rejecting => Budget(attempt) + 14
    case Deferring(_) => Budget(attempt) + 18
    case Inserting => Budget(attempt) + 13
    case Checking => Budget(attempt) + 12
    case Sending => Budget(attempt) + 11
    case Confirming => 5
    case Failing(_, _) => Budget(attempt) + 1
    case Handing(_, _) => Budget(attempt)
    case Announcing(_) => 3
    case Settling(ack) => if ack then 1 else Budget(attempt) + 16
    case Gone => 0
  }

  const RANK := Weight(CopyRank, HolderRank)

  function AnyMessage(): Message -> bool { (m: Message) => true }

  ghost function Rank(s: State): int { Measure(s, RANK, AnyMessage()) }

  const COST := 140

  predicate RankOk(h: Holder, e: Effect, costly: bool) {
    var a := h.msg.attempt;
    HolderRank(e.stage, e.attached, a, true) - HolderRank(h.stage, h.attached, a, true)
    + (if e.release.Some? then CopyRank(e.release.value, a, true) else 0)
    + (if e.publish.Some? then CopyRank(e.publish.value.place, e.publish.value.msg.attempt, true) else 0)
    <= (if costly then COST else 0) - 1
  }

  lemma PublishRank(h: Holder, row: Option<Outcome>, reply: Reply)
    requires Settled(h, row) && OnPublish(h, reply).Some?
    ensures RankOk(h, OnPublish(h, reply).value, reply != Done)
  {}

  lemma FaultRank(h: Holder, row: Option<Outcome>)
    requires Settled(h, row) && !h.stage.Gone?
    ensures RankOk(h, Die(h, row), true)
    ensures h.attached ==> RankOk(h, LoseConnection(h, row), true)
  {}

  lemma SendRank(h: Holder, row: Option<Outcome>, result: SendResult)
    requires Settled(h, row) && h.stage.Sending?
    ensures RankOk(h, SendMail(h, result), Costly(Act(0, Send(result))))
  {}

  lemma CompleteRank(h: Holder, row: Option<Outcome>, reply: Reply)
    requires Settled(h, row) && OnComplete(h, row, reply).Some?
    ensures RankOk(h, OnComplete(h, row, reply).value, reply != Done)
  {}

  lemma RankBalance(h: Holder, row: Option<Outcome>, i: nat, action: Action)
    requires Settled(h, row) && Next(h, row, action).Some?
    ensures RankOk(h, Next(h, row, action).value, Costly(Act(i, action)))
  {
    match action
    case Publish(reply) => PublishRank(h, row, reply);
    case Send(result) => SendRank(h, row, result);
    case Complete(reply) => CompleteRank(h, row, reply);
    case Crash => FaultRank(h, row);
    case Detach => FaultRank(h, row);
    case _ =>
  }

  lemma ApplyRank(s: State, i: nat, e: Effect, costly: bool)
    requires Moves(s, i, e) && RankOk(s.holders[i], e, costly)
    ensures Rank(Apply(s, i, e)) <= Rank(s) + (if costly then COST else 0) - 1
  {
    ApplyFlat(s, i, e, RANK, AnyMessage());
  }

  lemma StepRank(s: State, l: Label)
    requires WellFormed(s) && Step(s, l).Some?
    ensures Rank(Step(s, l).value) <= Rank(s) + (if Costly(l) then COST else 0) - 1
  {
    if l.Act? {
      var h := s.holders[l.holder];
      var e := Next(h, Row(s, h.msg), l.action).value;
      MovesOf(s, l.holder, l.action, e);
      RankBalance(h, Row(s, h.msg), l.holder, l.action);
      ApplyRank(s, l.holder, e, Costly(l));
    } else {
      BrokerMeasure(s, l, RANK, AnyMessage());
    }
  }

  function Costs(labels: seq<Label>): nat {
    if labels == [] then 0 else Costs(labels[..|labels| - 1]) + (if Costly(labels[|labels| - 1]) then 1 else 0)
  }

  lemma {:induction false} RunRank(labels: seq<Label>)
    requires Run(Initial(), labels).Some?
    ensures WellFormed(Run(Initial(), labels).value)
    ensures Rank(Run(Initial(), labels).value) + |labels| <= COST * Costs(labels)
  {
    if labels == [] {
      InitialInv();
    } else {
      var n := |labels| - 1;
      RunRank(labels[..n]);
      StepKeepsWellFormed(Run(Initial(), labels[..n]).value, labels[n]);
      StepRank(Run(Initial(), labels[..n]).value, labels[n]);
    }
  }

  lemma RankNonNegative(s: State)
    ensures Rank(s) >= 0
  {
    assert NonNegative(RANK);
    MeasureNonNegative(s, RANK, AnyMessage());
  }

  /** Bounded work over whole runs: the system can only keep moving if jobs keep being submitted or
      deferred or faults keep happening. There is no livelock in retries and redeliveries alone. */
  lemma RunsAreBounded(labels: seq<Label>)
    requires Run(Initial(), labels).Some?
    ensures |labels| <= 140 * Costs(labels)
  {
    RunRank(labels);
    RankNonNegative(Run(Initial(), labels).value);
  }

  /******* Settling *******/

  function Settles(labels: seq<Label>, k: nat): nat {
    if labels == [] then 0
    else Settles(labels[..|labels| - 1], k) + (if labels[|labels| - 1] == Act(k, Settle) then 1 else 0)
  }

  function Crashes(labels: seq<Label>, k: nat): nat {
    if labels == [] then 0
    else Crashes(labels[..|labels| - 1], k) + (if labels[|labels| - 1] == Act(k, Crash) then 1 else 0)
  }

  lemma StepToGone(s: State, l: Label, k: nat)
    requires Step(s, l).Some?
    ensures var t := Step(s, l).value;
            && |s.holders| <= |t.holders|
            && (k < |t.holders| && t.holders[k].stage.Gone? <==>
                (k < |s.holders| && s.holders[k].stage.Gone?) || l == Act(k, Settle) || l == Act(k, Crash))
            && ((l == Act(k, Settle) || l == Act(k, Crash)) ==> k < |s.holders| && !s.holders[k].stage.Gone?)
  {
    if l.Act? && l.holder == k {
      GoneByLeaving(s.holders[k], Row(s, s.holders[k].msg), l.action);
    }
  }

  lemma GoneByLeaving(h: Holder, row: Option<Outcome>, action: Action)
    requires Next(h, row, action).Some?
    ensures Next(h, row, action).value.stage.Gone? <==> h.stage.Gone? || action.Settle? || action.Crash?
    ensures action.Settle? || action.Crash? ==> !h.stage.Gone?
  {}

  /** Every activation of the handler settles its delivery at most once, and has settled it exactly
      once when it has ended, unless its process died first. */
  lemma {:induction false} SettledOnce(labels: seq<Label>, k: nat)
    requires Run(Initial(), labels).Some?
    ensures var s := Run(Initial(), labels).value;
            Settles(labels, k) + Crashes(labels, k) == if k < |s.holders| && s.holders[k].stage.Gone? then 1 else 0
  {
    if labels == [] {
    } else {
      var n := |labels| - 1;
      SettledOnce(labels[..n], k);
      StepToGone(Run(Initial(), labels[..n]).value, labels[n], k);
    }
  }
}
