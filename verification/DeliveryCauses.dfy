/** What in a run lies behind every retry, dead letter, ledger outcome and status event: how the send of
    the attempt ended. */
module DeliveryCauses {
  import opened Contracts
  import opened RetryPolicy
  import opened Delivery
  import opened DeliveryStructure
  import opened DeliveryHandover

  /** Step `k` of the run is the send of message `msg` by handler `i`, and this is how it ended. */
  ghost predicate SendStep(labels: seq<Label>, k: nat, i: nat, msg: Message, result: SendResult) {
    && k < |labels| && labels[k] == Act(i, Send(result))
    && Run(Initial(), labels[..k]).Some?
    && var s := Run(Initial(), labels[..k]).value;
       i < |s.holders| && s.holders[i].msg == msg && s.holders[i].stage == Sending
  }

  /** A mail of the message was accepted. */
  ghost predicate Mailed(labels: seq<Label>, i: nat, msg: Message) {
    msg.provider == Smtp && exists k: nat :: SendStep(labels, k, i, msg, Accepted)
  }

  /** A send of the message threw this error; for a provider other than SMTP any send throws the
      permanent rejection. */
  ghost predicate ThrewError(labels: seq<Label>, i: nat, msg: Message, error: SendError) {
    exists k: nat, result ::
      && SendStep(labels, k, i, msg, result)
      && if msg.provider == Smtp then result.Refused? && result.error == error
         else error == Permanent(ProviderRejected)
  }

  /** The message failed with this code, to be tried again or to be dead-lettered: it is tried again
      exactly after a transient error before the fifth retry. */
  ghost predicate FailedWith(labels: seq<Label>, i: nat, msg: Message, retried: bool, code: ErrorCode) {
    if retried then msg.attempt < 5 && ThrewError(labels, i, msg, Transient(code))
    else
      || ThrewError(labels, i, msg, Permanent(code))
      || (msg.attempt >= 5 && ThrewError(labels, i, msg, Transient(code)))
  }

  lemma StepStays(labels: seq<Label>, l: Label, k: nat, i: nat, msg: Message, result: SendResult)
    requires SendStep(labels, k, i, msg, result)
    ensures SendStep(labels + [l], k, i, msg, result)
  {
    assert (labels + [l])[..k] == labels[..k];
  }

  lemma CausesStay(labels: seq<Label>, l: Label, i: nat, msg: Message)
    ensures Mailed(labels, i, msg) ==> Mailed(labels + [l], i, msg)
    ensures forall error :: ThrewError(labels, i, msg, error) ==> ThrewError(labels + [l], i, msg, error)
  {
    if Mailed(labels, i, msg) {
      var k: nat :| SendStep(labels, k, i, msg, Accepted);
      StepStays(labels, l, k, i, msg, Accepted);
    }
    forall error | ThrewError(labels, i, msg, error)
      ensures ThrewError(labels + [l], i, msg, error)
    {
      var k: nat, result :|
        && SendStep(labels, k, i, msg, result)
        && if msg.provider == Smtp then result.Refused? && result.error == error
           else error == Permanent(ProviderRejected);
      StepStays(labels, l, k, i, msg, result);
    }
  }

  /******* What is caused *******/

  ghost predicate StageCaused(labels: seq<Label>, i: nat, msg: Message, stage: Stage) {
    match stage
    case Confirming => Mailed(labels, i, msg)
    case Failing(decision, code) => FailedWith(labels, i, msg, decision.Retry?, code)
    case Handing(decision, code) => FailedWith(labels, i, msg, decision.Retry?, code)
    case Announcing(event) => event.job == msg.job && EventOf(labels, i, msg, event)
    case _ => true
  }

  /** The event that reports how the send of the message ended. */
  ghost predicate EventOf(labels: seq<Label>, i: nat, msg: Message, event: StatusEvent) {
    match event.status
    case Delivered => event.attempt == msg.attempt && event.code == None && Mailed(labels, i, msg)
    case RetryScheduled =>
      event.attempt == msg.attempt + 1 && event.code.Some? && FailedWith(labels, i, msg, true, event.code.value)
    case DeadLettered =>
      event.attempt == msg.attempt && event.code.Some? && FailedWith(labels, i, msg, false, event.code.value)
  }

  ghost predicate EventCaused(labels: seq<Label>, event: StatusEvent) {
    exists i: nat, msg: Message :: msg.job == event.job && EventOf(labels, i, msg, event)
  }

  ghost predicate Retried(labels: seq<Label>, msg: Message) {
    exists i: nat, code :: FailedWith(labels, i, msg, true, code)
  }

  ghost predicate GivenUp(labels: seq<Label>, msg: Message) {
    exists i: nat, code :: FailedWith(labels, i, msg, false, code)
  }

  ghost predicate IssueCaused(labels: seq<Label>, m: Message) {
    m.attempt > 0 ==> Retried(labels, m.(attempt := m.attempt - 1))
  }

  ghost predicate BurialCaused(labels: seq<Label>, m: Message) { m.valid ==> GivenUp(labels, m) }

  ghost predicate WriteCaused(labels: seq<Label>, w: (Key, Outcome)) {
    match w.1
    case Pending => true
    case Delivered => exists i: nat, msg: Message :: KeyOf(msg) == w.0 && Mailed(labels, i, msg)
    case Failed => exists msg: Message :: KeyOf(msg) == w.0 && (Retried(labels, msg) || GivenUp(labels, msg))
  }

  ghost predicate Caused(labels: seq<Label>, s: State) {
    && (forall k: nat :: k < |s.holders| ==> StageCaused(labels, k, s.holders[k].msg, s.holders[k].stage))
    && (forall event :: event in s.events ==> EventCaused(labels, event))
    && (forall m :: m in s.issued ==> IssueCaused(labels, m))
    && (forall m :: m in s.buried ==> BurialCaused(labels, m))
    && (forall w :: w in s.written ==> WriteCaused(labels, w))
  }

  /******* Every step is caused *******/

  /** What a step does is caused. */
  ghost predicate EffectCaused(labels: seq<Label>, i: nat, h: Holder, e: Effect) {
    && StageCaused(labels, i, h.msg, e.stage)
    && (e.event.Some? ==> EventCaused(labels, e.event.value))
    && (e.write.Some? ==> WriteCaused(labels, (KeyOf(h.msg), e.write.value)))
    && (e.publish.Some? ==>
          var c := e.publish.value;
          if c.place == Queued(Dead) then BurialCaused(labels, c.msg)
          else c.msg == h.msg || IssueCaused(labels, c.msg))
  }

  lemma SendCauses(labels: seq<Label>, s: State, i: nat, result: SendResult)
    requires Run(Initial(), labels) == Some(s) && i < |s.holders| && s.holders[i].stage == Sending
    ensures EffectCaused(labels + [Act(i, Send(result))], i, s.holders[i], SendMail(s.holders[i], result))
  {
    var h, k := s.holders[i], |labels|;
    var longer := labels + [Act(i, Send(result))];
    assert longer[..k] == labels;
    hide Run;
    assert SendStep(longer, k, i, h.msg, result);
  }

  lemma CompleteCauses(labels: seq<Label>, i: nat, h: Holder, row: Option<Outcome>, reply: Reply)
    requires StageCaused(labels, i, h.msg, h.stage) && OnComplete(h, row, reply).Some?
    ensures EffectCaused(labels, i, h, OnComplete(h, row, reply).value)
  {
    if h.stage.Confirming? {
      assert WriteCaused(labels, (KeyOf(h.msg), Outcome.Delivered));
    } else {
      assert FailedWith(labels, i, h.msg, h.stage.decision.Retry?, h.stage.code);
      assert WriteCaused(labels, (KeyOf(h.msg), Outcome.Failed));
    }
  }

  lemma HandOverCauses(labels: seq<Label>, i: nat, h: Holder, decision: FailureDecision, code: ErrorCode, reply: Reply)
    requires FailedWith(labels, i, h.msg, decision.Retry?, code) && DecisionOk(decision, h.msg.attempt)
    ensures EffectCaused(labels, i, h, HandOver(h, decision, code, reply))
  {
    hide FailedWith;
    var event, msg := FailureEvent(h.msg, decision, code), Successor(h.msg, decision).msg;
    assert EventOf(labels, i, h.msg, event);
    if decision.Retry? {
      assert msg.(attempt := msg.attempt - 1) == h.msg;
      assert Retried(labels, h.msg) && IssueCaused(labels, msg);
    } else {
      assert GivenUp(labels, h.msg) && BurialCaused(labels, msg);
    }
    hide EventOf, Retried, GivenUp, IssueCaused, BurialCaused, DecisionOk;
  }

  lemma PublishCauses(labels: seq<Label>, i: nat, h: Holder, reply: Reply)
    requires StageCaused(labels, i, h.msg, h.stage) && OnPublish(h, reply).Some?
    requires h.stage.Rejecting? ==> !h.msg.valid
    requires h.stage.Handing? ==> DecisionOk(h.stage.decision, h.msg.attempt)
    ensures EffectCaused(labels, i, h, OnPublish(h, reply).value)
  {
    hide FailedWith, Mailed, EventOf, GivenUp, IssueCaused;
    match h.stage
    case Handing(decision, code) =>
      hide EffectCaused, DecisionOk;
      HandOverCauses(labels, i, h, decision, code, reply);
    case _ =>
  }

  /** What any other step does is caused by what brought the handler to its stage. */
  lemma StepCauses(labels: seq<Label>, i: nat, h: Holder, row: Option<Outcome>, action: Action)
    requires StageCaused(labels, i, h.msg, h.stage) && Next(h, row, action).Some? && !action.Send?
    requires h.stage.Rejecting? ==> !h.msg.valid
    requires h.stage.Handing? ==> DecisionOk(h.stage.decision, h.msg.attempt)
    ensures EffectCaused(labels, i, h, Next(h, row, action).value)
  {
    match action
    case Publish(reply) => PublishCauses(labels, i, h, reply);
    case Complete(reply) => CompleteCauses(labels, i, h, row, reply);
    case _ =>
  }

  lemma FailureStays(labels: seq<Label>, l: Label, i: nat, msg: Message, retried: bool, code: ErrorCode)
    requires FailedWith(labels, i, msg, retried, code)
    ensures FailedWith(labels + [l], i, msg, retried, code)
  {
    CausesStay(labels, l, i, msg);
  }

  lemma VerdictStays(labels: seq<Label>, l: Label, msg: Message)
    ensures Retried(labels, msg) ==> Retried(labels + [l], msg)
    ensures GivenUp(labels, msg) ==> GivenUp(labels + [l], msg)
  {
    hide FailedWith;
    if i: nat, code :| FailedWith(labels, i, msg, true, code) {
      FailureStays(labels, l, i, msg, true, code);
    }
    if i: nat, code :| FailedWith(labels, i, msg, false, code) {
      FailureStays(labels, l, i, msg, false, code);
    }
  }

  lemma StageStays(labels: seq<Label>, l: Label, i: nat, msg: Message, stage: Stage)
    requires StageCaused(labels, i, msg, stage)
    ensures StageCaused(labels + [l], i, msg, stage)
  {
    CausesStay(labels, l, i, msg);
    hide FailedWith, Mailed;
    match stage
    case Failing(decision, code) => FailureStays(labels, l, i, msg, decision.Retry?, code);
    case Handing(decision, code) => FailureStays(labels, l, i, msg, decision.Retry?, code);
    case Announcing(event) => EventOfStays(labels, l, i, msg, event);
    case _ =>
  }

  lemma EventOfStays(labels: seq<Label>, l: Label, i: nat, msg: Message, event: StatusEvent)
    requires EventOf(labels, i, msg, event)
    ensures EventOf(labels + [l], i, msg, event)
  {
    CausesStay(labels, l, i, msg);
    hide FailedWith, Mailed;
    match event.status
    case Delivered =>
    case RetryScheduled => FailureStays(labels, l, i, msg, true, event.code.value);
    case DeadLettered => FailureStays(labels, l, i, msg, false, event.code.value);
  }

  lemma EventStays(labels: seq<Label>, l: Label, event: StatusEvent)
    requires EventCaused(labels, event)
    ensures EventCaused(labels + [l], event)
  {
    var i: nat, msg: Message :| msg.job == event.job && EventOf(labels, i, msg, event);
    EventOfStays(labels, l, i, msg, event);
  }

  lemma WriteStays(labels: seq<Label>, l: Label, w: (Key, Outcome))
    requires WriteCaused(labels, w)
    ensures WriteCaused(labels + [l], w)
  {
    hide Mailed, Retried, GivenUp;
    forall msg: Message
      ensures Retried(labels, msg) ==> Retried(labels + [l], msg)
      ensures GivenUp(labels, msg) ==> GivenUp(labels + [l], msg)
    {
      VerdictStays(labels, l, msg);
    }
    forall i: nat, msg: Message
      ensures Mailed(labels, i, msg) ==> Mailed(labels + [l], i, msg)
    {
      CausesStay(labels, l, i, msg);
    }
  }

  lemma CausedLater(labels: seq<Label>, l: Label, s: State)
    requires Caused(labels, s)
    ensures Caused(labels + [l], s)
  {
    hide StageCaused, EventCaused, WriteCaused, Retried, GivenUp;
    forall k: nat | k < |s.holders|
      ensures StageCaused(labels + [l], k, s.holders[k].msg, s.holders[k].stage)
    {
      StageStays(labels, l, k, s.holders[k].msg, s.holders[k].stage);
    }
    forall event | event in s.events
      ensures EventCaused(labels + [l], event)
    {
      EventStays(labels, l, event);
    }
    forall m | m in s.issued
      ensures IssueCaused(labels + [l], m)
    {
      if m.attempt > 0 {
        VerdictStays(labels, l, m.(attempt := m.attempt - 1));
      }
    }
    forall m | m in s.buried
      ensures BurialCaused(labels + [l], m)
    {
      VerdictStays(labels, l, m);
    }
    forall w | w in s.written
      ensures WriteCaused(labels + [l], w)
    {
      WriteStays(labels, l, w);
    }
  }

  lemma ApplyIsCaused(labels: seq<Label>, s: State, i: nat, e: Effect)
    requires Caused(labels, s) && i < |s.holders| && EffectCaused(labels, i, s.holders[i], e)
    requires s.holders[i].msg in s.issued
    ensures Caused(labels, Apply(s, i, e))
  {
    hide StageCaused, EventCaused, WriteCaused, BurialCaused, IssueCaused;
  }

  lemma ActHasCause(labels: seq<Label>, s: State, i: nat, action: Action)
    requires WellFormed(s) && Caused(labels, s) && Run(Initial(), labels) == Some(s) && Step(s, Act(i, action)).Some?
    ensures i < |s.holders| && s.holders[i].msg in s.issued
    ensures var h := s.holders[i];
            EffectCaused(labels + [Act(i, action)], i, h, Next(h, Row(s, h.msg), action).value)
  {
    var h, l := s.holders[i], Act(i, action);
    MessageOrigin(s, i);
    assert HolderOk(s, i);
    assert StageCaused(labels, i, h.msg, h.stage);
    hide Run, WellFormed, Caused, StageCaused, EffectCaused;
    if action.Send? {
      SendCauses(labels, s, i, action.result);
    } else {
      StageStays(labels, l, i, h.msg, h.stage);
      StepCauses(labels + [l], i, h, Row(s, h.msg), action);
    }
  }

  lemma ActIsCaused(labels: seq<Label>, s: State, i: nat, action: Action)
    requires WellFormed(s) && Caused(labels, s) && Run(Initial(), labels) == Some(s) && Step(s, Act(i, action)).Some?
    ensures Caused(labels + [Act(i, action)], Step(s, Act(i, action)).value)
  {
    hide Run, WellFormed, Caused, EffectCaused;
    CausedLater(labels, Act(i, action), s);
    ActHasCause(labels, s, i, action);
    hide Next;
    var h := s.holders[i];
    ApplyIsCaused(labels + [Act(i, action)], s, i, Next(h, Row(s, h.msg), action).value);
  }

  lemma BrokerIsCaused(labels: seq<Label>, s: State, l: Label)
    requires Caused(labels, s) && Step(s, l).Some? && !l.Act?
    ensures Caused(labels + [l], Step(s, l).value)
  {
    CausedLater(labels, l, s);
    hide EventCaused, WriteCaused, BurialCaused;
  }

  lemma StepIsCaused(labels: seq<Label>, s: State, l: Label)
    requires WellFormed(s) && Caused(labels, s) && Run(Initial(), labels) == Some(s) && Step(s, l).Some?
    ensures Caused(labels + [l], Step(s, l).value)
  {
    hide WellFormed, Caused, Run, Step;
    if l.Act? {
      ActIsCaused(labels, s, l.holder, l.action);
    } else {
      BrokerIsCaused(labels, s, l);
    }
  }

  lemma {:induction false} RunIsCaused(labels: seq<Label>)
    requires Run(Initial(), labels).Some?
    ensures WellFormed(Run(Initial(), labels).value) && Caused(labels, Run(Initial(), labels).value)
  {
    hide Step;
    if labels == [] {
      InitialInv();
    } else {
      var n := |labels| - 1;
      var s, l := Run(Initial(), labels[..n]).value, labels[n];
      hide WellFormed, Caused;
      RunIsCaused(labels[..n]);
      assert labels == labels[..n] + [l];
      StepKeepsWellFormed(s, l);
      StepIsCaused(labels[..n], s, l);
    }
  }

  /******* What the causes come to *******/

  ghost predicate FailedForGood(labels: seq<Label>, msg: Message) {
    exists i: nat, code :: ThrewError(labels, i, msg, Permanent(code))
  }

  ghost predicate FailedForNow(labels: seq<Label>, msg: Message) {
    exists i: nat, code :: ThrewError(labels, i, msg, Transient(code))
  }

  /** In every run a valid message is dead-lettered before its last attempt only if some send of it ended
      in a permanent error (as every send does for a provider that is not registered), and its next
      attempt is published only if some send of it ended in a transient one. */
  lemma ErrorsDecide(labels: seq<Label>, m: Message)
    requires Run(Initial(), labels).Some?
    ensures m in Run(Initial(), labels).value.buried && m.valid ==>
              FailedForGood(labels, m) || (m.attempt >= 5 && FailedForNow(labels, m))
    ensures m in Run(Initial(), labels).value.issued && m.attempt > 0 ==>
              m.attempt <= 5 && FailedForNow(labels, m.(attempt := m.attempt - 1))
  {
    hide WellFormed, GivenUp, Retried, FailedForGood, FailedForNow, EventCaused, WriteCaused, StageCaused, Run;
    RunIsCaused(labels);
    var s := Run(Initial(), labels).value;
    if m in s.buried && m.valid {
      assert BurialCaused(labels, m);
      WhyGivenUp(labels, m);
    }
    if m in s.issued && m.attempt > 0 {
      assert IssueCaused(labels, m);
      WhyRetried(labels, m.(attempt := m.attempt - 1));
    }
  }

  lemma WhyGivenUp(labels: seq<Label>, msg: Message)
    requires GivenUp(labels, msg)
    ensures FailedForGood(labels, msg) || (msg.attempt >= 5 && FailedForNow(labels, msg))
  {
    hide ThrewError;
    var i: nat, code :| FailedWith(labels, i, msg, false, code);
  }

  lemma WhyRetried(labels: seq<Label>, msg: Message)
    requires Retried(labels, msg)
    ensures msg.attempt < 5 && FailedForNow(labels, msg)
  {
    hide ThrewError;
    var i: nat, code :| FailedWith(labels, i, msg, true, code);
  }

  /** Every status event ever published tells how the send of the handler that published it ended: an
      accepted mail without a code, a failure with the code of its error, scheduled for the next attempt
      if the error was transient before the last one, dead-lettered if not. */
  lemma EventsTellTheCause(labels: seq<Label>, event: StatusEvent)
    requires Run(Initial(), labels).Some? && event in Run(Initial(), labels).value.events
    ensures EventCaused(labels, event)
  {
    RunIsCaused(labels);
  }

  /******* What is counted *******/

  /** The calls of the mail client made for a job, and the mails the server accepted for it. */
  function Sends(labels: seq<Label>, job: nat): nat {
    if labels == [] then 0
    else
      var before, last := labels[..|labels| - 1], labels[|labels| - 1];
      Sends(before, job) + if CallsClient(Run(Initial(), before), last, job) then 1 else 0
  }

  function AcceptedMails(labels: seq<Label>, job: nat): nat {
    if labels == [] then 0
    else
      var before, last := labels[..|labels| - 1], labels[|labels| - 1];
      var mailed := CallsClient(Run(Initial(), before), last, job)
                    && (last.action.result == Accepted || last.action.result.mailed);
      AcceptedMails(before, job) + if mailed then 1 else 0
  }

  predicate CallsClient(s: Option<State>, l: Label, job: nat) {
    && s.Some? && l.Act? && l.action.Send? && l.holder < |s.value.holders|
    && s.value.holders[l.holder].msg.job == job && s.value.holders[l.holder].msg.provider == Smtp
  }

  lemma MarkCounts(h: Holder, row: Option<Outcome>, action: Action)
    requires Next(h, row, action).Some?
    ensures var calls, mark := action.Send? && h.msg.provider == Smtp, Next(h, row, action).value.mark;
            && mark.Calls() == (if calls then 1 else 0)
            && mark.Mails() == (if calls && (action.result == Accepted || action.result.mailed) then 1 else 0)
  {}

  lemma StepCounts(s: State, l: Label, job: nat)
    requires Step(s, l).Some?
    ensures var t, calls := Step(s, l).value, CallsClient(Some(s), l, job);
            && Calls(t, job) == Calls(s, job) + (if calls then 1 else 0)
            && Mails(t, job) == Mails(s, job)
                 + (if calls && (l.action.result == Accepted || l.action.result.mailed) then 1 else 0)
  {
    if l.Act? {
      MarkCounts(s.holders[l.holder], Row(s, s.holders[l.holder].msg), l.action);
      hide Next;
    }
  }

  /** The counts of calls and mails are those of the sends in the run. */
  lemma {:induction false} CountsAreSends(labels: seq<Label>, job: nat)
    requires Run(Initial(), labels).Some?
    ensures Calls(Run(Initial(), labels).value, job) == Sends(labels, job)
    ensures Mails(Run(Initial(), labels).value, job) == AcceptedMails(labels, job)
  {
    if labels == [] {
    } else {
      var n := |labels| - 1;
      CountsAreSends(labels[..n], job);
      StepCounts(Run(Initial(), labels[..n]).value, labels[n], job);
      hide Step;
    }
  }
}
