/** What the steps of a handler come to, whatever the step: which calls take effect, what an exception
    leads to, and how a handler comes to send and to acknowledge. */
module DeliverySteps {
  import opened Contracts
  import opened RetryPolicy
  import opened Delivery
  import opened DeliveryLog
  import opened Providers

  /** The call of this step throws an exception that nothing handles. A provider error is handled. */
  predicate Raises(h: Holder, action: Action) {
    match action
    case AdmitThrew => true
    case Publish(reply) => reply != Done
    case Insert(reply) => reply != Done
    case Select(ok) => !ok
    case Complete(reply) => reply != Done
    case Send(result) => h.msg.provider == Smtp && result.Refused? && result.error.Unexpected?
    case _ => false
  }

  /** An exception that nothing handles leads straight to a requeue, and nothing else does. Straight to
      an acknowledgement lead the publish of the dead letter of an invalid body, of a deferred message
      and of a status event, and the finding that the attempt is already closed. */
  lemma HowHandlersEnd(h: Holder, row: Option<Outcome>, action: Action)
    requires Next(h, row, action).Some?
    ensures var stage := Next(h, row, action).value.stage;
            if action.Detach? then stage == h.stage
            else
              && (stage == Settling(false) <==> Raises(h, action))
              && (stage == Settling(true) <==>
                  || (action == Publish(Done) && !h.stage.Handing?)
                  || (action == Select(true) && row != Some(Pending)))
              && (stage == Gone <==> action.Settle? || action.Crash?)
  {}

  /** An attempt is sent exactly when its row was just inserted or was found still pending. */
  lemma SentWhenReserved(h: Holder, row: Option<Outcome>, action: Action)
    requires Next(h, row, action).Some? && !action.Detach?
    ensures Next(h, row, action).value.stage == Sending <==>
            (action == Insert(Done) && row == None) || (action == Select(true) && row == Some(Pending))
  {}

  /** Where a send leads: to the confirmation of the mail, to the next attempt, or to the dead letter. */
  lemma SendLeads(h: Holder, row: Option<Outcome>, result: SendResult)
    requires Next(h, row, Send(result)).Some? && (result.Refused? ==> !result.error.Unexpected?)
    ensures var stage, a := Next(h, row, Send(result)).value.stage, h.msg.attempt;
            if h.msg.provider != Smtp then stage == Failing(DeadLetter, ProviderRejected)
            else if result == Accepted then stage == Confirming
            else if result.error.Transient? && a < 5 then
              stage == Failing(Retry(a + 1, a + 1, [5, 30, 120, 600, 1800][a]), result.error.code)
            else stage == Failing(DeadLetter, result.error.code)
  {}

  /** A call takes effect exactly when it returns normally or throws after the other side has acted:
      a publish puts its copy or its status event out, the INSERT adds a PENDING row where there was
      none, the UPDATE changes a row that is there. The broker gets a copy back from a handler that is
      still attached when it settles or breaks down. Nothing else changes anything. */
  lemma CallsTakeEffect(h: Holder, row: Option<Outcome>, action: Action)
    requires Next(h, row, action).Some?
    ensures var e := Next(h, row, action).value;
            && (e.publish.Some? <==> action.Publish? && action.reply != Threw(false) && !h.stage.Announcing?)
            && (e.event.Some? <==> action.Publish? && action.reply != Threw(false) && h.stage.Announcing?)
            && (e.event.Some? ==> e.event == Some(h.stage.event))
            && (e.write == Some(Pending) <==> action.Insert? && action.reply != Threw(false) && row == None)
            && (e.write == Some(Outcome.Delivered) <==>
                action.Complete? && action.reply != Threw(false) && row.Some? && h.stage.Confirming?)
            && (e.write == Some(Failed) <==>
                action.Complete? && action.reply != Threw(false) && row.Some? && h.stage.Failing?)
            && (e.attached <==> h.attached && !action.Settle? && !action.Crash? && !action.Detach?)
            && (e.release.Some? <==> h.attached && (action.Settle? || action.Crash? || action.Detach?))
            && (e.release.Some? ==>
                  e.release == Some(if action.Settle? && h.stage == Settling(true) then Acked else Queued(Main)))
  {}

  /******* What the breaker hears *******/

  /** In every run a handler that has sent has asked the limiter and then the breaker, and has told the
      breaker of an accepted mail and of every error but a permanent one: of a recipient or a message
      the provider will never take, and of a provider that is not registered, the breaker hears nothing. */
  lemma SendsAreTold(labels: seq<Label>, h: nat, result: SendResult)
    requires Run(Initial(), labels + [Act(h, Send(result))]).Some?
    ensures Run(Initial(), labels).Some? && h < |Run(Initial(), labels).value.holders|
    ensures var msg := Run(Initial(), labels).value.holders[h].msg;
            Expected(labels + [Act(h, Send(result))], h) ==
              [(LimiterKey(msg), Granted), (ProviderName(msg.provider), LetThrough)]
              + (if msg.provider != Smtp then []
                 else if result == Accepted then [("smtp", ToldSuccess)]
                 else if result.error.Permanent? then []
                 else [("smtp", ToldFailure)])
  {
    var l := Act(h, Send(result));
    assert (labels + [l])[..|labels|] == labels;
    HeardAtStage(labels, h);
    NextLabel(labels, l, h);
    hide Expected, Run;
  }

  /** Once the mail is accepted the breaker hears of a failure exactly when closing the row or publishing
      the status event of the delivery throws; no other step tells it anything. */
  lemma LateFailuresAreTold(h: Holder, row: Option<Outcome>, action: Action)
    requires Next(h, row, action).Some? && !action.Send?
    ensures var late := h.stage.Confirming? || (h.stage.Announcing? && h.stage.event.status == Status.Delivered);
            if late && Raises(h, action) then Reports(h, action) == [(ProviderName(h.msg.provider), ToldFailure)]
            else forall word :: word in Reports(h, action) ==> word.1 != ToldFailure && word.1 != ToldSuccess
  {}
}
