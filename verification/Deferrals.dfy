/** How long a message waits that the rate limiter or the circuit breaker held up. */
module Deferrals {
  import opened Contracts
  import opened Delivery
  import opened DeliveryLog
  import opened Topology

  /** Where the publish of a handler's next step goes, as the broker knows the queue. */
  ghost predicate WaitsIn(e: Effect, msg: Message, arguments: Arguments) {
    e.publish.Some? ==>
      && e.publish.value.msg == msg && e.publish.value.place.Queued?
      && var name := NameOf(Copies(e.publish.value.place.queue));
         name in Queues() && Queues()[name] == arguments
  }

  lemma DeferStep(h: Holder, row: Option<Outcome>, reply: Reply, arguments: Arguments)
    requires h.stage.Deferring? && RetryQueueName(h.stage.tier) in Queues()
    requires Queues()[RetryQueueName(h.stage.tier)] == arguments
    ensures var e := Next(h, row, Publish(reply));
            e.Some? && (e.value.publish.Some? <==> reply != Threw(false)) && WaitsIn(e.value, h.msg, arguments)
  {
    hide Queues, RetryQueueName;
  }

  /** In every run a handler that is about to defer its message has heard either just that the limiter
      denied it, and then the message waits five seconds, or that the limiter granted it and the breaker
      held it back, and then it waits thirty; after that it goes back to the main queue, unchanged. */
  lemma DeferredMessagesWait(labels: seq<Label>, h: nat, reply: Reply)
    requires Run(Initial(), labels).Some? && h < |Run(Initial(), labels).value.holders|
    requires Run(Initial(), labels).value.holders[h].stage.Deferring?
    ensures var s := Run(Initial(), labels).value;
            var holder, main := s.holders[h], Address("email.exchange", "email.deliver");
            var e, words := Next(holder, Row(s, holder.msg), Publish(reply)), Expected(labels, h);
            && e.Some? && (e.value.publish.Some? <==> reply != Threw(false))
            && if |words| == 1 then words[0].1 == Denied && WaitsIn(e.value, holder.msg, Expiring(5_000, main))
               else
                 && |words| == 2 && words[0].1 == Granted && words[1].1 == HeldBack
                 && WaitsIn(e.value, holder.msg, Expiring(30_000, main))
  {
    HeardAtStage(labels, h);
    TierByName(1, "email.retry.tier1", 5_000);
    TierByName(2, "email.retry.tier2", 30_000);
    var holder := Run(Initial(), labels).value.holders[h];
    hide Run, Expected, Next, WaitsIn, Queues, RetryQueueName;
    DeferStep(holder, Row(Run(Initial(), labels).value, holder.msg), reply,
              Queues()[RetryQueueName(holder.stage.tier)]);
  }
}
