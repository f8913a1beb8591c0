/** Which steps of a run are faults, and that nothing but faults moves the fault counts. */
module DeliveryFaults {
  import opened Contracts
  import opened Delivery

  /** A call that throws, a process that dies, a connection that is lost, and a send that throws for a
      mail the server accepted or throws something that is no provider error. */
  predicate IsFault(action: Action) {
    match action
    case Admit(_, _) => false
    case AdmitThrew => true
    case Publish(reply) => reply != Done
    case Insert(reply) => reply != Done
    case Select(ok) => !ok
    case Send(result) => result.Refused? && (result.mailed || result.error.Unexpected?)
    case Complete(reply) => reply != Done
    case Settle => false
    case Crash => true
    case Detach => true
  }

  /** A fault that hits a handler of the job. */
  predicate FaultOn(s: State, l: Label, job: nat) {
    l.Act? && l.holder < |s.holders| && s.holders[l.holder].msg.job == job && IsFault(l.action)
  }

  /** The faults that hit a job in a run. */
  function Faults(labels: seq<Label>, job: nat): nat {
    if labels == [] then 0
    else
      var before := labels[..|labels| - 1];
      Faults(before, job)
      + (match Run(Initial(), before)
         case None => 0
         case Some(s) => if FaultOn(s, labels[|labels| - 1], job) then 1 else 0)
  }

  /** The counts of a job go up only at a fault, and a fault counts as one kind only. */
  lemma MarksAreFaults(h: Holder, row: Option<Outcome>, action: Action)
    requires Next(h, row, action).Some?
    ensures var mark := Next(h, row, action).value.mark;
            mark.Splits() + mark.Redoes() + mark.Strands() <= if IsFault(action) then 1 else 0
  {}

  ghost function Counted(s: State, job: nat): nat { Splits(s, job) + Redoes(s, job) + Strands(s, job) }

  lemma StepCounts(s: State, l: Label, job: nat)
    requires Step(s, l).Some?
    ensures Counted(Step(s, l).value, job) <= Counted(s, job) + if FaultOn(s, l, job) then 1 else 0
  {
    if l.Act? {
      var h := s.holders[l.holder];
      MarksAreFaults(h, Row(s, h.msg), l.action);
    }
  }

  /** What is counted against a job never exceeds the faults that hit it. */
  lemma {:induction false} CountsAreFaults(labels: seq<Label>, job: nat)
    requires Run(Initial(), labels).Some?
    ensures Counted(Run(Initial(), labels).value, job) <= Faults(labels, job)
  {
    if labels == [] {
    } else {
      var n := |labels| - 1;
      CountsAreFaults(labels[..n], job);
      StepCounts(Run(Initial(), labels[..n]).value, labels[n], job);
    }
  }
}
