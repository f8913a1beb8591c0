/** Counting: mails accepted, copies that may still lead to one, dead-letter copies, jobs stranded,
    and send calls, each balanced against the faults that hit the job. */
module DeliveryAccounting {
  import opened Contracts
  import opened RetryPolicy
  import opened Delivery
  import opened DeliveryStructure
  import opened DeliveryMeasures

  /******* Tokens: what may still become a mail, and what has become a dead letter *******/

  function CopyToken(place: Place, attempt: nat, open: bool): int {
    match place
    case Queued(Dead) => 1
    case Queued(_) => Bit(open)
    case _ => 0
  }

  function HolderToken(stage: Stage, attached: bool, attempt: nat, open: bool): int {
    match stage
    case Sending => 1
    case Failing(_, _) => 1
    case Handing(_, _) => 1
    case Confirming => 0
    case Announcing(_) => 0
    case Settling(ack) => Bit(!ack && attached && open)
    case Gone => 0
    case _ => Bit(open)
  }

  const TOKEN := Weight(CopyToken, HolderToken)

  ghost function Tokens(s: State, job: nat): int { Measure(s, TOKEN, OfJob(job)) }

  /** A token becomes a mail, a stranded job, another token or nothing; only a `split` makes one more. */
  predicate TokenOk(h: Holder, row: Option<Outcome>, e: Effect) {
    var a, open := h.msg.attempt, OpenRow(RowAfter(row, e));
    HolderToken(e.stage, e.attached, a, open) - HolderToken(h.stage, h.attached, a, OpenRow(row))
    + (if e.release.Some? then CopyToken(e.release.value, a, open) else 0)
    + (if e.publish.None? then 0
       else if e.publish.value.msg == h.msg then CopyToken(e.publish.value.place, a, open)
       else 1)
    + e.mark.Mails() + e.mark.Strands() <= e.mark.Splits()
  }

  lemma PublishTokens(h: Holder, row: Option<Outcome>, reply: Reply)
    requires Settled(h, row) && OnPublish(h, reply).Some?
    ensures TokenOk(h, row, OnPublish(h, reply).value)
  {}

  lemma CompleteTokens(h: Holder, row: Option<Outcome>, reply: Reply)
    requires Settled(h, row) && OnComplete(h, row, reply).Some?
    ensures TokenOk(h, row, OnComplete(h, row, reply).value)
  {}

  lemma FaultTokens(h: Holder, row: Option<Outcome>)
    requires Settled(h, row) && !h.stage.Gone?
    ensures TokenOk(h, row, Die(h, row))
    ensures h.attached ==> TokenOk(h, row, LoseConnection(h, row))
  {}

  lemma SendTokens(h: Holder, row: Option<Outcome>, result: SendResult)
    requires Settled(h, row) && h.stage.Sending?
    ensures TokenOk(h, row, SendMail(h, result))
  {}

  lemma TokenBalance(h: Holder, row: Option<Outcome>, action: Action)
    requires Settled(h, row) && Next(h, row, action).Some?
    ensures TokenOk(h, row, Next(h, row, action).value)
  {
    match action
    case Publish(reply) => PublishTokens(h, row, reply);
    case Send(result) => SendTokens(h, row, result);
    case Complete(reply) => CompleteTokens(h, row, reply);
    case Crash => FaultTokens(h, row);
    case Detach => FaultTokens(h, row);
    case _ =>
  }

  lemma ApplyTokens(s: State, i: nat, e: Effect, job: nat)
    requires Moves(s, i, e) && TokenOk(s.holders[i], Row(s, s.holders[i].msg), e)
    ensures var t := Apply(s, i, e);
            Tokens(t, job) - Tokens(s, job)
            + Mails(t, job) - Mails(s, job)
            + Strands(t, job) - Strands(s, job)
            <= Splits(t, job) - Splits(s, job)
  {
    ApplyMeasure(s, i, e, TOKEN, OfJob(job));
    BoundOfJob(s, i, e, TOKEN, job);
  }

  /******* Mails whose DELIVERED row is not written yet, and DELIVERED rows *******/

  const UNCONFIRMED :=
    Weight((p: Place, a: nat, open: bool) => 0, (st: Stage, att: bool, a: nat, open: bool) => Bit(st.Confirming?))

  function DeliveredRows(ledger: map<Key, Outcome>, job: nat, attempts: nat): nat {
    if attempts == 0 then 0
    else
      var key := (job, attempts - 1);
      DeliveredRows(ledger, job, attempts - 1) + (if key in ledger && ledger[key] == Outcome.Delivered then 1 else 0)
  }

  lemma {:induction false} WriteRow(ledger: map<Key, Outcome>, key: Key, outcome: Outcome, job: nat, n: nat)
    ensures DeliveredRows(ledger[key := outcome], job, n)
            <= DeliveredRows(ledger, job, n) + Bit(key.0 == job && key.1 < n && outcome == Outcome.Delivered)
  {
    if n == 0 {
    } else {
      WriteRow(ledger, key, outcome, job, n - 1);
    }
  }

  predicate ConfirmOk(h: Holder, e: Effect) {
    Bit(e.stage.Confirming?) - Bit(h.stage.Confirming?) + Bit(e.write == Some(Outcome.Delivered)) <= e.mark.Mails()
  }

  lemma ConfirmBalance(h: Holder, row: Option<Outcome>, action: Action)
    requires Next(h, row, action).Some?
    ensures ConfirmOk(h, Next(h, row, action).value)
  {}

  ghost function MailsSeen(s: State, job: nat): int {
    Measure(s, UNCONFIRMED, OfJob(job)) + DeliveredRows(s.ledger, job, MAX_ATTEMPTS + 1)
  }

  lemma ApplyConfirm(s: State, i: nat, e: Effect, job: nat)
    requires Moves(s, i, e) && ConfirmOk(s.holders[i], e)
    ensures var t := Apply(s, i, e);
            MailsSeen(t, job) - MailsSeen(s, job) <= Mails(t, job) - Mails(s, job)
  {
    ApplyFlat(s, i, e, UNCONFIRMED, OfJob(job));
    BoundOfJob(s, i, e, UNCONFIRMED, job);
    if e.write.Some? {
      WriteRow(s.ledger, KeyOf(s.holders[i].msg), e.write.value, job, MAX_ATTEMPTS + 1);
    }
  }

  /******* Work: send calls a job can still make *******/

  function Left(attempt: nat): nat { if attempt <= MAX_ATTEMPTS then MAX_ATTEMPTS + 1 - attempt else 0 }

  function CopyWork(place: Place, attempt: nat, open: bool): int {
    match place
    case Queued(Dead) => 0
    case Queued(_) => if open then Left(attempt) else 0
    case _ => 0
  }

  function HolderWork(stage: Stage, attached: bool, attempt: nat, open: bool): int {
    match stage
    case Sending => Left(attempt)
    case Failing(_, _) => Left(attempt + 1)
    case Handing(decision, _) => if decision.Retry? then Left(attempt + 1) else 0
    case Confirming => 0
    case Announcing(_) => 0
    case Settling(ack) => if !ack && attached && open then Left(attempt) else 0
    case Gone => 0
    case _ => if open then Left(attempt) else 0
  }

  const WORK := Weight(CopyWork, HolderWork)

  ghost function Work(s: State, job: nat): int { Measure(s, WORK, OfJob(job)) }

  predicate WorkOk(h: Holder, row: Option<Outcome>, e: Effect) {
    var a, open := h.msg.attempt, OpenRow(RowAfter(row, e));
    HolderWork(e.stage, e.attached, a, open) - HolderWork(h.stage, h.attached, a, OpenRow(row))
    + (if e.release.Some? then CopyWork(e.release.value, a, open) else 0)
    + (if e.publish.None? then 0
       else if e.publish.value.msg == h.msg then CopyWork(e.publish.value.place, a, open)
       else CopyWork(e.publish.value.place, a + 1, true))
    + e.mark.Calls() <= (MAX_ATTEMPTS + 1) * e.mark.Splits() + e.mark.Redoes()
  }

  lemma PublishWork(h: Holder, row: Option<Outcome>, reply: Reply)
    requires Settled(h, row) && OnPublish(h, reply).Some?
    ensures WorkOk(h, row, OnPublish(h, reply).value)
  {}

  lemma SendWork(h: Holder, row: Option<Outcome>, result: SendResult)
    requires Settled(h, row) && h.stage.Sending?
    ensures WorkOk(h, row, SendMail(h, result))
  {}

  lemma CompleteWork(h: Holder, row: Option<Outcome>, reply: Reply)
    requires Settled(h, row) && OnComplete(h, row, reply).Some?
    ensures WorkOk(h, row, OnComplete(h, row, reply).value)
  {}

  lemma FaultWork(h: Holder, row: Option<Outcome>)
    requires Settled(h, row) && !h.stage.Gone?
    ensures WorkOk(h, row, Die(h, row))
    ensures h.attached ==> WorkOk(h, row, LoseConnection(h, row))
  {}

  lemma WorkBalance(h: Holder, row: Option<Outcome>, action: Action)
    requires Settled(h, row) && Next(h, row, action).Some?
    ensures WorkOk(h, row, Next(h, row, action).value)
  {
    match action
    case Publish(reply) => PublishWork(h, row, reply);
    case Send(result) => SendWork(h, row, result);
    case Complete(reply) => CompleteWork(h, row, reply);
    case Crash => FaultWork(h, row);
    case Detach => FaultWork(h, row);
    case _ =>
  }

  lemma ApplyWork(s: State, i: nat, e: Effect, job: nat)
    requires Moves(s, i, e) && WorkOk(s.holders[i], Row(s, s.holders[i].msg), e)
    ensures var t := Apply(s, i, e);
            Work(t, job) - Work(s, job) + Calls(t, job) - Calls(s, job)
            <= (MAX_ATTEMPTS + 1) * (Splits(t, job) - Splits(s, job))
               + Redoes(t, job) - Redoes(s, job)
  {
    ApplyMeasure(s, i, e, WORK, OfJob(job));
    BoundOfJob(s, i, e, WORK, job);
  }

  /******* The three accounts of every job *******/

  ghost predicate Balanced(s: State, job: nat) {
    var jobs := Bit(job in s.submitted);
    && Tokens(s, job) + Mails(s, job) + Strands(s, job) <= jobs + Splits(s, job)
    && MailsSeen(s, job) <= Mails(s, job)
    && Work(s, job) + Calls(s, job) <= (MAX_ATTEMPTS + 1) * (jobs + Splits(s, job)) + Redoes(s, job)
  }

  lemma ActKeepsBalance(s: State, i: nat, action: Action, job: nat)
    requires WellFormed(s) && Balanced(s, job) && Step(s, Act(i, action)).Some?
    ensures Balanced(Step(s, Act(i, action)).value, job)
  {
    var h := s.holders[i];
    var row := Row(s, h.msg);
    var e := Next(h, row, action).value;
    MovesOf(s, i, action, e);
    TokenBalance(h, row, action);
    ConfirmBalance(h, row, action);
    WorkBalance(h, row, action);
    ApplyTokens(s, i, e, job);
    ApplyConfirm(s, i, e, job);
    ApplyWork(s, i, e, job);
  }

  lemma BrokerKeepsTokens(s: State, l: Label, job: nat)
    requires WellFormed(s) && Step(s, l).Some? && !l.Act?
    ensures Tokens(Step(s, l).value, job) <= Tokens(s, job) + Bit(l.Submit? && l.msg.job == job)
    ensures MailsSeen(Step(s, l).value, job) == MailsSeen(s, job)
  {
    hide WellFormed, Measure;
    BrokerMeasure(s, l, TOKEN, OfJob(job));
    BrokerMeasure(s, l, UNCONFIRMED, OfJob(job));
  }

  lemma BrokerKeepsWork(s: State, l: Label, job: nat)
    requires WellFormed(s) && Step(s, l).Some? && !l.Act?
    ensures Work(Step(s, l).value, job) <=
          Work(s, job) + (if l.Submit? && l.msg.job == job then MAX_ATTEMPTS + 1 else 0)
  {
    hide WellFormed, Measure;
    BrokerMeasure(s, l, WORK, OfJob(job));
  }

  lemma StepKeepsBalance(s: State, l: Label, job: nat)
    requires WellFormed(s) && Balanced(s, job) && Step(s, l).Some?
    ensures Balanced(Step(s, l).value, job)
  {
    if l.Act? {
      ActKeepsBalance(s, l.holder, l.action, job);
    } else {
      BrokerKeepsTokens(s, l, job);
      BrokerKeepsWork(s, l, job);
    }
  }
}
