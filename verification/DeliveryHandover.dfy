/** Where a job is: what every message that was ever published has turned into. A copy is only let
    go of when its row is closed or another copy has taken over; a FAILED row has a successor
    unless a fault hit the handler in between. */
module DeliveryHandover {
  import opened Contracts
  import opened RetryPolicy
  import opened Delivery
  import opened DeliveryStructure
  import opened DeliveryMeasures
  import opened DeliveryAccounting

  /******* Copies that will still be looked at *******/

  function CopyDuty(place: Place, attempt: nat, open: bool): int { Bit(place.Queued? && place.queue != Dead) }

  function HolderDuty(stage: Stage, attached: bool, attempt: nat, open: bool): int {
    Bit(attached && stage != Settling(true))
  }

  const DUTY := Weight(CopyDuty, HolderDuty)

  ghost function Duty(s: State, msg: Message): int { Measure(s, DUTY, Only(msg)) }

  predicate DutyOk(h: Holder, row: Option<Outcome>, e: Effect) {
    || !OpenRow(RowAfter(row, e))
    || (!h.msg.valid && e.publish == Some(Copy(h.msg, Queued(Dead))))
    || Bit(e.attached && e.stage != Settling(true)) - Bit(h.attached && h.stage != Settling(true))
       + Bit(e.release == Some(Queued(Main)))
       + Bit(e.publish.Some? && e.publish.value.msg == h.msg && e.publish.value.place != Queued(Dead)) >= 0
  }

  lemma DutyBalance(h: Holder, row: Option<Outcome>, action: Action)
    requires Settled(h, row) && Next(h, row, action).Some?
    ensures DutyOk(h, row, Next(h, row, action).value)
  {
    match action
    case Publish(reply) =>
    case Complete(reply) =>
    case _ =>
  }

  /** Every published message whose row is open has a copy in a queue, or one that an attached
      handler has not yet decided to acknowledge; an invalid one may be a dead letter instead. */
  ghost predicate LookedAfter(s: State, msg: Message) {
    msg in s.issued && OpenIn(s.ledger, msg) ==> Duty(s, msg) >= 1 || (!msg.valid && msg in s.buried)
  }

  lemma DutyMoves(s: State, i: nat, e: Effect, msg: Message)
    requires Moves(s, i, e)
    ensures var h := s.holders[i];
            Duty(Apply(s, i, e), msg) == Duty(s, msg)
              + (if h.msg == msg then
                   Bit(e.attached && e.stage != Settling(true)) - Bit(h.attached && h.stage != Settling(true))
                   + Bit(e.release == Some(Queued(Main)))
                 else 0)
              + Bit(e.publish.Some? && e.publish.value.msg == msg && e.publish.value.place != Queued(Dead))
  {
    ApplyFlat(s, i, e, DUTY, Only(msg));
    if e.publish.Some? {
      assert PublishOk(s, s.holders[i], e.publish.value);
    }
  }

  lemma ActKeepsDuty(s: State, i: nat, e: Effect, msg: Message)
    requires Moves(s, i, e) && DutyOk(s.holders[i], Row(s, s.holders[i].msg), e) && LookedAfter(s, msg)
    ensures LookedAfter(Apply(s, i, e), msg)
  {
    var t, h := Apply(s, i, e), s.holders[i];
    if msg in t.issued && OpenIn(t.ledger, msg) {
      DutyMoves(s, i, e, msg);
      MeasureNonNegative(s, DUTY, Only(msg));
      ApplyGrows(s, i, e);
      if e.publish.Some? {
        assert PublishOk(s, h, e.publish.value);
      }
      if msg == h.msg {
        assert OpenRow(RowAfter(Row(s, h.msg), e));
      }
    }
  }

  /******* Dead letters stay *******/

  function CopyGrave(place: Place, attempt: nat, open: bool): int { Bit(place == Queued(Dead)) }

  function NoHolder(stage: Stage, attached: bool, attempt: nat, open: bool): int { 0 }

  const GRAVE := Weight(CopyGrave, NoHolder)

  ghost predicate Entombed(s: State, msg: Message) {
    msg in s.buried ==> Measure(s, GRAVE, Only(msg)) >= 1
  }

  lemma ActKeepsGraves(s: State, i: nat, e: Effect, msg: Message)
    requires Moves(s, i, e) && Entombed(s, msg)
    ensures Entombed(Apply(s, i, e), msg)
  {
    ApplyFlat(s, i, e, GRAVE, Only(msg));
    MeasureNonNegative(s, GRAVE, Only(msg));
  }

  /******* The window between a FAILED row and its successor *******/

  function NoCopy(place: Place, attempt: nat, open: bool): int { 0 }

  function HolderWindow(stage: Stage, attached: bool, attempt: nat, open: bool): int { Bit(stage.Handing?) }

  const WINDOW := Weight(NoCopy, HolderWindow)

  /** A FAILED row has a next attempt, a dead letter, a handler about to publish one of the two, or
      the job was stranded. */
  ghost predicate Succeeded(s: State, msg: Message) {
    msg in s.issued && (KeyOf(msg), Failed) in s.written ==>
      || msg.(attempt := msg.attempt + 1) in s.issued
      || msg in s.buried
      || Strands(s, msg.job) >= 1
      || Measure(s, WINDOW, Only(msg)) >= 1
  }

  predicate WindowOk(h: Holder, e: Effect) {
    && (e.write == Some(Failed) ==> e.stage.Handing? || e.mark.Strands() >= 1)
    && (h.stage.Handing? ==>
          || e.stage.Handing?
          || e.mark.Strands() >= 1
          || e.publish == Some(Copy(h.msg, Queued(Dead)))
          || (e.publish.Some? && e.publish.value.msg == h.msg.(attempt := h.msg.attempt + 1)))
  }

  lemma WindowBalance(h: Holder, row: Option<Outcome>, action: Action)
    requires Settled(h, row) && Next(h, row, action).Some?
    ensures WindowOk(h, Next(h, row, action).value)
  {}

  lemma WindowMoves(s: State, i: nat, e: Effect, msg: Message)
    requires Moves(s, i, e)
    ensures var h := s.holders[i];
            Measure(Apply(s, i, e), WINDOW, Only(msg)) == Measure(s, WINDOW, Only(msg))
              + (if h.msg == msg then Bit(e.stage.Handing?) - Bit(h.stage.Handing?) else 0)
  {
    ApplyFlat(s, i, e, WINDOW, Only(msg));
  }

  /** A message published for the first time has no row yet. */
  lemma FreshMessage(s: State, i: nat, e: Effect, msg: Message)
    requires WellFormed(s) && Moves(s, i, e)
    requires msg in Apply(s, i, e).issued && msg !in s.issued
    ensures (KeyOf(msg), Failed) !in Apply(s, i, e).written
  {
    var h := s.holders[i];
    assert PublishOk(s, h, e.publish.value);
    assert msg == h.msg.(attempt := h.msg.attempt + 1);
  }

  lemma OwnSuccession(s: State, i: nat, e: Effect)
    requires Moves(s, i, e) && WindowOk(s.holders[i], e) && Succeeded(s, s.holders[i].msg)
    ensures Succeeded(Apply(s, i, e), s.holders[i].msg)
  {
    var msg := s.holders[i].msg;
    WindowMoves(s, i, e, msg);
    if e.stage.Handing? {
      HolderCounts(Apply(s, i, e), WINDOW, Only(msg), i);
    } else if s.holders[i].stage.Handing? && e.publish.Some? {
      assert PublishOk(s, s.holders[i], e.publish.value);
    }
  }

  lemma OtherSuccession(s: State, i: nat, e: Effect, msg: Message)
    requires WellFormed(s) && Moves(s, i, e) && Succeeded(s, msg) && KeyOf(msg) != KeyOf(s.holders[i].msg)
    ensures Succeeded(Apply(s, i, e), msg)
  {
    var t := Apply(s, i, e);
    if msg in t.issued && (KeyOf(msg), Failed) in t.written {
      if msg !in s.issued {
        FreshMessage(s, i, e, msg);
      }
      ApplyGrows(s, i, e);
      WindowMoves(s, i, e, msg);
    }
  }

  /** In a well-formed state a job and an attempt make one message. */
  lemma SameKey(s: State, m: Message, m': Message)
    requires IssuedOk(s) && m in s.issued && m' in s.issued && KeyOf(m) == KeyOf(m')
    ensures m == m'
  {}

  lemma ActKeepsSuccession(s: State, i: nat, e: Effect, msg: Message)
    requires WellFormed(s) && Moves(s, i, e) && WindowOk(s.holders[i], e) && Succeeded(s, msg)
    requires WellFormed(Apply(s, i, e))
    ensures Succeeded(Apply(s, i, e), msg)
  {
    var h := s.holders[i];
    if KeyOf(msg) != KeyOf(h.msg) {
      OtherSuccession(s, i, e, msg);
    } else if msg in Apply(s, i, e).issued {
      ApplyGrows(s, i, e);
      SameKey(Apply(s, i, e), msg, h.msg);
      OwnSuccession(s, i, e);
    }
  }

  /******* Every step keeps every message accounted for *******/

  ghost predicate Kept(s: State, msg: Message) {
    LookedAfter(s, msg) && Entombed(s, msg) && Succeeded(s, msg)
  }

  lemma ActKeepsMessage(s: State, i: nat, action: Action, msg: Message)
    requires WellFormed(s) && Kept(s, msg) && Step(s, Act(i, action)).Some?
    ensures Kept(Step(s, Act(i, action)).value, msg)
  {
    var h := s.holders[i];
    var e := Next(h, Row(s, h.msg), action).value;
    MovesOf(s, i, action, e);
    ActKeepsWellFormed(s, i, action);
    DutyBalance(h, Row(s, h.msg), action);
    WindowBalance(h, Row(s, h.msg), action);
    ActKeepsDuty(s, i, e, msg);
    ActKeepsGraves(s, i, e, msg);
    ActKeepsSuccession(s, i, e, msg);
  }

  lemma BrokerKeepsDuty(s: State, l: Label, msg: Message)
    requires WellFormed(s) && LookedAfter(s, msg) && Step(s, l).Some? && !l.Act?
    ensures LookedAfter(Step(s, l).value, msg)
  {
    BrokerMeasure(s, l, DUTY, Only(msg));
    MeasureNonNegative(s, DUTY, Only(msg));
  }

  lemma BrokerKeepsGraves(s: State, l: Label, msg: Message)
    requires Entombed(s, msg) && Step(s, l).Some? && !l.Act?
    ensures Entombed(Step(s, l).value, msg)
  {
    BrokerMeasure(s, l, GRAVE, Only(msg));
  }

  lemma BrokerKeepsSuccession(s: State, l: Label, msg: Message)
    requires WellFormed(s) && Succeeded(s, msg) && Step(s, l).Some? && !l.Act?
    ensures Succeeded(Step(s, l).value, msg)
  {
    BrokerMeasure(s, l, WINDOW, Only(msg));
  }

  lemma StepKeepsMessage(s: State, l: Label, msg: Message)
    requires WellFormed(s) && Kept(s, msg) && Step(s, l).Some?
    ensures Kept(Step(s, l).value, msg)
  {
    if l.Act? {
      ActKeepsMessage(s, l.holder, l.action, msg);
    } else {
      BrokerKeepsDuty(s, l, msg);
      BrokerKeepsGraves(s, l, msg);
      BrokerKeepsSuccession(s, l, msg);
    }
  }

  /******* The invariant of every run *******/

  ghost predicate Inv(s: State) {
    && WellFormed(s)
    && (forall job: nat :: Balanced(s, job))
    && (forall msg: Message :: Kept(s, msg))
  }

  lemma {:induction false} NoRows(job: nat, n: nat)
    ensures DeliveredRows(map[], job, n) == 0
  {
    if n == 0 {
    } else {
      NoRows(job, n - 1);
    }
  }

  lemma InitialInv()
    ensures Inv(Initial())
  {
    forall job: nat
      ensures Balanced(Initial(), job)
    {
      NoRows(job, MAX_ATTEMPTS + 1);
    }
  }

  lemma StepKeepsInv(s: State, l: Label)
    requires Inv(s) && Step(s, l).Some?
    ensures Inv(Step(s, l).value)
    ensures Grows(s, Step(s, l).value)
  {
    StepKeepsWellFormed(s, l);
    forall job: nat
      ensures Balanced(Step(s, l).value, job)
    {
      StepKeepsBalance(s, l, job);
    }
    forall msg: Message
      ensures Kept(Step(s, l).value, msg)
    {
      StepKeepsMessage(s, l, msg);
    }
  }

  lemma {:induction false} RunKeepsInv(s: State, labels: seq<Label>)
    requires Inv(s) && Run(s, labels).Some?
    ensures Inv(Run(s, labels).value)
  {
    if labels == [] {
    } else {
      var n := |labels| - 1;
      RunKeepsInv(s, labels[..n]);
      StepKeepsInv(Run(s, labels[..n]).value, labels[n]);
    }
  }

  lemma ReachableInv(s: State)
    requires Reachable(s)
    ensures Inv(s)
  {
    var labels :| Run(Initial(), labels) == Some(s);
    InitialInv();
    RunKeepsInv(Initial(), labels);
  }
}
