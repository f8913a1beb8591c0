/** Integer measures of a delivery state: a weight for every copy and every handler of the selected
    messages, summed, and what one step adds to such a sum. */
module DeliveryMeasures {
  import opened Contracts
  import opened RetryPolicy
  import opened Sums
  import opened Delivery
  import opened DeliveryStructure

  function Bit(b: bool): int { if b then 1 else 0 }

  /** A copy weighs by its place and attempt, a handler by its stage, attachment and attempt; both
      also by whether the ledger row of the message is open. */
  datatype Weight = Weight(copy: (Place, nat, bool) -> int, holder: (Stage, bool, nat, bool) -> int)

  /** Closing a row makes nothing heavier. */
  ghost predicate Sinking(w: Weight) {
    && (forall p: Place, a: nat, x: bool, y: bool :: (x ==> y) ==> w.copy(p, a, x) <= w.copy(p, a, y))
    && (forall st: Stage, att: bool, a: nat, x: bool, y: bool :: (x ==> y) ==>
        w.holder(st, att, a, x) <= w.holder(st, att, a, y))
  }

  /** The row does not matter. */
  ghost predicate Flat(w: Weight) {
    && (forall p: Place, a: nat, x: bool, y: bool :: w.copy(p, a, x) == w.copy(p, a, y))
    && (forall st: Stage, att: bool, a: nat, x: bool, y: bool :: w.holder(st, att, a, x) == w.holder(st, att, a, y))
  }

  ghost predicate NonNegative(w: Weight) {
    && (forall p: Place, a: nat, open: bool :: w.copy(p, a, open) >= 0)
    && (forall st: Stage, att: bool, a: nat, open: bool :: w.holder(st, att, a, open) >= 0)
  }

  function OfJob(job: nat): Message -> bool { (m: Message) => m.job == job }

  function Only(msg: Message): Message -> bool { (m: Message) => m == msg }

  function CopyWeight(w: Weight, pick: Message -> bool, ledger: map<Key, Outcome>): Copy -> int {
    (c: Copy) => if pick(c.msg) then w.copy(c.place, c.msg.attempt, OpenIn(ledger, c.msg)) else 0
  }

  function HolderWeight(w: Weight, pick: Message -> bool, ledger: map<Key, Outcome>): Holder -> int {
    (h: Holder) => if pick(h.msg) then w.holder(h.stage, h.attached, h.msg.attempt, OpenIn(ledger, h.msg)) else 0
  }

  ghost function Measure(s: State, w: Weight, pick: Message -> bool): int {
    Sum(s.copies, CopyWeight(w, pick, s.ledger)) + Sum(s.holders, HolderWeight(w, pick, s.ledger))
  }

  /******* A handler's step *******/

  /** The facts of a well-formed state that the balance of one step needs. */
  predicate Settled(h: Holder, row: Option<Outcome>) {
    && (h.stage.Handing? || h.stage.Announcing? ==> !OpenRow(row))
    && (h.stage.Failing? || h.stage.Confirming? || h.stage.Checking? ==> row.Some?)
    && (h.stage.Failing? && h.stage.decision.Retry? ==> h.stage.decision.attempt == h.msg.attempt + 1)
    && (h.stage.Handing? && h.stage.decision.Retry? ==> h.stage.decision.attempt == h.msg.attempt + 1)
    && (h.stage.Rejecting? ==> row == None && !h.msg.valid)
    && (h.stage.Gone? ==> !h.attached)
    && h.msg.attempt <= MAX_ATTEMPTS
  }

  /** What holds whenever handler `i` takes a step with effect `e`. */
  ghost predicate Moves(s: State, i: nat, e: Effect) {
    && i < |s.holders|
    && EffectOk(s, i, e)
    && Settled(s.holders[i], Row(s, s.holders[i].msg))
    && s.holders[i].msg in s.issued
    && s.holders[i].copy < |s.copies|
    && s.copies[s.holders[i].copy].msg == s.holders[i].msg
    && (s.holders[i].attached ==> s.copies[s.holders[i].copy].place == Held(i))
  }

  /** Handler `i` takes some step from `s` to `t`. */
  ghost predicate Takes(s: State, i: nat, action: Action, e: Effect)
    requires i < |s.holders|
  {
    Next(s.holders[i], Row(s, s.holders[i].msg), action) == Some(e)
  }

  lemma MovesOf(s: State, i: nat, action: Action, e: Effect)
    requires WellFormed(s) && i < |s.holders| && Takes(s, i, action, e)
    ensures Moves(s, i, e)
  {
    assert HolderOk(s, i);
    MessageOrigin(s, i);
    NextFits(s, i, action);
  }

  /** What a step adds through the handler itself and the copy it holds. */
  function OwnChange(h: Holder, row: Option<Outcome>, e: Effect, w: Weight): int {
    var a, open := h.msg.attempt, OpenRow(RowAfter(row, e));
    w.holder(e.stage, e.attached, a, open) - w.holder(h.stage, h.attached, a, OpenRow(row))
    + (if e.release.Some? then w.copy(e.release.value, a, open) else 0)
  }

  /** What a step adds through the copy it publishes. */
  ghost function PublishedWeight(s: State, i: nat, e: Effect, w: Weight, pick: Message -> bool): int
    requires i < |s.holders|
  {
    if e.publish.Some? then CopyWeight(w, pick, Apply(s, i, e).ledger)(e.publish.value) else 0
  }

  lemma MeasureMoves(s: State, i: nat, e: Effect, f: Copy -> int, g: Holder -> int)
    requires i < |s.holders| && s.holders[i].copy < |s.copies|
    ensures var t, h := Apply(s, i, e), s.holders[i];
            Sum(t.copies, f) + Sum(t.holders, g)
            == Sum(s.copies, f) + Sum(s.holders, g)
               + g(h.(stage := e.stage, attached := e.attached)) - g(h)
               + (if e.release.Some? then f(s.copies[h.copy].(place := e.release.value)) - f(s.copies[h.copy]) else 0)
               + (if e.publish.Some? then f(e.publish.value) else 0)
  {
    var h := s.holders[i];
    var moved := Relocate(s.copies, h.copy, e.release);
    SumUpdate(s.holders, i, h.(stage := e.stage, attached := e.attached), g);
    if e.release.Some? {
      SumUpdate(s.copies, h.copy, s.copies[h.copy].(place := e.release.value), f);
    }
    if e.publish.Some? {
      SumAppend(moved, e.publish.value, f);
    } else {
      assert moved + [] == moved;
    }
  }

  lemma WeightsSink(s: State, t: State, w: Weight, pick: Message -> bool)
    requires Grows(s, t) && Sinking(w)
    ensures forall c: Copy :: CopyWeight(w, pick, t.ledger)(c) <= CopyWeight(w, pick, s.ledger)(c)
    ensures forall h: Holder :: HolderWeight(w, pick, t.ledger)(h) <= HolderWeight(w, pick, s.ledger)(h)
  {
    forall c: Copy
      ensures CopyWeight(w, pick, t.ledger)(c) <= CopyWeight(w, pick, s.ledger)(c)
    {
      assert OpenIn(t.ledger, c.msg) ==> OpenIn(s.ledger, c.msg);
    }
    forall h: Holder
      ensures HolderWeight(w, pick, t.ledger)(h) <= HolderWeight(w, pick, s.ledger)(h)
    {
      assert OpenIn(t.ledger, h.msg) ==> OpenIn(s.ledger, h.msg);
    }
  }

  lemma WeightsStay(s: State, t: State, w: Weight, pick: Message -> bool)
    requires Flat(w)
    ensures forall c: Copy :: CopyWeight(w, pick, t.ledger)(c) == CopyWeight(w, pick, s.ledger)(c)
    ensures forall h: Holder :: HolderWeight(w, pick, t.ledger)(h) == HolderWeight(w, pick, s.ledger)(h)
  {
    forall c: Copy
      ensures CopyWeight(w, pick, t.ledger)(c) == CopyWeight(w, pick, s.ledger)(c)
    {
      assert w.copy(c.place, c.msg.attempt, OpenIn(t.ledger, c.msg)) ==
            w.copy(c.place, c.msg.attempt, OpenIn(s.ledger, c.msg));
    }
    forall h: Holder
      ensures HolderWeight(w, pick, t.ledger)(h) == HolderWeight(w, pick, s.ledger)(h)
    {
      assert w.holder(h.stage, h.attached, h.msg.attempt, OpenIn(t.ledger, h.msg))
          == w.holder(h.stage, h.attached, h.msg.attempt, OpenIn(s.ledger, h.msg));
    }
  }

  ghost function Bound(s: State, i: nat, e: Effect, w: Weight, pick: Message -> bool): int
    requires i < |s.holders|
  {
    var h := s.holders[i];
    (if pick(h.msg) then OwnChange(h, Row(s, h.msg), e, w) else 0) + PublishedWeight(s, i, e, w, pick)
  }

  /** The bound in terms of the handler's own job: what it publishes is its message or a successor. */
  lemma BoundOfJob(s: State, i: nat, e: Effect, w: Weight, job: nat)
    requires Moves(s, i, e)
    ensures var h := s.holders[i];
            var row := Row(s, h.msg);
            Bound(s, i, e, w, OfJob(job)) ==
              if h.msg.job != job then 0
              else OwnChange(h, row, e, w)
                   + (if e.publish.None? then 0
                      else
                        var c := e.publish.value;
                        if c.msg == h.msg then w.copy(c.place, h.msg.attempt, OpenRow(RowAfter(row, e)))
                        else w.copy(c.place, h.msg.attempt + 1, OpenIn(Apply(s, i, e).ledger, c.msg)))
  {
    var h := s.holders[i];
    assert OpenIn(Apply(s, i, e).ledger, h.msg) == OpenRow(RowAfter(Row(s, h.msg), e));
    if e.publish.Some? {
      assert PublishOk(s, h, e.publish.value);
    }
  }

  /** With the weights of the new ledger, a handler's step changes the sums by exactly this. */
  lemma NewWeightsMove(s: State, i: nat, e: Effect, w: Weight, pick: Message -> bool)
    requires Moves(s, i, e)
    requires forall a: nat, open: bool :: w.copy(Held(i), a, open) == 0
    ensures var t, h := Apply(s, i, e), s.holders[i];
            var g0 := HolderWeight(w, pick, s.ledger);
            var f, g := CopyWeight(w, pick, t.ledger), HolderWeight(w, pick, t.ledger);
            Measure(t, w, pick) == Sum(s.copies, f) + Sum(s.holders, g) - g(h) + g0(h) + Bound(s, i, e, w, pick)
  {
    var t, h := Apply(s, i, e), s.holders[i];
    MeasureMoves(s, i, e, CopyWeight(w, pick, t.ledger), HolderWeight(w, pick, t.ledger));
    assert OpenIn(t.ledger, h.msg) == OpenRow(RowAfter(Row(s, h.msg), e));
    assert OpenIn(s.ledger, h.msg) == OpenRow(Row(s, h.msg));
  }

  /** One handler step changes a measure by what it does to its own message and what it publishes;
      everything else can only sink. A held copy has no weight of its own. */
  lemma ApplyMeasure(s: State, i: nat, e: Effect, w: Weight, pick: Message -> bool)
    requires Moves(s, i, e) && Sinking(w)
    requires forall a: nat, open: bool :: w.copy(Held(i), a, open) == 0
    ensures Measure(Apply(s, i, e), w, pick) <= Measure(s, w, pick) + Bound(s, i, e, w, pick)
  {
    var t := Apply(s, i, e);
    ApplyGrows(s, i, e);
    WeightsSink(s, t, w, pick);
    NewWeightsMove(s, i, e, w, pick);
    SumLower(s.copies, CopyWeight(w, pick, t.ledger), CopyWeight(w, pick, s.ledger));
    SumLower(s.holders, HolderWeight(w, pick, t.ledger), HolderWeight(w, pick, s.ledger));
  }

  lemma ApplyFlat(s: State, i: nat, e: Effect, w: Weight, pick: Message -> bool)
    requires Moves(s, i, e) && Flat(w)
    requires forall a: nat, open: bool :: w.copy(Held(i), a, open) == 0
    ensures Measure(Apply(s, i, e), w, pick) == Measure(s, w, pick) + Bound(s, i, e, w, pick)
  {
    var t := Apply(s, i, e);
    WeightsStay(s, t, w, pick);
    NewWeightsMove(s, i, e, w, pick);
    SumSame(s.copies, CopyWeight(w, pick, t.ledger), CopyWeight(w, pick, s.ledger));
    SumSame(s.holders, HolderWeight(w, pick, t.ledger), HolderWeight(w, pick, s.ledger));
  }

  /******* A step of the broker or of the API *******/

  ghost function BrokerChange(s: State, l: Label, w: Weight, pick: Message -> bool): int
    requires Step(s, l).Some? && !l.Act?
  {
    var msg := if l.Submit? then l.msg else s.copies[l.copy].msg;
    var a, open := msg.attempt, OpenIn(s.ledger, msg);
    if !pick(msg) then 0
    else
      match l
      case Submit(_) => w.copy(Queued(Main), a, open)
      case Deliver(c) =>
        w.copy(Held(|s.holders|), a, open) - w.copy(Queued(Main), a, open) + w.holder(FirstStage(msg), true, a, open)
      case Expire(c) => w.copy(Queued(Main), a, open) - w.copy(s.copies[c].place, a, open)
  }

  lemma BrokerMeasure(s: State, l: Label, w: Weight, pick: Message -> bool)
    requires Step(s, l).Some? && !l.Act?
    ensures Measure(Step(s, l).value, w, pick) == Measure(s, w, pick) + BrokerChange(s, l, w, pick)
  {
    var f, g := CopyWeight(w, pick, s.ledger), HolderWeight(w, pick, s.ledger);
    match l
    case Submit(msg) =>
      SumAppend(s.copies, Copy(msg, Queued(Main)), f);
    case Deliver(c) =>
      var msg := s.copies[c].msg;
      SumUpdate(s.copies, c, s.copies[c].(place := Held(|s.holders|)), f);
      SumAppend(s.holders, Holder(msg, c, FirstStage(msg), true), g);
    case Expire(c) =>
      SumUpdate(s.copies, c, s.copies[c].(place := Queued(Main)), f);
  }

  /******* Reading a measure *******/

  lemma WeightsNonNegative(w: Weight, pick: Message -> bool, ledger: map<Key, Outcome>)
    requires NonNegative(w)
    ensures forall c: Copy :: CopyWeight(w, pick, ledger)(c) >= 0
    ensures forall h: Holder :: HolderWeight(w, pick, ledger)(h) >= 0
  {
    forall c: Copy
      ensures CopyWeight(w, pick, ledger)(c) >= 0
    {
      assert w.copy(c.place, c.msg.attempt, OpenIn(ledger, c.msg)) >= 0;
    }
    forall h: Holder
      ensures HolderWeight(w, pick, ledger)(h) >= 0
    {
      assert w.holder(h.stage, h.attached, h.msg.attempt, OpenIn(ledger, h.msg)) >= 0;
    }
  }

  lemma CopyCounts(s: State, w: Weight, pick: Message -> bool, i: nat)
    requires NonNegative(w) && i < |s.copies|
    ensures Measure(s, w, pick) >= CopyWeight(w, pick, s.ledger)(s.copies[i])
  {
    WeightsNonNegative(w, pick, s.ledger);
    SumAtLeast(s.copies, i, CopyWeight(w, pick, s.ledger));
    SumNonNegative(s.holders, HolderWeight(w, pick, s.ledger));
  }

  lemma HolderCounts(s: State, w: Weight, pick: Message -> bool, k: nat)
    requires NonNegative(w) && k < |s.holders|
    ensures Measure(s, w, pick) >= HolderWeight(w, pick, s.ledger)(s.holders[k])
  {
    WeightsNonNegative(w, pick, s.ledger);
    SumAtLeast(s.holders, k, HolderWeight(w, pick, s.ledger));
    SumNonNegative(s.copies, CopyWeight(w, pick, s.ledger));
  }

  lemma TwoHoldersCount(s: State, w: Weight, pick: Message -> bool, k: nat, l: nat)
    requires NonNegative(w) && k < |s.holders| && l < |s.holders| && k != l
    ensures var g := HolderWeight(w, pick, s.ledger);
            Measure(s, w, pick) >= g(s.holders[k]) + g(s.holders[l])
  {
    WeightsNonNegative(w, pick, s.ledger);
    SumAtLeastTwo(s.holders, k, l, HolderWeight(w, pick, s.ledger));
    SumNonNegative(s.copies, CopyWeight(w, pick, s.ledger));
  }

  lemma MeasureNonNegative(s: State, w: Weight, pick: Message -> bool)
    requires NonNegative(w)
    ensures Measure(s, w, pick) >= 0
  {
    WeightsNonNegative(w, pick, s.ledger);
    SumNonNegative(s.holders, HolderWeight(w, pick, s.ledger));
    SumNonNegative(s.copies, CopyWeight(w, pick, s.ledger));
  }

  /** A positive measure points at a copy or at a handler. */
  lemma Culprit(s: State, w: Weight, pick: Message -> bool) returns (copy: bool, i: nat)
    requires Measure(s, w, pick) >= 1
    ensures copy ==> i < |s.copies| && CopyWeight(w, pick, s.ledger)(s.copies[i]) >= 1
    ensures !copy ==> i < |s.holders| && HolderWeight(w, pick, s.ledger)(s.holders[i]) >= 1
  {
    copy := Sum(s.copies, CopyWeight(w, pick, s.ledger)) >= 1;
    if copy {
      i := SumWitness(s.copies, CopyWeight(w, pick, s.ledger));
    } else {
      i := SumWitness(s.holders, HolderWeight(w, pick, s.ledger));
    }
  }
}
