/** The per-provider circuit breaker of one worker: a mutable three-state machine, and what it means
    in terms of the failures and successes it has seen. */
module CircuitBreaker {
  import opened Contracts

  datatype BreakerState = Closed | Open | HalfOpen

  datatype Breaker = Breaker(state: BreakerState, consecutiveFailures: nat, openedAt: int)

  /** `BREAKER_FAILURE_THRESHOLD` and `BREAKER_COOLDOWN_MS`. */
  datatype Settings = Settings(threshold: int, cooldown: int) {
    predicate Valid() { threshold >= 1 && cooldown >= 1 }
  }

  /** What happened to one breaker, oldest first. A `Probe` is a call of `isOpen`. */
  datatype Event = Success(at: int) | Failure(at: int) | Probe(at: int)

  /******* The meaning of a history *******/

  /** Failures since the last success. */
  function Streak(history: seq<Event>): nat {
    if history == [] then 0
    else
      match history[|history| - 1]
      case Success(_) => 0
      case Failure(_) => Streak(history[..|history| - 1]) + 1
      case Probe(_) => Streak(history[..|history| - 1])
  }

  /** The time of the last failure since the last success. */
  function LastFailure(history: seq<Event>): int {
    if history == [] then 0
    else
      match history[|history| - 1]
      case Success(_) => 0
      case Failure(at) => at
      case Probe(_) => LastFailure(history[..|history| - 1])
  }

  /** Whether some probe since the last failure found the cooldown over. */
  predicate Cooled(cfg: Settings, history: seq<Event>) {
    if history == [] then false
    else
      match history[|history| - 1]
      case Success(_) => false
      case Failure(_) => false
      case Probe(at) =>
        var before := history[..|history| - 1];
        Cooled(cfg, before) || at - LastFailure(before) >= cfg.cooldown
  }

  /** Open: too many failures in a row, the last of them within the cooldown. */
  predicate Tripped(cfg: Settings, history: seq<Event>, now: int) {
    Streak(history) >= cfg.threshold && now - LastFailure(history) < cfg.cooldown
  }

  /** The failures that no success has followed. */
  ghost function Unredeemed(history: seq<Event>): set<nat> {
    set i: nat | i < |history| && history[i].Failure? && forall j: nat :: i < j < |history| ==> !history[j].Success?
  }

  /** Closed form: the streak is the number of failures that no success has followed, and the last
      failure is the last of them. */
  lemma {:induction false} StreakCounts(history: seq<Event>)
    ensures Streak(history) == |Unredeemed(history)|
    ensures forall i: nat :: i in Unredeemed(history) && (forall j: nat :: i < j < |history| ==> history[j].Probe?) ==>
              LastFailure(history) == history[i].at
  {
    if history == [] {
      assert Unredeemed(history) == {};
    } else {
      var n := |history| - 1;
      StreakCounts(history[..n]);
      UnredeemedLater(history);
      forall i: nat | i in Unredeemed(history) && forall j: nat :: i < j < |history| ==> history[j].Probe?
        ensures LastFailure(history) == history[i].at
      {
        if i < n {
          assert history[n].Probe? && history[..n][i] == history[i];
        }
      }
    }
  }

  lemma UnredeemedLater(history: seq<Event>)
    requires history != []
    ensures var n := |history| - 1;
            var before := Unredeemed(history[..n]);
            n !in before && Unredeemed(history) ==
              match history[n] case Success(_) => {} case Failure(_) => before + {n} case Probe(_) => before
  {
    var n := |history| - 1;
    var before := history[..n];
    forall i: nat
      ensures i in Unredeemed(history) <==>
              !history[n].Success? && ((i == n && history[n].Failure?) || i in Unredeemed(before))
    {
      assert i < n ==> before[i] == history[i];
      assert forall j: nat :: j < n ==> before[j] == history[j];
    }
  }

  /** What the map holds for a breaker with this history. */
  function Stored(cfg: Settings, history: seq<Event>): Option<Breaker> {
    var n := Streak(history);
    if n == 0 then None
    else if n < cfg.threshold then Some(Breaker(Closed, n, 0))
    else Some(Breaker(if Cooled(cfg, history) then HalfOpen else Open, n, LastFailure(history)))
  }

  /******* A clock that never goes back *******/

  predicate Monotone(history: seq<Event>) {
    forall i: nat, j: nat :: i <= j < |history| ==> history[i].at <= history[j].at
  }

  /** Once the cooldown has been over it stays over until the next failure. */
  lemma {:induction false} CooledStaysOver(cfg: Settings, history: seq<Event>)
    requires Monotone(history) && Cooled(cfg, history)
    ensures history != [] && history[|history| - 1].at - LastFailure(history) >= cfg.cooldown
  {
    var n := |history| - 1;
    var before := history[..n];
    if Cooled(cfg, before) {
      CooledStaysOver(cfg, before);
      assert before[n - 1] == history[n - 1];
    }
  }

  /** Refinement: on a monotone clock the machine answers exactly what the history says, so the
      half-open state and the stored opening time are implementation detail. */
  lemma MachineIsTripped(cfg: Settings, history: seq<Event>, now: int)
    requires cfg.Valid() && Monotone(history + [Probe(now)])
    ensures Tripped(cfg, history, now) <==>
            var b := Stored(cfg, history); b.Some? && b.value.state == Open && now - b.value.openedAt < cfg.cooldown
  {
    if Cooled(cfg, history) {
      assert forall i: nat :: i < |history| ==> (history + [Probe(now)])[i] == history[i];
      CooledStaysOver(cfg, history);
      assert (history + [Probe(now)])[|history|] == Probe(now);
    }
  }

  lemma ExtendHistory(cfg: Settings, history: seq<Event>, event: Event)
    ensures (history + [event])[..|history|] == history
    ensures Streak(history + [event]) ==
          (match event case Success(_) => 0 case Failure(_) => Streak(history) + 1 case Probe(_) => Streak(history))
    ensures LastFailure(history + [event]) ==
          (match event case Success(_) => 0 case Failure(at) => at case Probe(_) => LastFailure(history))
    ensures Cooled(cfg, history + [event]) ==
          (event.Probe? && (Cooled(cfg, history) || event.at - LastFailure(history) >= cfg.cooldown))
  {
    assert (history + [event])[..|history|] == history;
  }

  /** Asking changes no later answer. */
  function WithoutProbes(history: seq<Event>): seq<Event> {
    if history == [] then []
    else
      var last := history[|history| - 1];
      WithoutProbes(history[..|history| - 1]) + (if last.Probe? then [] else [last])
  }

  lemma {:induction false} ProbesDoNotMatter(cfg: Settings, history: seq<Event>, now: int)
    ensures Tripped(cfg, history, now) == Tripped(cfg, WithoutProbes(history), now)
    ensures Streak(WithoutProbes(history)) == Streak(history)
    ensures LastFailure(WithoutProbes(history)) == LastFailure(history)
  {
    if history == [] {
    } else {
      var before, last := history[..|history| - 1], history[|history| - 1];
      ProbesDoNotMatter(cfg, before, now);
      assert history == before + [last] && WithoutProbes(before) + [] == WithoutProbes(before);
      ExtendHistory(cfg, before, last);
      ExtendHistory(cfg, WithoutProbes(before), last);
      hide Streak, LastFailure, Cooled;
    }
  }

  /** On a clock that can go back the half-open state does show: a probe that saw the cooldown over
      keeps the breaker closed although the time has become early again. */
  lemma BackwardClockShowsHalfOpen()
    ensures var cfg, history := Settings(1, 10), [Failure(0), Probe(10)];
            Tripped(cfg, history, 5) && Stored(cfg, history) == Some(Breaker(HalfOpen, 1, 0))
  {
    var cfg, history := Settings(1, 10), [Failure(0), Probe(10)];
    assert history[..1] == [Failure(0)];
    assert history[..1][..0] == [];
    assert Cooled(cfg, history) && Streak(history) == 1 && LastFailure(history) == 0;
  }

  /******* The machine *******/

  class CircuitBreakerService {
    const settings: Settings
    var breakers: map<string, Breaker>

    /** Everything that has happened so far, breaker by breaker. */
    ghost var histories: map<string, seq<Event>>

    ghost function History(name: string): seq<Event>
      reads this
    {
      if name in histories then histories[name] else []
    }

    function Get(name: string): Option<Breaker>
      reads this
    {
      if name in breakers then Some(breakers[name]) else None
    }

    /** Every entry of the map is what its history makes it. */
    ghost predicate Valid()
      reads this
    {
      settings.Valid() && forall name :: Get(name) == Stored(settings, History(name))
    }

    constructor (threshold: int, cooldown: int)
      requires threshold >= 1 && cooldown >= 1
      ensures Valid() && settings == Settings(threshold, cooldown) && histories == map[]
    {
      settings := Settings(threshold, cooldown);
      breakers := map[];
      histories := map[];
    }

    /** Whether calls to the provider are held back. On a monotone clock the answer is that of the
        history alone; on any clock it is withheld only by a probe that found the cooldown over. */
    method IsOpen(name: string, now: int) returns (open: bool)
      requires Valid()
      modifies this
      ensures Valid()
      ensures histories == old(histories)[name := old(History(name)) + [Probe(now)]]
      ensures open <==> Tripped(settings, old(History(name)), now) && !Cooled(settings, old(History(name)))
      ensures Monotone(old(History(name)) + [Probe(now)]) ==>
                (open <==> Streak(old(History(name))) >= settings.threshold
                           && now - LastFailure(old(History(name))) < settings.cooldown)
    {
      ghost var before := History(name);
      ExtendHistory(settings, before, Probe(now));
      if Monotone(before + [Probe(now)]) {
        MachineIsTripped(settings, before, now);
      }
      assert Get(name) == Stored(settings, before);
      if name !in breakers || breakers[name].state != Open {
        open := false;
      } else if now - breakers[name].openedAt >= settings.cooldown {
        breakers := breakers[name := breakers[name].(state := HalfOpen)];
        open := false;
      } else {
        open := true;
      }
      histories := histories[name := before + [Probe(now)]];
      assert forall other :: other != name ==> Get(other) == old(Get(other)) && History(other) == old(History(other));
    }

    method RecordSuccess(name: string, now: int)
      requires Valid()
      modifies this
      ensures Valid()
      ensures histories == old(histories)[name := old(History(name)) + [Success(now)]]
      ensures name !in breakers
    {
      ghost var before := History(name);
      ExtendHistory(settings, before, Success(now));
      breakers := breakers - {name};
      histories := histories[name := before + [Success(now)]];
      assert forall other :: other != name ==> Get(other) == old(Get(other)) && History(other) == old(History(other));
    }

    method RecordFailure(name: string, now: int)
      requires Valid()
      modifies this
      ensures Valid()
      ensures histories == old(histories)[name := old(History(name)) + [Failure(now)]]
      ensures name in breakers && breakers[name].consecutiveFailures == Streak(old(History(name))) + 1
      ensures breakers[name].state == Open <==> Streak(old(History(name))) + 1 >= settings.threshold
    {
      ghost var before := History(name);
      ExtendHistory(settings, before, Failure(now));
      assert Get(name) == Stored(settings, before);
      var breaker := if name in breakers then breakers[name] else Breaker(Closed, 0, 0);
      breaker := breaker.(consecutiveFailures := breaker.consecutiveFailures + 1);
      if breaker.state == HalfOpen || breaker.consecutiveFailures >= settings.threshold {
        breaker := breaker.(state := Open, openedAt := now);
      }
      breakers := breakers[name := breaker];
      histories := histories[name := before + [Failure(now)]];
      assert forall other :: other != name ==> Get(other) == old(Get(other)) && History(other) == old(History(other));
    }
  }
}
