/** Submission by any number of API replicas at once. A call claims its idempotency key in Redis,
    inserts the job, publishes it and answers; every call to Redis, the database or the broker is one
    step, and between two steps other calls, key expiry and faults may act. */
module Submission {
  import opened Contracts

  type Key = nat

  /** A job's id is the number of the call that drew it: ids do not collide. */
  type Id = nat

  datatype Response =
    | Submitted(id: Id, duplicate: bool)
    | InProgress   // 409, a request with this key is already in progress
    | Unavailable  // 503, submission failed, retry with the same key
    | Error        // 500, an exception that `submit` does not catch
    | NoAnswer     // the replica died

  /** What a call will do next. */
  datatype Stage =
    | Reserving         // before SET key id EX NX
    | Reading           // the key was taken, before GET key
    | Looking(id: Id)   // before findById of the id stored under the key
    | Creating          // the key is ours, before the INSERT
    | Publishing        // before the publish
    | Marking           // before markPublished
    | Undoing           // publish or mark threw, before DEL key
    | Finding           // before findById of our own id
    | Over(response: Response)

  datatype Call = Call(key: Key, stage: Stage)

  /** `redis` holds the idempotency keys, `rows` the key of every job in the table, `published` the
      jobs whose first message reached the broker. */
  datatype State = State(redis: map<Key, Id>, rows: map<Id, Key>, published: seq<Id>, calls: seq<Call>)

  function Initial(): State { State(map[], map[], [], []) }

  predicate HasRow(rows: map<Id, Key>, key: Key) { exists id :: id in rows && rows[id] == key }

  /******* One step of a call *******/

  /** Everything one step of a call changes. */
  datatype Effect = Effect(stage: Stage, claim: bool, insert: bool, publish: bool, release: bool)

  function GoTo(stage: Stage): Effect { Effect(stage, false, false, false, false) }

  function Claim(taken: bool, reply: Reply): Effect {
    match reply
    case Done => if taken then GoTo(Reading) else GoTo(Creating).(claim := true)
    case Threw(applied) => GoTo(Over(Error)).(claim := applied && !taken)
  }

  function Read(stored: Option<Id>, reply: Reply): Effect {
    GoTo(if reply != Done then Over(Error) else if stored.Some? then Looking(stored.value) else Over(InProgress))
  }

  function Look(id: Id, present: bool, reply: Reply): Effect {
    GoTo(Over(if reply != Done then Error else if present then Submitted(id, true) else InProgress))
  }

  /** The table is unique in the id and in the idempotency key. */
  function Insert(free: bool, reply: Reply): Effect {
    match reply
    case Done => if free then GoTo(Publishing).(insert := true) else GoTo(Over(Error))
    case Threw(applied) => GoTo(Over(Error)).(insert := applied && free)
  }

  function Publish(reply: Reply): Effect {
    GoTo(if reply == Done then Marking else Undoing).(publish := reply != Threw(false))
  }

  /** `markPublished` updates one row and throws when it does not exist. */
  function Mark(present: bool, reply: Reply): Effect { GoTo(if reply == Done && present then Finding else Undoing) }

  function Undo(reply: Reply): Effect {
    GoTo(Over(if reply == Done then Unavailable else Error)).(release := reply != Threw(false))
  }

  function Find(c: Id, present: bool, reply: Reply): Effect {
    GoTo(Over(if reply == Done && present then Submitted(c, false) else Error))
  }

  function Stored(s: State, key: Key): Option<Id> { if key in s.redis then Some(s.redis[key]) else None }

  /** The step call `c` makes next. */
  function Next(s: State, c: nat, reply: Reply): Option<Effect>
    requires c < |s.calls|
  {
    var key := s.calls[c].key;
    match s.calls[c].stage
    case Reserving => Some(Claim(key in s.redis, reply))
    case Reading => Some(Read(Stored(s, key), reply))
    case Looking(id) => Some(Look(id, id in s.rows, reply))
    case Creating => Some(Insert(c !in s.rows && !HasRow(s.rows, key), reply))
    case Publishing => Some(Publish(reply))
    case Marking => Some(Mark(c in s.rows, reply))
    case Undoing => Some(Undo(reply))
    case Finding => Some(Find(c, c in s.rows, reply))
    case Over(_) => None
  }

  function Apply(s: State, c: nat, e: Effect): State
    requires c < |s.calls|
  {
    var key := s.calls[c].key;
    State(if e.claim then s.redis[key := c] else if e.release then s.redis - {key} else s.redis,
          if e.insert then s.rows[c := key] else s.rows,
          if e.publish then s.published + [c] else s.published,
          s.calls[c := Call(key, e.stage)])
  }

  datatype Label =
    | Begin(key: Key)              // a request arrives
    | Act(call: nat, reply: Reply) // a call makes its next step
    | Die(call: nat)               // the replica dies
    | Expire(key: Key)             // Redis drops a key

  function Step(s: State, l: Label): Option<State> {
    match l
    case Begin(key) => Some(s.(calls := s.calls + [Call(key, Reserving)]))
    case Expire(key) => Some(s.(redis := s.redis - {key}))
    case Die(c) =>
      if c < |s.calls| && !s.calls[c].stage.Over? then Some(Apply(s, c, GoTo(Over(NoAnswer)))) else None
    case Act(c, reply) =>
      if c < |s.calls| then
        match Next(s, c, reply)
        case None => None
        case Some(e) => Some(Apply(s, c, e))
      else None
  }

  function Run(s: State, labels: seq<Label>): Option<State> {
    if labels == [] then Some(s)
    else
      match Run(s, labels[..|labels| - 1])
      case None => None
      case Some(mid) => Step(mid, labels[|labels| - 1])
  }

  ghost predicate Reachable(s: State) { exists labels :: Run(Initial(), labels) == Some(s) }

  /******* What every step keeps *******/

  /** What leads where, and when Redis, the table and the broker change. */
  ghost predicate EffectOk(s: State, c: nat, e: Effect)
    requires c < |s.calls|
  {
    var key, stage := s.calls[c].key, s.calls[c].stage;
    && !stage.Over?
    && (e.claim ==> stage.Reserving? && key !in s.redis)
    && (e.insert ==> stage.Creating? && c !in s.rows && !HasRow(s.rows, key))
    && (e.publish ==> stage.Publishing?)
    && (e.release ==> stage.Undoing?)
    && match e.stage
       case Reserving => false
       case Reading => stage.Reserving?
       case Looking(id) => stage.Reading? && Stored(s, key) == Some(id)
       case Creating => stage.Reserving?
       case Publishing => e.insert
       case Marking => e.publish
       case Undoing => stage.Publishing? || stage.Marking?
       case Finding => stage.Marking?
       case Over(Submitted(id, duplicate)) =>
         id in s.rows && if duplicate then stage == Looking(id) else stage.Finding? && id == c
       case Over(Unavailable) => e.release
       case Over(_) => true
  }

  lemma NextOk(s: State, c: nat, reply: Reply)
    requires c < |s.calls| && Next(s, c, reply).Some?
    ensures EffectOk(s, c, Next(s, c, reply).value)
  {}

  /** A call of Redis, the table or the broker takes effect exactly when it returns normally or throws
      after the other side has acted, and only where there is something to do: the key is claimed and
      the job inserted only if they are free, the key deleted whoever holds it. */
  lemma CallsTakeEffect(s: State, c: nat, reply: Reply)
    requires c < |s.calls| && Next(s, c, reply).Some?
    ensures var key, stage, e := s.calls[c].key, s.calls[c].stage, Next(s, c, reply).value;
            && (e.claim <==> stage.Reserving? && reply != Threw(false) && key !in s.redis)
            && (e.insert <==> stage.Creating? && reply != Threw(false) && c !in s.rows && !HasRow(s.rows, key))
            && (e.publish <==> stage.Publishing? && reply != Threw(false))
            && (e.release <==> stage.Undoing? && reply != Threw(false))
  {}

  /** What a call comes to: an exception of the publish or of what follows in the same block leads to the
      deletion of the key and then to the answer 503; every other exception is let through; and 409 is
      the answer of a call that found the key taken but no id or no job under it. */
  lemma AnswersMean(s: State, c: nat, reply: Reply)
    requires c < |s.calls|
    ensures Next(s, c, reply).Some? <==> !s.calls[c].stage.Over?
    ensures !s.calls[c].stage.Over? ==>
              var key, stage, next := s.calls[c].key, s.calls[c].stage, Next(s, c, reply).value.stage;
              var threw := reply != Done;
              && (next == Undoing <==> if stage.Publishing? then threw else stage.Marking? && (threw || c !in s.rows))
              && (next == Over(Unavailable) <==> stage.Undoing? && !threw)
              && (next == Over(InProgress) <==>
                  !threw && ((stage.Reading? && key !in s.redis) || (stage.Looking? && stage.id !in s.rows)))
              && (next == Over(Error) <==>
                  || (threw && !stage.Publishing? && !stage.Marking?)
                  || (stage.Creating? && (c in s.rows || HasRow(s.rows, key)))
                  || (stage.Finding? && c !in s.rows))
              && (next.Over? && next.response.Submitted? <==>
                  !threw && ((stage.Looking? && stage.id in s.rows) || (stage.Finding? && c in s.rows)))
              && (next.Over? && next.response.Submitted? ==>
                  next.response == if stage.Looking? then Submitted(stage.id, true) else Submitted(c, false))
  {}

  ghost predicate CallOk(s: State, c: nat)
    requires c < |s.calls|
  {
    var key := s.calls[c].key;
    && (c in s.rows ==> s.rows[c] == key)
    && (c in s.published ==> c in s.rows)
    && match s.calls[c].stage
       case Looking(id) => c !in s.rows && id < |s.calls| && s.calls[id].key == key
       case Publishing => c in s.rows && c !in s.published
       case Marking => c in s.rows && c in s.published
       case Undoing => c in s.rows
       case Finding => c in s.rows && c in s.published
       case Over(Submitted(id, duplicate)) =>
         id in s.rows && s.rows[id] == key && if duplicate then id != c else id == c && c in s.published
       case Over(Unavailable) => c in s.rows && !(key in s.redis && s.redis[key] == c)
       case Over(_) => true
       case _ => c !in s.rows
  }

  ghost predicate TablesOk(s: State) {
    && (forall id :: id in s.rows ==> id < |s.calls|)
    && (forall a, b :: a in s.rows && b in s.rows && s.rows[a] == s.rows[b] ==> a == b)
    && (forall key :: key in s.redis ==>
          var id := s.redis[key];
          id < |s.calls| && s.calls[id].key == key && !s.calls[id].stage.Reserving?)
    && (forall i: nat, j: nat :: i < j < |s.published| ==> s.published[i] != s.published[j])
    && (forall id :: id in s.published ==> id < |s.calls|)
  }

  ghost predicate Inv(s: State) { TablesOk(s) && forall c: nat :: c < |s.calls| ==> CallOk(s, c) }

  lemma ApplyKeepsCall(s: State, c: nat, e: Effect, d: nat)
    requires Inv(s) && c < |s.calls| && EffectOk(s, c, e) && d < |s.calls|
    ensures CallOk(Apply(s, c, e), d)
  {
    assert CallOk(s, c) && CallOk(s, d);
    if s.calls[c].stage.Looking? {
      assert CallOk(s, s.calls[c].stage.id);
    }
  }

  lemma ApplyKeepsInv(s: State, c: nat, e: Effect)
    requires Inv(s) && c < |s.calls| && EffectOk(s, c, e)
    ensures Inv(Apply(s, c, e))
  {
    assert CallOk(s, c);
    forall d: nat | d < |s.calls|
      ensures CallOk(Apply(s, c, e), d)
    {
      ApplyKeepsCall(s, c, e, d);
    }
  }

  lemma StepKeepsInv(s: State, l: Label)
    requires Inv(s) && Step(s, l).Some?
    ensures Inv(Step(s, l).value)
  {
    match l
    case Act(c, reply) =>
      NextOk(s, c, reply);
      ApplyKeepsInv(s, c, Next(s, c, reply).value);
    case Die(c) => ApplyKeepsInv(s, c, GoTo(Over(NoAnswer)));
    case _ =>
      var t := Step(s, l).value;
      forall d: nat | d < |t.calls|
        ensures CallOk(t, d)
      {
        if d < |s.calls| {
          assert CallOk(s, d);
        }
      }
  }

  lemma {:induction false} RunKeepsInv(s: State, labels: seq<Label>)
    requires Inv(s) && Run(s, labels).Some?
    ensures Inv(Run(s, labels).value)
  {
    if labels == [] {
    } else {
      var n := |labels| - 1;
      RunKeepsInv(s, labels[..n]);
      StepKeepsInv(Run(s, labels[..n]).value, labels[n]);
    }
  }

  lemma ReachableInv(s: State)
    requires Reachable(s)
    ensures Inv(s)
  {
    var labels :| Run(Initial(), labels) == Some(s);
    RunKeepsInv(Initial(), labels);
  }

  /******* One job per idempotency key *******/

  /** However many calls, replicas, expiries, lost replies and deaths there are: a key has at most one
      job, that job's first message is published at most once, and no other message ever is. */
  lemma OneJobPerKey(s: State)
    requires Reachable(s)
    ensures forall a, b :: a in s.rows && b in s.rows && s.rows[a] == s.rows[b] ==> a == b
    ensures forall id :: id in s.published ==> id in s.rows
    ensures forall i: nat, j: nat :: i < j < |s.published| ==> s.published[i] != s.published[j]
    ensures forall id :: id in s.rows ==> id < |s.calls| && s.calls[id].key == s.rows[id]
  {
    ReachableInv(s);
    forall id | id in s.rows
      ensures id < |s.calls| && s.calls[id].key == s.rows[id]
    {
      assert CallOk(s, id);
    }
    forall id | id in s.published
      ensures id in s.rows
    {
      assert CallOk(s, id);
    }
  }

  /** All successful answers for a key name the same job, which is in the table under that key; only
      one of them can say that it is not a duplicate, and then the job was published. */
  lemma SameAnswer(s: State, c: nat, d: nat)
    requires Reachable(s) && c < |s.calls| && d < |s.calls| && s.calls[c].key == s.calls[d].key
    requires s.calls[c].stage.Over? && s.calls[c].stage.response.Submitted?
    requires s.calls[d].stage.Over? && s.calls[d].stage.response.Submitted?
    ensures var mine, other := s.calls[c].stage.response, s.calls[d].stage.response;
            && mine.id == other.id
            && mine.id in s.rows && s.rows[mine.id] == s.calls[c].key
            && (mine.duplicate <==> mine.id != c)
            && (!mine.duplicate ==> mine.id in s.published)
            && (!mine.duplicate && !other.duplicate ==> c == d)
  {
    ReachableInv(s);
    assert CallOk(s, c) && CallOk(s, d);
  }

  /******* Poisoned keys *******/

  /** The key has a job, but Redis does not name the job under the key, and the call that created it
      has failed or ended. */
  ghost predicate Poisoned(s: State, key: Key, id: Id) {
    && id in s.rows && s.rows[id] == key
    && id < |s.calls|
    && (s.calls[id].stage.Undoing? || s.calls[id].stage.Over?)
    && !(key in s.redis && s.redis[key] == id)
  }

  predicate Succeeded(call: Call) { call.stage.Over? && call.stage.response.Submitted? }

  /** From `s` to `t` only calls that had read the job's id from Redis by `s` have come to succeed. */
  ghost predicate OnlyLookupsSucceed(s: State, t: State, key: Key, id: Id) {
    forall c: nat :: c < |t.calls| && t.calls[c].key == key ==>
      && (t.calls[c].stage == Looking(id) ==> c < |s.calls| && s.calls[c] == t.calls[c])
      && (Succeeded(t.calls[c]) ==> c < |s.calls| && (s.calls[c] == t.calls[c] || s.calls[c] == Call(key, Looking(id))))
  }

  lemma ApplyKeepsPoison(s: State, c: nat, e: Effect, key: Key, id: Id)
    requires Inv(s) && Poisoned(s, key, id) && c < |s.calls| && EffectOk(s, c, e)
    ensures Poisoned(Apply(s, c, e), key, id) && OnlyLookupsSucceed(s, Apply(s, c, e), key, id)
  {
    assert CallOk(s, c) && CallOk(s, id);
    if s.calls[c].stage.Looking? {
      assert CallOk(s, s.calls[c].stage.id);
    }
  }

  lemma StepKeepsPoison(s: State, l: Label, key: Key, id: Id)
    requires Inv(s) && Poisoned(s, key, id) && Step(s, l).Some?
    ensures Poisoned(Step(s, l).value, key, id) && OnlyLookupsSucceed(s, Step(s, l).value, key, id)
  {
    match l
    case Act(c, reply) =>
      NextOk(s, c, reply);
      ApplyKeepsPoison(s, c, Next(s, c, reply).value, key, id);
    case Die(c) => ApplyKeepsPoison(s, c, GoTo(Over(NoAnswer)), key, id);
    case _ =>
  }

  /** A poisoned key stays poisoned. The only calls for it that can still succeed are those that had
      read the job's id from Redis before and were about to look it up. */
  lemma {:induction false} PoisonedForever(s: State, labels: seq<Label>, key: Key, id: Id)
    requires Inv(s) && Poisoned(s, key, id) && Run(s, labels).Some?
    ensures Inv(Run(s, labels).value) && Poisoned(Run(s, labels).value, key, id)
    ensures OnlyLookupsSucceed(s, Run(s, labels).value, key, id)
  {
    if labels == [] {
    } else {
      var n := |labels| - 1;
      PoisonedForever(s, labels[..n], key, id);
      StepKeepsInv(Run(s, labels[..n]).value, labels[n]);
      StepKeepsPoison(Run(s, labels[..n]).value, labels[n], key, id);
    }
  }

  /** The 503 answer tells the client to retry with the same key. No call that begins after it has been
      given ever succeeds. */
  lemma RetryAfterUnavailableFails(s: State, c: nat, labels: seq<Label>, d: nat)
    requires Reachable(s) && c < |s.calls| && s.calls[c].stage == Over(Unavailable)
    requires Run(s, labels).Some? && |s.calls| <= d < |Run(s, labels).value.calls|
    requires Run(s, labels).value.calls[d].key == s.calls[c].key
    ensures !Succeeded(Run(s, labels).value.calls[d])
  {
    ReachableInv(s);
    assert CallOk(s, c);
    PoisonedForever(s, labels, s.calls[c].key, c);
  }

  /** The 503 answer does happen, and even for a job whose message reached the broker: a publish that
      is applied and throws is answered with "submission failed". */
  lemma UnavailableThoughPublished()
    ensures exists s, c: nat :: Reachable(s) && c < |s.calls| && s.calls[c].stage == Over(Unavailable)
                                && c in s.published && Poisoned(s, s.calls[c].key, c)
  {
    var before := Inserted();
    var s1 := Apply(before, 0, GoTo(Undoing).(publish := true));
    Extend(before, Act(0, Threw(true)), s1);
    var s2 := Apply(s1, 0, GoTo(Over(Unavailable)).(release := true));
    Extend(s1, Act(0, Done), s2);
    assert s2.calls[0].stage == Over(Unavailable) && 0 in s2.published && Poisoned(s2, 0, 0);
  }

  /******* Why a call ends as it does *******/

  /** Step `k` of the run is one that call `c` took at this stage, and this is how it ended. */
  ghost predicate Did(labels: seq<Label>, k: nat, c: nat, stage: Stage, reply: Reply) {
    && k < |labels| && labels[k] == Act(c, reply)
    && Run(Initial(), labels[..k]).Some?
    && var s := Run(Initial(), labels[..k]).value;
       c < |s.calls| && s.calls[c].stage == stage
  }

  lemma DidBefore(labels: seq<Label>, k: nat, c: nat, stage: Stage, reply: Reply)
    requires labels != [] && k < |labels| - 1
    ensures Did(labels[..|labels| - 1], k, c, stage, reply) <==> Did(labels, k, c, stage, reply)
  {
    assert labels[..|labels| - 1][..k] == labels[..k];
  }

  /** The call's publish step was taken, and the message reached the broker, confirmed or not. */
  ghost predicate PublishApplied(labels: seq<Label>, c: nat) {
    exists k: nat, reply :: reply != Threw(false) && Did(labels, k, c, Publishing, reply)
  }

  lemma StepPublishes(s: State, l: Label, c: nat)
    requires Step(s, l).Some?
    ensures c in Step(s, l).value.published <==>
            c in s.published
            || (l.Act? && l.call == c && l.reply != Threw(false) && c < |s.calls| && s.calls[c].stage == Publishing)
  {}

  /** A job's message is with the broker exactly when the publish step of its call was applied, however
      the call was answered. */
  lemma {:induction false} PublishedIffApplied(labels: seq<Label>, c: nat)
    requires Run(Initial(), labels).Some?
    ensures c in Run(Initial(), labels).value.published <==> PublishApplied(labels, c)
  {
    if labels == [] {
    } else {
      var n := |labels| - 1;
      var s := Run(Initial(), labels[..n]).value;
      PublishedIffApplied(labels[..n], c);
      StepPublishes(s, labels[n], c);
      hide Step, Next;
      if k: nat, reply :| reply != Threw(false) && Did(labels[..n], k, c, Publishing, reply) {
        DidBefore(labels, k, c, Publishing, reply);
      }
      if c in Run(Initial(), labels).value.published && c !in s.published {
        assert Did(labels, n, c, Publishing, labels[n].reply);
      }
      if k: nat, reply :| reply != Threw(false) && Did(labels, k, c, Publishing, reply) {
        if k < n {
          DidBefore(labels, k, c, Publishing, reply);
        }
      }
    }
  }

  /** Some step of the call at this stage threw. */
  ghost predicate ThrewAt(labels: seq<Label>, c: nat, stage: Stage) {
    exists k: nat, reply :: reply != Done && Did(labels, k, c, stage, reply)
  }

  /** The call's INSERT found the key's row there. */
  ghost predicate RowWasThere(labels: seq<Label>, c: nat) {
    exists k: nat :: Did(labels, k, c, Creating, Done)
                     && HasRow(Run(Initial(), labels[..k]).value.rows, Run(Initial(), labels[..k]).value.calls[c].key)
  }

  ghost predicate SomethingThrew(labels: seq<Label>, c: nat) { exists stage :: ThrewAt(labels, c, stage) }

  /** Where a call is for a reason: a failed publish or mark, an exception, or a unique violation. */
  ghost predicate Caused(labels: seq<Label>, c: nat, stage: Stage) {
    match stage
    case Undoing => ThrewAt(labels, c, Publishing) || ThrewAt(labels, c, Marking)
    case Over(Unavailable) => ThrewAt(labels, c, Publishing) || ThrewAt(labels, c, Marking)
    case Over(Error) => SomethingThrew(labels, c) || RowWasThere(labels, c)
    case _ => true
  }

  lemma CauseStays(labels: seq<Label>, c: nat, stage: Stage)
    requires labels != [] && Caused(labels[..|labels| - 1], c, stage)
    ensures Caused(labels, c, stage)
  {
    var n := |labels| - 1;
    forall at: Stage | ThrewAt(labels[..n], c, at)
      ensures ThrewAt(labels, c, at)
    {
      var k: nat, reply :| reply != Done && Did(labels[..n], k, c, at, reply);
      DidBefore(labels, k, c, at, reply);
    }
    if RowWasThere(labels[..n], c) {
      var k: nat :| Did(labels[..n], k, c, Creating, Done)
        && HasRow(Run(Initial(), labels[..n][..k]).value.rows, Run(Initial(), labels[..n][..k]).value.calls[c].key);
      DidBefore(labels, k, c, Creating, Done);
      assert labels[..n][..k] == labels[..k];
    }
  }

  /** Which step gives a call a cause to fail. */
  lemma StepCauses(s: State, c: nat, reply: Reply)
    requires Inv(s) && c < |s.calls| && Next(s, c, reply).Some?
    ensures var was, e := s.calls[c].stage, Next(s, c, reply).value;
            && (e.stage == Undoing ==> reply != Done && (was == Publishing || was == Marking))
            && (e.stage == Over(Unavailable) ==> was == Undoing)
            && (e.stage == Over(Error) ==> reply != Done || (was == Creating && HasRow(s.rows, s.calls[c].key)))
  {
    assert CallOk(s, c);
  }

  lemma CauseOfAct(labels: seq<Label>, c: nat, reply: Reply)
    requires labels != [] && labels[|labels| - 1] == Act(c, reply) && Run(Initial(), labels).Some?
    requires var s := Run(Initial(), labels[..|labels| - 1]).value;
             Inv(s) && c < |s.calls| && Caused(labels[..|labels| - 1], c, s.calls[c].stage)
    ensures Caused(labels, c, Run(Initial(), labels).value.calls[c].stage)
  {
    var n := |labels| - 1;
    var s := Run(Initial(), labels[..n]).value;
    StepCauses(s, c, reply);
    CauseStays(labels, c, s.calls[c].stage);
    assert Did(labels, n, c, s.calls[c].stage, reply);
    if reply != Done {
      assert ThrewAt(labels, c, s.calls[c].stage);
    } else if s.calls[c].stage == Creating && HasRow(s.rows, s.calls[c].key) {
      assert Did(labels, n, c, Creating, Done);
      assert RowWasThere(labels, c);
    }
  }

  lemma OthersKeepStage(s: State, l: Label, c: nat)
    requires Step(s, l).Some? && c < |Step(s, l).value.calls| && !(l.Act? && l.call == c)
    ensures var t := Step(s, l).value;
            || (c < |s.calls| && t.calls[c].stage == s.calls[c].stage)
            || t.calls[c].stage == Reserving || t.calls[c].stage == Over(NoAnswer)
  {}

  /** In every run a call is answered with 503 only if its publish or its mark threw, and with an
      uncaught exception only if one of its steps threw or its INSERT found the key's row. */
  lemma {:induction false} FailuresAreCaused(labels: seq<Label>, c: nat)
    requires Run(Initial(), labels).Some? && c < |Run(Initial(), labels).value.calls|
    ensures Caused(labels, c, Run(Initial(), labels).value.calls[c].stage)
  {
    if labels == [] {
    } else {
      var n, l := |labels| - 1, labels[|labels| - 1];
      var s := Run(Initial(), labels[..n]).value;
      if c < |s.calls| {
        FailuresAreCaused(labels[..n], c);
      }
      if l.Act? && l.call == c {
        RunKeepsInv(Initial(), labels[..n]);
        CauseOfAct(labels, c, l.reply);
      } else {
        OthersKeepStage(s, l, c);
        if c < |s.calls| {
          CauseStays(labels, c, s.calls[c].stage);
        }
      }
    }
  }

  /******* What an undisturbed call answers *******/

  /** How many steps a call has left at most. */
  function Left(stage: Stage): nat {
    match stage
    case Reserving => 6
    case Reading => 2
    case Looking(_) => 1
    case Creating => 4
    case Publishing => 3
    case Marking => 2
    case Undoing => 1
    case Finding => 1
    case Over(_) => 0
  }

  lemma StepsLeft(s: State, c: nat, reply: Reply)
    requires c < |s.calls| && !s.calls[c].stage.Over?
    ensures Step(s, Act(c, reply)).Some?
    ensures var t := Step(s, Act(c, reply)).value;
            && |t.calls| == |s.calls| && t.calls[c].key == s.calls[c].key
            && Left(t.calls[c].stage) < Left(s.calls[c].stage)
  {}

  /** The answer of call `c` when nothing else happens and nothing fails. */
  ghost function Answer(s: State, c: nat): Response
    requires c < |s.calls|
    decreases Left(s.calls[c].stage)
  {
    if s.calls[c].stage.Over? then s.calls[c].stage.response
    else
      StepsLeft(s, c, Done);
      Answer(Step(s, Act(c, Done)).value, c)
  }

  /** What a new request for a key is answered when it runs undisturbed, for every state of the key.
      It is refused exactly when the key or the row is there without the other. */
  lemma NewRequest(s: State, key: Key)
    requires Inv(s)
    ensures var c, t := |s.calls|, Step(s, Begin(key)).value;
            Answer(t, c) ==
              if key in s.redis then (if s.redis[key] in s.rows then Submitted(s.redis[key], true) else InProgress)
              else (if HasRow(s.rows, key) then Error else Submitted(c, false))
  {
    var c, t := |s.calls|, Step(s, Begin(key)).value;
    var claimed := Step(t, Act(c, Done)).value;
    assert Answer(t, c) == Answer(claimed, c);
    if key in s.redis {
      var found := Step(claimed, Act(c, Done)).value;
      assert Answer(claimed, c) == Answer(found, c);
      assert Answer(found, c) == Answer(Step(found, Act(c, Done)).value, c);
    } else {
      assert HasRow(claimed.rows, key) <==> HasRow(s.rows, key);
      var created := Step(claimed, Act(c, Done)).value;
      assert Answer(claimed, c) == Answer(created, c);
      if !HasRow(s.rows, key) {
        UndisturbedPublish(created, c);
      }
    }
  }

  lemma UndisturbedPublish(s: State, c: nat)
    requires c < |s.calls| && s.calls[c].stage.Publishing? && c in s.rows
    ensures Answer(s, c) == Submitted(c, false)
  {
    var published := Step(s, Act(c, Done)).value;
    assert Answer(s, c) == Answer(published, c);
    var marked := Step(published, Act(c, Done)).value;
    assert Answer(published, c) == Answer(marked, c);
    assert Answer(marked, c) == Answer(Step(marked, Act(c, Done)).value, c);
  }

  /******* A duplicate answer is no promise *******/

  /** The job is in the table but its message will never be published: the creating call is past its
      publish, which did not happen. */
  ghost predicate Orphan(s: State, id: Id) {
    id in s.rows && id !in s.published && id < |s.calls| && !s.calls[id].stage.Publishing?
  }

  lemma {:induction false} OrphanForever(s: State, labels: seq<Label>, id: Id)
    requires Inv(s) && Orphan(s, id) && Run(s, labels).Some?
    ensures Inv(Run(s, labels).value) && Orphan(Run(s, labels).value, id)
  {
    if labels == [] {
    } else {
      var n := |labels| - 1;
      OrphanForever(s, labels[..n], id);
      var mid := Run(s, labels[..n]).value;
      StepKeepsInv(mid, labels[n]);
      assert CallOk(mid, id);
      if labels[n].Act? {
        NextOk(mid, labels[n].call, labels[n].reply);
      }
    }
  }

  /** A row is published, about to be published, or an orphan. */
  lemma RowsArePublishedOrOrphans(s: State, id: Id)
    requires Reachable(s) && id in s.rows
    ensures id in s.published || Orphan(s, id) || (id < |s.calls| && s.calls[id].stage.Publishing?)
    ensures id in s.published ==> !Orphan(s, id)
  {
    ReachableInv(s);
  }

  /** A replica that dies between its INSERT and its publish leaves an orphan, and a retry is told
      that the job was submitted before. */
  lemma DuplicateOfAnOrphan()
    ensures exists s, c: nat ::
              Reachable(s) && c < |s.calls| && s.calls[c].stage == Over(Submitted(0, true)) && Orphan(s, 0)
  {
    var inserted := Inserted();
    var before := Apply(inserted, 0, GoTo(Over(NoAnswer)));
    Extend(inserted, Die(0), before);
    var s1 := before.(calls := before.calls + [Call(0, Reserving)]);
    Extend(before, Begin(0), s1);
    var s2 := Apply(s1, 1, GoTo(Reading));
    Extend(s1, Act(1, Done), s2);
    var s3 := Apply(s2, 1, GoTo(Looking(0)));
    Extend(s2, Act(1, Done), s3);
    var s4 := Apply(s3, 1, GoTo(Over(Submitted(0, true))));
    Extend(s3, Act(1, Done), s4);
    assert s4.calls[1].stage == Over(Submitted(0, true)) && Orphan(s4, 0);
  }

  /** One call, up to the moment its row is there. */
  lemma Inserted() returns (s: State)
    ensures Reachable(s) && s == State(map[0 := 0], map[0 := 0], [], [Call(0, Publishing)])
  {
    assert Run(Initial(), []) == Some(Initial());
    var s1 := Initial().(calls := [Call(0, Reserving)]);
    assert s1.calls == Initial().calls + [Call(0, Reserving)];
    Extend(Initial(), Begin(0), s1);
    var s2 := Apply(s1, 0, GoTo(Creating).(claim := true));
    Extend(s1, Act(0, Done), s2);
    assert !HasRow(s2.rows, 0);
    s := Apply(s2, 0, GoTo(Publishing).(insert := true));
    Extend(s2, Act(0, Done), s);
  }

  lemma Extend(s: State, l: Label, t: State)
    requires Reachable(s) && Step(s, l) == Some(t)
    ensures Reachable(t)
  {
    var labels :| Run(Initial(), labels) == Some(s);
    assert (labels + [l])[..|labels|] == labels;
    assert Run(Initial(), labels + [l]) == Some(t);
  }
}
