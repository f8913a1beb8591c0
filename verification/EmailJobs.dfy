/** The submit handler as code: its control flow, with every exception, follows the submission
    protocol step by step while anything else may happen at each `await`. How each step ends is fixed
    beforehand in an arbitrary way, so the code cannot make up an exception. */
module EmailJobs {
  import opened Contracts
  import opened Submission

  /** The n-th step of a run ends the way that was fixed for it. */
  predicate AllDestined(replies: nat -> Reply, labels: seq<Label>) {
    labels != [] ==>
      var n := |labels| - 1;
      AllDestined(replies, labels[..n]) && (labels[n].Act? ==> labels[n].reply == replies(n))
  }

  lemma OthersKeepCall(s: State, l: Label, c: nat)
    requires Step(s, l).Some? && c < |s.calls| && !(l.Act? && l.call == c) && !(l.Die? && l.call == c)
    ensures c < |Step(s, l).value.calls| && Step(s, l).value.calls[c] == s.calls[c]
  {}

  /** Redis, the jobs table and the broker, shared with all other calls. */
  class World {
    var state: State

    /** Every step so far, of everyone, and how each step ends. */
    var trace: seq<Label>
    const replies: nat -> Reply

    ghost predicate Valid()
      reads this
    {
      Run(Initial(), trace) == Some(state) && AllDestined(replies, trace)
    }

    /** Call `c` is under way and about to do what `stage` says. */
    ghost predicate At(c: nat, key: Key, stage: Stage)
      reads this
    {
      Valid() && c < |state.calls| && state.calls[c] == Call(key, stage)
    }

    constructor (replies: nat -> Reply)
      ensures Valid() && state == Initial() && trace == [] && this.replies == replies
    {
      state := Initial();
      trace := [];
      this.replies := replies;
    }

    method Take(l: Label)
      requires Valid() && Step(state, l).Some? && (l.Act? ==> l.reply == replies(|trace|))
      modifies this
      ensures Valid() && Some(state) == Step(old(state), l) && trace == old(trace) + [l]
    {
      assert (trace + [l])[..|trace|] == trace;
      state := Step(state, l).value;
      trace := trace + [l];
    }

    /** While call `c` waits: any steps of other calls, replicas that die and keys that expire. */
    method Others(c: nat)
      requires Valid() && c < |state.calls|
      modifies this
      ensures Valid() && old(trace) <= trace
      ensures c < |state.calls| && state.calls[c] == old(state.calls[c])
    {
      hide Run, AllDestined;
      var labels: seq<Label> := *;
      for i := 0 to |labels|
        invariant Valid() && old(trace) <= trace
        invariant c < |state.calls| && state.calls[c] == old(state.calls[c])
      {
        var l := labels[i];
        if !(l.Act? && l.call == c) && !(l.Die? && l.call == c) && Step(state, l).Some?
           && (l.Act? ==> l.reply == replies(|trace|)) {
          OthersKeepCall(state, l, c);
          Take(l);
        }
      }
    }

    /** One awaited call of `c`, with the reply that was fixed for it, and what happens until `c` goes on. */
    method Await(c: nat) returns (reply: Reply)
      requires Valid() && c < |state.calls| && !state.calls[c].stage.Over?
      modifies this
      ensures Valid() && old(trace) <= trace && c < |state.calls|
      ensures reply == replies(|old(trace)|) && Next(old(state), c, reply).Some?
      ensures state.calls[c] == Call(old(state.calls[c].key), Next(old(state), c, reply).value.stage)
    {
      hide Run, AllDestined;
      reply := replies(|trace|);
      Take(Act(c, reply));
      Others(c);
    }

    /** `randomUUID`, and the start of a call. */
    method Begin(key: Key) returns (id: Id)
      requires Valid()
      modifies this
      ensures old(trace) <= trace && id >= |old(state.calls)| && At(id, key, Reserving)
    {
      hide Run, AllDestined;
      id := |state.calls|;
      Take(Submission.Begin(key));
      Others(id);
    }

    /** SET key id EX NX. `None` stands for an exception, here and below. */
    method SetNx(key: Key, id: Id) returns (acquired: Option<bool>)
      requires At(id, key, Reserving)
      modifies this
      ensures acquired.Some? <==> replies(|old(trace)|) == Done
      ensures old(trace) <= trace
      ensures acquired.Some? ==> acquired.value == (key !in old(state.redis))
      ensures At(id, key, if acquired == None then Over(Error) else if acquired.value then Creating else Reading)
    {
      hide Run, AllDestined;
      var taken := key in state.redis;
      var reply := Await(id);
      acquired := if reply == Done then Some(!taken) else None;
    }

    method Get(key: Key, c: nat) returns (value: Option<Option<Id>>)
      requires At(c, key, Reading)
      modifies this
      ensures value.Some? <==> replies(|old(trace)|) == Done
      ensures old(trace) <= trace
      ensures value.Some? ==> value.value == Stored(old(state), key)
      ensures match value
              case None => At(c, key, Over(Error))
              case Some(None) => At(c, key, Over(InProgress))
              case Some(Some(id)) => At(c, key, Looking(id))
    {
      hide Run, AllDestined;
      var stored := Stored(state, key);
      var reply := Await(c);
      value := if reply == Done then Some(stored) else None;
    }

    method Del(key: Key, c: nat) returns (deleted: bool)
      requires At(c, key, Undoing)
      modifies this
      ensures deleted <==> replies(|old(trace)|) == Done
      ensures old(trace) <= trace
      ensures At(c, key, Over(if deleted then Unavailable else Error))
    {
      hide Run, AllDestined;
      var reply := Await(c);
      deleted := reply == Done;
    }

    /** Whether the INSERT went through without a unique-constraint violation or another exception. */
    method Create(id: Id, key: Key) returns (created: bool)
      requires At(id, key, Creating)
      modifies this
      ensures old(trace) <= trace
      ensures created <==> replies(|old(trace)|) == Done && id !in old(state.rows) && !HasRow(old(state.rows), key)
      ensures At(id, key, if created then Publishing else Over(Error))
    {
      hide Run, AllDestined;
      var free := id !in state.rows && !HasRow(state.rows, key);
      var reply := Await(id);
      created := reply == Done && free;
    }

    method FindById(id: Id, c: nat, key: Key) returns (found: Option<bool>)
      requires At(c, key, Looking(id)) || (At(c, key, Finding) && id == c)
      modifies this
      ensures found.Some? <==> replies(|old(trace)|) == Done
      ensures old(trace) <= trace
      ensures found.Some? ==> found.value == (id in old(state.rows))
      ensures var looking := old(state.calls[c].stage.Looking?);
              match found
              case None => At(c, key, Over(Error))
              case Some(present) =>
                At(c, key, Over(if present then Submitted(id, looking) else if looking then InProgress else Error))
    {
      hide Run, AllDestined;
      var present := id in state.rows;
      var reply := Await(c);
      found := if reply == Done then Some(present) else None;
    }

    method PublishJob(id: Id, key: Key) returns (published: bool)
      requires At(id, key, Publishing)
      modifies this
      ensures published <==> replies(|old(trace)|) == Done
      ensures old(trace) <= trace && At(id, key, if published then Marking else Undoing)
    {
      hide Run, AllDestined;
      var reply := Await(id);
      published := reply == Done;
    }

    method MarkPublished(id: Id, key: Key) returns (marked: bool)
      requires At(id, key, Marking)
      modifies this
      ensures marked <==> replies(|old(trace)|) == Done && id in old(state.rows)
      ensures old(trace) <= trace && At(id, key, if marked then Finding else Undoing)
    {
      hide Run, AllDestined;
      var present := id in state.rows;
      var reply := Await(id);
      marked := reply == Done && present;
    }
  }

  class EmailJobsService {
    const world: World

    constructor (world: World)
      ensures this.world == world
    {
      this.world := world;
    }

    /** Whatever happens around it, the handler answers as the protocol does: with the one job of the
        key, whose row is in the table, and without the duplicate mark only if that job was published.
        It answers 503 only if its publish or its mark threw, and lets an exception through only if one
        of its own steps threw or its INSERT found the key's row. Its own job is with the broker exactly
        if its publish step was applied. */
    method Submit(key: Key) returns (response: Response, ghost call: nat)
      requires world.Valid()
      modifies world
      ensures old(world.trace) <= world.trace
      ensures |old(world.state.calls)| <= call && world.At(call, key, Over(response))
      ensures response == Submitted(call, false) || response.InProgress? || response.Unavailable? || response.Error?
              || (response.Submitted? && response.duplicate && response.id != call)
      ensures response.Submitted? ==>
                && response.id in world.state.rows && world.state.rows[response.id] == key
                && (!response.duplicate ==> response.id in world.state.published)
      ensures Caused(world.trace, call, Over(response))
      ensures call in world.state.published <==> PublishApplied(world.trace, call)
    {
      var jobId := world.Begin(key);
      call := jobId;
      response := Handle(jobId, key);
      ReachableInv(world.state);
      assert CallOk(world.state, jobId);
      FailuresAreCaused(world.trace, jobId);
      PublishedIffApplied(world.trace, jobId);
    }

    /** The handler's control flow. It answers as its stages say; if the claim of the key throws it ends
        at once, and if the key was free it never answers as a duplicate or in progress. */
    method Handle(jobId: Id, key: Key) returns (response: Response)
      requires world.At(jobId, key, Reserving)
      modifies world
      ensures old(world.trace) <= world.trace && world.At(jobId, key, Over(response)) && response != NoAnswer
      ensures world.replies(|old(world.trace)|) != Done ==> response == Error
      ensures world.replies(|old(world.trace)|) == Done ==>
                if key in old(world.state.redis) then !response.Unavailable? && response != Submitted(jobId, false)
                else response != InProgress && (response.Submitted? ==> response == Submitted(jobId, false))
    {
      hide World.Valid;
      var acquired := world.SetNx(key, jobId);
      if acquired == None { return Error; }
      if !acquired.value {
        var existingId := world.Get(key, jobId);
        if existingId == None { return Error; }
        if existingId.value == None { return InProgress; }
        var job := world.FindById(existingId.value.value, jobId, key);
        if job == None { return Error; }
        return if job.value then Submitted(existingId.value.value, true) else InProgress;
      }
      var created := world.Create(jobId, key);
      if !created { return Error; }
      var done := world.PublishJob(jobId, key);
      if done {
        done := world.MarkPublished(jobId, key);
      }
      if !done {
        var deleted := world.Del(key, jobId);
        return if deleted then Unavailable else Error;
      }
      var job := world.FindById(jobId, jobId, key);
      return if job == Some(true) then Submitted(jobId, false) else Error;
    }
  }
}
