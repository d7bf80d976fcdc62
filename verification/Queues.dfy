/**
 * The Queue class. One object stands for a queue's part of the broker: its job hashes and its six registries.
 * Each method takes the clock as a parameter and is proved against the functions of JobQueue.
 */
module Queues {
  import opened Wrappers
  import opened SortedSet
  import JQ = JobQueue

  datatype Found = Found(from: nat, name: Name, job: JQ.Job)

  class Queue {
    var jobs: map<Name, JQ.Job>
    var queued: ZSet
    var active: ZSet
    var finished: ZSet
    var failed: ZSet
    var scheduled: ZSet
    var canceled: ZSet

    constructor ()
      ensures State() == JQ.EMPTY
    {
      jobs, queued, active, finished, failed, scheduled, canceled := map[], map[], map[], map[], map[], map[], map[];
    }

    function State(): JQ.State
      reads this
    {
      JQ.State(jobs, queued, active, finished, failed, scheduled, canceled)
    }

    method CreateAndEnqueueJob(name: Name, job: JQ.Job, when: Option<int>, atFront: bool, now: int)
      returns (r: Result<JQ.Job, JQ.Error>)
      modifies this
      ensures var after := if when.None? then JQ.CreatedNow(old(State()), name, job, atFront, now)
                           else JQ.CreatedAt(old(State()), name, job, when.value);
              match after
              case Ok(s) => r.Ok? && State() == s
              case Err(e) => r == Err(e) && State() == old(State())
      ensures if name in old(jobs) then r == Err(JQ.NameTaken)
              else if when.None? then r == Ok(job.(status := JQ.QUEUED, startedAt := None))
              else r == Ok(job.(status := JQ.SCHEDULED))
    {
      if name in jobs {
        return Err(JQ.NameTaken);
      }
      var model := job.(status := if when.None? then JQ.QUEUED else JQ.SCHEDULED);
      jobs := JQ.Saved(jobs, name, model, true);
      if when.None? {
        model := EnqueueJob(name, model, atFront, now);
      } else {
        scheduled := scheduled[name := when.value];
      }
      r := Ok(model);
    }

    method EnqueueJob(name: Name, job: JQ.Job, atFront: bool, now: int) returns (model: JQ.Job)
      modifies this
      ensures State() == JQ.Enqueued(old(State()), name, job, atFront, now)
      ensures model == job.(startedAt := None, status := JQ.QUEUED)
    {
      model := job.(startedAt := None, status := JQ.QUEUED);
      jobs := JQ.Saved(jobs, name, model, false);
      var score := now;
      if !atFront {
        var last := LastScore(queued);
        if last.Some? && last.value != 0 {
          score := last.value;
        }
      }
      scheduled := scheduled - {name};
      queued := queued[name := score];
    }

    method PrepareForExecution(name: Name, job: JQ.Job, now: int) returns (running: JQ.Job)
      modifies this
      ensures State() == JQ.Prepared(old(State()), name, job, now)
      ensures running == JQ.Running(job, now)
    {
      running := job.(status := JQ.STARTED, startedAt := Some(now));
      active := active[name := now + job.timeout];
      jobs := JQ.Saved(jobs, name, running, false);
      jobs := jobs[name := jobs[name].(expiresAt := None)];
    }

    /** EnqueueJob when the queue is not asynchronous: Queue.run_sync, then the expiry. */
    method EnqueueInline(name: Name, job: JQ.Job, success: bool, now: int)
      modifies this
      ensures State() == JQ.RanInline(old(State()), name, job, success, now)
    {
      var model := job.(startedAt := None, status := JQ.QUEUED);
      jobs := JQ.Saved(jobs, name, model, false);
      var running := PrepareForExecution(name, model, now);
      if success {
        SaveFinished(name, running, now);
      } else {
        HandleFailure(JQ.FAILED, name, running, now);
      }
      Expire(name, job.infoTtl, now);
    }

    /** Saving everything, then job_handle_success. */
    method SaveFinished(name: Name, job: JQ.Job, now: int)
      modifies this
      ensures State() == JQ.Finished(old(State()), name, job, now)
    {
      jobs := JQ.Saved(jobs, name, job, true);
      finished := AfterExecution(name, job, job.infoTtl, JQ.FINISHED, finished, now);
      assert jobs == JQ.Saved(old(jobs), name, job.(status := JQ.FINISHED), true);
    }

    /** JobModel.after_execution; the previous registry is always the active one. */
    method AfterExecution(name: Name, job: JQ.Job, ttl: int, status: JQ.Status, registry: ZSet, now: int)
      returns (added: ZSet)
      modifies `active, `jobs
      ensures active == old(active) - {name}
      ensures jobs == JQ.Saved(old(jobs), name, job.(status := status), false)
      ensures added == if ttl != 0 then registry[name := now + ttl] else registry
    {
      active := active - {name};
      added := registry;
      if ttl != 0 {
        added := added[name := now + ttl];
      }
      jobs := JQ.Saved(jobs, name, job.(status := status), false);
    }

    /** What the worker does when the callable returned: save_all, job_handle_success and expire. */
    method HandleSuccess(name: Name, job: JQ.Job, now: int)
      modifies this
      ensures State() == JQ.Succeeded(old(State()), name, job, now)
    {
      SaveFinished(name, job, now);
      Expire(name, job.successTtl, now);
    }

    method HandleFailure(status: JQ.Status, name: Name, job: JQ.Job, now: int)
      modifies this
      ensures State() == JQ.FailedWith(old(State()), name, job, status, now)
    {
      failed := AfterExecution(name, job, JQ.FAILURE_TTL, status, failed, now);
    }

    method Expire(name: Name, ttl: int, now: int)
      modifies `jobs
      ensures jobs == JQ.Expiring(old(jobs), name, ttl, now)
    {
      if ttl == 0 {
        jobs := jobs - {name};
      } else if ttl > 0 {
        if name in jobs {
          jobs := jobs[name := jobs[name].(expiresAt := Some(now + ttl))];
        }
      }
    }

    method RemoveFromRegistries(name: Name)
      modifies `finished, `scheduled, `active, `canceled, `queued
      ensures State() == JQ.Removed(old(State()), name)
    {
      finished := finished - {name};
      scheduled := scheduled - {name};
      active := active - {name};
      canceled := canceled - {name};
      queued := queued - {name};
    }

    method CancelJob(name: Name, now: int) returns (r: Result<(), JQ.Error>)
      modifies this
      ensures match JQ.CancelError(old(State()), name)
              case None => r.Ok? && State() == JQ.Canceled(old(State()), name, now)
              case Some(e) => r == Err(e) && State() == old(State())
      ensures r == Err(JQ.NoSuchJob) <==> name !in old(jobs) || !old(jobs)[name].whole
      ensures r == Err(JQ.AlreadyCanceled) <==>
                name in old(jobs) && old(jobs)[name].whole && old(jobs)[name].status == JQ.CANCELED
    {
      var job := JQ.Get(State(), name);
      if job.None? {
        return Err(JQ.NoSuchJob);
      }
      if job.value.status == JQ.CANCELED {
        return Err(JQ.AlreadyCanceled);
      }
      var newStatus := if job.value.status == JQ.QUEUED then JQ.CANCELED else JQ.STOPPED;
      jobs := jobs[name := jobs[name].(status := newStatus)];
      RemoveFromRegistries(name);
      if newStatus == JQ.CANCELED {
        canceled := canceled[name := 0];
      } else {
        finished := finished[name := now + JQ.FAILURE_TTL];
      }
      r := Ok(());
    }

    method DeleteJob(name: Name, expireJobModel: bool, now: int)
      modifies this
      ensures State() == JQ.Deleted(old(State()), name, expireJobModel, now)
    {
      RemoveFromRegistries(name);
      failed := failed - {name};
      if expireJobModel {
        var model := JQ.Get(State(), name);
        if model.Some? {
          Expire(name, model.value.infoTtl, now);
        }
      }
    }

    /** The queued registry's names, in order: JobNamesRegistry.all. */
    method AllQueued() returns (names: seq<Name>)
      ensures forall n :: n in names <==> n in queued
    {
      names := Sorted(queued);
      SortedMembers(queued);
    }

    /** QueuedJobRegistry.compact. */
    method Compact()
      modifies `queued
      ensures State() == JQ.Compacted(old(State()))
    {
      var names := AllQueued();
      ghost var before := queued;
      for i := 0 to |names|
        invariant forall n | n in queued :: n in before && queued[n] == before[n]
        invariant forall n | n in before && n !in queued :: n !in jobs
        invariant forall k | 0 <= k < i :: names[k] in queued ==> names[k] in jobs
      {
        if names[i] !in jobs {
          queued := queued - {names[i]};
        }
      }
      forall n | n in queued ensures n in jobs {
        assert n in names;
      }
    }

    /** The registries' own cleanup at `before`. */
    method CleanupRegistries(before: int)
      modifies `finished, `failed, `active
      ensures State() == JQ.CleanedUp(old(State()), before)
    {
      finished := Cleaned(finished, before);
      failed := Cleaned(failed, before);
      active := Cleaned(active, before);
    }

    /**
     * One registry's part of WorkerScheduler.enqueue_scheduled_jobs: read the due names, load their jobs, and enqueue
     * those that exist. Loading a hash that cannot be read raises, before anything is enqueued.
     */
    method EnqueueScheduledJobs(now: int) returns (r: Result<seq<Name>, JQ.Error>)
      modifies this
      ensures r.Ok? <==> forall n | n in JQ.DueNames(old(State()), now) && n in old(jobs) :: old(jobs)[n].whole
      ensures r.Ok? ==> r.value == JQ.DueNames(old(State()), now)
                        && State() == JQ.Promoted(old(State()), r.value, old(jobs), now)
      ensures r.Err? ==> State() == old(State())
    {
      var names := JQ.DueNames(State(), now);
      var loaded := jobs;
      if exists n | n in names :: n in loaded && !loaded[n].whole {
        return Err(JQ.Unreadable);
      }
      var i := 0;
      while i < |names|
        invariant 0 <= i <= |names|
        invariant JQ.Promoted(State(), names[i..], loaded, now) == JQ.Promoted(old(State()), names, loaded, now)
      {
        assert names[i..][1..] == names[i + 1..];
        if names[i] in loaded {
          var _ := EnqueueJob(names[i], loaded[names[i]], false, now);
        }
        i := i + 1;
      }
      r := Ok(names);
    }

    /**
     * Queue.clean_registries. `raising` are the jobs whose failure callback raises, which ends the pass; `done` is how
     * many of the names read at the start it got through.
     */
    method CleanRegistries(timestamp: Option<int>, raising: set<Name>, now: int) returns (ok: bool, ghost done: nat)
      modifies this
      ensures JQ.CleanedRight(old(State()), State(), ok, done, CleaningTime(timestamp, now), raising, now)
    {
      var before := CleaningTime(timestamp, now);
      JQ.PassCleansRight(State(), before, raising, now);
      Compact();
      var names := ActiveBefore(before);
      ok, done := FailAbandoned(names, Between(active, 0, before), before, raising, now);
    }

    /** The loop of clean_registries over the names and scores read from the active registry. */
    method FailAbandoned(names: seq<Name>, read: ZSet, before: int, raising: set<Name>, now: int)
      returns (ok: bool, ghost done: nat)
      requires forall n | n in names :: n in read
      modifies this
      ensures (State(), done) == JQ.Over(old(State()), names, JQ.PassOne(read, before, raising, now))
      ensures ok <==> done == |names|
    {
      done := 0;
      var i := 0;
      ghost var body := JQ.PassOne(read, before, raising, now);
      ghost var goal := JQ.Over(State(), names, body);
      assert names[0..] == names;
      while i < |names|
        invariant 0 <= i <= |names| && done == i
        invariant JQ.Over(State(), names[i..], body).0 == goal.0
        invariant JQ.Over(State(), names[i..], body).1 + i == goal.1
      {
        JQ.OneMoreTurn(State(), names, i, body);
        ok := FailIfAbandoned(names[i], read, before, raising, now);
        if !ok {
          return;
        }
        i := i + 1;
        done := i;
      }
      ok := true;
    }

    /** The loop's body; it ends the loop when the failure callback raises. */
    method FailIfAbandoned(name: Name, read: ZSet, before: int, raising: set<Name>, now: int) returns (ok: bool)
      requires name in read
      modifies this
      ensures JQ.PassOne(read, before, raising, now)(old(State()), name) == if ok then Some(State()) else None
      ensures !ok ==> State() == old(State())
    {
      var job := JQ.Get(State(), name);
      if job.Some? && read[name] + job.value.timeout <= before {
        if name in raising {
          return false;
        }
        MoveToFailed(name, job.value, before, now);
      }
      ok := true;
    }

    method MoveToFailed(name: Name, job: JQ.Job, before: int, now: int)
      modifies this
      ensures State() == JQ.CleanedUp(JQ.FailedWith(old(State()), name, job, JQ.FAILED, now), before)
    {
      HandleFailure(JQ.FAILED, name, job, now);
      CleanupRegistries(before);
    }

    /** ActiveJobRegistry.get_job_names_before. */
    method ActiveBefore(before: int) returns (names: seq<Name>)
      ensures names == Sorted(Between(active, 0, before))
      ensures forall n | n in names :: n in Between(active, 0, before)
      ensures forall i, j | 0 <= i < j < |names| :: names[i] != names[j]
    {
      names := First(Between(active, 0, before), |active|);
      Smaller(active, 0, before);
      FirstMembers(Between(active, 0, before), |active|);
      FirstDistinct(Between(active, 0, before), |active|);
    }

    /** `zpopmin` on the queued registry. */
    method PopQueued() returns (r: Option<Name>)
      modifies `queued
      ensures old(queued) == map[] ==> r == None && queued == old(queued)
      ensures old(queued) != map[] ==> r.Some? && IsLeast(old(queued), r.value) && queued == old(queued) - {r.value}
    {
      if queued == map[] {
        return None;
      }
      var n := Least(queued);
      queued := queued - {n};
      r := Some(n);
    }
  }

  /** A timestamp of 0 counts as none. */
  function CleaningTime(timestamp: Option<int>, now: int): (time: int)
    ensures timestamp == None || timestamp == Some(0) ==> time == now
    ensures timestamp != None && timestamp != Some(0) ==> timestamp == Some(time)
  {
    if timestamp.Some? && timestamp.value != 0 then timestamp.value else now
  }

  lemma Smaller(z: ZSet, lo: int, hi: int)
    ensures |Between(z, lo, hi)| <= |z|
  {
    assert Between(z, lo, hi).Keys <= z.Keys;
    SubsetSize(Between(z, lo, hi).Keys, z.Keys);
  }

  lemma {:induction false} SubsetSize(a: set<Name>, b: set<Name>)
    requires a <= b
    ensures |a| <= |b|
  {
    if a != {} {
      var n :| n in a;
      SubsetSize(a - {n}, b - {n});
    }
  }

  ghost function States(queues: seq<Queue>): seq<JQ.State>
    reads queues
  {
    seq(|queues|, i requires 0 <= i < |queues| reads queues => queues[i].State())
  }

  ghost function QueuedNames(states: seq<JQ.State>): set<(nat, Name)> {
    set k, n | 0 <= k < |states| && n in states[k].queued :: (k, n)
  }

  ghost predicate Distinct(queues: seq<Queue>) {
    forall i, j | 0 <= i < j < |queues| :: queues[i] != queues[j]
  }

  /** Only dead names, and `except`, went from the queued registry; nothing else changed. */
  ghost predicate Purged(before: JQ.State, after: JQ.State, except: Option<Name>) {
    && after == before.(queued := after.queued)
    && (forall n | n in after.queued :: n in before.queued && after.queued[n] == before.queued[n])
    && (forall n | n in before.queued && n !in after.queued :: JQ.Get(before, n) == None || Some(n) == except)
  }

  ghost predicate AllPurged(before: seq<JQ.State>, after: seq<JQ.State>) {
    |before| == |after| && forall k | 0 <= k < |before| :: Purged(before[k], after[k], None)
  }

  ghost predicate NothingLive(states: seq<JQ.State>) {
    forall k | 0 <= k < |states| :: JQ.LiveQueued(states[k]) == map[]
  }

  /** `f` is the first live job, by (score, name), of the first queue that has one. */
  ghost predicate IsFirstLive(states: seq<JQ.State>, f: Found) {
    && f.from < |states|
    && IsLeast(JQ.LiveQueued(states[f.from]), f.name)
    && Some(f.job) == JQ.Get(states[f.from], f.name)
    && NothingLive(states[..f.from])
  }

  /**
   * What taking `f` leaves: of its queue's queued names, only dead ones and `f` are gone; of the others', only
   * dead ones.
   */
  ghost predicate TakenOut(before: seq<JQ.State>, after: seq<JQ.State>, f: Found) {
    && |before| == |after| && f.from < |before|
    && f.name !in after[f.from].queued
    && forall k | 0 <= k < |before| :: Purged(before[k], after[k], if k == f.from then Some(f.name) else None)
  }

  /** The result and the effect of a dequeue that finds queues `before` and leaves them `after`. */
  ghost predicate Dequeued(
      before: seq<JQ.State>, after: seq<JQ.State>, timeout: Option<nat>, r: Result<Option<Found>, JQ.Error>) {
    if timeout == Some(0) then r == Err(JQ.EmptyTimeout) && AllPurged(before, after)
    else if NothingLive(before) then
      r == (if timeout.Some? then Err(JQ.DequeueTimeout) else Ok(None)) && AllPurged(before, after)
    else
      r.Ok? && r.value.Some? && IsFirstLive(before, r.value.value) && TakenOut(before, after, r.value.value)
  }

  method CompactAll(queues: seq<Queue>)
    requires Distinct(queues)
    modifies queues
    ensures AllPurged(old(States(queues)), States(queues))
  {
    ghost var before := States(queues);
    for i := 0 to |queues|
      invariant forall k | i <= k < |queues| :: queues[k].State() == before[k]
      invariant forall k | 0 <= k < i :: Purged(before[k], queues[k].State(), None)
    {
      queues[i].Compact();
    }
  }

  /** QueuedJobRegistry.pop, without waiting. */
  method PopAny(queues: seq<Queue>) returns (r: Option<(nat, Name)>)
    requires Distinct(queues)
    modifies queues
    ensures r.None? ==> States(queues) == old(States(queues))
    ensures r.None? ==> forall k | 0 <= k < |queues| :: queues[k].queued == map[]
    ensures r.Some? ==>
              var (k, n) := r.value;
              && k < |queues|
              && (forall j | 0 <= j < k :: old(queues[j].queued) == map[])
              && IsLeast(old(queues[k].queued), n)
              && queues[k].State() == old(queues[k].State()).(queued := old(queues[k].queued) - {n})
              && forall j | 0 <= j < |queues| && j != k :: queues[j].State() == old(queues[j].State())
  {
    var k := 0;
    while k < |queues|
      invariant 0 <= k <= |queues|
      invariant forall j | 0 <= j < k :: queues[j].queued == map[]
    {
      if queues[k].queued != map[] {
        var popped := queues[k].PopQueued();
        return Some((k, popped.value));
      }
      k := k + 1;
    }
    r := None;
  }

  /**
   * Queue.dequeue_any: takes the first live job of the first queue that has one. A call with a timeout that finds
   * nothing raises DequeueTimeout; a timeout of 0 is refused.
   */
  method DequeueAny(queues: seq<Queue>, timeout: Option<nat>) returns (r: Result<Option<Found>, JQ.Error>)
    requires Distinct(queues)
    modifies queues
    ensures Dequeued(old(States(queues)), States(queues), timeout, r)
  {
    ghost var before := States(queues);
    while true
      invariant AllPurged(before, States(queues))
      decreases QueuedNames(States(queues))
    {
      ghost var round := States(queues);
      CompactAll(queues);
      ghost var compacted := States(queues);
      StillPurged(before, round, compacted);
      if timeout == Some(0) {
        return Err(JQ.EmptyTimeout);
      }
      var popped := PopAny(queues);
      if popped.None? {
        EmptyDequeue(before, States(queues), timeout);
        return if timeout.Some? then Err(JQ.DequeueTimeout) else Ok(None);
      }
      var (k, n) := popped.value;
      var job := JQ.Get(queues[k].State(), n);
      ghost var after := States(queues);
      assert after == compacted[k := compacted[k].(queued := compacted[k].queued - {n})];
      if job.Some? {
        var found := Found(k, n, job.value);
        FirstLiveTaken(before, compacted, after, timeout, found);
        return Ok(Some(found));
      }
      DeadTaken(before, round, compacted, after, k, n);
    }
  }

  lemma StillPurged(before: seq<JQ.State>, middle: seq<JQ.State>, after: seq<JQ.State>)
    requires AllPurged(before, middle) && AllPurged(middle, after)
    ensures AllPurged(before, after)
  {
    forall k | 0 <= k < |before| ensures Purged(before[k], after[k], None) {
      assert Purged(before[k], middle[k], None) && Purged(middle[k], after[k], None);
      forall n | n in before[k].queued && n !in after[k].queued ensures JQ.Get(before[k], n) == None {
        if n in middle[k].queued { assert JQ.Get(middle[k], n) == JQ.Get(before[k], n); }
      }
    }
  }

  lemma NoneLive(before: seq<JQ.State>, after: seq<JQ.State>, k: nat)
    requires AllPurged(before, after) && k <= |before|
    requires forall j | 0 <= j < k :: after[j].queued == map[]
    ensures NothingLive(before[..k])
  {
    forall j | 0 <= j < k ensures JQ.LiveQueued(before[j]) == map[] {
      assert Purged(before[j], after[j], None);
      forall n ensures n !in JQ.LiveQueued(before[j]) {}
    }
  }

  lemma FirstLiveTaken(
      before: seq<JQ.State>, compacted: seq<JQ.State>, after: seq<JQ.State>,
      timeout: Option<nat>, f: Found)
    requires AllPurged(before, compacted) && timeout != Some(0)
    requires f.from < |before| && IsLeast(compacted[f.from].queued, f.name)
    requires JQ.Get(compacted[f.from], f.name) == Some(f.job)
    requires forall j | 0 <= j < f.from :: compacted[j].queued == map[]
    requires after == compacted[f.from := compacted[f.from].(queued := compacted[f.from].queued - {f.name})]
    ensures Dequeued(before, after, timeout, Ok(Some(f)))
  {
    NoneLive(before, compacted, f.from);
    assert Purged(before[f.from], compacted[f.from], None);
    LeastLive(before[f.from], compacted[f.from], f.name);
    assert f.name in JQ.LiveQueued(before[f.from]);
    forall k | 0 <= k < |before|
      ensures Purged(before[k], after[k], if k == f.from then Some(f.name) else None)
    {
      assert Purged(before[k], compacted[k], None);
    }
  }

  lemma DeadTaken(
      before: seq<JQ.State>, round: seq<JQ.State>, compacted: seq<JQ.State>, after: seq<JQ.State>, k: nat, n: Name)
    requires AllPurged(before, compacted) && AllPurged(round, compacted)
    requires k < |before| && n in compacted[k].queued && JQ.Get(compacted[k], n) == None
    requires after == compacted[k := compacted[k].(queued := compacted[k].queued - {n})]
    ensures AllPurged(before, after)
    ensures QueuedNames(after) < QueuedNames(round)
  {
    assert Purged(before[k], compacted[k], None) && Purged(round[k], compacted[k], None);
    assert (k, n) in QueuedNames(round) && (k, n) !in QueuedNames(after);
    assert forall j | 0 <= j < |after| :: Purged(round[j], compacted[j], None);
    assert JQ.Get(before[k], n) == None;
    forall j | 0 <= j < |before| ensures Purged(before[j], after[j], None) {
      assert Purged(before[j], compacted[j], None);
    }
  }

  lemma EmptyDequeue(before: seq<JQ.State>, after: seq<JQ.State>, timeout: Option<nat>)
    requires AllPurged(before, after) && timeout != Some(0)
    requires forall j | 0 <= j < |after| :: after[j].queued == map[]
    ensures Dequeued(before, after, timeout, if timeout.Some? then Err(JQ.DequeueTimeout) else Ok(None))
  {
    NoneLive(before, after, |before|);
    assert before[..|before|] == before;
  }

  lemma LeastLive(before: JQ.State, after: JQ.State, n: Name)
    requires Purged(before, after, None) && IsLeast(after.queued, n) && JQ.Get(before, n).Some?
    ensures IsLeast(JQ.LiveQueued(before), n)
  {
    var live := JQ.LiveQueued(before);
    forall m | m in live && m != n ensures Precedes(live, n, m) {
      assert m in after.queued;
    }
  }
}
