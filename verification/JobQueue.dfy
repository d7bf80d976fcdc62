/** One queue of the broker as a value: its job hashes and its six registries, and what each operation makes of them. */
module JobQueue {
  import opened Wrappers
  import opened SortedSet

  /** DEFAULT_FAILURE_TTL: how long failure information is kept. */
  const FAILURE_TTL: int := 365 * 24 * 60 * 60

  /** How many due names one scheduler pass reads. */
  const CHUNK_SIZE: nat := 1000

  datatype Status = SCHEDULED | QUEUED | CANCELED | STARTED | FINISHED | FAILED | STOPPED

  /**
   * A job hash. `whole` is false for a hash that was re-created by a partial save after the key had gone: it exists,
   * but cannot be read back. `expiresAt` is the key's expiry.
   */
  datatype Job = Job(
    status: Status, timeout: int, infoTtl: int, successTtl: int,
    startedAt: Option<int>, whole: bool, expiresAt: Option<int>)

  datatype State = State(
    jobs: map<Name, Job>, queued: ZSet, active: ZSet, finished: ZSet, failed: ZSet, scheduled: ZSet, canceled: ZSet)

  datatype Error = NameTaken | NoSuchJob | AlreadyCanceled | EmptyTimeout | DequeueTimeout | CallbackFailed | Unreadable

  const EMPTY := State(map[], map[], map[], map[], map[], map[], map[])

  /** JobModel.get: the handle, unless the hash is missing or cannot be read. */
  function Get(s: State, n: Name): Option<Job> {
    if n in s.jobs && s.jobs[n].whole then Some(s.jobs[n]) else None
  }

  /** HashModel.save of a handle: creates the key when it is missing, and leaves an existing key's expiry alone. */
  function Saved(jobs: map<Name, Job>, n: Name, local: Job, full: bool): map<Name, Job> {
    if n in jobs
    then jobs[n := local.(whole := full || jobs[n].whole, expiresAt := jobs[n].expiresAt)]
    else jobs[n := local.(whole := full, expiresAt := None)]
  }

  /** JobModel.expire. */
  function Expiring(jobs: map<Name, Job>, n: Name, ttl: int, now: int): map<Name, Job> {
    if ttl == 0 then jobs - {n}
    else if ttl > 0 && n in jobs then jobs[n := jobs[n].(expiresAt := Some(now + ttl))]
    else jobs
  }

  /** The keys that the broker still has at `now`. */
  function Unexpired(jobs: map<Name, Job>, now: int): map<Name, Job> {
    map n | n in jobs && (jobs[n].expiresAt.None? || now < jobs[n].expiresAt.value) :: jobs[n]
  }

  /** Queue._remove_from_registries: every registry but the failed one. */
  function Removed(s: State, n: Name): State {
    s.(finished := s.finished - {n}, scheduled := s.scheduled - {n}, active := s.active - {n},
       canceled := s.canceled - {n}, queued := s.queued - {n})
  }

  /** The score a job gets when it is enqueued: a last score of 0 counts as none. */
  function EnqueueScore(queued: ZSet, front: bool, now: int): int {
    var last := LastScore(queued);
    if front || last.None? || last.value == 0 then now else last.value
  }

  /** Queue.enqueue_job on a handle `local` of job n. */
  function Enqueued(s: State, n: Name, local: Job, front: bool, now: int): State {
    s.(jobs := Saved(s.jobs, n, local.(status := QUEUED, startedAt := None), false),
       scheduled := s.scheduled - {n},
       queued := s.queued[n := EnqueueScore(s.queued, front, now)])
  }

  /** Queue.create_and_enqueue_job without a time. */
  function CreatedNow(s: State, n: Name, job: Job, front: bool, now: int): Result<State, Error> {
    if n in s.jobs then Err(NameTaken) else
      var local := job.(status := QUEUED);
      Ok(Enqueued(s.(jobs := Saved(s.jobs, n, local, true)), n, local, front, now))
  }

  /** Queue.create_and_enqueue_job for a given time. */
  function CreatedAt(s: State, n: Name, job: Job, when: int): Result<State, Error> {
    if n in s.jobs then Err(NameTaken) else
      Ok(s.(jobs := Saved(s.jobs, n, job.(status := SCHEDULED), true), scheduled := s.scheduled[n := when]))
  }

  /** The handle that the worker keeps while it executes a job. */
  function Running(local: Job, now: int): Job {
    local.(status := STARTED, startedAt := Some(now))
  }

  /** JobModel.prepare_for_execution, then persist. */
  function Prepared(s: State, n: Name, local: Job, now: int): State {
    var jobs := Saved(s.jobs, n, Running(local, now), false);
    s.(active := s.active[n := now + local.timeout], jobs := jobs[n := jobs[n].(expiresAt := None)])
  }

  /** Saving everything after the callable returned, Queue.job_handle_success, then the success expiry. */
  function Succeeded(s: State, n: Name, local: Job, now: int): State {
    var done := Finished(s, n, local, now);
    done.(jobs := Expiring(done.jobs, n, local.successTtl, now))
  }

  /** Queue.job_handle_failure. */
  function FailedWith(s: State, n: Name, local: Job, status: Status, now: int): State {
    s.(jobs := Saved(s.jobs, n, local.(status := status), false),
       active := s.active - {n},
       failed := s.failed[n := now + FAILURE_TTL])
  }

  /** A job saved after its callable returned, and moved to finished: without the success expiry. */
  function Finished(s: State, n: Name, local: Job, now: int): State {
    s.(jobs := Saved(s.jobs, n, local.(status := FINISHED), true),
       active := s.active - {n},
       finished := if local.infoTtl != 0 then s.finished[n := now + local.infoTtl] else s.finished)
  }

  /** Queue.enqueue_job of a queue that is not asynchronous: the job runs at once, and `success` is how it ends. */
  function RanInline(s: State, n: Name, local: Job, success: bool, now: int): State {
    var queued := local.(status := QUEUED, startedAt := None);
    var started := Prepared(s.(jobs := Saved(s.jobs, n, queued, false)), n, queued, now);
    var running := Running(queued, now);
    var done := if success then Finished(started, n, running, now) else FailedWith(started, n, running, FAILED, now);
    done.(jobs := Expiring(done.jobs, n, local.infoTtl, now))
  }

  /**
   * A job that ran inline is in the registry of its outcome, and nothing takes it out of scheduled: the next pass runs
   * it again exactly if it was scheduled and its hash, which stays unless its info TTL is 0, can be loaded.
   */
  lemma InlineRunIsRepeatedIff(s: State, n: Name, local: Job, success: bool, now: int)
    requires Get(s, n).Some?
    ensures var r := RanInline(s, n, local, success, now);
            && n !in r.active && r.queued == s.queued && r.canceled == s.canceled && r.scheduled == s.scheduled
            && (success && local.infoTtl != 0 ==> n in r.finished && r.finished[n] == now + local.infoTtl)
            && (!success ==> n in r.failed && r.failed[n] == now + FAILURE_TTL)
            && (n in r.scheduled && Get(r, n).Some? <==> n in s.scheduled && local.infoTtl != 0)
  {
  }

  /** What Queue.cancel_job raises. */
  function CancelError(s: State, n: Name): Option<Error> {
    if Get(s, n).None? then Some(NoSuchJob)
    else if s.jobs[n].status == CANCELED then Some(AlreadyCanceled)
    else None
  }

  /**
   * Queue.cancel_job, when it raises nothing: only a job that is still queued becomes canceled, any other is
   * stopped.
   */
  function Canceled(s: State, n: Name, now: int): State
    requires n in s.jobs
  {
    var wasQueued := s.jobs[n].status == QUEUED;
    State(s.jobs[n := s.jobs[n].(status := if wasQueued then CANCELED else STOPPED)],
          s.queued - {n},
          s.active - {n},
          if wasQueued then s.finished - {n} else (s.finished - {n})[n := now + FAILURE_TTL],
          s.failed,
          s.scheduled - {n},
          if wasQueued then (s.canceled - {n})[n := 0] else s.canceled - {n})
  }

  /** Queue.delete_job. */
  function Deleted(s: State, n: Name, expireModel: bool, now: int): State {
    var r := Removed(s, n).(failed := s.failed - {n});
    if expireModel && Get(s, n).Some? then r.(jobs := Expiring(s.jobs, n, s.jobs[n].infoTtl, now)) else r
  }

  /** QueuedJobRegistry.compact. */
  function Compacted(s: State): State {
    s.(queued := map n | n in s.queued && n in s.jobs :: s.queued[n])
  }

  /** The queued jobs that can be loaded. */
  function LiveQueued(s: State): ZSet {
    map n | n in s.queued && Get(s, n).Some? :: s.queued[n]
  }

  /** ScheduledJobRegistry.get_jobs_to_schedule. */
  function DueNames(s: State, now: int): seq<Name> {
    First(Between(s.scheduled, 0, now), CHUNK_SIZE)
  }

  lemma DueNamesAreDue(s: State, now: int)
    ensures forall n | n in DueNames(s, now) :: n in s.scheduled && 0 <= s.scheduled[n] <= now
    ensures forall i, j | 0 <= i < j < |DueNames(s, now)| :: DueNames(s, now)[i] != DueNames(s, now)[j]
  {
    FirstMembers(Between(s.scheduled, 0, now), CHUNK_SIZE);
    FirstDistinct(Between(s.scheduled, 0, now), CHUNK_SIZE);
  }

  /** A pass reads as many due names as it can, in order; those it does not read come after all it does. */
  lemma DueNamesComeFirst(s: State, now: int)
    ensures var names, due := DueNames(s, now), Between(s.scheduled, 0, now);
            && |names| == (if |due| <= 1000 then |due| else 1000)
            && (forall n | n in names :: n in s.scheduled)
            && (forall i, j | 0 <= i < j < |names| ::
                  names[i] in names && names[j] in names && Precedes(s.scheduled, names[i], names[j]))
            && (forall n, m | n in names && m in due && m !in names :: Precedes(s.scheduled, n, m))
  {
    FirstComeFirst(Between(s.scheduled, 0, now), CHUNK_SIZE);
  }

  /** One scheduler pass over the queue: the loaded jobs are enqueued one by one. */
  function Promoted(s: State, names: seq<Name>, loaded: map<Name, Job>, now: int): State
    decreases |names|
  {
    if names == [] then s
    else if names[0] in loaded then
      Promoted(Enqueued(s, names[0], loaded[names[0]], false, now), names[1..], loaded, now)
    else Promoted(s, names[1..], loaded, now)
  }

  /** Every registry's cleanup, as Queue.clean_registries runs it: queued, scheduled and canceled ignore it. */
  function CleanedUp(s: State, before: int): State {
    s.(finished := Cleaned(s.finished, before),
       failed := Cleaned(s.failed, before),
       active := Cleaned(s.active, before))
  }

  /** The active jobs that can still be loaded and whose start plus twice their timeout has passed. */
  function Abandoned(s: State, before: int): set<Name> {
    set n | n in s.active && 0 <= s.active[n] <= before && Get(s, n).Some? && s.active[n] + s.jobs[n].timeout <= before
  }

  function MarkedFailed(jobs: map<Name, Job>, names: set<Name>): map<Name, Job> {
    map n | n in jobs :: if n in names then jobs[n].(status := FAILED) else jobs[n]
  }

  /** A registry after `names` were added at `score` and it was cleaned. */
  function AddedAndCleaned(z: ZSet, names: set<Name>, score: int, before: int): ZSet {
    map n | n in z.Keys + names && !(0 <= (if n in names then score else z[n]) <= before) ::
      if n in names then score else z[n]
  }

  /** Moving the jobs `names` to failed at `now`, with every registry cleaned at `before` after each of them. */
  function AfterAbandoning(s: State, names: set<Name>, before: int, now: int): State {
    if names == {} then s else
      CleanedUp(s, before).(
        jobs := MarkedFailed(s.jobs, names),
        failed := AddedAndCleaned(s.failed, names, now + FAILURE_TTL, before))
  }

  lemma OneMoreInRegistry(z: ZSet, names: set<Name>, n: Name, score: int, before: int)
    ensures Cleaned(AddedAndCleaned(z, names, score, before)[n := score], before)
            == AddedAndCleaned(z, names + {n}, score, before)
  {
    var x := AddedAndCleaned(z, names, score, before);
    var a, b := Cleaned(x[n := score], before), AddedAndCleaned(z, names + {n}, score, before);
    forall m ensures m in a <==> m in b {
      assert m in x[n := score] <==> m == n || m in x;
    }
  }

  lemma FirstInRegistry(z: ZSet, n: Name, score: int, before: int)
    ensures Cleaned(z[n := score], before) == AddedAndCleaned(z, {n}, score, before)
  {
    var a, b := Cleaned(z[n := score], before), AddedAndCleaned(z, {n}, score, before);
    forall m ensures m in a <==> m in b {
      assert m in z[n := score] <==> m == n || m in z;
    }
  }

  lemma CleanedTwice(z: ZSet, n: Name, before: int)
    requires n in z ==> 0 <= z[n] <= before
    ensures Cleaned(z - {n}, before) == Cleaned(z, before)
    ensures Cleaned(Cleaned(z, before) - {n}, before) == Cleaned(z, before)
    ensures Cleaned(Cleaned(z, before), before) == Cleaned(z, before)
  {
  }

  lemma OneMoreMarked(jobs: map<Name, Job>, names: set<Name>, n: Name)
    requires n in jobs && n !in names && jobs[n].whole
    ensures Saved(MarkedFailed(jobs, names), n, jobs[n].(status := FAILED), false) == MarkedFailed(jobs, names + {n})
    ensures Saved(jobs, n, jobs[n].(status := FAILED), false) == MarkedFailed(jobs, {n})
  {
  }

  lemma StillThere(s: State, names: set<Name>, n: Name, before: int, now: int)
    requires n !in names
    ensures Get(AfterAbandoning(s, names, before, now), n) == Get(s, n)
  {
  }

  /** Failing and cleaning up after one more job: the order of the jobs does not matter. */
  lemma OneMoreAbandoned(s: State, names: set<Name>, n: Name, before: int, now: int)
    requires n in Abandoned(s, before) && n !in names
    ensures Get(AfterAbandoning(s, names, before, now), n) == Get(s, n)
    ensures CleanedUp(FailedWith(AfterAbandoning(s, names, before, now), n, s.jobs[n], FAILED, now), before)
            == AfterAbandoning(s, names + {n}, before, now)
  {
    OneMoreInRegistry(s.failed, names, n, now + FAILURE_TTL, before);
    OneMoreMarked(s.jobs, names, n);
    CleanedTwice(s.active, n, before);
    assert Cleaned(Cleaned(s.finished, before), before) == Cleaned(s.finished, before);
    if names == {} {
      FirstInRegistry(s.failed, n, now + FAILURE_TTL, before);
      assert names + {n} == {n};
    }
  }

  /** The names among the first k that are wanted. */
  function Reached(names: seq<Name>, k: nat, wanted: set<Name>): set<Name> {
    set i | 0 <= i < k && i < |names| && names[i] in wanted :: names[i]
  }

  /**
   * The body of clean_registries' loop, for the scores it read; `raising` are the jobs whose failure callback raises,
   * which ends the loop. A job is failed when it can still be loaded and its start plus twice its timeout has passed.
   */
  function PassOne(read: ZSet, before: int, raising: set<Name>, now: int): (State, Name) -> Option<State> {
    (s: State, n: Name) =>
      if Get(s, n).None? || n !in read || before < read[n] + s.jobs[n].timeout then Some(s)
      else if n in raising then None
      else Some(CleanedUp(FailedWith(s, n, s.jobs[n], FAILED, now), before))
  }

  /** A loop over names that ends when its body does: the last queue, and how many names it got through. */
  function Over(s: State, names: seq<Name>, body: (State, Name) -> Option<State>): (State, nat)
    decreases |names|
  {
    if names == [] || body(s, names[0]).None? then (s, 0) else
      var more := Over(body(s, names[0]).value, names[1..], body);
      (more.0, more.1 + 1)
  }

  /** One more turn of the loop, from its i-th name on. */
  lemma OneMoreTurn(s: State, names: seq<Name>, i: nat, body: (State, Name) -> Option<State>)
    requires i < |names|
    ensures var next := body(s, names[i]);
            if next.None? then Over(s, names[i..], body) == (s, 0)
            else Over(s, names[i..], body).0 == Over(next.value, names[i + 1..], body).0
                 && Over(s, names[i..], body).1 == Over(next.value, names[i + 1..], body).1 + 1
  {
    assert names[i..][0] == names[i] && names[i..][1..] == names[i + 1..];
  }

  /** The names a pass fails, and how many it gets through, when the `wanted` ones are to be failed. */
  function Failing(names: seq<Name>, wanted: set<Name>, raising: set<Name>): (set<Name>, nat) {
    if names == [] || (names[0] in wanted && names[0] in raising) then ({}, 0) else
      var (failed, done) := Failing(names[1..], wanted, raising);
      (if names[0] in wanted then {names[0]} + failed else failed, done + 1)
  }

  lemma {:induction false} FailingUpToFirstRaise(names: seq<Name>, wanted: set<Name>, raising: set<Name>)
    ensures var (failed, done) := Failing(names, wanted, raising);
            && done <= |names| && failed == Reached(names, done, wanted) && failed !! raising
            && (done < |names| ==> names[done] in wanted && names[done] in raising)
  {
    if names != [] && !(names[0] in wanted && names[0] in raising) {
      FailingUpToFirstRaise(names[1..], wanted, raising);
      ReachedFromSecond(names, Failing(names[1..], wanted, raising).1, wanted);
    }
  }

  lemma ReachedFromSecond(names: seq<Name>, k: nat, wanted: set<Name>)
    requires names != []
    ensures Reached(names, k + 1, wanted) ==
            if names[0] in wanted then {names[0]} + Reached(names[1..], k, wanted) else Reached(names[1..], k, wanted)
  {
    var a, b := Reached(names, k + 1, wanted), Reached(names[1..], k, wanted);
    if names[0] in wanted {
      assert names[0] in a;
    }
    forall n | n in b ensures n in a {
      var i :| 0 <= i < k && i < |names[1..]| && names[1..][i] == n;
      assert names[i + 1] == n;
    }
    forall n | n in a && (n != names[0] || n !in wanted) ensures n in b {
      var i :| 0 <= i < k + 1 && i < |names| && names[i] == n && n in wanted;
      assert names[1..][i - 1] == n;
    }
  }

  /**
   * A loop whose body fails the wanted jobs, `after` being the queue once a set of them was failed: it fails those up
   * to the first that raises, whatever the order.
   */
  lemma {:induction false} OverFailing(
      body: (State, Name) -> Option<State>, after: set<Name> -> State,
      moved: set<Name>, names: seq<Name>, wanted: set<Name>, raising: set<Name>)
    requires forall n | n in names :: n !in moved
    requires forall i, j | 0 <= i < j < |names| :: names[i] != names[j]
    requires forall x, n | n in names && n !in x :: body(after(x), n) ==
               if n !in wanted then Some(after(x)) else if n in raising then None else Some(after(x + {n}))
    ensures var (failed, done) := Failing(names, wanted, raising);
            Over(after(moved), names, body) == (after(moved + failed), done)
    decreases |names|
  {
    if names == [] {
      assert moved + {} == moved;
    } else {
      var n, rest := names[0], names[1..];
      var failed := Failing(rest, wanted, raising).0;
      forall m | m in rest ensures m in names && m != n {
        var i :| 0 <= i < |rest| && rest[i] == m;
        assert names[i + 1] == m;
      }
      if n !in wanted {
        OverFailing(body, after, moved, rest, wanted, raising);
      } else if n !in raising {
        OverFailing(body, after, moved + {n}, rest, wanted, raising);
        assert moved + {n} + failed == moved + ({n} + failed);
      } else {
        assert moved + {} == moved;
      }
    }
  }

  lemma AllReached(z: ZSet, wanted: set<Name>)
    requires forall n | n in wanted :: n in z
    ensures Reached(Sorted(z), |z|, wanted) == wanted
  {
    SortedMembers(z);
    forall n | n in wanted ensures n in Reached(Sorted(z), |z|, wanted) {
      var i :| 0 <= i < |z| && Sorted(z)[i] == n;
    }
  }

  /**
   * What clean_registries makes of queue `s`: `done` of the names it read were handled, all of them unless a callback
   * of an abandoned job raised, and of those exactly the abandoned ones were failed.
   */
  ghost predicate CleanedRight(
    s: State, t: State, ok: bool, done: nat, before: int, raising: set<Name>, now: int)
  {
    var read, abandoned := Sorted(Between(s.active, 0, before)), Abandoned(s, before);
    && done <= |read| && (ok <==> done == |read|) && (ok <==> abandoned !! raising)
    && (!ok ==> read[done] in abandoned && read[done] in raising)
    && t == AfterAbandoning(Compacted(s), Reached(read, done, abandoned), before, now)
  }

  /** One turn of the loop on a queue where `moved` were failed. */
  lemma OneTurn(s: State, moved: set<Name>, n: Name, before: int, raising: set<Name>, now: int)
    requires n in Between(s.active, 0, before) && n !in moved
    ensures PassOne(Between(s.active, 0, before), before, raising, now)(AfterAbandoning(s, moved, before, now), n) ==
            if n !in Abandoned(s, before) then Some(AfterAbandoning(s, moved, before, now))
            else if n in raising then None
            else Some(AfterAbandoning(s, moved + {n}, before, now))
  {
    StillThere(s, moved, n, before, now);
    if n in Abandoned(s, before) {
      OneMoreAbandoned(s, moved, n, before, now);
    }
  }

  lemma PassMovesTheAbandoned(s: State, before: int, raising: set<Name>, now: int)
    ensures var read := Between(s.active, 0, before);
            var (failed, done) := Failing(Sorted(read), Abandoned(s, before), raising);
            Over(s, Sorted(read), PassOne(read, before, raising, now))
            == (AfterAbandoning(s, failed, before, now), done)
  {
    var read, abandoned := Between(s.active, 0, before), Abandoned(s, before);
    var body := PassOne(read, before, raising, now);
    var after := (names: set<Name>) => AfterAbandoning(s, names, before, now);
    SortedMembers(read);
    SortedDistinct(read);
    forall x, n | n in Sorted(read) && n !in x
      ensures body(after(x), n) ==
              if n !in abandoned then Some(after(x)) else if n in raising then None else Some(after(x + {n}))
    {
      OneTurn(s, x, n, before, raising, now);
    }
    OverFailing(body, after, {}, Sorted(read), abandoned, raising);
    var failed := Failing(Sorted(read), abandoned, raising).0;
    assert {} + failed == failed;
  }

  lemma PassCleansRight(s: State, before: int, raising: set<Name>, now: int)
    ensures var read := Between(s.active, 0, before);
            var (t, done) := Over(Compacted(s), Sorted(read), PassOne(read, before, raising, now));
            CleanedRight(s, t, done == |read|, done, before, raising, now)
  {
    var read, start, abandoned := Between(s.active, 0, before), Compacted(s), Abandoned(s, before);
    assert Abandoned(start, before) == abandoned;
    PassMovesTheAbandoned(start, before, raising, now);
    FailingUpToFirstRaise(Sorted(read), abandoned, raising);
    AllReached(read, abandoned);
  }

  predicate InRange(z: ZSet, n: Name, before: int) {
    n in z && 0 <= z[n] <= before
  }

  /** `z` after a cleanup that drops the scores from 0 to `before`. */
  ghost predicate OnlyOutOfRange(z: ZSet, after: ZSet, before: int) {
    forall n :: (n in after <==> n in z && !InRange(z, n, before)) && (n in after ==> after[n] == z[n])
  }

  /**
   * What a pass that failed the jobs `failed` leaves, registry by registry: if there are none, nothing but dead queued
   * names is gone; otherwise active and finished keep what is out of range, failed keeps that and has the failed jobs
   * for a year, and those have failed.
   */
  ghost predicate PassLeaves(s: State, t: State, failed: set<Name>, before: int, now: int) {
    && t.scheduled == s.scheduled && t.canceled == s.canceled
    && (forall n :: (n in t.queued <==> n in s.queued && n in s.jobs) && (n in t.queued ==> t.queued[n] == s.queued[n]))
    && (failed == {} ==>
          t.active == s.active && t.finished == s.finished && t.failed == s.failed && t.jobs == s.jobs)
    && (failed != {} ==>
          && OnlyOutOfRange(s.active, t.active, before) && OnlyOutOfRange(s.finished, t.finished, before)
          && OnlyOutOfRange(map n | n in s.failed.Keys + failed :: if n in failed then now + 31536000 else s.failed[n],
                            t.failed, before)
          && t.jobs.Keys == s.jobs.Keys
          && forall n | n in s.jobs :: t.jobs[n] == if n in failed then s.jobs[n].(status := FAILED) else s.jobs[n])
  }

  /** The jobs that the first `done` turns of the loop fail. */
  predicate FailedBy(s: State, done: nat, before: int, n: Name) {
    && n in Reached(Sorted(Between(s.active, 0, before)), done, Between(s.active, 0, before).Keys)
    && n in s.jobs && s.jobs[n].whole && s.active[n] + s.jobs[n].timeout <= before
  }

  lemma CleanedMeans(s: State, t: State, ok: bool, done: nat, before: int, raising: set<Name>, now: int)
    requires CleanedRight(s, t, ok, done, before, raising, now)
    ensures var failed := set n | n in s.active && FailedBy(s, done, before, n);
            && PassLeaves(s, t, failed, before, now)
            && (ok ==> forall n :: n in failed <==>
                  InRange(s.active, n, before) && n in s.jobs && s.jobs[n].whole
                  && s.active[n] + s.jobs[n].timeout <= before)
  {
    var failed := set n | n in s.active && FailedBy(s, done, before, n);
    WhatFailed(s, t, ok, done, before, raising, now);
    AbandoningMeans(Compacted(s), failed, before, now);
    CompactedFirst(s, t, failed, before, now);
    if ok {
      AbandonedMeans(s, before);
    }
  }

  lemma WhatFailed(s: State, t: State, ok: bool, done: nat, before: int, raising: set<Name>, now: int)
    requires CleanedRight(s, t, ok, done, before, raising, now)
    ensures var failed := set n | n in s.active && FailedBy(s, done, before, n);
            t == AfterAbandoning(Compacted(s), failed, before, now) && (ok ==> failed == Abandoned(s, before))
  {
    FailedAreReached(s, done, before);
    if ok {
      AllReached(Between(s.active, 0, before), Abandoned(s, before));
    }
  }

  lemma AbandonedMeans(s: State, before: int)
    ensures forall n :: n in Abandoned(s, before) <==>
              InRange(s.active, n, before) && n in s.jobs && s.jobs[n].whole
              && s.active[n] + s.jobs[n].timeout <= before
  {
  }

  lemma FailedAreReached(s: State, done: nat, before: int)
    ensures (set n | n in s.active && FailedBy(s, done, before, n))
            == Reached(Sorted(Between(s.active, 0, before)), done, Abandoned(s, before))
  {
    var read := Between(s.active, 0, before);
    SortedMembers(read);
    forall n ensures FailedBy(s, done, before, n) <==> n in Reached(Sorted(read), done, Abandoned(s, before)) {
      ReachedSome(Sorted(read), done, read.Keys, Abandoned(s, before), n);
    }
  }

  lemma CompactedFirst(s: State, t: State, failed: set<Name>, before: int, now: int)
    requires PassLeaves(Compacted(s), t, failed, before, now)
    ensures PassLeaves(s, t, failed, before, now)
  {
    var c := Compacted(s);
    assert c.active == s.active && c.finished == s.finished && c.failed == s.failed && c.jobs == s.jobs;
  }

  lemma ReachedSome(names: seq<Name>, k: nat, all: set<Name>, wanted: set<Name>, n: Name)
    requires wanted <= all
    ensures n in Reached(names, k, wanted) <==> n in Reached(names, k, all) && n in wanted
  {
  }

  lemma AbandoningMeans(s: State, failed: set<Name>, before: int, now: int)
    requires forall n | n in s.queued :: n in s.jobs
    ensures PassLeaves(s, AfterAbandoning(s, failed, before, now), failed, before, now)
  {
  }

  /**
   * A clean-up time short of `now` plus the failure TTL keeps exactly the jobs that the pass failed, and no
   * earlier time loses one.
   */
  lemma FailedAreKept(s: State, before: int, now: int)
    requires 0 <= now && Abandoned(s, before) != {}
    ensures var t := AfterAbandoning(s, Abandoned(s, before), before, now);
            (t.failed.Keys == Cleaned(s.failed, before).Keys + Abandoned(s, before)) <==> before < now + FAILURE_TTL
  {
    var names := Abandoned(s, before);
    var t := AfterAbandoning(s, names, before, now);
    if before < now + FAILURE_TTL {
      forall n ensures n in t.failed <==> n in Cleaned(s.failed, before).Keys + names {}
    } else {
      var n :| n in names;
      assert n !in t.failed;
      assert n in Cleaned(s.failed, before).Keys + names;
    }
  }
}
