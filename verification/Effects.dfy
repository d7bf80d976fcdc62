/**
 * What each operation on a job means: all that the queue knows of the job afterwards, in terms of what it knew before,
 * and that it knows the same of every other job.
 */
module Effects {
  import opened Wrappers
  import opened SortedSet
  import opened Protocol
  import JQ = JobQueue

  const YEAR: int := 31536000

  /** The score of a job that is enqueued: the present, unless others wait and it need not go first; then theirs. */
  ghost predicate QueuedWith(queued: ZSet, front: bool, now: int, score: int) {
    && (front || queued == map[] ==> score == now)
    && (!front && queued != map[] ==>
          exists m | m in queued ::
            && (forall k | k in queued :: queued[k] <= queued[m])
            && score == if queued[m] == 0 then now else queued[m])
  }

  lemma EnqueueScoreMeans(queued: ZSet, front: bool, now: int)
    ensures QueuedWith(queued, front, now, JQ.EnqueueScore(queued, front, now))
  {
    if queued != map[] {
      var m :| m in queued && queued[m] == LastScore(queued).value;
    }
  }

  /** What a partial save of `local` leaves of a hash that was `before`: only a whole hash stays whole. */
  function Partly(before: Option<JQ.Job>, local: JQ.Job): JQ.Job {
    match before
    case Some(job) => local.(whole := job.whole, expiresAt := job.expiresAt)
    case None => local.(whole := false, expiresAt := None)
  }

  /** A hash of which everything is known, and that stays as long as its expiry says. */
  function Wholly(before: Option<JQ.Job>, local: JQ.Job): JQ.Job {
    local.(whole := true, expiresAt := if before.Some? then before.value.expiresAt else None)
  }

  /** What `expire` leaves of a hash. */
  function Remaining(job: JQ.Job, ttl: int, now: int): Option<JQ.Job> {
    if ttl == 0 then None else if ttl > 0 then Some(job.(expiresAt := Some(now + ttl))) else Some(job)
  }

  // ---------------------------------------------------------------------------------------------
  // Creating and enqueueing

  lemma CreateNowMeans(q: Queue, n: Name, job: JQ.Job, front: bool, now: int)
    requires n !in q.state.jobs
    ensures var v, w := ViewOf(q, n), ViewOf(Done(q, CreateNow(n, job, front), now), n);
            && w.queued.Some? && QueuedWith(q.state.queued, front, now, w.queued.value)
            && w == v.(job := Some(job.(status := JQ.QUEUED, startedAt := None, whole := true, expiresAt := None)),
                       queued := w.queued, scheduled := None, due := Some(now))
  {
    EnqueueScoreMeans(q.state.queued, front, now);
  }

  lemma CreateAtMeans(q: Queue, n: Name, job: JQ.Job, when: int, now: int)
    requires n !in q.state.jobs
    ensures ViewOf(Done(q, CreateAt(n, job, when), now), n)
            == ViewOf(q, n).(job := Some(job.(status := JQ.SCHEDULED, whole := true, expiresAt := None)),
                             scheduled := Some(when), due := Some(when))
  {
  }

  /** A name that is taken is refused, and nothing changes. */
  lemma CreateRefused(q: Queue, n: Name, job: JQ.Job, front: bool, when: int, now: int)
    requires n in q.state.jobs
    ensures Done(q, CreateNow(n, job, front), now) == q == Done(q, CreateAt(n, job, when), now)
  {
  }

  lemma CreationTouchesOne(q: Queue, a: Action, now: int, m: Name)
    requires (a.CreateNow? || a.CreateAt?) && a.n != m
    ensures ViewOf(Done(q, a, now), m) == ViewOf(q, m)
  {
  }

  lemma EnqueueMeans(q: Queue, n: Name, local: JQ.Job, front: bool, now: int)
    ensures var v, w := ViewOf(q, n), ViewOf(q.(state := JQ.Enqueued(q.state, n, local, front, now)), n);
            && w.queued.Some? && QueuedWith(q.state.queued, front, now, w.queued.value)
            && w == v.(job := Some(Partly(v.job, local.(status := JQ.QUEUED, startedAt := None))),
                       queued := w.queued, scheduled := None)
  {
    EnqueueScoreMeans(q.state.queued, front, now);
  }

  lemma EnqueueTouchesOne(q: Queue, n: Name, local: JQ.Job, front: bool, now: int, m: Name)
    requires m != n
    ensures ViewOf(q.(state := JQ.Enqueued(q.state, n, local, front, now)), m) == ViewOf(q, m)
  {
  }

  // ---------------------------------------------------------------------------------------------
  // Executing

  /** Taken: started now, active until its timeout, and kept until it reports. */
  lemma TakeMeans(q: Queue, n: Name, now: int)
    requires Possible(q, Take(n))
    ensures var v, w := ViewOf(q, n), ViewOf(Done(q, Take(n), now), n);
            && v.job.Some?
            && var started := v.job.value.(status := JQ.STARTED, startedAt := Some(now));
               w == v.(job := Some(started.(expiresAt := None)), queued := None,
                       active := Some(now + started.timeout), takes := v.takes + [now], running := Some(started))
  {
  }

  /**
   * Succeeded: finished until the info TTL is over, unless that is 0; and the hash is whole, and gone or expiring as
   * the success TTL says.
   */
  lemma SucceedMeans(q: Queue, n: Name, now: int)
    requires Possible(q, Succeed(n))
    ensures var v, w := ViewOf(q, n), ViewOf(Done(q, Succeed(n), now), n);
            && v.running.Some?
            && var local := v.running.value;
               w == v.(job := Remaining(Wholly(v.job, local.(status := JQ.FINISHED)), local.successTtl, now),
                       active := None,
                       finished := if local.infoTtl != 0 then Some(now + local.infoTtl) else v.finished,
                       running := None)
  {
  }

  /** Failed or stopped: in the failed registry for a year, and the hash as it was but for the status. */
  lemma FailMeans(q: Queue, n: Name, stopped: bool, now: int)
    requires Possible(q, Fail(n, stopped))
    ensures var v, w := ViewOf(q, n), ViewOf(Done(q, Fail(n, stopped), now), n);
            && v.running.Some?
            && var local := v.running.value.(status := if stopped then JQ.STOPPED else JQ.FAILED);
               w == v.(job := Some(Partly(v.job, local)), active := None, failed := Some(now + YEAR), running := None)
  {
  }

  lemma AbandonMeans(q: Queue, n: Name, now: int)
    requires Possible(q, Abandon(n))
    ensures var v, w := ViewOf(q, n), ViewOf(Done(q, Abandon(n), now), n);
            && v.job.Some?
            && w == v.(job := Some(v.job.value.(status := JQ.FAILED)), active := None, failed := Some(now + YEAR))
  {
  }

  lemma WorkTouchesOne(q: Queue, a: Action, now: int, m: Name)
    requires Possible(q, a) && (a.Take? || a.Succeed? || a.Fail? || a.Abandon?) && a.n != m
    ensures ViewOf(Done(q, a, now), m) == ViewOf(q, m)
  {
  }

  // ---------------------------------------------------------------------------------------------
  // Cancelling, deleting and cleaning

  /**
   * Cancelled: a queued job is canceled, any other stopped and finished for a year; the failed registry is left alone.
   * Nothing happens to a job that cannot be loaded or was cancelled already.
   */
  lemma CancelMeans(q: Queue, n: Name, now: int)
    ensures var v, w := ViewOf(q, n), ViewOf(Done(q, Cancel(n), now), n);
            if v.job.None? || !v.job.value.whole || v.job.value.status == JQ.CANCELED then w == v
            else if v.job.value.status == JQ.QUEUED then
              w == v.(job := Some(v.job.value.(status := JQ.CANCELED)), scheduled := None, queued := None,
                      active := None, finished := None, canceled := Some(0))
            else
              w == v.(job := Some(v.job.value.(status := JQ.STOPPED)), scheduled := None, queued := None,
                      active := None, finished := Some(now + YEAR), canceled := None)
  {
  }

  /** Deleted: in no registry, and the hash, if it can be loaded, expires after its info TTL when that is asked for. */
  lemma DeleteMeans(q: Queue, n: Name, expireModel: bool, now: int)
    ensures var v, w := ViewOf(q, n), ViewOf(Done(q, Delete(n, expireModel), now), n);
            w == v.(job := if expireModel && v.job.Some? && v.job.value.whole
                           then Remaining(v.job.value, v.job.value.infoTtl, now) else v.job,
                    scheduled := None, queued := None, active := None, finished := None, failed := None,
                    canceled := None)
  {
  }

  predicate Due(score: Option<int>, now: int) {
    score.Some? && 0 <= score.value <= now
  }

  /** A registry's cleanup drops the scores from 0 to now, in that registry only. */
  lemma CleanMeans(q: Queue, now: int, n: Name)
    ensures var v := ViewOf(q, n);
            && ViewOf(Done(q, CleanFinished, now), n)
               == v.(finished := if Due(v.finished, now) then None else v.finished)
            && ViewOf(Done(q, CleanFailed, now), n) == v.(failed := if Due(v.failed, now) then None else v.failed)
            && ViewOf(Done(q, CleanActive, now), n) == v.(active := if Due(v.active, now) then None else v.active)
  {
  }

  lemma PurgeMeans(q: Queue, dead: set<Name>, now: int, n: Name)
    requires Possible(q, Purge(dead))
    ensures ViewOf(Done(q, Purge(dead), now), n)
            == ViewOf(q, n).(queued := if n in dead then None else ViewOf(q, n).queued)
  {
  }

  /** As time goes on, exactly the hashes whose expiry has come are gone. */
  lemma TickMeans(s: System, d: nat, q: string, n: Name)
    requires q in s.queues
    ensures var v, t := ViewOf(s.queues[q], n), Apply(s, Tick(d));
            && q in t.queues && t.now == s.now + d
            && var expired := v.job.Some? && v.job.value.expiresAt.Some? && v.job.value.expiresAt.value <= t.now;
               ViewOf(t.queues[q], n) == v.(job := if expired then None else v.job)
  {
  }

  /** A queue that is not asynchronous: the job ends in the registry of its outcome, and no other registry changes. */
  lemma InlineMeans(q: Queue, n: Name, local: JQ.Job, success: bool, now: int)
    ensures var v, w := ViewOf(q, n), ViewOf(q.(state := JQ.RanInline(q.state, n, local, success, now)), n);
            var ended := local.(status := if success then JQ.FINISHED else JQ.FAILED, startedAt := Some(now),
                                expiresAt := None);
            var whole := success || (v.job.Some? && v.job.value.whole);
            w == v.(job := Remaining(ended.(whole := whole), local.infoTtl, now), active := None,
                    finished := if success && local.infoTtl != 0 then Some(now + local.infoTtl) else v.finished,
                    failed := if success then v.failed else Some(now + YEAR))
  {
  }

  lemma InlineTouchesOne(q: Queue, n: Name, local: JQ.Job, success: bool, now: int, m: Name)
    requires m != n
    ensures ViewOf(q.(state := JQ.RanInline(q.state, n, local, success, now)), m) == ViewOf(q, m)
  {
  }
}
