/** Runs from the start that reach the races: a job cancelled in the hands of a pass, and a heartbeat that is late. */
module Races {
  import opened Wrappers
  import opened SortedSet
  import opened Protocol
  import opened Lifecycle
  import opened Safety
  import opened Withdrawals
  import JQ = JobQueue
  import L = Leases

  /** A scheduler gets a queue's lock, a job is created for now, and the scheduler's pass reads it. */
  function RaceSteps(p: nat, q: string, n: Name, job: JQ.Job): seq<Step> {
    [Acquire(p, q), Refresh(p), Act(q, CreateAt(n, job, 0)), BeginPass(p, q)]
  }

  /** A scheduler for one queue, as it was made. */
  function OneQueueScheduler(interval: nat, fallback: nat, q: string): Scheduler {
    NewScheduler(interval, {q}, fallback)
  }

  /** The same with the lock, got at `now`. */
  function Holder(interval: nat, fallback: nat, q: string, now: int, pass: Option<Pass>): Scheduler {
    Scheduler(interval, {q}, fallback, map[q := now], {q}, Some(now), pass, false)
  }

  /** One empty queue, and schedulers for it. */
  function RaceStart(schedulers: set<nat>, interval: nat, fallback: nat, q: string): System {
    System(0, map[q := Queue(JQ.EMPTY, map[], map[], map[])], map[],
           map p | p in schedulers :: OneQueueScheduler(interval, fallback, q))
  }

  /** The pass that has just this one job in hand. */
  function OneJobPass(q: string, n: Name, job: JQ.Job): Pass {
    Pass(q, [n], map[n := Stored(job)])
  }

  function Stored(job: JQ.Job): JQ.Job {
    job.(status := JQ.SCHEDULED, whole := true, expiresAt := None)
  }

  predicate OneJob(q: Queue, n: Name, job: JQ.Job) {
    q.state == JQ.EMPTY.(jobs := map[n := Stored(job)], scheduled := map[n := 0]) && q.takes == map[]
  }

  lemma ThreeSteps(s: System, a: Step, b: Step, c: Step)
    requires Enabled(s, a) && Enabled(Apply(s, a), b) && Enabled(Apply(Apply(s, a), b), c)
    ensures Runs(s, [a, b, c]) && After(s, [a, b, c]) == Apply(Apply(Apply(s, a), b), c)
  {
    OneStep(Apply(Apply(s, a), b), c, []);
    OneStep(Apply(s, a), b, [c]);
    OneStep(s, a, [b, c]);
    assert [c] + [] == [c] && [b] + [c] == [b, c] && [a] + [b, c] == [a, b, c];
  }

  lemma OneDueName(s: JQ.State, n: Name, now: int)
    requires s.scheduled == map[n := 0] && 0 <= now
    ensures JQ.DueNames(s, now) == [n]
  {
    var z := Between(s.scheduled, 0, now);
    assert z == map[n := 0];
    SortedMembers(z);
    assert |Sorted(z)| == 1 && Sorted(z)[0] in Sorted(z);
  }

  lemma LockIsGot(s: System, p: nat, interval: nat, fallback: nat, q: string)
    requires p in s.schedulers && s.schedulers[p] == OneQueueScheduler(interval, fallback, q)
    requires !L.Held(s.keys, q, s.now)
    ensures var s1 := Apply(s, Acquire(p, q));
            var s2 := Apply(s1, Refresh(p));
            && Enabled(s, Acquire(p, q)) && Enabled(s1, Refresh(p))
            && s2 == s.(keys := s.keys[q := L.Lease(p, s.now + interval + L.GRACE)],
                        schedulers := s.schedulers[p := Holder(interval, fallback, q, s.now, None)])
  {
    var s1 := Apply(s, Acquire(p, q));
    assert s1.schedulers[p] == s.schedulers[p].(locks := map[q := s.now]);
    var s2 := Apply(s1, Refresh(p));
    assert s2.schedulers[p] == Holder(interval, fallback, q, s.now, None);
    assert s2.schedulers == s.schedulers[p := Holder(interval, fallback, q, s.now, None)];
  }

  lemma PassIsBegun(
      s: System, p: nat, interval: nat, fallback: nat, q: string, since: int, n: Name, job: JQ.Job)
    requires p in s.schedulers && s.schedulers[p] == Holder(interval, fallback, q, since, None)
    requires q in s.queues && OneJob(s.queues[q], n, job) && 0 <= s.now
    ensures Enabled(s, BeginPass(p, q))
    ensures Apply(s, BeginPass(p, q)) ==
            s.(schedulers := s.schedulers[p := Holder(interval, fallback, q, since, Some(OneJobPass(q, n, job)))])
  {
    OneDueName(s.queues[q].state, n, s.now);
  }

  /** A new scheduler that gets the lock of a queue with this one job, and begins a pass, has it in hand. */
  lemma GetsInHand(s: System, p: nat, interval: nat, fallback: nat, q: string, n: Name, job: JQ.Job)
    requires p in s.schedulers && s.schedulers[p] == OneQueueScheduler(interval, fallback, q)
    requires q in s.queues && OneJob(s.queues[q], n, job) && !L.Held(s.keys, q, s.now) && 0 <= s.now
    ensures var t := After(s, Overtaking(p, q));
            && Runs(s, Overtaking(p, q)) && t.now == s.now && t.queues == s.queues
            && t.schedulers
               == s.schedulers[p := Holder(interval, fallback, q, s.now, Some(OneJobPass(q, n, job)))]
  {
    LockIsGot(s, p, interval, fallback, q);
    PassIsBegun(Apply(Apply(s, Acquire(p, q)), Refresh(p)), p, interval, fallback, q, s.now, n, job);
    ThreeSteps(s, Acquire(p, q), Refresh(p), BeginPass(p, q));
  }

  function Overtaking(r: nat, q: string): seq<Step> {
    [Acquire(r, q), Refresh(r), BeginPass(r, q)]
  }

  lemma LockedAndCreated(
      schedulers: set<nat>, p: nat, interval: nat, fallback: nat, q: string, n: Name, job: JQ.Job)
    requires p in schedulers
    ensures var s0, create := RaceStart(schedulers, interval, fallback, q), Act(q, CreateAt(n, job, 0));
            var s1 := Apply(s0, Acquire(p, q));
            var s2 := Apply(s1, Refresh(p));
            var s3 := Apply(s2, create);
            && Enabled(s0, Acquire(p, q)) && Enabled(s1, Refresh(p)) && Enabled(s2, create)
            && s3.now == 0 && s3.keys == map[q := L.Lease(p, interval + L.GRACE)]
            && s3.schedulers == s0.schedulers[p := Holder(interval, fallback, q, 0, None)]
            && q in s3.queues && OneJob(s3.queues[q], n, job)
  {
    LockIsGot(RaceStart(schedulers, interval, fallback, q), p, interval, fallback, q);
  }

  lemma RaceRuns(schedulers: set<nat>, p: nat, interval: nat, fallback: nat, q: string, n: Name, job: JQ.Job)
    requires p in schedulers
    ensures var s0 := RaceStart(schedulers, interval, fallback, q);
            var s := After(s0, RaceSteps(p, q, n, job));
            && Initial(s0) && Runs(s0, RaceSteps(p, q, n, job)) && s.now == 0
            && s.keys == map[q := L.Lease(p, interval + L.GRACE)] && q in s.queues && OneJob(s.queues[q], n, job)
            && s.schedulers == s0.schedulers[p := Holder(interval, fallback, q, 0, Some(OneJobPass(q, n, job)))]
  {
    var s0 := RaceStart(schedulers, interval, fallback, q);
    var create, begin := Act(q, CreateAt(n, job, 0)), BeginPass(p, q);
    LockedAndCreated(schedulers, p, interval, fallback, q, n, job);
    var s1 := Apply(s0, Acquire(p, q));
    var s3 := Apply(Apply(s1, Refresh(p)), create);
    PassIsBegun(s3, p, interval, fallback, q, 0, n, job);
    ThreeSteps(s1, Refresh(p), create, begin);
    OneStep(s0, Acquire(p, q), [Refresh(p), create, begin]);
    assert [Acquire(p, q)] + [Refresh(p), create, begin] == RaceSteps(p, q, n, job);
  }

  /**
   * A run reaches a state in which a pass has a job in hand. Cancelled then, the job can be in two registries at once,
   * and can be taken.
   */
  lemma RaceIsReachable(p: nat, interval: nat, fallback: nat, q: string, n: Name, job: JQ.Job)
    ensures var s0 := RaceStart({p}, interval, fallback, q);
            var s := After(s0, RaceSteps(p, q, n, job));
            && Initial(s0) && Runs(s0, RaceSteps(p, q, n, job))
            && q in s.queues && n in s.queues[q].state.scheduled && InFlight(s, q, n)
            && CanBeTaken(Apply(s, Act(q, Cancel(n))), q, n)
            && CanOverlap(Apply(s, Act(q, Cancel(n))), q, n)
  {
    var s0, steps := RaceStart({p}, interval, fallback, q), RaceSteps(p, q, n, job);
    RaceRuns({p}, p, interval, fallback, q, n, job);
    var s := After(s0, steps);
    assert n in s.schedulers[p].pass.value.names;
    Reached(s0, steps);
    CancelSticksIffNotInFlight(s, q, n);
    assert Safe(ViewOf(s.queues[q], n), s.now);
    RegistriesOverlapIff(s, q, Cancel(n));
  }

  function TakenByBoth(p: nat, r: nat, q: string, n: Name): seq<Step> {
    [EnqueueNext(p), Act(q, Take(n)), EnqueueNext(r), Act(q, Take(n))]
  }

  /** Once the first scheduler's key has expired, another has the same job in hand. */
  lemma SecondInHand(
      s: System, p: nat, r: nat, interval: nat, fallback: nat, q: string, n: Name, job: JQ.Job)
    requires p != r && p in s.schedulers && r in s.schedulers
    requires s.schedulers[p] == Holder(interval, fallback, q, 0, Some(OneJobPass(q, n, job)))
    requires s.schedulers[r] == OneQueueScheduler(interval, fallback, q)
    requires q in s.queues && OneJob(s.queues[q], n, job)
    requires s.now == 0 && s.keys == map[q := L.Lease(p, interval + L.GRACE)]
    ensures var t := Apply(s, Tick(interval + L.GRACE));
            var u := After(t, Overtaking(r, q));
            && Runs(t, Overtaking(r, q)) && u.now == interval + L.GRACE
            && q in u.queues && OneJob(u.queues[q], n, job) && p in u.schedulers && r in u.schedulers
            && u.schedulers[p].pass == Some(OneJobPass(q, n, job)) == u.schedulers[r].pass
  {
    var t := Apply(s, Tick(interval + L.GRACE));
    assert t.queues[q].state.jobs == map[n := Stored(job)];
    GetsInHand(t, r, interval, fallback, q, n, job);
  }

  /**
   * One tick that a heartbeat should have come before: from the start, another scheduler gets the lock of the first,
   * both have the same job in hand, and it is taken twice.
   */
  lemma LateTickTakesTwice(p: nat, r: nat, interval: nat, fallback: nat, q: string, n: Name, job: JQ.Job)
    requires p != r
    ensures var s0, late := RaceStart({p, r}, interval, fallback, q), interval + L.GRACE;
            var s := After(s0, RaceSteps(p, q, n, job));
            var t := Apply(s, Tick(late));
            var steps := Overtaking(r, q) + TakenByBoth(p, r, q, n);
            && Initial(s0) && Runs(s0, RaceSteps(p, q, n, job)) && !InTime(s, late)
            && Runs(t, steps) && q in After(t, steps).queues && Times(After(t, steps).queues[q], n) == [late, late]
  {
    var s0, late := RaceStart({p, r}, interval, fallback, q), interval + L.GRACE;
    RaceRuns({p, r}, p, interval, fallback, q, n, job);
    var s := After(s0, RaceSteps(p, q, n, job));
    assert q in s.schedulers[p].locks;
    SecondInHand(s, p, r, interval, fallback, q, n, job);
    var t := Apply(s, Tick(late));
    var u := After(t, Overtaking(r, q));
    assert [n] == [n] + [];
    TwoHoldersTakeTwice(u, p, r, q, n, [], [], map[n := Stored(job)]);
    Concatenated(t, Overtaking(r, q), TakenByBoth(p, r, q, n));
  }
}
