/** Scheduled tasks: the database record that names its one job on the queue, and plans the next when a job is done. */
module Tasks {
  import opened Wrappers
  import opened SortedSet
  import opened CatchUp
  import JQ = JobQueue
  import Q = Queues

  datatype Kind = CRON | REPEATABLE | ONCE

  /** `job` has the attributes that the task gives its jobs. */
  datatype Task = Task(
    kind: Kind, enabled: bool, jobName: Option<Name>, scheduledTime: int, interval: int, repeat: Option<int>,
        job: JQ.Job)

  predicate OnQueue(q: JQ.State, n: Name) {
    n in q.scheduled || n in q.queued || n in q.active
  }

  /** Task.is_scheduled. */
  predicate IsScheduled(t: Task, q: JQ.State) {
    t.jobName.Some? && OnQueue(q, t.jobName.value)
  }

  /** What Task.is_scheduled makes of the record: a name that is no longer on the queue is forgotten. */
  function Checked(t: Task, q: JQ.State): Task {
    if IsScheduled(t, q) then t else t.(jobName := None)
  }

  /** Task._schedule_time; `nextCron` is what the cron string gives. */
  function WithScheduleTime(t: Task, now: int, nextCron: int): Task
    requires t.interval > 0
  {
    match t.kind
    case CRON => t.(scheduledTime := nextCron)
    case ONCE => t
    case REPEATABLE =>
      if t.scheduledTime >= now then t else
        var gap := Gap(t.scheduledTime, t.interval, now);
        if t.repeat.Some? && t.repeat.value < gap then t else
          t.(scheduledTime := t.scheduledTime + t.interval * gap,
             repeat := if t.repeat.Some? then Some(t.repeat.value - gap) else None)
  }

  /**
   * Task._schedule: the clock is read once for the next time, and once more, at `later`, to see whether that has
   * passed.
   */
  function Scheduled(t: Task, q: JQ.State, now: int, later: int, nextCron: int, name: Name): (Task, JQ.State)
    requires t.interval > 0
  {
    var checked := Checked(t, q);
    if checked.jobName.Some? || !t.enabled then (checked, q)
    else
      var timed := WithScheduleTime(checked, now, nextCron);
      if timed.kind != CRON && timed.scheduledTime < later then (timed, q)
      else match JQ.CreatedAt(q, name, t.job, timed.scheduledTime)
        case Ok(r) => (timed.(jobName := Some(name)), r)
        case Err(_) => (checked, q)
  }

  /** Task.unschedule. */
  function Unscheduled(t: Task, q: JQ.State, now: int): (Task, JQ.State) {
    if t.jobName.None? then (t, q) else (t.(jobName := None), JQ.Deleted(q, t.jobName.value, true, now))
  }

  /**
   * A repeatable task's next slot, when its time has passed: the first slot not in the past, if the budget reaches
   * it.
   */
  lemma NextSlot(t: Task, now: int, nextCron: int)
    requires t.kind == REPEATABLE && t.interval > 0 && t.scheduledTime < now
    ensures var u := WithScheduleTime(t, now, nextCron);
            var applies := t.repeat.Some? ==> now <= t.scheduledTime + t.interval * t.repeat.value;
            && (!applies ==> u == t)
            && (applies ==> u.scheduledTime == Stepped(t.scheduledTime, t.interval, now).0
                            && now <= u.scheduledTime < now + t.interval)
            && (applies && t.repeat.Some? ==>
                  u.repeat.Some? && u.scheduledTime + u.interval * u.repeat.value
                      == t.scheduledTime + t.interval * t.repeat.value)
  {
    JumpIsStepping(t.scheduledTime, t.interval, now);
    if t.repeat.Some? {
      EnoughIff(t.scheduledTime, t.interval, t.repeat.value, now);
      var gap := Gap(t.scheduledTime, t.interval, now);
      assert t.interval * (t.repeat.value - gap) == t.interval * t.repeat.value - t.interval * gap;
    }
  }

  /** Once the budget does not reach the present, it never will again. */
  lemma ExhaustedForGood(t: Task, now: int, later: int, nextCron: int)
    requires t.kind == REPEATABLE && t.interval > 0 && t.scheduledTime < now <= later
    requires WithScheduleTime(t, now, nextCron) == t
    ensures WithScheduleTime(t, later, nextCron) == t
  {
    NextSlot(t, now, nextCron);
    NextSlot(t, later, nextCron);
  }

  // ---------------------------------------------------------------------------------------------
  // Runs of one task, beside anything else that happens on its queue

  datatype Execution = Execution(job: JQ.Job, takenAt: int)

  /**
   * `slots` are the times of the jobs created for the task, `starts` the times of those that were started, in order.
   * `origin` is the task at the start, `moved` how many intervals it moved on since, `ordinals` how many it had when
   * each job started. `loaded` are the records that schedulers have read and not saved yet, `inHand` the jobs that a
   * scheduler pass has read and not enqueued yet.
   */
  datatype World = World(
    now: int, queue: JQ.State, task: Task, running: map<Name, Execution>, slots: map<Name, int>, starts: seq<int>,
    origin: Task, moved: int, ordinals: seq<int>, loaded: map<nat, Task>,
    inHand: map<Name, JQ.Job>)

  datatype Step =
    | Tick(seconds: nat)
    | Save(name: Name, later: int, nextCron: int)
    | Load(k: nat)
    | SaveLoaded(k: nat, name: Name, later: int, nextCron: int)
    | SetEnabled(enabled: bool)
    | Read(n: Name)
    | Promote(n: Name)
    | Drop(n: Name)
    | Take(n: Name)
    | Finish(n: Name, success: bool, name: Name, later: int, nextCron: int)
    | Unschedule
    | Others(queue: JQ.State)

  /** Nothing that the queue knows of n differs. */
  predicate SameFor(q: JQ.State, r: JQ.State, n: Name) {
    && Lookup(q.jobs, n) == Lookup(r.jobs, n) && Lookup(q.scheduled, n) == Lookup(r.scheduled, n)
    && Lookup(q.queued, n) == Lookup(r.queued, n) && Lookup(q.active, n) == Lookup(r.active, n)
  }

  predicate NewName(w: World, n: Name) {
    n !in w.slots && n !in w.queue.jobs && !OnQueue(w.queue, n)
  }

  /** The same record, but for what `enabled` says. */
  predicate SamePlan(t: Task, u: Task) {
    t == u.(enabled := t.enabled)
  }

  /**
   * Names are new, the clock goes on while a job executes, a task is not unscheduled while its job executes or is in
   * the hands of a pass, others leave its jobs alone, and a record that was loaded earlier is saved only while the job
   * that it names is on the queue, or when nothing was planned since.
   */
  predicate Enabled(w: World, step: Step) {
    match step
    case Tick(_) => true
    case Save(name, later, nextCron) => NewName(w, name) && w.now <= later && w.now < nextCron
    case Load(_) => true
    case SaveLoaded(k, name, later, nextCron) =>
      && NewName(w, name) && w.now <= later && w.now < nextCron
      && k in w.loaded && (IsScheduled(w.loaded[k], w.queue) || SamePlan(w.loaded[k], w.task))
    case SetEnabled(_) => true
    case Read(n) => n in w.slots && n in w.queue.jobs && n in w.queue.scheduled && w.queue.scheduled[n] <= w.now
    case Promote(n) => n in w.inHand
    case Drop(n) => n in w.inHand
    case Take(n) => n in w.slots && n in w.queue.queued && JQ.Get(w.queue, n).Some?
    case Finish(n, _, name, later, nextCron) =>
      n in w.running && w.running[n].takenAt < w.now && NewName(w, name) && w.now <= later && w.now < nextCron
    case Unschedule => w.running == map[] && w.inHand == map[]
    case Others(queue) => forall n | n in w.slots :: SameFor(w.queue, queue, n)
  }

  /** Task.save(schedule_job=True), with the slot of the job that it may have created. */
  function AfterSchedule(w: World, t: Task, name: Name, later: int, nextCron: int): World
    requires t.interval > 0
  {
    var (u, r) := Scheduled(t, w.queue, w.now, later, nextCron, name);
    World(later, r, u, w.running,
          if u.jobName == Some(name) && t.jobName != Some(name) then w.slots[name := u.scheduledTime] else w.slots,
          w.starts, w.origin,
          if t.kind == REPEATABLE && u.scheduledTime != t.scheduledTime
          then w.moved + Gap(t.scheduledTime, t.interval, w.now) else w.moved,
          w.ordinals, w.loaded, w.inHand)
  }

  function Apply(w: World, step: Step): World
    requires w.task.interval > 0
  {
    match step
    case Tick(d) => w.(now := w.now + d)
    case Save(name, later, nextCron) => AfterSchedule(w, w.task, name, later, nextCron)
    case Load(k) => w.(loaded := w.loaded[k := w.task])
    case SaveLoaded(k, name, later, nextCron) =>
      if k !in w.loaded || w.loaded[k].interval <= 0 then w else
        AfterSchedule(w.(loaded := w.loaded - {k}), w.loaded[k], name, later, nextCron)
    case SetEnabled(b) => w.(task := w.task.(enabled := b))
    case Read(n) => if n !in w.queue.jobs then w else w.(inHand := w.inHand[n := w.queue.jobs[n]])
    case Promote(n) =>
      if n !in w.inHand then w else
        w.(queue := JQ.Enqueued(w.queue, n, w.inHand[n], false, w.now), inHand := w.inHand - {n})
    case Drop(n) => w.(inHand := w.inHand - {n})
    case Take(n) =>
      if n !in w.queue.jobs || n !in w.slots then w else
        var job := w.queue.jobs[n];
        w.(queue := JQ.Prepared(w.queue.(queued := w.queue.queued - {n}), n, job, w.now),
           running := w.running[n := Execution(JQ.Running(job, w.now), w.now)],
           starts := w.starts + [w.slots[n]],
           ordinals := w.ordinals + [w.moved])
    case Finish(n, success, name, later, nextCron) =>
      if n !in w.running then w else
        var v := AfterSchedule(w, w.task.(jobName := None), name, later, nextCron);
        var job := w.running[n].job;
        v.(queue := if success then JQ.Succeeded(v.queue, n, job, later)
                    else JQ.FailedWith(v.queue, n, job, JQ.FAILED, later),
           running := w.running - {n})
    case Unschedule =>
      var (t, r) := Unscheduled(w.task, w.queue, w.now);
      w.(task := t, queue := r)
    case Others(queue) => w.(queue := queue)
  }

  // What holds in every reachable world

  /** A job of the task that is on the queue is the one that the task names, and has the task's time for its slot. */
  ghost predicate JobsOk(w: World) {
    && (forall n | n in w.slots && OnQueue(w.queue, n) ::
          && w.task.jobName == Some(n) && w.slots[n] == w.task.scheduledTime
          && (n in w.queue.scheduled ==>
                w.queue.scheduled[n] == w.slots[n] && n !in w.queue.queued && n !in w.queue.active)
          && (n in w.queue.queued ==> w.slots[n] <= w.now && n !in w.queue.active)
          && (n in w.queue.active ==> n in w.running))
    && (w.task.jobName.Some? ==> w.task.jobName.value in w.slots)
  }

  ghost predicate RunningOk(w: World) {
    forall n | n in w.running ::
      && n in w.slots && n in w.queue.active && w.slots[n] <= w.running[n].takenAt <= w.now
      && w.starts != [] && w.starts[|w.starts| - 1] == w.slots[n]
  }

  predicate Increasing(s: seq<int>) {
    forall i, j | 0 <= i < j < |s| :: s[i] < s[j]
  }

  /** Slots started so far lie before a slot that is still to start, and before now unless their job is executing. */
  ghost predicate StartsOk(w: World) {
    && Increasing(w.starts)
    && (forall i | 0 <= i < |w.starts| :: w.starts[i] <= w.now)
    && (w.running == map[] ==> forall i | 0 <= i < |w.starts| :: w.starts[i] < w.now)
    && (forall n, i | n in w.slots && (n in w.queue.scheduled || n in w.queue.queued) && 0 <= i < |w.starts| ::
          w.starts[i] < w.slots[n])
  }

  /** The task has moved on by whole intervals, paid for from its budget; every start was on such a slot. */
  ghost predicate BudgetOk(w: World) {
    && w.task.kind == w.origin.kind && w.task.interval == w.origin.interval && w.origin.interval > 0
    && (w.origin.repeat.Some? ==> w.origin.repeat.value >= 0)
    && 0 <= w.moved && |w.ordinals| == |w.starts|
    && (w.task.kind != REPEATABLE ==> w.moved == 0)
    && (w.task.kind == ONCE ==> w.task.scheduledTime == w.origin.scheduledTime)
    && (w.task.kind == REPEATABLE ==> w.task.scheduledTime == w.origin.scheduledTime + w.origin.interval * w.moved)
    && (w.origin.repeat.None? ==> w.task.repeat.None?)
    && (w.origin.repeat.Some? ==> w.task.repeat == Some(w.origin.repeat.value - w.moved))
    && (w.task.kind == REPEATABLE && w.origin.repeat.Some? ==> w.moved <= w.origin.repeat.value)
    && (forall i | 0 <= i < |w.starts| ::
          && 0 <= w.ordinals[i] <= w.moved
          && (w.task.kind != CRON ==> w.starts[i] == w.origin.scheduledTime + w.origin.interval * w.ordinals[i]))
  }

  /** A loaded record whose job is on the queue is still the stored one. */
  ghost predicate LoadedOk(w: World) {
    forall k | k in w.loaded && w.loaded[k].jobName.Some? ::
      && w.loaded[k].jobName.value in w.slots
      && (IsScheduled(w.loaded[k], w.queue) ==> SamePlan(w.loaded[k], w.task))
  }

  /** What a pass has in hand is still scheduled, and due. */
  ghost predicate InHandOk(w: World) {
    forall n | n in w.inHand :: n in w.slots && n in w.queue.scheduled && w.slots[n] <= w.now
  }

  ghost predicate Core(w: World) {
    JobsOk(w) && RunningOk(w) && StartsOk(w) && BudgetOk(w)
  }

  ghost predicate Inv(w: World) {
    Core(w) && LoadedOk(w) && InHandOk(w)
  }

  /** What was read and not used yet is no matter to the rest. */
  lemma ReadsAreNoMatter(w: World, loaded: map<nat, Task>, inHand: map<Name, JQ.Job>)
    requires Core(w)
    ensures Core(w.(loaded := loaded, inHand := inHand))
  {
  }

  /** A task that was never scheduled, on any queue. */
  predicate Initial(w: World) {
    && w.running == map[] && w.slots == map[] && w.starts == [] && w.ordinals == [] && w.moved == 0
    && w.loaded == map[] && w.inHand == map[]
    && w.task == w.origin && w.task.jobName == None && w.task.interval > 0
    && (w.task.repeat.Some? ==> w.task.repeat.value >= 0)
  }

  lemma OnlyOneRuns(w: World, n: Name, m: Name)
    requires JobsOk(w) && RunningOk(w) && n in w.running && m in w.slots && OnQueue(w.queue, m)
    ensures m == n
  {
    assert OnQueue(w.queue, n);
  }

  /** Planning moves the time on by whole intervals, within the budget, and to no time before now. */
  lemma TimeMovesOn(t: Task, now: int, nextCron: int)
    requires t.interval > 0 && now < nextCron
    requires t.repeat.Some? ==> t.repeat.value >= 0
    ensures var u := WithScheduleTime(t, now, nextCron);
            var moved := t.kind == REPEATABLE && u.scheduledTime != t.scheduledTime;
            var gap := if moved then Gap(t.scheduledTime, t.interval, now) else 0;
            && u == t.(scheduledTime := u.scheduledTime, repeat := u.repeat)
            && gap >= 0
            && (t.kind != CRON ==> u.scheduledTime == t.scheduledTime + t.interval * gap)
            && (t.kind == CRON ==> u.scheduledTime == nextCron)
            && u.repeat == (if t.repeat.Some? then Some(t.repeat.value - gap) else None)
            && (t.repeat.Some? && t.kind == REPEATABLE ==> gap <= t.repeat.value)
            && (t.kind == ONCE ==> gap == 0)
  {
    if t.kind == REPEATABLE && t.scheduledTime < now {
      GapBounds(t.scheduledTime, t.interval, now);
      MulOrder(t.interval, 1, Gap(t.scheduledTime, t.interval, now));
    }
  }

  lemma ScheduleKeepsBudget(w: World, t: Task, name: Name, later: int, nextCron: int)
    requires BudgetOk(w) && (t == w.task || t == w.task.(jobName := None)) && w.now < nextCron
    ensures BudgetOk(AfterSchedule(w, t, name, later, nextCron))
  {
    var v := AfterSchedule(w, t, name, later, nextCron);
    PlannedFields(t, w.queue, w.now, later, nextCron, name);
    TimeMovesOn(t, w.now, nextCron);
    Distribute(w.origin.interval, w.moved, v.moved - w.moved);
  }

  lemma Distribute(interval: int, a: int, b: int)
    ensures interval * (a + b) == interval * a + interval * b
  {
  }

  lemma PlannedFields(t: Task, q: JQ.State, now: int, later: int, nextCron: int, name: Name)
    requires t.interval > 0
    ensures var u := Scheduled(t, q, now, later, nextCron, name).0;
            var timed := WithScheduleTime(t, now, nextCron);
            && u == t.(jobName := u.jobName, scheduledTime := u.scheduledTime, repeat := u.repeat)
            && ((u.scheduledTime == t.scheduledTime && u.repeat == t.repeat)
                || (u.scheduledTime == timed.scheduledTime && u.repeat == timed.repeat))
  {
  }

  /** Planning when no job is on the queue: at most the new one is, at a slot that is not in the past. */
  lemma PlanWhenFree(w: World, t: Task, name: Name, later: int, nextCron: int)
    requires t.interval > 0 && !IsScheduled(t, w.queue) && NewName(w, name) && w.now <= later && w.now < nextCron
    requires t.jobName != Some(name) && (w.task == t || w.task.(jobName := None) == t)
    ensures var v := AfterSchedule(w, t, name, later, nextCron);
            && v.running == w.running && v.starts == w.starts && v.now == later
            && (v.task.jobName == None || v.task.jobName == Some(name))
            && (v.task.jobName == None ==> v.queue == w.queue && v.slots == w.slots)
            && (v.task.jobName == Some(name) ==>
                  && v.slots == w.slots[name := v.task.scheduledTime] && w.now <= v.task.scheduledTime
                  && v.queue == w.queue.(jobs := v.queue.jobs,
                      scheduled := w.queue.scheduled[name := v.task.scheduledTime])
                  && v.queue.jobs == w.queue.jobs[name := v.queue.jobs[name]])
  {
  }

  lemma SaveKeepsQueue(w: World, name: Name, later: int, nextCron: int)
    requires Inv(w) && Enabled(w, Save(name, later, nextCron))
    ensures var v := Apply(w, Save(name, later, nextCron));
            JobsOk(v) && RunningOk(v) && StartsOk(v)
  {
    if !IsScheduled(w.task, w.queue) {
      NothingOnQueue(w);
      PlanWhenFree(w, w.task, name, later, nextCron);
    }
  }

  lemma NothingOnQueue(w: World)
    requires JobsOk(w) && RunningOk(w) && !IsScheduled(w.task, w.queue)
    ensures (forall n | n in w.slots :: !OnQueue(w.queue, n)) && w.running == map[]
  {
    assert forall n | n in w.running :: OnQueue(w.queue, n);
  }

  lemma SaveKeepsLoaded(w: World, name: Name, later: int, nextCron: int)
    requires Inv(w) && Enabled(w, Save(name, later, nextCron))
    ensures LoadedOk(Apply(w, Save(name, later, nextCron)))
  {
    if !IsScheduled(w.task, w.queue) {
      NothingOnQueue(w);
      PlanWhenFree(w, w.task, name, later, nextCron);
    }
  }

  lemma SaveKeepsInv(w: World, name: Name, later: int, nextCron: int)
    requires Inv(w) && Enabled(w, Save(name, later, nextCron))
    ensures Inv(Apply(w, Save(name, later, nextCron)))
  {
    ScheduleKeepsBudget(w, w.task, name, later, nextCron);
    SaveKeepsQueue(w, name, later, nextCron);
    SaveKeepsLoaded(w, name, later, nextCron);
  }

  lemma EnabledIsNoMatter(w: World, b: bool)
    requires Inv(w)
    ensures Inv(w.(task := w.task.(enabled := b)))
  {
  }

  lemma LoadedMayGo(w: World, k: nat)
    requires Inv(w)
    ensures Inv(w.(loaded := w.loaded - {k}))
  {
    ReadsAreNoMatter(w, w.loaded - {k}, w.inHand);
  }

  lemma LoadKeepsInv(w: World, k: nat)
    requires Inv(w)
    ensures Inv(Apply(w, Load(k)))
  {
    ReadsAreNoMatter(w, w.loaded[k := w.task], w.inHand);
  }

  /** A record whose job is on the queue, or that is as it is stored, is saved like the stored one. */
  lemma SaveLoadedIsSave(w: World, step: Step)
    requires Inv(w) && step.SaveLoaded? && Enabled(w, step)
    ensures var now := w.(task := w.loaded[step.k], loaded := w.loaded - {step.k});
            && Inv(now) && Enabled(now, Save(step.name, step.later, step.nextCron))
            && Apply(w, step) == Apply(now, Save(step.name, step.later, step.nextCron))
  {
    var t := w.loaded[step.k];
    assert SamePlan(t, w.task);
    LoadedMayGo(w, step.k);
    EnabledIsNoMatter(w.(loaded := w.loaded - {step.k}), t.enabled);
  }

  lemma OthersAreOff(w: World, n: Name)
    requires JobsOk(w) && RunningOk(w) && n in w.running
    ensures forall m | m in w.slots && m != n :: !OnQueue(w.queue, m)
    ensures w.running - {n} == map[]
  {
    forall m | m in w.slots && m != n ensures !OnQueue(w.queue, m) {
      if OnQueue(w.queue, m) { OnlyOneRuns(w, n, m); }
    }
    forall m | m in w.running ensures m == n { OnlyOneRuns(w, n, m); }
  }

  lemma FinishLeaves(w: World, step: Step)
    requires Inv(w) && step.Finish? && Enabled(w, step)
    ensures var v := AfterSchedule(w, w.task.(jobName := None), step.name, step.later, step.nextCron);
            var u := Apply(w, step);
            && u == v.(queue := u.queue, running := w.running - {step.n})
            && u.queue.scheduled == v.queue.scheduled && u.queue.queued == v.queue.queued
            && u.queue.active == v.queue.active - {step.n}
  {
  }

  lemma FinishKeepsJobs(w: World, step: Step)
    requires Inv(w) && step.Finish? && Enabled(w, step)
    ensures JobsOk(Apply(w, step)) && Apply(w, step).running == map[]
  {
    var n := step.n;
    OthersAreOff(w, n);
    FinishLeaves(w, step);
    PlanWhenFree(w, w.task.(jobName := None), step.name, step.later, step.nextCron);
    assert OnQueue(w.queue, n) && !OnQueue(Apply(w, step).queue, n);
  }

  lemma FinishKeepsStarts(w: World, step: Step)
    requires Inv(w) && step.Finish? && Enabled(w, step)
    ensures StartsOk(Apply(w, step))
  {
    OthersAreOff(w, step.n);
    FinishLeaves(w, step);
    PlanWhenFree(w, w.task.(jobName := None), step.name, step.later, step.nextCron);
    assert OnQueue(w.queue, step.n);
    forall i | 0 <= i < |w.starts| ensures w.starts[i] < w.now {
      if i < |w.starts| - 1 { assert w.starts[i] < w.starts[|w.starts| - 1]; }
    }
  }

  lemma FinishKeepsBudget(w: World, step: Step)
    requires Inv(w) && step.Finish? && Enabled(w, step)
    ensures BudgetOk(Apply(w, step))
  {
    FinishLeaves(w, step);
    ScheduleKeepsBudget(w, w.task.(jobName := None), step.name, step.later, step.nextCron);
  }

  lemma FinishKeepsInv(w: World, step: Step)
    requires Inv(w) && step.Finish? && Enabled(w, step)
    ensures Inv(Apply(w, step))
  {
    FinishKeepsJobs(w, step);
    FinishKeepsStarts(w, step);
    FinishKeepsBudget(w, step);
  }

  lemma NothingRuns(w: World, n: Name)
    requires JobsOk(w) && RunningOk(w) && n in w.slots && (n in w.queue.scheduled || n in w.queue.queued)
    ensures w.running == map[]
  {
    assert OnQueue(w.queue, n);
    forall m | m in w.running ensures false {
      OnlyOneRuns(w, m, n);
    }
  }

  lemma TakeKeepsJobs(w: World, n: Name)
    requires Inv(w) && Enabled(w, Take(n))
    ensures JobsOk(Apply(w, Take(n))) && RunningOk(Apply(w, Take(n)))
  {
    var u := Apply(w, Take(n));
    NothingRuns(w, n);
    assert OnQueue(w.queue, n);
    assert u.queue.scheduled == w.queue.scheduled && u.queue.queued == w.queue.queued - {n};
    forall m | m in w.slots && m != n ensures !OnQueue(u.queue, m) {
      assert OnQueue(w.queue, m) ==> w.task.jobName == Some(m);
    }
  }

  lemma TakeKeepsStarts(w: World, n: Name)
    requires Inv(w) && Enabled(w, Take(n))
    ensures StartsOk(Apply(w, Take(n)))
  {
    var u := Apply(w, Take(n));
    assert OnQueue(w.queue, n);
    assert u.queue.scheduled == w.queue.scheduled && u.queue.queued == w.queue.queued - {n};
    forall m | m in w.slots ensures m !in u.queue.scheduled && m !in u.queue.queued {
      assert OnQueue(w.queue, m) ==> w.task.jobName == Some(m);
    }
  }

  lemma TakeKeepsBudget(w: World, n: Name)
    requires Inv(w) && Enabled(w, Take(n))
    ensures BudgetOk(Apply(w, Take(n)))
  {
    assert OnQueue(w.queue, n);
  }

  lemma TakeKeepsInv(w: World, n: Name)
    requires Inv(w) && Enabled(w, Take(n))
    ensures Inv(Apply(w, Take(n)))
  {
    TakeKeepsJobs(w, n);
    TakeKeepsStarts(w, n);
    TakeKeepsBudget(w, n);
  }

  lemma OthersKeepJobs(w: World, queue: JQ.State)
    requires JobsOk(w) && RunningOk(w) && Enabled(w, Others(queue))
    ensures JobsOk(w.(queue := queue)) && RunningOk(w.(queue := queue))
  {
    forall n | n in w.slots ensures OnQueue(queue, n) <==> OnQueue(w.queue, n) {
      assert SameFor(w.queue, queue, n);
    }
    assert forall n | n in w.slots :: SameFor(w.queue, queue, n);
  }

  lemma OthersKeepStarts(w: World, queue: JQ.State)
    requires Inv(w) && Enabled(w, Others(queue))
    ensures StartsOk(w.(queue := queue)) && LoadedOk(w.(queue := queue)) && InHandOk(w.(queue := queue))
  {
    assert forall n | n in w.slots :: SameFor(w.queue, queue, n);
  }

  lemma OthersKeepInv(w: World, queue: JQ.State)
    requires Inv(w) && Enabled(w, Others(queue))
    ensures Inv(Apply(w, Others(queue)))
  {
    OthersKeepJobs(w, queue);
    OthersKeepStarts(w, queue);
    assert BudgetOk(w.(queue := queue));
  }

  lemma ReadKeepsInv(w: World, n: Name)
    requires Inv(w) && Enabled(w, Read(n))
    ensures Inv(Apply(w, Read(n)))
  {
    assert OnQueue(w.queue, n);
    ReadsAreNoMatter(w, w.loaded, w.inHand[n := w.queue.jobs[n]]);
  }

  lemma DropKeepsInv(w: World, n: Name)
    requires Inv(w)
    ensures Inv(Apply(w, Drop(n)))
  {
    ReadsAreNoMatter(w, w.loaded, w.inHand - {n});
  }

  lemma PromoteKeepsInv(w: World, n: Name)
    requires Inv(w) && Enabled(w, Promote(n))
    ensures Inv(Apply(w, Promote(n)))
  {
    var u := Apply(w, Promote(n));
    assert OnQueue(w.queue, n);
    forall m | m in w.slots && m != n ensures !OnQueue(u.queue, m) {
      assert OnQueue(w.queue, m) ==> w.task.jobName == Some(m);
    }
    forall m | m in w.inHand ensures m == n {
      assert OnQueue(w.queue, m);
    }
  }

  lemma UnscheduleKeepsInv(w: World)
    requires Inv(w) && Enabled(w, Unschedule)
    ensures Inv(Apply(w, Unschedule))
  {
    var u := Apply(w, Unschedule);
    if w.task.jobName.Some? {
      OffTheQueue(w.queue, w.task.jobName.value, w.now);
    }
    forall m | m in w.slots ensures !OnQueue(u.queue, m) {
      assert OnQueue(w.queue, m) ==> w.task.jobName == Some(m);
    }
  }

  lemma OffTheQueue(q: JQ.State, n: Name, now: int)
    ensures forall m :: OnQueue(JQ.Deleted(q, n, true, now), m) <==> OnQueue(q, m) && m != n
  {
  }

  /** Every step keeps the invariant. */
  lemma StepKeepsInv(w: World, step: Step)
    requires Inv(w) && Enabled(w, step)
    ensures Inv(Apply(w, step))
  {
    match step
    case Save(name, later, nextCron) => SaveKeepsInv(w, name, later, nextCron);
    case Finish(_, _, _, _, _) => FinishKeepsInv(w, step);
    case Take(n) => TakeKeepsInv(w, n);
    case Read(n) => ReadKeepsInv(w, n);
    case Promote(n) => PromoteKeepsInv(w, n);
    case Drop(n) => DropKeepsInv(w, n);
    case Unschedule => UnscheduleKeepsInv(w);
    case Others(queue) => OthersKeepInv(w, queue);
    case Tick(d) => TickKeepsInv(w, d);
    case SetEnabled(b) => EnabledIsNoMatter(w, b);
    case Load(k) => LoadKeepsInv(w, k);
    case SaveLoaded(k, name, later, nextCron) =>
      SaveLoadedIsSave(w, step);
      SaveKeepsInv(w.(task := w.loaded[k], loaded := w.loaded - {k}), name, later, nextCron);
  }

  lemma TickKeepsInv(w: World, d: nat)
    requires Inv(w)
    ensures Inv(Apply(w, Tick(d)))
  {
  }

  ghost predicate Runs(w: World, steps: seq<Step>)
    decreases |steps|
  {
    steps == [] || (w.task.interval > 0 && Enabled(w, steps[0]) && Runs(Apply(w, steps[0]), steps[1..]))
  }

  ghost function After(w: World, steps: seq<Step>): World
    requires Runs(w, steps)
    decreases |steps|
  {
    if steps == [] then w else After(Apply(w, steps[0]), steps[1..])
  }

  lemma {:induction false} RunKeepsInv(w: World, steps: seq<Step>)
    requires Inv(w) && Runs(w, steps)
    ensures Inv(After(w, steps)) && After(w, steps).origin == w.origin
    decreases |steps|
  {
    if steps != [] {
      StepKeepsInv(w, steps[0]);
      RunKeepsInv(Apply(w, steps[0]), steps[1..]);
    }
  }

  /** In every run, the jobs of a task that are scheduled, queued or active are at most the one that the task names. */
  lemma OneJobPerTask(w0: World, steps: seq<Step>)
    requires Initial(w0) && Runs(w0, steps)
    ensures var w := After(w0, steps);
            forall n | n in w.slots && OnQueue(w.queue, n) :: w.task.jobName == Some(n)
  {
    RunKeepsInv(w0, steps);
  }

  /** Right after a save, the task names a job exactly when one is on the queue. */
  lemma SaveAgrees(w0: World, steps: seq<Step>, name: Name, later: int, nextCron: int)
    requires Initial(w0) && Runs(w0, steps) && Enabled(After(w0, steps), Save(name, later, nextCron))
    ensures var w := After(w0, steps);
            w.task.interval > 0 && var v := Apply(w, Save(name, later, nextCron));
            && (forall n :: n in v.slots && OnQueue(v.queue, n) <==> v.task.jobName == Some(n))
            && (v.task.jobName.None? ==> !w.task.enabled || (v.task.kind != CRON && v.task.scheduledTime < later))
  {
    RunKeepsInv(w0, steps);
    var w := After(w0, steps);
    SaveKeepsInv(w, name, later, nextCron);
    if !IsScheduled(w.task, w.queue) {
      PlanWhenFree(w, w.task, name, later, nextCron);
    }
  }

  /** A new job is planned at the task's next time: at any time for a cron task, otherwise if that is not past. */
  predicate PlansAnother(t: Task, now: int, later: int, nextCron: int)
    requires t.interval > 0
  {
    t.enabled && (t.kind != CRON ==> later <= WithScheduleTime(t, now, nextCron).scheduledTime)
  }

  /**
   * Why the clock has to go on while a job executes: after its job, a task plans the same slot again exactly if it is
   * no cron task and the slot is not past.
   */
  lemma SameSlotIsPlannedAgainIff(t: Task, q: JQ.State, now: int, later: int, nextCron: int, name: Name)
    requires t.enabled && t.interval > 0 && name !in q.jobs && now <= later
    requires t.kind == CRON ==> t.scheduledTime < nextCron
    ensures var u := Scheduled(t.(jobName := None), q, now, later, nextCron, name).0;
            u.jobName == Some(name) && u.scheduledTime == t.scheduledTime <==>
            t.kind != CRON && later <= t.scheduledTime
  {
    assert Checked(t.(jobName := None), q).jobName == None;
    if t.kind == REPEATABLE && t.scheduledTime < now {
      NextSlot(t.(jobName := None), now, nextCron);
    }
  }

  /** What a save or a done job plans when the task names no job that is on the queue. */
  lemma PlanningIff(t: Task, q: JQ.State, now: int, later: int, nextCron: int, name: Name)
    requires t.interval > 0 && !IsScheduled(t, q) && name !in q.jobs && name !in q.scheduled
    ensures var (u, r) := Scheduled(t, q, now, later, nextCron, name);
            && (name in r.scheduled <==> PlansAnother(t, now, later, nextCron))
            && (u.jobName == Some(name) <==> PlansAnother(t, now, later, nextCron))
            && r.scheduled.Keys <= q.scheduled.Keys + {name} && q.scheduled.Keys <= r.scheduled.Keys
            && r.jobs.Keys <= q.jobs.Keys + {name}
            && (PlansAnother(t, now, later, nextCron) ==>
                  r.scheduled[name] == u.scheduledTime && name in r.jobs
                  && r.jobs[name] == t.job.(status := JQ.SCHEDULED, whole := true, expiresAt := None))
            && (t.enabled && t.kind == CRON ==> u.scheduledTime == nextCron)
            && r.queued == q.queued && r.active == q.active
            && (u.jobName == None || u.jobName == Some(name))
            && (t.enabled ==>
                  u.scheduledTime == WithScheduleTime(t, now, nextCron).scheduledTime && u.kind == t.kind
                  && u.repeat == WithScheduleTime(t, now, nextCron).repeat && u.enabled && u.interval == t.interval)
  {
  }

  /** When nothing can be planned because the name is taken, neither record nor queue gets the new time. */
  lemma NameTakenPlansNothing(t: Task, q: JQ.State, now: int, later: int, nextCron: int, name: Name)
    requires t.interval > 0 && name in q.jobs && PlansAnother(t, now, later, nextCron) && !IsScheduled(t, q)
    ensures Scheduled(t, q, now, later, nextCron, name) == (t.(jobName := None), q)
  {
  }

  /** Unscheduling forgets the job's name, takes it off the queue, and lets its hash expire after its info TTL. */
  lemma UnscheduledMeans(t: Task, q: JQ.State, now: int)
    ensures var (u, r) := Unscheduled(t, q, now);
            && u == t.(jobName := None)
            && (t.jobName.None? ==> r == q)
            && (t.jobName.Some? ==>
                  var n := t.jobName.value;
                  && !OnQueue(r, n) && n !in r.finished && n !in r.failed && n !in r.canceled
                  && (n in q.jobs && q.jobs[n].whole && q.jobs[n].infoTtl == 0 ==> n !in r.jobs)
                  && (n in q.jobs && q.jobs[n].whole && q.jobs[n].infoTtl > 0 ==>
                        n in r.jobs && r.jobs[n].expiresAt == Some(now + q.jobs[n].infoTtl))
                  && forall m | m != n :: SameFor(q, r, m))
  {
    if t.jobName.Some? {
      forall m | m != t.jobName.value ensures SameFor(q, Unscheduled(t, q, now).1, m) {
        DeletionLeavesOthers(q, t.jobName.value, now, m);
      }
    }
  }

  lemma DeletionLeavesOthers(q: JQ.State, n: Name, now: int, m: Name)
    requires m != n
    ensures SameFor(q, JQ.Deleted(q, n, true, now), m)
  {
  }

  /**
   * Why the cleanup of the active registry must not touch the task's executing job: the next save plans a second job
   * beside it exactly if the cleanup dropped it and the task has another time to plan.
   */
  lemma CleanupPlansAgainIff(w: World, n: Name, name: Name, later: int, nextCron: int)
    requires Inv(w) && n in w.running
    requires NewName(w, name) && w.now <= later && w.now < nextCron
    ensures var cleaned := w.(queue := w.queue.(active := Cleaned(w.queue.active, w.now)));
            var v := Apply(cleaned, Save(name, later, nextCron));
            && n in v.running
            && (name in v.queue.scheduled <==>
                0 <= w.queue.active[n] <= w.now && PlansAnother(w.task, w.now, later, nextCron))
  {
    var cleaned := w.(queue := w.queue.(active := Cleaned(w.queue.active, w.now)));
    assert OnQueue(w.queue, n);
    assert n in w.queue.active && n !in w.queue.scheduled && n !in w.queue.queued;
    assert IsScheduled(w.task, cleaned.queue) <==> n in cleaned.queue.active;
    if n !in cleaned.queue.active {
      PlanningIff(w.task, cleaned.queue, w.now, later, nextCron, name);
    }
  }

  /** Planning, forgetting the name, and planning again makes two jobs exactly if there is a time for both. */
  lemma PlannedTwiceIff(
      t: Task, q: JQ.State, now: int, later: int, nextCron: int, first: Name, end: int, endCron: int, second: Name)
    requires t.interval > 0 && t.jobName == None && first != second
    requires first !in q.jobs && first !in q.scheduled && second !in q.jobs && second !in q.scheduled
    ensures var (u, r) := Scheduled(t, q, now, later, nextCron, first);
            && u.interval > 0
            && var both := Scheduled(u.(jobName := None), r, later, end, endCron, second).1;
               first in both.scheduled && second in both.scheduled <==>
               && PlansAnother(t, now, later, nextCron)
               && PlansAnother(WithScheduleTime(t, now, nextCron), later, end, endCron)
  {
    PlanningIff(t, q, now, later, nextCron, first);
    PlannedFields(t, q, now, later, nextCron, first);
    var (u, r) := Scheduled(t, q, now, later, nextCron, first);
    PlanningIff(u.(jobName := None), r, later, end, endCron, second);
    if PlansAnother(t, now, later, nextCron) {
      assert u.(jobName := None) == WithScheduleTime(t, now, nextCron);
    }
  }

  lemma FinishPlans(w: World, n: Name, success: bool, name: Name, later: int, nextCron: int)
    requires w.task.interval > 0 && n in w.running
    ensures Apply(w, Finish(n, success, name, later, nextCron)).queue.scheduled
            == Scheduled(w.task.(jobName := None), w.queue, w.now, later, nextCron, name).1.scheduled
  {
  }

  lemma SavePlans(w: World, name: Name, later: int, nextCron: int)
    requires w.task.interval > 0
    ensures var v := Apply(w, Save(name, later, nextCron));
            && (v.task, v.queue) == Scheduled(w.task, w.queue, w.now, later, nextCron, name)
            && v.now == later && v.running == w.running
  {
  }

  /**
   * Why an executing task must not be unscheduled: with a save and the end of the job after that, two jobs are planned
   * exactly if both the save and the end have a time to plan.
   */
  lemma UnscheduledWhileRunningIff(
      w: World, n: Name, first: Name, later: int, nextCron: int, success: bool, second: Name, end: int, endCron: int)
    requires Inv(w) && n in w.running && NewName(w, first) && NewName(w, second) && first != second
    ensures var saved := Apply(Apply(w, Unschedule), Save(first, later, nextCron));
            && saved.task.interval > 0
            && var done := Apply(saved, Finish(n, success, second, end, endCron));
               first in done.queue.scheduled && second in done.queue.scheduled <==>
               && PlansAnother(w.task, w.now, later, nextCron)
               && PlansAnother(WithScheduleTime(w.task, w.now, nextCron), later, end, endCron)
  {
    assert OnQueue(w.queue, n);
    var off := Apply(w, Unschedule);
    UnscheduleLeaves(w, n);
    SavePlans(off, first, later, nextCron);
    PlannedTwiceIff(off.task, off.queue, w.now, later, nextCron, first, end, endCron, second);
    FinishPlans(Apply(off, Save(first, later, nextCron)), n, success, second, end, endCron);
    NameIsNoMatter(w.task, w.now, later, nextCron);
    NameIsNoMatter(WithScheduleTime(w.task, w.now, nextCron), later, end, endCron);
  }

  lemma UnscheduleLeaves(w: World, n: Name)
    requires w.task.interval > 0 && w.task.jobName == Some(n)
    ensures var off := Apply(w, Unschedule);
            && off.task == w.task.(jobName := None) && off.running == w.running && off.now == w.now
            && off.queue.jobs.Keys <= w.queue.jobs.Keys && off.queue.scheduled.Keys <= w.queue.scheduled.Keys
  {
  }

  lemma NameIsNoMatter(t: Task, now: int, later: int, nextCron: int)
    requires t.interval > 0
    ensures PlansAnother(t.(jobName := None), now, later, nextCron) <==> PlansAnother(t, now, later, nextCron)
    ensures WithScheduleTime(t.(jobName := None), now, nextCron)
            == WithScheduleTime(t, now, nextCron).(jobName := None)
    ensures WithScheduleTime(t, now, nextCron).interval == t.interval
  {
  }

  /**
   * Why a task must not be unscheduled while a pass has its job in hand: the pass enqueues the job again, unnamed, and
   * the next save plans a second one exactly if the task has a time to plan.
   */
  lemma UnscheduledInHandIff(
      t: Task, q: JQ.State, n: Name, loaded: JQ.Job, now: int, later: int, nextCron: int, name: Name)
    requires t.interval > 0 && t.jobName == Some(n) && n in q.scheduled && name != n
    requires name !in q.jobs && !OnQueue(q, name)
    ensures var (off, gone) := Unscheduled(t, q, now);
            var (u, r) := Scheduled(off, JQ.Enqueued(gone, n, loaded, false, now), now, later, nextCron, name);
            && n in r.queued && u.jobName != Some(n)
            && (name in r.scheduled <==> PlansAnother(t, now, later, nextCron))
  {
    BackOnQueue(q, n, loaded, now);
    var back := JQ.Enqueued(JQ.Deleted(q, n, true, now), n, loaded, false, now);
    PlanningIff(t.(jobName := None), back, now, later, nextCron, name);
    NameIsNoMatter(t, now, later, nextCron);
  }

  lemma BackOnQueue(q: JQ.State, n: Name, loaded: JQ.Job, now: int)
    ensures var back := JQ.Enqueued(JQ.Deleted(q, n, true, now), n, loaded, false, now);
            n in back.queued && back.jobs.Keys <= q.jobs.Keys + {n} && back.scheduled.Keys <= q.scheduled.Keys
  {
    DeletionOnlyRemoves(q, n, now);
    var gone := JQ.Deleted(q, n, true, now);
    assert JQ.Enqueued(gone, n, loaded, false, now).jobs.Keys == gone.jobs.Keys + {n};
  }

  lemma DeletionOnlyRemoves(q: JQ.State, n: Name, now: int)
    ensures var gone := JQ.Deleted(q, n, true, now);
            gone.jobs.Keys <= q.jobs.Keys && gone.scheduled.Keys <= q.scheduled.Keys
  {
  }

  /**
   * Why a save must not be of a record loaded earlier: whatever that record is, the save plans a job, beside any that
   * is on the queue, exactly if no job that the record names is on the queue and the record has a time to plan.
   */
  lemma StaleSaveIff(t: Task, q: JQ.State, now: int, later: int, nextCron: int, name: Name)
    requires t.interval > 0 && t.jobName != Some(name) && name !in q.jobs && !OnQueue(q, name)
    ensures var (u, r) := Scheduled(t, q, now, later, nextCron, name);
            && (name in r.scheduled <==> !IsScheduled(t, q) && PlansAnother(t, now, later, nextCron))
            && (forall n | n != name :: OnQueue(r, n) <==> OnQueue(q, n))
            && (name !in r.scheduled ==> r == q)
  {
    if !IsScheduled(t, q) {
      PlanningIff(t, q, now, later, nextCron, name);
    }
  }

  /**
   * A scheduler that loaded the record before its job was done, and saves it afterwards, plans a job exactly if the
   * record has a time to plan; the job that the callback planned stays, so that there are two exactly if both did.
   */
  lemma StaleSaveAfterDoneIff(
      w: World, n: Name, success: bool, name: Name, later: int, nextCron: int, other: Name, end: int, endCron: int)
    requires Inv(w) && n in w.running && NewName(w, name) && NewName(w, other) && name != other
    ensures var v := Apply(w, Finish(n, success, name, later, nextCron));
            var (u, r) := Scheduled(w.task, v.queue, v.now, end, endCron, other);
            && (name in r.scheduled <==> PlansAnother(w.task, w.now, later, nextCron))
            && (other in r.scheduled <==> PlansAnother(w.task, v.now, end, endCron))
            && (other in r.scheduled ==> u.scheduledTime == WithScheduleTime(w.task, v.now, endCron).scheduledTime)
  {
    assert OnQueue(w.queue, n);
    var done := w.task.(jobName := None);
    PlanningIff(done, w.queue, w.now, later, nextCron, name);
    NameIsNoMatter(w.task, w.now, later, nextCron);
    JobIsDone(w, n, success, name, later, nextCron);
    PlanningIff(w.task, Apply(w, Finish(n, success, name, later, nextCron)).queue, later, end, endCron, other);
  }

  /** What the end of the job makes of the queue: the job is off it, and the callback's planning is on it. */
  lemma JobIsDone(w: World, n: Name, success: bool, name: Name, later: int, nextCron: int)
    requires Inv(w) && n in w.running && NewName(w, name)
    ensures var planned := Scheduled(w.task.(jobName := None), w.queue, w.now, later, nextCron, name).1;
            var v := Apply(w, Finish(n, success, name, later, nextCron));
            && v.now == later && v.queue.scheduled == planned.scheduled && v.queue.jobs.Keys <= planned.jobs.Keys + {n}
            && w.task.jobName == Some(n) && !OnQueue(v.queue, n)
  {
    assert OnQueue(w.queue, n);
    PlanningIff(w.task.(jobName := None), w.queue, w.now, later, nextCron, name);
  }

  /** Two schedulers that loaded the same record, and save it one after the other, plan two jobs exactly if both can. */
  lemma TwoSavesOfOneRecordIff(
      t: Task, q: JQ.State, now: int, later: int, nextCron: int, first: Name, now2: int, later2: int,
      nextCron2: int, second: Name)
    requires t.interval > 0 && !IsScheduled(t, q) && t.jobName != Some(first) && first != second
    requires first !in q.jobs && second !in q.jobs && !OnQueue(q, first) && !OnQueue(q, second)
    ensures var r := Scheduled(t, q, now, later, nextCron, first).1;
            var both := Scheduled(t, r, now2, later2, nextCron2, second).1;
            first in both.scheduled && second in both.scheduled <==>
            PlansAnother(t, now, later, nextCron) && PlansAnother(t, now2, later2, nextCron2)
  {
    PlanningIff(t, q, now, later, nextCron, first);
    var r := Scheduled(t, q, now, later, nextCron, first).1;
    assert r.queued == q.queued && r.active == q.active;
    PlanningIff(t, r, now2, later2, nextCron2, second);
  }

  lemma {:induction false} OrdinalsGrow(s: seq<int>, i: nat)
    requires Increasing(s) && i < |s| && s[0] >= 0
    ensures s[i] >= i
  {
    if i > 0 {
      OrdinalsGrow(s, i - 1);
    }
  }

  /**
   * In every run, the slots of the started jobs strictly increase; those of a repeatable task lie whole intervals after
   * its first slot, and with a budget of r repeats at most r + 1 jobs are started; a run-once task starts at most one.
   */
  lemma RunBudget(w0: World, steps: seq<Step>)
    requires Initial(w0) && Runs(w0, steps)
    ensures var w := After(w0, steps);
            && Increasing(w.starts)
            && (w0.task.kind == REPEATABLE ==>
                  && |w.ordinals| == |w.starts|
                  && (forall i | 0 <= i < |w.starts| ::
                        0 <= w.ordinals[i] && w.starts[i] == w0.task.scheduledTime + w0.task.interval * w.ordinals[i])
                  && (w0.task.repeat.Some? ==>
                        |w.starts| <= w0.task.repeat.value + 1
                        && forall i | 0 <= i < |w.starts| :: w.ordinals[i] <= w0.task.repeat.value))
            && (w0.task.kind == ONCE ==> |w.starts| <= 1)
  {
    RunKeepsInv(w0, steps);
    var w := After(w0, steps);
    if w0.task.kind == REPEATABLE && |w.starts| > 0 {
      forall i, j | 0 <= i < j < |w.ordinals| ensures w.ordinals[i] < w.ordinals[j] {
        assert w.starts[i] < w.starts[j];
        MulStrict(w0.task.interval, w.ordinals[i], w.ordinals[j]);
      }
      OrdinalsGrow(w.ordinals, |w.ordinals| - 1);
    }
    if w0.task.kind == ONCE && |w.starts| > 1 {
      StartedAtItsTime(w, 0);
      StartedAtItsTime(w, 1);
      assert false;
    }
  }

  lemma StartedAtItsTime(w: World, i: nat)
    requires BudgetOk(w) && w.task.kind == ONCE && i < |w.starts|
    ensures w.starts[i] == w.origin.scheduledTime
  {
    assert w.ordinals[i] == 0;
  }

  // ---------------------------------------------------------------------------------------------
  // The model class

  class TaskRecord {
    const kind: Kind
    const interval: int
    const job: JQ.Job
    var enabled: bool
    var jobName: Option<Name>
    var scheduledTime: int
    var repeat: Option<int>

    constructor (t: Task)
      ensures Value() == t
    {
      kind, interval, job := t.kind, t.interval, t.job;
      enabled, jobName, scheduledTime, repeat := t.enabled, t.jobName, t.scheduledTime, t.repeat;
    }

    function Value(): Task
      reads this
    {
      Task(kind, enabled, jobName, scheduledTime, interval, repeat, job)
    }

    method CheckScheduled(queue: Q.Queue) returns (r: bool)
      modifies `jobName
      ensures r == IsScheduled(old(Value()), queue.State())
      ensures Value() == Checked(old(Value()), queue.State())
    {
      if jobName.None? {
        return false;
      }
      r := jobName.value in queue.scheduled || jobName.value in queue.queued || jobName.value in queue.active;
      if !r {
        jobName := None;
      }
    }

    method ScheduleTime(now: int, nextCron: int)
      requires interval > 0
      modifies `scheduledTime, `repeat
      ensures Value() == WithScheduleTime(old(Value()), now, nextCron)
    {
      if kind == CRON {
        scheduledTime := nextCron;
      } else if kind == REPEATABLE {
        if scheduledTime >= now {
          return;
        }
        var gap := Gap(scheduledTime, interval, now);
        if repeat.None? || repeat.value >= gap {
          scheduledTime := scheduledTime + interval * gap;
          repeat := if repeat.Some? then Some(repeat.value - gap) else None;
        }
      }
    }

    /** Task._schedule, within Task.save; a name that is taken raises, and the new time is then not stored. */
    method SaveAndSchedule(queue: Q.Queue, now: int, later: int, nextCron: int, name: Name)
          returns (r: Result<bool, JQ.Error>)
      requires interval > 0
      modifies this, queue
      ensures (Value(), queue.State()) == Scheduled(old(Value()), old(queue.State()), now, later, nextCron, name)
      ensures var plans := !IsScheduled(old(Value()), old(queue.State()))
                           && PlansAnother(old(Value()), now, later, nextCron);
              r == if !plans then Ok(false) else if name in old(queue.jobs) then Err(JQ.NameTaken) else Ok(true)
      ensures r == Ok(true) ==> jobName == Some(name)
      ensures r != Ok(true) ==> queue.State() == old(queue.State())
    {
      var scheduled := CheckScheduled(queue);
      if scheduled || !enabled {
        return Ok(false);
      }
      ghost var checked := Value();
      var storedTime, storedRepeat := scheduledTime, repeat;
      ScheduleTime(now, nextCron);
      if kind != CRON && scheduledTime < later {
        return Ok(false);
      }
      var created := queue.CreateAndEnqueueJob(name, job, Some(scheduledTime), false, now);
      if created.Err? {
        scheduledTime, repeat := storedTime, storedRepeat;
        return Err(created.error);
      }
      jobName := Some(name);
      r := Ok(true);
    }

    method UnscheduleFrom(queue: Q.Queue, now: int)
      modifies `jobName, queue
      ensures (Value(), queue.State()) == Unscheduled(old(Value()), old(queue.State()), now)
    {
      if jobName.Some? {
        queue.DeleteJob(jobName.value, true, now);
        jobName := None;
      }
    }

    /** success_callback and failure_callback: the done job is forgotten before the next is planned. */
    method JobDone(queue: Q.Queue, now: int, later: int, nextCron: int, name: Name) returns (r: Result<bool, JQ.Error>)
      requires interval > 0
      modifies this, queue
      ensures (Value(), queue.State())
              == Scheduled(old(Value()).(jobName := None), old(queue.State()), now, later, nextCron, name)
      ensures r == if !PlansAnother(old(Value()), now, later, nextCron) then Ok(false)
                   else if name in old(queue.jobs) then Err(JQ.NameTaken) else Ok(true)
    {
      jobName := None;
      r := SaveAndSchedule(queue, now, later, nextCron, name);
    }
  }
}
