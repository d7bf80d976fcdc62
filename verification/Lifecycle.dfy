/**
 * The life of one job, in any run: which registries it is in, what its status is, and how both change. A job that is
 * cancelled while a pass has it in hand leaves this life, and one that is deleted then may lose its hash.
 */
module Lifecycle {
  import opened Wrappers
  import opened SortedSet
  import opened Protocol
  import opened Effects
  import JQ = JobQueue

  /** In at most one registry, the failed one aside. */
  predicate Exclusive(v: View) {
    && (v.scheduled.Some? ==> v.queued.None? && v.active.None? && v.finished.None? && v.canceled.None?)
    && (v.queued.Some? ==> v.active.None? && v.finished.None? && v.canceled.None?)
    && (v.active.Some? ==> v.finished.None? && v.canceled.None?)
    && (v.finished.Some? ==> v.canceled.None?)
  }

  /** In one registry, with the status that belongs to it. */
  predicate Consistent(v: View, now: int) {
    && Safe(v, now)
    && Exclusive(v)
    && (v.active.Some? ==> Lasting(v.job, JQ.STARTED) && v.job.value.startedAt.Some?
                           && v.active.value == v.job.value.startedAt.value + v.job.value.timeout)
    && (v.canceled.Some? ==> v.takes == [] && (v.job.Some? ==> v.job.value.status == JQ.CANCELED))
    && (v.takes != [] && v.job.Some? ==> v.job.value.status in {JQ.STARTED, JQ.FINISHED, JQ.FAILED, JQ.STOPPED})
    && (v.finished.Some? && v.job.Some? ==> v.job.value.status in {JQ.FINISHED, JQ.FAILED, JQ.STOPPED})
  }

  /** A job in the finished registry did not fail. */
  predicate Settled(v: View) {
    v.finished.Some? && v.job.Some? ==> v.job.value.status in {JQ.FINISHED, JQ.STOPPED}
  }

  /** A failure is reported of a job that is in the finished registry already, as it is when it was cancelled. */
  predicate FailsLate(q: Queue, a: Action, n: Name) {
    (a == Fail(n, false) || a == Abandon(n)) && n in q.state.finished
  }

  /** A queued job has a hash that can be loaded and does not expire. */
  predicate Kept(v: View) {
    v.queued.Some? ==> Lasting(v.job, JQ.QUEUED)
  }

  /** In no registry that enqueueing a job leaves it in. */
  predicate Unfinished(v: View) {
    v.active.None? && v.finished.None? && v.canceled.None?
  }

  /** How a status changes: a finished, failed or stopped job may still be canceled, or its worker may still report. */
  predicate Flows(a: JQ.Status, b: JQ.Status) {
    || a == b
    || (a == JQ.SCHEDULED && b in {JQ.QUEUED, JQ.STOPPED})
    || (a == JQ.QUEUED && b in {JQ.CANCELED, JQ.STARTED})
    || (a in {JQ.STARTED, JQ.FINISHED, JQ.FAILED, JQ.STOPPED} && b in {JQ.FINISHED, JQ.FAILED, JQ.STOPPED})
  }

  predicate Pending(v: View) {
    v.scheduled.Some? || v.queued.Some?
  }

  /** How a step may change what is known of a name; `withdrawn` says that the step cancels or deletes it. */
  predicate Evolves(v: View, w: View, withdrawn: bool) {
    && (v.due.Some? ==> w.due == v.due)
    && v.takes <= w.takes
    && (v.due.Some? && !Pending(v) && v.takes == [] ==> !Pending(w) && w.takes == [])
    && (Pending(v) && Kept(v) && !withdrawn ==> Pending(w) || w.takes != [])
    && (v.queued.Some? ==> w.scheduled.None?)
    && (v.job.Some? && w.job.Some? ==> Flows(v.job.value.status, w.job.value.status))
  }

  /**
   * What one action makes of one name; while the name is scheduled, only its own withdrawal takes it from there, and
   * while a pass has it in hand, only its cancellation puts it into a registry.
   */
  predicate GoesOn(v: View, w: View, now: int, withdrawn: bool, cancelled: bool) {
    && Consistent(w, now) && (Kept(v) ==> Kept(w)) && Evolves(v, w, withdrawn)
    && (v.scheduled.Some? && !withdrawn ==> w.scheduled == v.scheduled)
    && (Awaits(v, now) && Unfinished(v) && !cancelled ==> Unfinished(w))
  }

  /** The action cancels n, and finds it. */
  predicate Cancels(q: Queue, a: Action, n: Name) {
    a == Cancel(n) && JQ.Get(q.state, n).Some?
  }

  predicate StepWithdraws(step: Step, q: string, n: Name) {
    step.Act? && step.q == q && Withdraws(step.action, n)
  }

  /** The step cancels n, and finds it, while a pass is about to enqueue it. */
  ghost predicate Tears(s: System, step: Step, q: string, n: Name) {
    step.Act? && step.q == q && q in s.queues && Cancels(s.queues[q], step.action, n) && InFlight(s, q, n)
  }

  /** The step cancels or deletes n while a pass is about to enqueue it. */
  ghost predicate Disturbs(s: System, step: Step, q: string, n: Name) {
    StepWithdraws(step, q, n) && InFlight(s, q, n)
  }

  /** Some step of the run cancels n in flight. */
  ghost predicate Torn(s: System, steps: seq<Step>, q: string, n: Name)
    decreases |steps|
  {
    steps != [] && (Tears(s, steps[0], q, n) || Torn(Apply(s, steps[0]), steps[1..], q, n))
  }

  /** Some step of the run cancels or deletes n in flight. */
  ghost predicate Disturbed(s: System, steps: seq<Step>, q: string, n: Name)
    decreases |steps|
  {
    steps != [] && (Disturbs(s, steps[0], q, n) || Disturbed(Apply(s, steps[0]), steps[1..], q, n))
  }

  /** The name is consistent, and stays so when a pass that has it in hand enqueues it. */
  ghost predicate Shaped(s: System, q: string, n: Name) {
    && q in s.queues && Consistent(ViewOf(s.queues[q], n), s.now)
    && (InFlight(s, q, n) ==> Unfinished(ViewOf(s.queues[q], n)))
  }

  /** Beside that, its hash is there when it is queued, and a pass that has it in hand finds it where it read it. */
  ghost predicate Clean(s: System, q: string, n: Name) {
    && Shaped(s, q, n) && Kept(ViewOf(s.queues[q], n))
    && (InFlight(s, q, n) ==> n in s.queues[q].state.scheduled)
  }

  lemma CreateNowGoesOn(q: Queue, a: Action, now: int, n: Name)
    requires a.CreateNow? && a.n == n && n !in q.due
    requires Consistent(ViewOf(q, n), now)
    ensures GoesOn(ViewOf(q, n), ViewOf(Done(q, a, now), n), now, Withdraws(a, n), Cancels(q, a, n))
  {
  }

  lemma CreateAtGoesOn(q: Queue, a: Action, now: int, n: Name)
    requires a.CreateAt? && a.n == n && n !in q.due
    requires Consistent(ViewOf(q, n), now)
    ensures GoesOn(ViewOf(q, n), ViewOf(Done(q, a, now), n), now, Withdraws(a, n), Cancels(q, a, n))
  {
  }

  lemma PurgeGoesOn(q: Queue, a: Action, now: int, n: Name)
    requires Possible(q, a) && a.Purge?
    requires Consistent(ViewOf(q, n), now)
    ensures GoesOn(ViewOf(q, n), ViewOf(Done(q, a, now), n), now, Withdraws(a, n), Cancels(q, a, n))
  {
  }

  lemma TakeGoesOn(q: Queue, a: Action, now: int, n: Name)
    requires Possible(q, a) && a.Take?
    requires Consistent(ViewOf(q, n), now)
    ensures GoesOn(ViewOf(q, n), ViewOf(Done(q, a, now), n), now, Withdraws(a, n), Cancels(q, a, n))
  {
  }

  lemma SucceedGoesOn(q: Queue, a: Action, now: int, n: Name)
    requires Possible(q, a) && a.Succeed?
    requires Consistent(ViewOf(q, n), now)
    ensures GoesOn(ViewOf(q, n), ViewOf(Done(q, a, now), n), now, Withdraws(a, n), Cancels(q, a, n))
  {
  }

  lemma FailGoesOn(q: Queue, a: Action, now: int, n: Name)
    requires Possible(q, a) && a.Fail?
    requires Consistent(ViewOf(q, n), now)
    ensures GoesOn(ViewOf(q, n), ViewOf(Done(q, a, now), n), now, Withdraws(a, n), Cancels(q, a, n))
  {
  }

  lemma AbandonGoesOn(q: Queue, a: Action, now: int, n: Name)
    requires Possible(q, a) && a.Abandon?
    requires Consistent(ViewOf(q, n), now)
    ensures GoesOn(ViewOf(q, n), ViewOf(Done(q, a, now), n), now, Withdraws(a, n), Cancels(q, a, n))
  {
  }

  lemma CancelGoesOn(q: Queue, a: Action, now: int, n: Name)
    requires Possible(q, a) && a.Cancel? && a.n == n
    requires Consistent(ViewOf(q, n), now)
    ensures GoesOn(ViewOf(q, n), ViewOf(Done(q, a, now), n), now, Withdraws(a, n), Cancels(q, a, n))
  {
  }

  lemma DeleteGoesOn(q: Queue, a: Action, now: int, n: Name)
    requires Possible(q, a) && a.Delete? && a.n == n
    requires Consistent(ViewOf(q, n), now)
    ensures GoesOn(ViewOf(q, n), ViewOf(Done(q, a, now), n), now, Withdraws(a, n), Cancels(q, a, n))
  {
  }

  lemma CleanGoesOn(q: Queue, a: Action, now: int, n: Name)
    requires Possible(q, a) && (a.CleanFinished? || a.CleanFailed? || a.CleanActive?)
    requires Consistent(ViewOf(q, n), now)
    ensures GoesOn(ViewOf(q, n), ViewOf(Done(q, a, now), n), now, Withdraws(a, n), Cancels(q, a, n))
  {
  }

  /** What every action makes of every name. */
  lemma DoneGoesOn(q: Queue, a: Action, now: int, n: Name)
    requires Possible(q, a) && (a.CreateNow? || a.CreateAt? ==> a.n !in q.due)
    requires Consistent(ViewOf(q, n), now)
    ensures GoesOn(ViewOf(q, n), ViewOf(Done(q, a, now), n), now, Withdraws(a, n), Cancels(q, a, n))
  {
    match a
    case CreateNow(m, _, _) => if m == n { CreateNowGoesOn(q, a, now, n); } else { CreationTouchesOne(q, a, now, n); }
    case CreateAt(m, _, _) => if m == n { CreateAtGoesOn(q, a, now, n); } else { CreationTouchesOne(q, a, now, n); }
    case Purge(_) => PurgeGoesOn(q, a, now, n);
    case Take(_) => TakeGoesOn(q, a, now, n);
    case Succeed(_) => SucceedGoesOn(q, a, now, n);
    case Fail(_, _) => FailGoesOn(q, a, now, n);
    case Abandon(_) => AbandonGoesOn(q, a, now, n);
    case Cancel(m) => if m == n { CancelGoesOn(q, a, now, n); } else { CancelTouchesOne(q, m, now, n); }
    case Delete(m, expire) =>
      if m == n { DeleteGoesOn(q, a, now, n); } else { DeleteTouchesOne(q, m, expire, now, n); }
    case CleanFinished => CleanGoesOn(q, a, now, n);
    case CleanFailed => CleanGoesOn(q, a, now, n);
    case CleanActive => CleanGoesOn(q, a, now, n);
  }

  /** Exactly a failure that is reported late leaves a failed job among the finished ones. */
  lemma DoneSettlesIff(q: Queue, a: Action, now: int, n: Name)
    requires Possible(q, a) && (a.CreateNow? || a.CreateAt? ==> a.n !in q.due)
    requires Consistent(ViewOf(q, n), now) && Settled(ViewOf(q, n))
    ensures Settled(ViewOf(Done(q, a, now), n)) <==> !FailsLate(q, a, n)
  {
    match a
    case CreateNow(m, _, _) => if m != n { CreationTouchesOne(q, a, now, n); }
    case CreateAt(m, _, _) => if m != n { CreationTouchesOne(q, a, now, n); }
    case Cancel(m) => if m == n { CancelMeans(q, n, now); } else { CancelTouchesOne(q, m, now, n); }
    case Delete(m, expire) =>
      if m == n { DeleteMeans(q, n, expire, now); } else { DeleteTouchesOne(q, m, expire, now, n); }
    case Purge(dead) => PurgeMeans(q, dead, now, n);
    case CleanFinished => CleanMeans(q, now, n);
    case CleanFailed => CleanMeans(q, now, n);
    case CleanActive => CleanMeans(q, now, n);
    case _ => WorkSettlesIff(q, a, now, n);
  }

  lemma WorkSettlesIff(q: Queue, a: Action, now: int, n: Name)
    requires Possible(q, a) && (a.Take? || a.Succeed? || a.Fail? || a.Abandon?)
    requires Consistent(ViewOf(q, n), now) && Settled(ViewOf(q, n))
    ensures Settled(ViewOf(Done(q, a, now), n)) <==> !FailsLate(q, a, n)
  {
    if a.n != n {
      WorkTouchesOne(q, a, now, n);
    } else {
      match a
      case Take(_) => TakeMeans(q, n, now);
      case Succeed(_) => SucceedMeans(q, n, now);
      case Fail(_, stopped) => FailMeans(q, n, stopped, now);
      case Abandon(_) => AbandonMeans(q, n, now);
    }
  }

  /** Which status a job in the finished registry has: the one that the last report or cancellation gave it. */
  predicate FinishedStatus(q: Queue, a: Action, now: int, n: Name)
    requires Possible(q, a)
  {
    var v, w := ViewOf(q, n), ViewOf(Done(q, a, now), n);
    w.finished.Some? && w.job.Some? ==>
      var status := w.job.value.status;
      if a == Succeed(n) then status == JQ.FINISHED
      else if a == Abandon(n) then status == JQ.FAILED
      else if a.Fail? && a.n == n then status == (if a.stopped then JQ.STOPPED else JQ.FAILED)
      else if Cancels(q, a, n) && v.job.value.status != JQ.CANCELED then status == JQ.STOPPED
      else v.finished.Some? && v.job.Some? && status == v.job.value.status
  }

  lemma FinishedStatusIs(q: Queue, a: Action, now: int, n: Name)
    requires Possible(q, a) && (a.CreateNow? || a.CreateAt? ==> a.n !in q.due) && Consistent(ViewOf(q, n), now)
    ensures FinishedStatus(q, a, now, n)
  {
    match a
    case CreateNow(m, _, _) => if m != n { CreationTouchesOne(q, a, now, n); }
    case CreateAt(m, _, _) => if m != n { CreationTouchesOne(q, a, now, n); }
    case Cancel(m) => if m == n { CancelMeans(q, n, now); } else { CancelTouchesOne(q, m, now, n); }
    case Delete(m, expire) =>
      if m == n { DeleteMeans(q, n, expire, now); } else { DeleteTouchesOne(q, m, expire, now, n); }
    case Purge(dead) => PurgeMeans(q, dead, now, n);
    case CleanFinished => CleanMeans(q, now, n);
    case CleanFailed => CleanMeans(q, now, n);
    case CleanActive => CleanMeans(q, now, n);
    case _ => WorkFinishedStatus(q, a, now, n);
  }

  lemma WorkFinishedStatus(q: Queue, a: Action, now: int, n: Name)
    requires Possible(q, a) && (a.Take? || a.Succeed? || a.Fail? || a.Abandon?) && Consistent(ViewOf(q, n), now)
    ensures FinishedStatus(q, a, now, n)
  {
    if a.n != n {
      WorkTouchesOne(q, a, now, n);
    } else {
      match a
      case Take(_) => TakeMeans(q, n, now);
      case Succeed(_) => SucceedMeans(q, n, now);
      case Fail(_, stopped) => FailMeans(q, n, stopped, now);
      case Abandon(_) => AbandonMeans(q, n, now);
    }
  }

  lemma PassGoesOn(q: Queue, n: Name, loaded: JQ.Job, now: int, m: Name)
    requires Consistent(ViewOf(q, m), now)
    requires m == n ==> Awaits(ViewOf(q, n), now) && Unfinished(ViewOf(q, n))
    ensures var v, w := ViewOf(q, m), ViewOf(q.(state := JQ.Enqueued(q.state, n, loaded, false, now)), m);
            && Consistent(w, now) && (m != n ==> w == v)
            && (Kept(v) && (m == n ==> n in q.state.scheduled) ==> Kept(w) && Evolves(v, w, false))
  {
  }

  lemma ExpiryGoesOn(q: Queue, now: int, later: int, n: Name)
    requires Consistent(ViewOf(q, n), now) && now <= later
    ensures var v, w := ViewOf(q, n), ViewOf(q.(state := q.state.(jobs := JQ.Unexpired(q.state.jobs, later))), n);
            Consistent(w, later) && (Kept(v) ==> Kept(w)) && Evolves(v, w, false)
            && w.scheduled == v.scheduled && (Unfinished(v) ==> Unfinished(w))
  {
    var v, w := ViewOf(q, n), ViewOf(q.(state := q.state.(jobs := JQ.Unexpired(q.state.jobs, later))), n);
    assert w == v || (w == v.(job := None) && v.job.value.expiresAt.Some?);
  }

  // ---------------------------------------------------------------------------------------------
  // Steps and runs

  /**
   * A step keeps a name in shape unless it cancels it in flight; one that does not withdraw it in flight keeps it
   * clean, and changes it only as the life cycle says.
   */
  ghost predicate StaysGood(s: System, step: Step, q: string, n: Name)
    requires q in s.queues
  {
    var t := Apply(s, step);
    && q in t.queues
    && (!Tears(s, step, q, n) ==> Shaped(t, q, n))
    && (Clean(s, q, n) && !Disturbs(s, step, q, n) ==>
          Clean(t, q, n) && Evolves(ViewOf(s.queues[q], n), ViewOf(t.queues[q], n), StepWithdraws(step, q, n)))
  }

  /** A name in a pass awaits being enqueued. */
  lemma InFlightAwaits(s: System, q: string, n: Name)
    requires Inv(s) && InFlight(s, q, n)
    ensures q in s.queues && Awaits(ViewOf(s.queues[q], n), s.now)
  {
    var p :| p in s.schedulers && s.schedulers[p].pass.Some? && s.schedulers[p].pass.value.queue == q
             && n in s.schedulers[p].pass.value.names;
    assert PassOk(s.queues[q], s.schedulers[p].pass.value, s.now);
  }

  /** An action's effect on one name of its queue. */
  lemma ActOnName(s: System, a: Action, q: string, n: Name)
    requires Inv(s) && Enabled(s, Act(q, a)) && Shaped(s, q, n)
    ensures q in Apply(s, Act(q, a)).queues
    ensures var v, w := ViewOf(s.queues[q], n), ViewOf(Apply(s, Act(q, a)).queues[q], n);
            GoesOn(v, w, s.now, Withdraws(a, n), Cancels(s.queues[q], a, n))
  {
    DoneGoesOn(s.queues[q], a, s.now, n);
  }

  lemma SameInFlight(s: System, t: System, q: string, n: Name)
    requires t.schedulers == s.schedulers
    ensures InFlight(t, q, n) <==> InFlight(s, q, n)
  {
  }

  lemma ActHereStaysGood(s: System, a: Action, q: string, n: Name)
    requires Inv(s) && Enabled(s, Act(q, a)) && Shaped(s, q, n)
    ensures StaysGood(s, Act(q, a), q, n)
  {
    var t := Apply(s, Act(q, a));
    var v, w := ViewOf(s.queues[q], n), ViewOf(t.queues[q], n);
    SameInFlight(s, t, q, n);
    ActOnName(s, a, q, n);
    assert n in t.queues[q].state.scheduled <==> w.scheduled.Some?;
    assert n in s.queues[q].state.scheduled <==> v.scheduled.Some?;
    if InFlight(s, q, n) {
      InFlightAwaits(s, q, n);
      assert Tears(s, Act(q, a), q, n) <==> Cancels(s.queues[q], a, n);
    }
  }

  lemma ActElsewhereStaysGood(s: System, r: string, a: Action, q: string, n: Name)
    requires Enabled(s, Act(r, a)) && Shaped(s, q, n) && r != q
    ensures StaysGood(s, Act(r, a), q, n)
  {
    SameInFlight(s, Apply(s, Act(r, a)), q, n);
  }

  lemma PassStaysGood(s: System, p: nat, q: string, n: Name)
    requires Inv(s) && Enabled(s, EnqueueNext(p)) && Shaped(s, q, n)
    ensures StaysGood(s, EnqueueNext(p), q, n)
  {
    var t := Apply(s, EnqueueNext(p));
    var pass := s.schedulers[p].pass.value;
    var m := pass.names[0];
    assert PassOk(s.queues[pass.queue], pass, s.now) && m in pass.names;
    assert InFlight(t, q, n) ==> InFlight(s, q, n);
    if pass.queue != q {
      assert t.queues[q] == s.queues[q];
    } else if m == n {
      assert InFlight(s, q, n);
      NotInOtherPasses(s, p);
      PassGoesOn(s.queues[q], m, pass.loaded[m], s.now, n);
    } else {
      PassGoesOn(s.queues[q], m, pass.loaded[m], s.now, n);
      assert ViewOf(t.queues[q], n) == ViewOf(s.queues[q], n);
    }
  }

  /** The name that a pass enqueues is in no pass afterwards. */
  lemma NotInOtherPasses(s: System, p: nat)
    requires Inv(s) && Enabled(s, EnqueueNext(p))
    ensures var pass := s.schedulers[p].pass.value;
            !InFlight(Apply(s, EnqueueNext(p)), pass.queue, pass.names[0])
  {
    var pass := s.schedulers[p].pass.value;
    var t := Apply(s, EnqueueNext(p));
    RestOk(s.queues[pass.queue], pass, s.now);
    forall r | r in t.schedulers && t.schedulers[r].pass.Some? && t.schedulers[r].pass.value.queue == pass.queue
      ensures pass.names[0] !in t.schedulers[r].pass.value.names
    {
      if r != p {
        Exclusion(s, p, r, pass.queue);
      }
    }
  }

  lemma BeginStaysGood(s: System, p: nat, r: string, q: string, n: Name)
    requires Enabled(s, BeginPass(p, r)) && Shaped(s, q, n)
    ensures StaysGood(s, BeginPass(p, r), q, n)
  {
    var t := Apply(s, BeginPass(p, r));
    JQ.DueNamesAreDue(s.queues[r].state, s.now);
    if InFlight(t, q, n) && !InFlight(s, q, n) {
      assert n in JQ.DueNames(s.queues[r].state, s.now);
    }
  }

  lemma TickStaysGood(s: System, d: nat, q: string, n: Name)
    requires Shaped(s, q, n)
    ensures StaysGood(s, Tick(d), q, n)
  {
    var t := Apply(s, Tick(d));
    SameInFlight(s, t, q, n);
    var state := s.queues[q].state;
    assert t.queues[q] == s.queues[q].(state := state.(jobs := JQ.Unexpired(state.jobs, t.now)));
    assert t.queues[q].state.scheduled == state.scheduled;
    ExpiryGoesOn(s.queues[q], s.now, t.now, n);
  }

  lemma LocksLeavePasses(s: System, step: Step, q: string, n: Name)
    requires step.Acquire? || step.Heartbeat? || step.Stop? || step.Crash? || step.Refresh? || step.StartAgain?
    ensures InFlight(Apply(s, step), q, n) ==> InFlight(s, q, n)
    ensures Apply(s, step).queues == s.queues && Apply(s, step).now == s.now
  {
  }

  lemma LocksStayGood(s: System, step: Step, q: string, n: Name)
    requires Shaped(s, q, n)
    requires step.Acquire? || step.Heartbeat? || step.Stop? || step.Crash? || step.Refresh? || step.StartAgain?
    ensures StaysGood(s, step, q, n)
  {
    LocksLeavePasses(s, step, q, n);
  }

  lemma StepStaysGood(s: System, step: Step, q: string, n: Name)
    requires Inv(s) && Enabled(s, step) && Shaped(s, q, n)
    ensures StaysGood(s, step, q, n)
  {
    match step
    case Act(r, a) =>
      if r == q { ActHereStaysGood(s, a, q, n); } else { ActElsewhereStaysGood(s, r, a, q, n); }
    case EnqueueNext(p) => PassStaysGood(s, p, q, n);
    case BeginPass(p, r) => BeginStaysGood(s, p, r, q, n);
    case Tick(d) => TickStaysGood(s, d, q, n);
    case _ => LocksStayGood(s, step, q, n);
  }

  /** Over a run that does not cancel it in flight, a name stays in at most one registry, with the status for it. */
  lemma {:induction false} RunStaysShaped(s: System, steps: seq<Step>, q: string, n: Name)
    requires Inv(s) && Runs(s, steps) && Shaped(s, q, n) && !Torn(s, steps, q, n)
    ensures Shaped(After(s, steps), q, n)
    decreases |steps|
  {
    if steps != [] {
      StepStaysGood(s, steps[0], q, n);
      StepKeepsInv(s, steps[0]);
      RunStaysShaped(Apply(s, steps[0]), steps[1..], q, n);
    }
  }

  /** Some step of the run reports a failure of n late. */
  ghost predicate FailedLate(s: System, steps: seq<Step>, q: string, n: Name)
    decreases |steps|
  {
    steps != [] && (StepFailsLate(s, steps[0], q, n) || FailedLate(Apply(s, steps[0]), steps[1..], q, n))
  }

  predicate StepFailsLate(s: System, step: Step, q: string, n: Name) {
    step.Act? && step.q == q && q in s.queues && FailsLate(s.queues[q], step.action, n)
  }

  lemma StepStaysSettled(s: System, step: Step, q: string, n: Name)
    requires Inv(s) && Enabled(s, step) && Shaped(s, q, n) && Settled(ViewOf(s.queues[q], n))
    ensures q in Apply(s, step).queues
    ensures !StepFailsLate(s, step, q, n) ==> Settled(ViewOf(Apply(s, step).queues[q], n))
  {
    match step
    case Act(r, a) => if r == q { DoneSettlesIff(s.queues[q], a, s.now, n); }
    case EnqueueNext(p) => PassStaysSettled(s, p, q, n);
    case Tick(d) => TickMeans(s, d, q, n);
    case _ => assert Apply(s, step).queues == s.queues;
  }

  /** What the next name of a pass makes of the queues. */
  lemma NextIsEnqueued(s: System, p: nat)
    requires Inv(s) && Enabled(s, EnqueueNext(p))
    ensures var pass := s.schedulers[p].pass.value;
            && pass.queue in s.queues && pass.names[0] in pass.names && pass.names[0] in pass.loaded
            && var q, n := s.queues[pass.queue], pass.names[0];
               Apply(s, EnqueueNext(p)).queues
               == s.queues[pass.queue := q.(state := JQ.Enqueued(q.state, n, pass.loaded[n], false, s.now))]
  {
    var pass := s.schedulers[p].pass.value;
    assert PassOk(s.queues[pass.queue], pass, s.now) && pass.names[0] in pass.names;
  }

  lemma PassStaysSettled(s: System, p: nat, q: string, n: Name)
    requires Inv(s) && Enabled(s, EnqueueNext(p)) && Shaped(s, q, n) && Settled(ViewOf(s.queues[q], n))
    ensures q in Apply(s, EnqueueNext(p)).queues && Settled(ViewOf(Apply(s, EnqueueNext(p)).queues[q], n))
  {
    var pass := s.schedulers[p].pass.value;
    var m := pass.names[0];
    NextIsEnqueued(s, p);
    if pass.queue == q {
      if m == n {
        assert InFlight(s, q, n);
        EnqueueMeans(s.queues[q], n, pass.loaded[n], false, s.now);
      } else {
        EnqueueTouchesOne(s.queues[q], m, pass.loaded[m], false, s.now, n);
      }
    }
  }

  /** Over a run that neither cancels it in flight nor reports its failure late, a finished job has not failed. */
  lemma {:induction false} RunStaysSettled(s: System, steps: seq<Step>, q: string, n: Name)
    requires Inv(s) && Runs(s, steps) && Shaped(s, q, n) && Settled(ViewOf(s.queues[q], n))
    requires !Torn(s, steps, q, n) && !FailedLate(s, steps, q, n)
    ensures q in After(s, steps).queues && Settled(ViewOf(After(s, steps).queues[q], n))
    decreases |steps|
  {
    if steps != [] {
      StepStaysSettled(s, steps[0], q, n);
      StepStaysGood(s, steps[0], q, n);
      StepKeepsInv(s, steps[0]);
      RunStaysSettled(Apply(s, steps[0]), steps[1..], q, n);
    }
  }

  ghost predicate NeverWithdrawn(steps: seq<Step>, q: string, n: Name) {
    forall i | 0 <= i < |steps| :: !StepWithdraws(steps[i], q, n)
  }

  lemma {:induction false} NeverTorn(s: System, steps: seq<Step>, q: string, n: Name)
    requires NeverWithdrawn(steps, q, n)
    ensures !Torn(s, steps, q, n) && !Disturbed(s, steps, q, n)
    decreases |steps|
  {
    if steps != [] {
      assert !StepWithdraws(steps[0], q, n);
      RestNeverWithdrawn(steps, q, n);
      NeverTorn(Apply(s, steps[0]), steps[1..], q, n);
    }
  }

  lemma RestNeverWithdrawn(steps: seq<Step>, q: string, n: Name)
    requires NeverWithdrawn(steps, q, n) && steps != []
    ensures NeverWithdrawn(steps[1..], q, n)
  {
    assert forall i | 0 <= i < |steps[1..]| :: steps[1..][i] == steps[i + 1];
  }

  /**
   * Over a run that does not withdraw it in flight: a job keeps its time and its takes; one that is neither pending nor
   * taken stays that way; and a pending one that no step withdraws is pending or taken in the end, so none is lost.
   */
  lemma {:induction false} RunEvolves(s: System, steps: seq<Step>, q: string, n: Name)
    requires Inv(s) && Runs(s, steps) && Clean(s, q, n) && !Disturbed(s, steps, q, n)
    ensures Clean(After(s, steps), q, n)
    ensures var v, w := ViewOf(s.queues[q], n), ViewOf(After(s, steps).queues[q], n);
            && (v.due.Some? ==> w.due == v.due)
            && v.takes <= w.takes
            && (v.due.Some? && !Pending(v) && v.takes == [] ==> !Pending(w) && w.takes == [])
            && (Pending(v) && NeverWithdrawn(steps, q, n) ==> Pending(w) || w.takes != [])
    decreases |steps|
  {
    if steps != [] {
      StepStaysGood(s, steps[0], q, n);
      StepKeepsInv(s, steps[0]);
      RunEvolves(Apply(s, steps[0]), steps[1..], q, n);
      if NeverWithdrawn(steps, q, n) {
        RestNeverWithdrawn(steps, q, n);
        assert !StepWithdraws(steps[0], q, n);
      }
    }
  }

  lemma InitialIsClean(s: System, q: string, n: Name)
    requires Initial(s) && q in s.queues
    ensures Clean(s, q, n)
  {
    assert ViewOf(s.queues[q], n) == NOTHING;
  }
}
