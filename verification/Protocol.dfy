/**
 * The job protocol over whole runs: any number of schedulers with their leases, any number of workers, and users who
 * create, cancel and delete jobs, interleaved step by step on any number of queues.
 *
 * A scheduler pass is not one step: it reads the due names and loads their jobs, and then enqueues them one at a time.
 */
module Protocol {
  import opened Wrappers
  import opened SortedSet
  import JQ = JobQueue
  import L = Leases

  /** A pass under way: the names still to be enqueued, and the jobs as they were loaded. */
  datatype Pass = Pass(queue: string, names: seq<Name>, loaded: map<Name, JQ.Job>)

  /**
   * A scheduler is for the queues `queues`. It asks for their locks when it starts, and again when the last time,
   * `acquiredAt`, is longer than `fallback` ago. `locks` maps every lock it took to the time at which it last set or
   * extended the key; `stopped` is set when it stops and when it dies.
   */
  datatype Scheduler = Scheduler(
    interval: nat, queues: set<string>, fallback: nat, locks: map<string, int>, registries: set<string>,
    acquiredAt: Option<int>, pass: Option<Pass>, stopped: bool)

  /**
   * A queue with its history: the time from which each created job may run, the times at which each job was taken,
   * and the handles that workers hold of the jobs they execute.
   */
  datatype Queue = Queue(state: JQ.State, due: map<Name, int>, takes: map<Name, seq<int>>, running: map<Name, JQ.Job>)

  datatype System = System(now: int, queues: map<string, Queue>, keys: L.Keys, schedulers: map<nat, Scheduler>)

  datatype Action =
    | CreateNow(n: Name, job: JQ.Job, front: bool)
    | CreateAt(n: Name, job: JQ.Job, when: int)
    | Purge(dead: set<Name>)
    | Take(n: Name)
    | Succeed(n: Name)
    | Fail(n: Name, stopped: bool)
    | Abandon(n: Name)
    | Cancel(n: Name)
    | Delete(n: Name, expireModel: bool)
    | CleanFinished
    | CleanFailed
    | CleanActive

  datatype Step =
    | Tick(seconds: nat)
    | Acquire(p: nat, q: string)
    | Refresh(p: nat)
    | StartAgain(p: nat)
    | Heartbeat(p: nat, q: string)
    | Stop(p: nat)
    | Crash(p: nat)
    | BeginPass(p: nat, q: string)
    | EnqueueNext(p: nat)
    | Act(q: string, action: Action)

  function Times(q: Queue, n: Name): seq<int> {
    if n in q.takes then q.takes[n] else []
  }

  /** Whether the broker or a worker is in a position to do `a`. */
  predicate Possible(q: Queue, a: Action) {
    match a
    case Purge(dead) => forall n | n in dead :: JQ.Get(q.state, n).None?
    case Take(n) => var live := JQ.LiveQueued(q.state); n in live && IsLeast(live, n)
    case Succeed(n) => n in q.running
    case Fail(n, _) => n in q.running
    case Abandon(n) => Times(q, n) != [] && JQ.Get(q.state, n).Some?
    case _ => true
  }

  function Done(q: Queue, a: Action, now: int): Queue
    requires Possible(q, a)
  {
    match a
    case CreateNow(n, job, front) =>
      (match JQ.CreatedNow(q.state, n, job, front, now)
       case Ok(s) => q.(state := s, due := q.due[n := now])
       case Err(_) => q)
    case CreateAt(n, job, when) =>
      (match JQ.CreatedAt(q.state, n, job, when)
       case Ok(s) => q.(state := s, due := q.due[n := when])
       case Err(_) => q)
    case Purge(dead) => q.(state := q.state.(queued := q.state.queued - dead))
    case Take(n) =>
      var job := q.state.jobs[n];
      q.(state := JQ.Prepared(q.state.(queued := q.state.queued - {n}), n, job, now),
         takes := q.takes[n := Times(q, n) + [now]],
         running := q.running[n := JQ.Running(job, now)])
    case Succeed(n) => q.(state := JQ.Succeeded(q.state, n, q.running[n], now), running := q.running - {n})
    case Fail(n, stopped) =>
      var status := if stopped then JQ.STOPPED else JQ.FAILED;
      q.(state := JQ.FailedWith(q.state, n, q.running[n], status, now), running := q.running - {n})
    case Abandon(n) => q.(state := JQ.FailedWith(q.state, n, q.state.jobs[n], JQ.FAILED, now))
    case Cancel(n) => if JQ.CancelError(q.state, n).Some? then q else q.(state := JQ.Canceled(q.state, n, now))
    case Delete(n, expireModel) => q.(state := JQ.Deleted(q.state, n, expireModel, now))
    case CleanFinished => q.(state := q.state.(finished := Cleaned(q.state.finished, now)))
    case CleanFailed => q.(state := q.state.(failed := Cleaned(q.state.failed, now)))
    case CleanActive => q.(state := q.state.(active := Cleaned(q.state.active, now)))
  }

  /** A scheduler pass is about to enqueue n. */
  ghost predicate InFlight(s: System, q: string, n: Name) {
    exists p :: p in s.schedulers && s.schedulers[p].pass.Some? && s.schedulers[p].pass.value.queue == q
                && n in s.schedulers[p].pass.value.names
  }

  /** No scheduler that runs lets `now` reach a lock's expiry without a heartbeat. */
  ghost predicate InTime(s: System, now: int) {
    forall p, q | p in s.schedulers && !s.schedulers[p].stopped && q in s.schedulers[p].locks ::
      now < s.schedulers[p].locks[q] + s.schedulers[p].interval + L.GRACE
  }

  /** Job names are never used twice, in any queue. */
  ghost predicate NewName(s: System, n: Name) {
    forall q | q in s.queues :: n !in s.queues[q].due
  }

  /** A scheduler asks for locks when it starts, and when it has not for longer than its fallback period. */
  predicate MayAcquire(c: Scheduler, now: int) {
    c.acquiredAt.None? || now - c.acquiredAt.value > c.fallback
  }

  /** A scheduler that runs is between two passes. */
  predicate Idle(s: System, p: nat) {
    p in s.schedulers && !s.schedulers[p].stopped && s.schedulers[p].pass.None?
  }

  /** What the code lets happen, with two conditions on the run: heartbeats in time while alive, and new names. */
  ghost predicate Enabled(s: System, step: Step) {
    match step
    case Tick(d) => InTime(s, s.now + d)
    case Acquire(p, q) => Idle(s, p) && MayAcquire(s.schedulers[p], s.now) && q in s.schedulers[p].queues
    case Refresh(p) => Idle(s, p) && MayAcquire(s.schedulers[p], s.now)
    case StartAgain(p) => Idle(s, p) && s.schedulers[p].locks == map[]
    case Heartbeat(p, q) => p in s.schedulers && !s.schedulers[p].stopped && q in s.schedulers[p].locks
    case Stop(p) => Idle(s, p)
    case Crash(p) => p in s.schedulers && !s.schedulers[p].stopped
    case BeginPass(p, q) =>
      && Idle(s, p)
      && q in s.schedulers[p].registries && q in s.queues
      && forall n | n in JQ.DueNames(s.queues[q].state, s.now) && n in s.queues[q].state.jobs ::
           s.queues[q].state.jobs[n].whole
    case EnqueueNext(p) =>
      p in s.schedulers && s.schedulers[p].pass.Some? && s.schedulers[p].pass.value.queue in s.queues
      && s.schedulers[p].pass.value.names != []
    case Act(q, a) =>
      && q in s.queues && Possible(s.queues[q], a)
      && (a.CreateNow? || a.CreateAt? ==> NewName(s, a.n))
  }

  function WithPass(s: System, p: nat, pass: Pass): System
    requires p in s.schedulers
  {
    s.(schedulers := s.schedulers[p := s.schedulers[p].(pass := if pass.names == [] then None else Some(pass))])
  }

  /** The effect of a step; a step that makes no sense changes nothing. */
  function Apply(s: System, step: Step): System {
    match step
    case Tick(d) =>
      var now := s.now + d;
      s.(now := now,
         queues := map q | q in s.queues ::
           s.queues[q].(state := s.queues[q].state.(jobs := JQ.Unexpired(s.queues[q].state.jobs, now))))
    case Acquire(p, q) =>
      if p !in s.schedulers || L.Held(s.keys, q, s.now) then s else
        s.(keys := L.Acquired(s.keys, q, p, s.schedulers[p].interval + L.GRACE, s.now),
           schedulers := s.schedulers[p := s.schedulers[p].(locks := s.schedulers[p].locks[q := s.now])])
    case Refresh(p) =>
      if p !in s.schedulers then s else
        s.(schedulers := s.schedulers[p := s.schedulers[p].(registries := s.schedulers[p].locks.Keys,
                                                            acquiredAt := Some(s.now))])
    case StartAgain(p) =>
      if p !in s.schedulers then s else
        s.(schedulers := s.schedulers[p := s.schedulers[p].(acquiredAt := None)])
    case Heartbeat(p, q) =>
      if p !in s.schedulers || q !in s.schedulers[p].locks then s else
        s.(keys := L.Extended(s.keys, q, s.schedulers[p].interval + L.GRACE, s.now),
           schedulers := s.schedulers[p := s.schedulers[p].(locks := s.schedulers[p].locks[q := s.now])])
    case Stop(p) =>
      if p !in s.schedulers then s else
        s.(keys := s.keys - s.schedulers[p].locks.Keys,
           schedulers := s.schedulers[p := s.schedulers[p].(stopped := true)])
    case Crash(p) =>
      if p !in s.schedulers then s else
        s.(schedulers := s.schedulers[p := s.schedulers[p].(stopped := true, pass := None)])
    case BeginPass(p, q) =>
      if p !in s.schedulers || q !in s.queues then s else
        WithPass(s, p, Pass(q, JQ.DueNames(s.queues[q].state, s.now), s.queues[q].state.jobs))
    case EnqueueNext(p) =>
      if p !in s.schedulers || s.schedulers[p].pass.None? then s else
        var pass := s.schedulers[p].pass.value;
        if pass.queue !in s.queues || pass.names == [] then s else
          var n, q := pass.names[0], s.queues[pass.queue];
          var rest := WithPass(s, p, pass.(names := pass.names[1..]));
          if n !in pass.loaded then rest else
            rest.(queues := s.queues[pass.queue := q.(state := JQ.Enqueued(q.state, n, pass.loaded[n], false, s.now))])
    case Act(q, a) =>
      if q !in s.queues || !Possible(s.queues[q], a) then s else
        s.(queues := s.queues[q := Done(s.queues[q], a, s.now)])
  }

  function NewScheduler(interval: nat, queues: set<string>, fallback: nat): Scheduler {
    Scheduler(interval, queues, fallback, map[], {}, None, None, false)
  }

  /** A state from which runs start: empty queues, no lock, and schedulers that have not started. */
  predicate Initial(s: System) {
    && s.keys == map[]
    && (forall q | q in s.queues :: s.queues[q] == Queue(JQ.EMPTY, map[], map[], map[]))
    && (forall p | p in s.schedulers ::
          var c := s.schedulers[p]; c == NewScheduler(c.interval, c.queues, c.fallback))
  }

  ghost predicate Runs(s: System, steps: seq<Step>)
    decreases |steps|
  {
    steps == [] || (Enabled(s, steps[0]) && Runs(Apply(s, steps[0]), steps[1..]))
  }

  function After(s: System, steps: seq<Step>): System
    decreases |steps|
  {
    if steps == [] then s else After(Apply(s, steps[0]), steps[1..])
  }

  // ---------------------------------------------------------------------------------------------
  // What holds of every name

  /** Everything a queue knows of one name. */
  datatype View = View(
    job: Option<JQ.Job>, scheduled: Option<int>, queued: Option<int>, active: Option<int>, finished: Option<int>,
    failed: Option<int>, canceled: Option<int>, due: Option<int>, takes: seq<int>, running: Option<JQ.Job>)

  const NOTHING := View(None, None, None, None, None, None, None, None, [], None)

  function ViewOf(q: Queue, n: Name): View {
    var s := q.state;
    View(Lookup(s.jobs, n), Lookup(s.scheduled, n), Lookup(s.queued, n), Lookup(s.active, n), Lookup(s.finished, n),
         Lookup(s.failed, n), Lookup(s.canceled, n), Lookup(q.due, n), Times(q, n), Lookup(q.running, n))
  }

  predicate Lasting(job: Option<JQ.Job>, status: JQ.Status) {
    job.Some? && job.value.status == status && job.value.whole && job.value.expiresAt.None?
  }

  /**
   * What holds of a name whatever happens: scheduled for the time it was created for, as long as nothing else was done
   * with it; queued only when due; taken once, not before its time, and neither scheduled nor queued from then on.
   */
  predicate Safe(v: View, now: int) {
    && (v.due.None? ==> v == NOTHING)
    && (v.scheduled.Some? ==>
          && v.queued.None? && v.active.None? && v.finished.None? && v.canceled.None?
          && Lasting(v.job, JQ.SCHEDULED) && v.scheduled == v.due && v.takes == [])
    && (v.queued.Some? ==>
          v.due.value <= now && v.takes == [] && (v.job.Some? ==> v.job.value.status == JQ.QUEUED))
    && (v.active.Some? || v.running.Some? ==> v.takes != [])
    && (v.takes != [] ==>
          |v.takes| == 1 && v.due.value <= v.takes[0] <= now && v.scheduled.None? && v.queued.None?)
  }

  /** What a pass may rely on for a name it has in hand: due, never taken, and enqueued by nobody else. */
  predicate Awaits(v: View, now: int) {
    && v.due.Some? && 0 <= v.due.value <= now && v.takes == [] && v.queued.None?
    && (v.job.Some? ==> v.job.value.status in {JQ.SCHEDULED, JQ.STOPPED})
  }

  predicate Withdraws(a: Action, n: Name) {
    (a.Cancel? || a.Delete?) && a.n == n
  }

  ghost predicate AllSafe(q: Queue, now: int) {
    forall n :: Safe(ViewOf(q, n), now)
  }

  lemma CreationKeepsSafe(q: Queue, a: Action, now: int, n: Name)
    requires Possible(q, a) && (a.CreateNow? || a.CreateAt?) && a.n !in q.due
    requires Safe(ViewOf(q, n), now)
    ensures Safe(ViewOf(Done(q, a, now), n), now)
    ensures Awaits(ViewOf(q, n), now) ==> Awaits(ViewOf(Done(q, a, now), n), now)
  {
  }

  lemma WorkKeepsSafe(q: Queue, a: Action, now: int, n: Name)
    requires Possible(q, a) && (a.Take? || a.Succeed? || a.Fail? || a.Abandon?)
    requires Safe(ViewOf(q, n), now)
    ensures Safe(ViewOf(Done(q, a, now), n), now)
    ensures Awaits(ViewOf(q, n), now) ==> Awaits(ViewOf(Done(q, a, now), n), now)
  {
  }

  lemma CancelTouchesOne(q: Queue, n: Name, now: int, m: Name)
    requires m != n
    ensures ViewOf(Done(q, Cancel(n), now), m) == ViewOf(q, m)
  {
  }

  lemma DeleteTouchesOne(q: Queue, n: Name, expireModel: bool, now: int, m: Name)
    requires m != n
    ensures ViewOf(Done(q, Delete(n, expireModel), now), m) == ViewOf(q, m)
  {
    var s, r := q.state, JQ.Deleted(q.state, n, expireModel, now);
    assert Lookup(r.jobs, m) == Lookup(s.jobs, m);
    assert Lookup(r.scheduled, m) == Lookup(s.scheduled, m) && Lookup(r.queued, m) == Lookup(s.queued, m);
    assert Lookup(r.active, m) == Lookup(s.active, m) && Lookup(r.finished, m) == Lookup(s.finished, m);
    assert Lookup(r.failed, m) == Lookup(s.failed, m) && Lookup(r.canceled, m) == Lookup(s.canceled, m);
  }

  lemma CancelKeepsSafe(q: Queue, n: Name, now: int)
    requires Safe(ViewOf(q, n), now)
    ensures Safe(ViewOf(Done(q, Cancel(n), now), n), now)
    ensures Awaits(ViewOf(q, n), now) ==> Awaits(ViewOf(Done(q, Cancel(n), now), n), now)
  {
  }

  lemma DeleteKeepsSafe(q: Queue, n: Name, expireModel: bool, now: int)
    requires Safe(ViewOf(q, n), now)
    ensures Safe(ViewOf(Done(q, Delete(n, expireModel), now), n), now)
    ensures Awaits(ViewOf(q, n), now) ==> Awaits(ViewOf(Done(q, Delete(n, expireModel), now), n), now)
  {
  }

  lemma WithdrawalKeepsSafe(q: Queue, a: Action, now: int, n: Name)
    requires (a.Cancel? || a.Delete?) && Safe(ViewOf(q, n), now)
    ensures Safe(ViewOf(Done(q, a, now), n), now)
    ensures Awaits(ViewOf(q, n), now) ==> Awaits(ViewOf(Done(q, a, now), n), now)
  {
    match a
    case Cancel(m) => if m == n { CancelKeepsSafe(q, n, now); } else { CancelTouchesOne(q, m, now, n); }
    case Delete(m, expire) =>
      if m == n { DeleteKeepsSafe(q, n, expire, now); } else { DeleteTouchesOne(q, m, expire, now, n); }
  }

  lemma CleaningKeepsSafe(q: Queue, a: Action, now: int, n: Name)
    requires Possible(q, a) && (a.Purge? || a.CleanFinished? || a.CleanFailed? || a.CleanActive?)
    requires Safe(ViewOf(q, n), now)
    ensures Safe(ViewOf(Done(q, a, now), n), now)
    ensures Awaits(ViewOf(q, n), now) ==> Awaits(ViewOf(Done(q, a, now), n), now)
  {
  }

  lemma DoneKeepsSafe(q: Queue, a: Action, now: int, n: Name)
    requires Possible(q, a) && (a.CreateNow? || a.CreateAt? ==> a.n !in q.due)
    requires Safe(ViewOf(q, n), now)
    ensures Safe(ViewOf(Done(q, a, now), n), now)
    ensures Awaits(ViewOf(q, n), now) ==> Awaits(ViewOf(Done(q, a, now), n), now)
  {
    if a.CreateNow? || a.CreateAt? {
      CreationKeepsSafe(q, a, now, n);
    } else if a.Cancel? || a.Delete? {
      WithdrawalKeepsSafe(q, a, now, n);
    } else if a.Take? || a.Succeed? || a.Fail? || a.Abandon? {
      WorkKeepsSafe(q, a, now, n);
    } else {
      CleaningKeepsSafe(q, a, now, n);
    }
  }

  lemma ExpiryKeepsSafe(q: Queue, now: int, later: int, n: Name)
    requires now <= later && Safe(ViewOf(q, n), now)
    ensures var r := q.(state := q.state.(jobs := JQ.Unexpired(q.state.jobs, later)));
            Safe(ViewOf(r, n), later) && (Awaits(ViewOf(q, n), now) ==> Awaits(ViewOf(r, n), later))
  {
    var v, w := ViewOf(q, n), ViewOf(q.(state := q.state.(jobs := JQ.Unexpired(q.state.jobs, later))), n);
    assert w == v || w == v.(job := None);
  }

  lemma EnqueueKeepsSafe(q: Queue, n: Name, loaded: JQ.Job, now: int, m: Name)
    requires Safe(ViewOf(q, m), now) && (m == n ==> Awaits(ViewOf(q, n), now))
    ensures var r := q.(state := JQ.Enqueued(q.state, n, loaded, false, now));
            Safe(ViewOf(r, m), now) && (m != n ==> ViewOf(r, m) == ViewOf(q, m))
  {
  }

  // ---------------------------------------------------------------------------------------------
  // What every step keeps

  ghost predicate QueuesOk(s: System) {
    forall q | q in s.queues :: AllSafe(s.queues[q], s.now)
  }

  /** No name belongs to two queues. */
  ghost predicate Apart(s: System) {
    forall q, r | q in s.queues && r in s.queues && q != r :: s.queues[q].due.Keys !! s.queues[r].due.Keys
  }

  /** The stored key of a lock that scheduler p has, and has not stopped, is live and its own. */
  predicate Owns(s: System, p: nat, q: string)
    requires p in s.schedulers && q in s.schedulers[p].locks
  {
    && L.Held(s.keys, q, s.now)
    && s.keys[q] == L.Lease(p, s.schedulers[p].locks[q] + s.schedulers[p].interval + L.GRACE)
  }

  /** It has locks of its own queues only, and looks at all whose locks it has, unless it is still asking for locks. */
  predicate Registered(c: Scheduler, now: int) {
    && c.registries <= c.locks.Keys <= c.queues
    && (c.locks.Keys <= c.registries || MayAcquire(c, now))
  }

  ghost predicate LocksOk(s: System) {
    forall p | p in s.schedulers ::
      && Registered(s.schedulers[p], s.now)
      && forall q | q in s.schedulers[p].locks && !s.schedulers[p].stopped :: Owns(s, p, q)
  }

  /** The names of a pass are distinct, were loaded, and await being enqueued. */
  ghost predicate PassOk(q: Queue, pass: Pass, now: int) {
    && (forall i, j | 0 <= i < j < |pass.names| :: pass.names[i] != pass.names[j])
    && (forall n | n in pass.names :: n in pass.loaded && Awaits(ViewOf(q, n), now))
  }

  ghost predicate PassesOk(s: System) {
    forall p | p in s.schedulers && s.schedulers[p].pass.Some? ::
      var pass := s.schedulers[p].pass.value;
      && !s.schedulers[p].stopped && pass.names != []
      && pass.queue in s.schedulers[p].registries && pass.queue in s.queues
      && PassOk(s.queues[pass.queue], pass, s.now)
  }

  ghost predicate Inv(s: System) {
    QueuesOk(s) && Apart(s) && LocksOk(s) && PassesOk(s)
  }

  /** Two schedulers that run cannot both have a queue's lock. */
  lemma Exclusion(s: System, p: nat, r: nat, q: string)
    requires LocksOk(s)
    requires p in s.schedulers && !s.schedulers[p].stopped && q in s.schedulers[p].locks
    requires r in s.schedulers && !s.schedulers[r].stopped && q in s.schedulers[r].locks
    ensures p == r
  {
    assert Owns(s, p, q) && Owns(s, r, q);
  }

  lemma OnlyCreationNames(q: Queue, a: Action, now: int)
    requires Possible(q, a)
    ensures Done(q, a, now).due.Keys <= q.due.Keys + if a.CreateNow? || a.CreateAt? then {a.n} else {}
  {
  }

  lemma StaysApart(s: System, q: string, a: Action)
    requires Apart(s) && Enabled(s, Act(q, a))
    ensures Apart(Apply(s, Act(q, a)))
  {
    var t := Apply(s, Act(q, a));
    OnlyCreationNames(s.queues[q], a, s.now);
    forall k, r | k in s.queues && r in s.queues && k != r ensures t.queues[k].due.Keys !! t.queues[r].due.Keys {
      assert s.queues[k].due.Keys !! s.queues[r].due.Keys;
    }
  }

  lemma ActKeepsInv(s: System, q: string, a: Action)
    requires Inv(s) && Enabled(s, Act(q, a))
    ensures Inv(Apply(s, Act(q, a)))
  {
    var t := Apply(s, Act(q, a));
    forall n ensures Safe(ViewOf(t.queues[q], n), s.now)
        && (Awaits(ViewOf(s.queues[q], n), s.now) ==> Awaits(ViewOf(t.queues[q], n), s.now)) {
      assert Safe(ViewOf(s.queues[q], n), s.now);
      DoneKeepsSafe(s.queues[q], a, s.now, n);
    }
    forall p | p in s.schedulers && s.schedulers[p].pass.Some?
      ensures PassOk(t.queues[s.schedulers[p].pass.value.queue], s.schedulers[p].pass.value, s.now)
    {
      assert PassOk(s.queues[s.schedulers[p].pass.value.queue], s.schedulers[p].pass.value, s.now);
    }
    StaysApart(s, q, a);
    SameLocks(s, t);
  }

  lemma TickKeepsInv(s: System, d: nat)
    requires Inv(s) && Enabled(s, Tick(d))
    ensures Inv(Apply(s, Tick(d)))
  {
    var t := Apply(s, Tick(d));
    forall q, n | q in s.queues ensures Safe(ViewOf(t.queues[q], n), t.now)
        && (Awaits(ViewOf(s.queues[q], n), s.now) ==> Awaits(ViewOf(t.queues[q], n), t.now)) {
      assert Safe(ViewOf(s.queues[q], n), s.now);
      ExpiryKeepsSafe(s.queues[q], s.now, t.now, n);
    }
    forall p | p in s.schedulers && s.schedulers[p].pass.Some?
      ensures PassOk(t.queues[s.schedulers[p].pass.value.queue], s.schedulers[p].pass.value, t.now)
    {
      assert PassOk(s.queues[s.schedulers[p].pass.value.queue], s.schedulers[p].pass.value, s.now);
    }
    LocksKeptIffInTime(s, t);
  }

  /** As time goes on, the running schedulers keep owning their locks exactly if their heartbeats come in time. */
  lemma LocksKeptIffInTime(s: System, t: System)
    requires LocksOk(s) && s.now <= t.now && t.keys == s.keys && t.schedulers == s.schedulers
    ensures LocksOk(t) <==> InTime(s, t.now)
  {
    forall p, q | p in s.schedulers && q in s.schedulers[p].locks && !s.schedulers[p].stopped
      ensures Owns(t, p, q) <==> t.now < s.schedulers[p].locks[q] + s.schedulers[p].interval + L.GRACE
    {
      assert Owns(s, p, q);
    }
  }

  lemma LockStepKeepsRegistered(s: System, step: Step)
    requires Enabled(s, step) && forall p | p in s.schedulers :: Registered(s.schedulers[p], s.now)
    requires step.Acquire? || step.Heartbeat? || step.Stop? || step.Crash? || step.Refresh? || step.StartAgain?
    ensures var t := Apply(s, step); forall p | p in t.schedulers :: Registered(t.schedulers[p], t.now)
  {
    var t := Apply(s, step);
    forall p | p in t.schedulers ensures Registered(t.schedulers[p], t.now) {
      assert Registered(s.schedulers[p], s.now);
    }
  }

  lemma LockStepKeepsLocks(s: System, step: Step)
    requires LocksOk(s) && Enabled(s, step)
    requires step.Acquire? || step.Heartbeat? || step.Stop? || step.Crash? || step.Refresh? || step.StartAgain?
    ensures LocksOk(Apply(s, step))
  {
    var t := Apply(s, step);
    LockStepKeepsRegistered(s, step);
    forall p, q | p in t.schedulers && q in t.schedulers[p].locks && !t.schedulers[p].stopped ensures Owns(t, p, q) {
      if q in s.schedulers[p].locks {
        assert Owns(s, p, q);
      }
    }
  }

  lemma LockStepKeepsInv(s: System, step: Step)
    requires Inv(s) && Enabled(s, step)
    requires step.Acquire? || step.Heartbeat? || step.Stop? || step.Crash? || step.Refresh? || step.StartAgain?
    ensures Inv(Apply(s, step))
  {
    var t := Apply(s, step);
    LockStepKeepsLocks(s, step);
    assert t.queues == s.queues && t.now == s.now;
    forall p | p in t.schedulers && t.schedulers[p].pass.Some? ensures t.schedulers[p].pass == s.schedulers[p].pass
        && !t.schedulers[p].stopped && s.schedulers[p].registries <= s.schedulers[p].locks.Keys {
      assert s.schedulers[p].pass.Some?;
    }
  }

  /** What a pass reads it can enqueue. */
  lemma ReadPassOk(q: Queue, name: string, now: int)
    requires AllSafe(q, now)
    ensures PassOk(q, Pass(name, JQ.DueNames(q.state, now), q.state.jobs), now)
  {
    JQ.DueNamesAreDue(q.state, now);
    forall n | n in JQ.DueNames(q.state, now) ensures n in q.state.jobs && Awaits(ViewOf(q, n), now) {
      assert Safe(ViewOf(q, n), now);
    }
  }

  lemma BeginKeepsInv(s: System, p: nat, q: string)
    requires Inv(s) && Enabled(s, BeginPass(p, q))
    ensures Inv(Apply(s, BeginPass(p, q)))
  {
    var t := Apply(s, BeginPass(p, q));
    ReadPassOk(s.queues[q], q, s.now);
    SameLocks(s, t);
    assert t.queues == s.queues && t.now == s.now;
    forall r | r in t.schedulers && r != p ensures t.schedulers[r] == s.schedulers[r] {}
  }

  lemma EnqueueNextKeepsInv(s: System, p: nat)
    requires Inv(s) && Enabled(s, EnqueueNext(p))
    ensures Inv(Apply(s, EnqueueNext(p)))
  {
    var t := Apply(s, EnqueueNext(p));
    var pass := s.schedulers[p].pass.value;
    var n, k := pass.names[0], pass.queue;
    assert PassOk(s.queues[k], pass, s.now) && n in pass.names;
    forall m ensures Safe(ViewOf(t.queues[k], m), s.now)
        && (m != n ==> ViewOf(t.queues[k], m) == ViewOf(s.queues[k], m)) {
      assert Safe(ViewOf(s.queues[k], m), s.now);
      EnqueueKeepsSafe(s.queues[k], n, pass.loaded[n], s.now, m);
    }
    SameLocks(s, t);
    OtherPassesOk(s, p);
  }

  lemma OtherPassesOk(s: System, p: nat)
    requires Inv(s) && Enabled(s, EnqueueNext(p))
    requires var pass := s.schedulers[p].pass.value;
             forall m | m != pass.names[0] ::
               ViewOf(Apply(s, EnqueueNext(p)).queues[pass.queue], m) == ViewOf(s.queues[pass.queue], m)
    ensures PassesOk(Apply(s, EnqueueNext(p)))
  {
    var t := Apply(s, EnqueueNext(p));
    forall r | r in t.schedulers && t.schedulers[r].pass.Some?
      ensures PassOk(t.queues[t.schedulers[r].pass.value.queue], t.schedulers[r].pass.value, t.now)
    {
      if r == p {
        OwnPassOk(s, p);
      } else {
        assert t.schedulers[r] == s.schedulers[r];
        assert PassOk(s.queues[s.schedulers[r].pass.value.queue], s.schedulers[r].pass.value, s.now);
        if t.schedulers[r].pass.value.queue == s.schedulers[p].pass.value.queue {
          Exclusion(s, p, r, t.schedulers[r].pass.value.queue);
        }
      }
    }
  }

  lemma OwnPassOk(s: System, p: nat)
    requires Inv(s) && Enabled(s, EnqueueNext(p))
    requires var pass := s.schedulers[p].pass.value;
             forall m | m != pass.names[0] ::
               ViewOf(Apply(s, EnqueueNext(p)).queues[pass.queue], m) == ViewOf(s.queues[pass.queue], m)
    ensures var t := Apply(s, EnqueueNext(p));
            && p in t.schedulers
            && (t.schedulers[p].pass.Some? ==>
                  var rest := t.schedulers[p].pass.value;
                  rest.queue in t.queues && PassOk(t.queues[rest.queue], rest, t.now))
  {
    var pass := s.schedulers[p].pass.value;
    assert PassOk(s.queues[pass.queue], pass, s.now);
    RestOk(s.queues[pass.queue], pass, s.now);
  }

  lemma RestOk(q: Queue, pass: Pass, now: int)
    requires PassOk(q, pass, now) && pass.names != []
    ensures PassOk(q, pass.(names := pass.names[1..]), now) && pass.names[0] !in pass.names[1..]
  {
    var rest := pass.names[1..];
    forall m | m in rest ensures m in pass.names && m != pass.names[0] {
      var i :| 0 <= i < |rest| && rest[i] == m;
      assert pass.names[i + 1] == m;
    }
  }

  /** Owning a lock depends on the clock, the keys, and what each scheduler took. */
  lemma SameLocks(s: System, t: System)
    requires LocksOk(s) && t.now == s.now && t.keys == s.keys && t.schedulers.Keys == s.schedulers.Keys
    requires forall p | p in s.schedulers :: t.schedulers[p] == s.schedulers[p].(pass := t.schedulers[p].pass)
    ensures LocksOk(t)
  {
    forall p, q | p in t.schedulers && q in t.schedulers[p].locks && !t.schedulers[p].stopped ensures Owns(t, p, q) {
      assert Owns(s, p, q);
    }
  }

  /** Every step keeps the invariant, cancellations and deletions at any time included. */
  lemma StepKeepsInv(s: System, step: Step)
    requires Inv(s) && Enabled(s, step)
    ensures Inv(Apply(s, step))
  {
    match step
    case Tick(d) => TickKeepsInv(s, d);
    case BeginPass(p, q) => BeginKeepsInv(s, p, q);
    case EnqueueNext(p) => EnqueueNextKeepsInv(s, p);
    case Act(q, a) => ActKeepsInv(s, q, a);
    case _ => LockStepKeepsInv(s, step);
  }

  lemma {:induction false} RunKeepsInv(s: System, steps: seq<Step>)
    requires Inv(s) && Runs(s, steps)
    ensures Inv(After(s, steps))
    decreases |steps|
  {
    if steps != [] {
      StepKeepsInv(s, steps[0]);
      RunKeepsInv(Apply(s, steps[0]), steps[1..]);
    }
  }

  lemma InitialInv(s: System)
    requires Initial(s)
    ensures Inv(s)
  {
    forall q, n | q in s.queues ensures Safe(ViewOf(s.queues[q], n), s.now) {
      assert ViewOf(s.queues[q], n) == NOTHING;
    }
  }
}
