/** What a scheduler that dies leaves behind: its locks until they expire, and its pass for another scheduler. */
module Recovery {
  import opened Wrappers
  import opened SortedSet
  import opened Protocol
  import opened Lifecycle
  import opened Safety
  import opened Withdrawals
  import JQ = JobQueue
  import L = Leases

  predicate Running(s: System, p: nat) {
    p in s.schedulers && !s.schedulers[p].stopped
  }

  /** A scheduler that runs for the queue. */
  predicate Serves(s: System, p: nat, q: string) {
    Running(s, p) && q in s.schedulers[p].queues
  }

  ghost predicate NobodyHas(s: System, q: string) {
    forall p | Running(s, p) :: q !in s.schedulers[p].locks
  }

  // ---------------------------------------------------------------------------------------------
  // The locks of a dead scheduler

  /** The key is still the one that its dead owner left, and no scheduler that runs has the lock. */
  ghost predicate Orphaned(s: System, q: string, lease: L.Lease) {
    q in s.keys && s.keys[q] == lease && NobodyHas(s, q)
  }

  lemma CrashOrphans(s: System, p: nat, q: string)
    requires Inv(s) && Running(s, p) && q in s.schedulers[p].locks
    ensures q in s.keys && s.keys[q].owner == p && Orphaned(Apply(s, Crash(p)), q, s.keys[q])
  {
    assert Owns(s, p, q);
    forall r | Running(s, r) && q in s.schedulers[r].locks ensures r == p {
      Exclusion(s, p, r, q);
    }
  }

  lemma OrphanStays(s: System, step: Step, q: string, lease: L.Lease)
    requires Orphaned(s, q, lease) && s.now < lease.expiresAt && Enabled(s, step)
    ensures Orphaned(Apply(s, step), q, lease) && s.now <= Apply(s, step).now
  {
    match step
    case Act(_, _) => assert Apply(s, step).keys == s.keys && Apply(s, step).schedulers == s.schedulers;
    case EnqueueNext(_) => assert Apply(s, step).keys == s.keys;
    case Acquire(_, _) =>
    case Heartbeat(_, _) =>
    case _ =>
  }

  lemma {:induction false} OrphanLasts(s: System, steps: seq<Step>, q: string, lease: L.Lease)
    requires Orphaned(s, q, lease) && Runs(s, steps) && After(s, steps).now < lease.expiresAt
    ensures Orphaned(After(s, steps), q, lease)
    decreases |steps|
  {
    if steps != [] {
      ClockGoesOn(s, steps);
      ClockGoesOn(Apply(s, steps[0]), steps[1..]);
      OrphanStays(s, steps[0], q, lease);
      OrphanLasts(Apply(s, steps[0]), steps[1..], q, lease);
    }
  }

  lemma {:induction false} ClockGoesOn(s: System, steps: seq<Step>)
    ensures s.now <= After(s, steps).now
    decreases |steps|
  {
    if steps != [] {
      ClockGoesOn(Apply(s, steps[0]), steps[1..]);
    }
  }

  /**
   * In every run, the key of a lock whose scheduler died stays as it was until it expires, and no running scheduler has
   * the lock before; as long as the key is that one, an attempt to acquire the lock succeeds exactly if it has expired.
   */
  lemma TakenOverOnlyAfterExpiry(s0: System, before: seq<Step>, p: nat, q: string, after: seq<Step>)
    requires Initial(s0) && Runs(s0, before + [Crash(p)] + after)
    requires p in After(s0, before).schedulers && q in After(s0, before).schedulers[p].locks
    ensures var s, t := After(s0, before), After(s0, before + [Crash(p)] + after);
            && q in s.keys && s.keys[q].owner == p
            && (t.now < s.keys[q].expiresAt ==> Orphaned(t, q, s.keys[q]))
            && (q in t.keys && t.keys[q] == s.keys[q] ==>
                  forall r | Running(t, r) ::
                    q in Apply(t, Acquire(r, q)).schedulers[r].locks <==> s.keys[q].expiresAt <= t.now)
  {
    var s := Cut(s0, before, Crash(p), after);
    var u := Apply(s, Crash(p));
    var t := After(u, after);
    CrashOrphans(s, p, q);
    var lease := s.keys[q];
    RunKeepsInv(u, after);
    if t.now < lease.expiresAt {
      OrphanLasts(u, after, q, lease);
    } else if q in t.keys && t.keys[q] == lease {
      forall r | Running(t, r) ensures q in Apply(t, Acquire(r, q)).schedulers[r].locks {
        assert !L.Held(t.keys, q, t.now);
      }
    }
  }

  /**
   * Why a running scheduler must not be late: once time has gone on, another one gets its lock too exactly if no
   * heartbeat came before the key expired.
   */
  lemma LateHeartbeatIff(s: System, p: nat, r: nat, q: string, d: nat)
    requires Inv(s) && Running(s, p) && Running(s, r) && p != r && q in s.schedulers[p].locks
    ensures var t := Apply(Apply(s, Tick(d)), Acquire(r, q));
            Running(t, p) && Running(t, r) && q in t.schedulers[p].locks
            && (q in t.schedulers[r].locks <==>
                s.schedulers[p].locks[q] + s.schedulers[p].interval + L.GRACE <= s.now + d)
  {
    assert Owns(s, p, q);
    if q in s.schedulers[r].locks {
      Exclusion(s, p, r, q);
    }
  }

  // ---------------------------------------------------------------------------------------------
  // The pass of a dead scheduler

  /**
   * A job that a scheduler had in hand when it died is taken once at most, whatever follows; and unless it is
   * withdrawn, it is still scheduled for its time, queued, or taken.
   */
  lemma InterruptedPass(s: System, p: nat, n: Name, after: seq<Step>)
    requires Inv(s) && Running(s, p) && s.schedulers[p].pass.Some? && n in s.schedulers[p].pass.value.names
    requires Clean(s, s.schedulers[p].pass.value.queue, n) && Runs(Apply(s, Crash(p)), after)
    ensures var q := s.schedulers[p].pass.value.queue;
            var t := After(Apply(s, Crash(p)), after);
            q in t.queues && var v := ViewOf(t.queues[q], n);
            && |v.takes| <= 1
            && (NeverWithdrawn(after, q, n) ==>
                  v.scheduled == ViewOf(s.queues[q], n).due || v.queued.Some? || |v.takes| == 1)
  {
    var q := s.schedulers[p].pass.value.queue;
    var u := Apply(s, Crash(p));
    StepKeepsInv(s, Crash(p));
    LocksStayGood(s, Crash(p), q, n);
    DueStays(u, after, q, n);
    RunKeepsInv(u, after);
    assert AllSafe(After(u, after).queues[q], After(u, after).now);
    assert Safe(ViewOf(After(u, after).queues[q], n), After(u, after).now);
    assert InFlight(s, q, n);
    if NeverWithdrawn(after, q, n) {
      NeverTorn(u, after, q, n);
      RunEvolves(u, after, q, n);
    }
  }

  // ---------------------------------------------------------------------------------------------
  // Waiting

  /** Time may have passed, with heartbeats in time and nothing else. */
  ghost predicate Waited(s: System, t: System) {
    && s.now <= t.now && t.queues.Keys == s.queues.Keys && t.schedulers.Keys == s.schedulers.Keys
    && (forall q | q in s.queues :: t.queues[q].state.scheduled == s.queues[q].state.scheduled)
    && (forall p | p in s.schedulers :: SameBut(s.schedulers[p], t.schedulers[p]))
    && (forall q | NobodyHas(s, q) :: (q in t.keys <==> q in s.keys) && (q in s.keys ==> t.keys[q] == s.keys[q]))
  }

  predicate SameBut(a: Scheduler, b: Scheduler) {
    b == a.(locks := b.locks) && b.locks.Keys == a.locks.Keys
  }

  lemma WaitedOn(s: System, t: System, u: System)
    requires Waited(s, t) && Waited(t, u)
    ensures Waited(s, u)
  {
    forall p | p in s.schedulers ensures SameBut(s.schedulers[p], u.schedulers[p]) {
      assert SameBut(s.schedulers[p], t.schedulers[p]) && SameBut(t.schedulers[p], u.schedulers[p]);
    }
    forall q | NobodyHas(s, q)
      ensures (q in u.keys <==> q in s.keys) && (q in s.keys ==> u.keys[q] == s.keys[q])
    {
      StillNobody(s, t, q);
    }
  }

  lemma StillNobody(s: System, t: System, q: string)
    requires t.schedulers.Keys == s.schedulers.Keys && NobodyHas(s, q)
    requires forall p | p in s.schedulers :: SameBut(s.schedulers[p], t.schedulers[p])
    ensures NobodyHas(t, q)
  {
    forall p | Running(t, p) ensures q !in t.schedulers[p].locks {
      assert SameBut(s.schedulers[p], t.schedulers[p]);
      assert Running(s, p);
    }
  }

  /** The locks that were not extended at this moment. */
  function Stale(s: System): set<(nat, string)> {
    set p, q | p in s.schedulers && q in s.schedulers[p].locks && !s.schedulers[p].stopped
               && s.schedulers[p].locks[q] != s.now :: (p, q)
  }

  lemma HeartbeatIsWaiting(s: System, p: nat, q: string)
    requires Running(s, p) && q in s.schedulers[p].locks
    ensures var t := Apply(s, Heartbeat(p, q));
            Waited(s, t) && t.now == s.now && Stale(t) == Stale(s) - {(p, q)}
  {
    var t := Apply(s, Heartbeat(p, q));
    forall r | r in s.schedulers ensures SameBut(s.schedulers[r], t.schedulers[r]) {}
  }

  lemma TickIsWaiting(s: System, d: nat)
    ensures Waited(s, Apply(s, Tick(d)))
  {
    forall r | r in s.schedulers ensures SameBut(s.schedulers[r], Apply(s, Tick(d)).schedulers[r]) {}
  }

  lemma StayedPut(s: System)
    ensures Waited(s, s)
  {
    forall r | r in s.schedulers ensures SameBut(s.schedulers[r], s.schedulers[r]) {}
  }

  /** Every scheduler that runs can extend all its locks. */
  lemma {:induction false} AllHeartbeats(s: System) returns (steps: seq<Step>)
    requires Inv(s)
    ensures Runs(s, steps) && Waited(s, After(s, steps)) && After(s, steps).now == s.now
    ensures Inv(After(s, steps)) && InTime(After(s, steps), s.now + 1)
    decreases |Stale(s)|
  {
    if Stale(s) == {} {
      steps := [];
      StayedPut(s);
      forall p, q | p in s.schedulers && !s.schedulers[p].stopped && q in s.schedulers[p].locks
        ensures s.schedulers[p].locks[q] == s.now
      {
        assert (p, q) !in Stale(s);
      }
    } else {
      var held :| held in Stale(s);
      var (p, q) := held;
      var t := Apply(s, Heartbeat(p, q));
      HeartbeatIsWaiting(s, p, q);
      StepKeepsInv(s, Heartbeat(p, q));
      var rest := AllHeartbeats(t);
      OneStep(s, Heartbeat(p, q), rest);
      WaitedOn(s, t, After(t, rest));
      steps := [Heartbeat(p, q)] + rest;
    }
  }

  /** The clock can go on to any time, with every scheduler alive. */
  lemma {:induction false} Wait(s: System, until: int) returns (steps: seq<Step>)
    requires Inv(s)
    ensures Runs(s, steps) && Waited(s, After(s, steps)) && Inv(After(s, steps)) && until <= After(s, steps).now
    decreases until - s.now
  {
    if until <= s.now {
      steps := [];
      StayedPut(s);
    } else {
      var beats := AllHeartbeats(s);
      var t := After(s, beats);
      var u := Apply(t, Tick(1));
      TickIsWaiting(t, 1);
      StepKeepsInv(t, Tick(1));
      var rest := Wait(u, until);
      OneStep(t, Tick(1), rest);
      Concatenated(s, beats, [Tick(1)] + rest);
      WaitedOn(s, t, u);
      WaitedOn(s, u, After(u, rest));
      steps := beats + ([Tick(1)] + rest);
    }
  }

  // ---------------------------------------------------------------------------------------------
  // Every scheduled job can still be taken

  lemma Onward(s: System, steps: seq<Step>, q: string, n: Name)
    requires Runs(s, steps) && CanBeTaken(After(s, steps), q, n)
    ensures CanBeTaken(s, q, n)
  {
    var rest :| Runs(After(s, steps), rest) && WasTaken(After(After(s, steps), rest), q, n);
    Concatenated(s, steps, rest);
    assert Runs(s, steps + rest) && WasTaken(After(s, steps + rest), q, n);
  }

  lemma OnwardOne(s: System, step: Step, q: string, n: Name)
    requires Enabled(s, step) && CanBeTaken(Apply(s, step), q, n)
    ensures CanBeTaken(s, q, n)
  {
    OneStep(s, step, []);
    assert [step] + [] == [step];
    Onward(s, [step], q, n);
  }

  ghost predicate Ready(s: System, r: nat, q: string, n: Name) {
    Inv(s) && Serves(s, r, q) && q in s.queues && n in s.queues[q].state.scheduled
  }

  lemma InHand(s: System, r: nat, q: string, n: Name)
    requires Ready(s, r, q, n) && s.schedulers[r].pass.Some?
    requires s.schedulers[r].pass.value.queue == q && n in s.schedulers[r].pass.value.names
    ensures CanBeTaken(s, q, n)
  {
    var pass := s.schedulers[r].pass.value;
    assert PassOk(s.queues[q], pass, s.now);
    ScheduledCanBeLoaded(s, q, n);
    var k :| 0 <= k < |pass.names| && pass.names[k] == n;
    var steps := PassReaches(s, r, k);
    assert Runs(s, steps) && WasTaken(After(s, steps), q, n);
  }

  /** A pass goes on without the job. */
  lemma PassMovesOn(s: System, r: nat, q: string, n: Name)
    requires Ready(s, r, q, n) && s.schedulers[r].pass.Some?
    requires !(s.schedulers[r].pass.value.queue == q && n in s.schedulers[r].pass.value.names)
    ensures var t := Apply(s, EnqueueNext(r));
            && Enabled(s, EnqueueNext(r)) && Ready(t, r, q, n) && t.now == s.now && t.keys == s.keys
            && t.queues[q].state.scheduled[n] == s.queues[q].state.scheduled[n]
            && t.schedulers[r] == s.schedulers[r].(pass := t.schedulers[r].pass)
            && (t.schedulers[r].pass.Some? ==>
                  var was := s.schedulers[r].pass.value;
                  t.schedulers[r].pass.value == was.(names := was.names[1..]) && |was.names| > 1)
            && t.queues[q].state.scheduled.Keys ==
               s.queues[q].state.scheduled.Keys
               - (if s.schedulers[r].pass.value.queue == q then {s.schedulers[r].pass.value.names[0]} else {})
  {
    var pass := s.schedulers[r].pass.value;
    assert PassOk(s.queues[pass.queue], pass, s.now) && pass.names[0] in pass.names;
    StepKeepsInv(s, EnqueueNext(r));
  }

  /** The next pass over a queue starts with what is due on it. */
  lemma PassCanBegin(s: System, r: nat, q: string, n: Name)
    requires Ready(s, r, q, n) && s.schedulers[r].pass.None? && q in s.schedulers[r].registries
    requires 0 <= s.queues[q].state.scheduled[n] <= s.now
    ensures var t := Apply(s, BeginPass(r, q));
            && Enabled(s, BeginPass(r, q)) && Ready(t, r, q, n) && t.queues == s.queues && t.now == s.now
            && t.schedulers[r].pass.Some? && t.schedulers[r].pass.value.queue == q
            && t.schedulers[r] == s.schedulers[r].(pass := t.schedulers[r].pass)
            && t.schedulers[r].pass.value.names != []
            && t.schedulers[r].pass.value.names[0] in s.queues[q].state.scheduled
  {
    var state := s.queues[q].state;
    var names := JQ.DueNames(state, s.now);
    JQ.DueNamesAreDue(state, s.now);
    assert n in Between(state.scheduled, 0, s.now);
    forall m | m in names && m in state.jobs ensures state.jobs[m].whole {
      ScheduledCanBeLoaded(s, q, m);
    }
    assert names != [];
    assert names[0] in names;
    StepKeepsInv(s, BeginPass(r, q));
  }

  /** Pass after pass, a scheduler that has a queue comes to every job that is due on it. */
  lemma {:induction false} PassesComeToIt(s: System, r: nat, q: string, n: Name)
    requires Ready(s, r, q, n) && q in s.schedulers[r].registries && 0 <= s.queues[q].state.scheduled[n] <= s.now
    ensures CanBeTaken(s, q, n)
    decreases |s.queues[q].state.scheduled.Keys|,
              if s.schedulers[r].pass.Some? then |s.schedulers[r].pass.value.names| else 0
  {
    if s.schedulers[r].pass.Some? {
      if s.schedulers[r].pass.value.queue == q && n in s.schedulers[r].pass.value.names {
        InHand(s, r, q, n);
      } else {
        PassMovesOn(s, r, q, n);
        Shrinks(s, r, q);
        PassesComeToIt(Apply(s, EnqueueNext(r)), r, q, n);
        OnwardOne(s, EnqueueNext(r), q, n);
      }
    } else {
      PassCanBegin(s, r, q, n);
      var t := Apply(s, BeginPass(r, q));
      if n in t.schedulers[r].pass.value.names {
        InHand(t, r, q, n);
      } else {
        PassMovesOn(t, r, q, n);
        Shrinks(t, r, q);
        PassesComeToIt(Apply(t, EnqueueNext(r)), r, q, n);
        OnwardOne(t, EnqueueNext(r), q, n);
      }
      OnwardOne(s, BeginPass(r, q), q, n);
    }
  }

  lemma Shrinks(s: System, r: nat, q: string)
    requires r in s.schedulers && s.schedulers[r].pass.Some? && s.schedulers[r].pass.value.names != [] && q in s.queues
    ensures var keys, n := s.queues[q].state.scheduled.Keys, s.schedulers[r].pass.value.names[0];
            |keys - {n}| <= |keys| && (n in keys ==> |keys - {n}| < |keys|)
  {
    var keys, n := s.queues[q].state.scheduled.Keys, s.schedulers[r].pass.value.names[0];
    if n !in keys {
      assert keys - {n} == keys;
    }
  }

  /** A scheduler can end the pass it is in, and come to the job on the way or not. */
  lemma {:induction false} PassEnds(s: System, r: nat, q: string, n: Name) returns (steps: seq<Step>)
    requires Ready(s, r, q, n)
    ensures CanBeTaken(s, q, n) ||
            var t := After(s, steps);
            && Runs(s, steps) && Ready(t, r, q, n) && t.now == s.now && t.keys == s.keys
            && t.queues[q].state.scheduled[n] == s.queues[q].state.scheduled[n]
            && t.schedulers[r] == s.schedulers[r].(pass := None)
    decreases if s.schedulers[r].pass.Some? then |s.schedulers[r].pass.value.names| else 0
  {
    if s.schedulers[r].pass.None? {
      steps := [];
    } else if s.schedulers[r].pass.value.queue == q && n in s.schedulers[r].pass.value.names {
      InHand(s, r, q, n);
      steps := [];
    } else {
      PassMovesOn(s, r, q, n);
      var t := Apply(s, EnqueueNext(r));
      var rest := PassEnds(t, r, q, n);
      if CanBeTaken(t, q, n) {
        OnwardOne(s, EnqueueNext(r), q, n);
      } else {
        OneStep(s, EnqueueNext(r), rest);
      }
      steps := [EnqueueNext(r)] + rest;
    }
  }

  /** With the lock in its hands, or nobody's, and time to ask for it, a scheduler takes the queue over. */
  lemma TakesOver(s: System, r: nat, q: string, n: Name)
    requires Ready(s, r, q, n) && 0 <= s.queues[q].state.scheduled[n] <= s.now
    requires q in s.schedulers[r].locks || (!L.Held(s.keys, q, s.now) && MayAcquire(s.schedulers[r], s.now))
    ensures CanBeTaken(s, q, n)
  {
    var steps := PassEnds(s, r, q, n);
    if !CanBeTaken(s, q, n) {
      var t := After(s, steps);
      assert Registered(t.schedulers[r], t.now);
      if q in t.schedulers[r].registries {
        PassesComeToIt(t, r, q, n);
      } else if q in t.schedulers[r].locks {
        LooksAtIt(t, r, q, n);
      } else {
        var u := Apply(t, Acquire(r, q));
        StepKeepsInv(t, Acquire(r, q));
        LooksAtIt(u, r, q, n);
        OnwardOne(t, Acquire(r, q), q, n);
      }
      Onward(s, steps, q, n);
    }
  }

  lemma LooksAtIt(s: System, r: nat, q: string, n: Name)
    requires Ready(s, r, q, n) && 0 <= s.queues[q].state.scheduled[n] <= s.now
    requires s.schedulers[r].pass.None? && MayAcquire(s.schedulers[r], s.now) && q in s.schedulers[r].locks
    ensures CanBeTaken(s, q, n)
  {
    StepKeepsInv(s, Refresh(r));
    PassesComeToIt(Apply(s, Refresh(r)), r, q, n);
    OnwardOne(s, Refresh(r), q, n);
  }

  function Later(a: int, b: int): int {
    if a < b then b else a
  }

  lemma SomeoneComesToIt(s: System, p: nat, q: string, n: Name)
    requires Ready(s, p, q, n) && 0 <= s.queues[q].state.scheduled[n]
    ensures CanBeTaken(s, q, n)
  {
    var due := s.queues[q].state.scheduled[n];
    var free := if q in s.keys then s.keys[q].expiresAt else due;
    var asks := if s.schedulers[p].acquiredAt.Some? then s.schedulers[p].acquiredAt.value + s.schedulers[p].fallback + 1
                else due;
    var steps := Wait(s, Later(due, Later(free, asks)));
    var t := After(s, steps);
    var r := if NobodyHas(s, q) then p else var r :| Running(s, r) && q in s.schedulers[r].locks; r;
    assert Registered(s.schedulers[r], s.now);
    assert SameBut(s.schedulers[r], t.schedulers[r]);
    assert q in t.schedulers[r].locks || (!L.Held(t.keys, q, t.now) && MayAcquire(t.schedulers[r], t.now));
    TakesOver(t, r, q, n);
    Onward(s, steps, q, n);
  }

  // ---------------------------------------------------------------------------------------------
  // And when it cannot

  /** Not queued and in no pass, and never to be read by one. */
  ghost predicate Stuck(s: System, q: string, n: Name) {
    && q in s.queues && n in s.queues[q].due && Times(s.queues[q], n) == [] && n !in s.queues[q].state.queued
    && !InFlight(s, q, n)
    && (n in s.queues[q].state.scheduled ==>
          s.queues[q].state.scheduled[n] < 0 || forall r | r in s.schedulers :: !Serves(s, r, q))
  }

  lemma ActLeavesStuck(q: Queue, a: Action, now: int, n: Name)
    requires n in q.due && Times(q, n) == [] && n !in q.state.queued
    requires Possible(q, a) && (a.CreateNow? || a.CreateAt? ==> a.n !in q.due)
    ensures var r := Done(q, a, now);
            && n in r.due && Times(r, n) == [] && n !in r.state.queued
            && (n in r.state.scheduled ==>
                  n in q.state.scheduled && r.state.scheduled[n] == q.state.scheduled[n])
  {
    if a.CreateNow? || a.CreateAt? {
      CreationLeavesOthers(q, a, now, n);
    } else {
      OnlyCreationAdds(q, a, now, n);
      DoneKeepsDue(q, a, now, n);
    }
  }

  lemma PassLeavesStuck(s: System, p: nat, q: string, n: Name)
    requires Inv(s) && Stuck(s, q, n) && Enabled(s, EnqueueNext(p))
    ensures Stuck(Apply(s, EnqueueNext(p)), q, n)
  {
    NewlyInFlight(s, EnqueueNext(p), q, n);
    NobodyNewServes(s, EnqueueNext(p), q);
    assert s.schedulers[p].pass.value.names[0] in s.schedulers[p].pass.value.names;
  }

  lemma NobodyNewServes(s: System, step: Step, q: string)
    ensures forall r | Serves(Apply(s, step), r, q) :: Serves(s, r, q)
  {
  }

  /** Only a scheduler for the queue begins a pass over it. */
  lemma BeginsForItsQueue(s: System, p: nat, q: string)
    requires Inv(s) && Enabled(s, BeginPass(p, q))
    ensures Serves(s, p, q)
  {
    assert Registered(s.schedulers[p], s.now);
  }

  lemma BeginLeavesStuck(s: System, p: nat, r: string, q: string, n: Name)
    requires Inv(s) && Stuck(s, q, n) && Enabled(s, BeginPass(p, r))
    ensures Stuck(Apply(s, BeginPass(p, r)), q, n)
  {
    NewlyInFlight(s, BeginPass(p, r), q, n);
    NobodyNewServes(s, BeginPass(p, r), q);
    BeginsForItsQueue(s, p, r);
  }

  lemma ActionLeavesStuck(s: System, r: string, a: Action, q: string, n: Name)
    requires Stuck(s, q, n) && Enabled(s, Act(r, a))
    ensures Stuck(Apply(s, Act(r, a)), q, n)
  {
    SameInFlight(s, Apply(s, Act(r, a)), q, n);
    NobodyNewServes(s, Act(r, a), q);
    if r == q {
      ActLeavesStuck(s.queues[q], a, s.now, n);
    }
  }

  lemma StuckStays(s: System, step: Step, q: string, n: Name)
    requires Inv(s) && Stuck(s, q, n) && Enabled(s, step)
    ensures Stuck(Apply(s, step), q, n)
  {
    match step
    case Act(r, a) => ActionLeavesStuck(s, r, a, q, n);
    case EnqueueNext(p) => PassLeavesStuck(s, p, q, n);
    case BeginPass(p, r) => BeginLeavesStuck(s, p, r, q, n);
    case _ =>
      NewlyInFlight(s, step, q, n);
      NobodyNewServes(s, step, q);
  }

  lemma {:induction false} NeverTakenStuck(s: System, steps: seq<Step>, q: string, n: Name)
    requires Inv(s) && Stuck(s, q, n) && Runs(s, steps)
    ensures !WasTaken(After(s, steps), q, n)
    decreases |steps|
  {
    if steps != [] {
      StuckStays(s, steps[0], q, n);
      StepKeepsInv(s, steps[0]);
      NeverTakenStuck(Apply(s, steps[0]), steps[1..], q, n);
    }
  }

  /**
   * In every reachable state, however many schedulers died and whoever has the locks, a scheduled job can still be
   * taken exactly if some scheduler runs for its queue, and the job was not created for a time before the epoch, which
   * no pass reads.
   */
  lemma NoJobIsStranded(s: System, q: string, n: Name)
    requires Inv(s) && q in s.queues && n in s.queues[q].state.scheduled
    ensures CanBeTaken(s, q, n) <==> 0 <= s.queues[q].state.scheduled[n] && exists r :: Serves(s, r, q)
  {
    if 0 <= s.queues[q].state.scheduled[n] && exists r :: Serves(s, r, q) {
      var r :| Serves(s, r, q);
      SomeoneComesToIt(s, r, q, n);
    } else {
      ScheduledCanBeLoaded(s, q, n);
      assert Safe(ViewOf(s.queues[q], n), s.now);
      forall p | p in s.schedulers && s.schedulers[p].pass.Some? && s.schedulers[p].pass.value.queue == q
        ensures n !in s.schedulers[p].pass.value.names
      {
        PassIsOfItsQueue(s, p);
        assert PassOk(s.queues[q], s.schedulers[p].pass.value, s.now);
      }
      forall steps | Runs(s, steps) ensures !WasTaken(After(s, steps), q, n) {
        NeverTakenStuck(s, steps, q, n);
      }
    }
  }

  lemma PassIsOfItsQueue(s: System, p: nat)
    requires Inv(s) && p in s.schedulers && s.schedulers[p].pass.Some?
    ensures Serves(s, p, s.schedulers[p].pass.value.queue)
  {
    assert Registered(s.schedulers[p], s.now);
  }

  /** So what a dead scheduler had in hand is not lost exactly if another scheduler runs for the queue. */
  lemma InterruptedPassIsResumedIff(s: System, p: nat, n: Name)
    requires Inv(s) && Running(s, p) && s.schedulers[p].pass.Some? && n in s.schedulers[p].pass.value.names
    requires Clean(s, s.schedulers[p].pass.value.queue, n)
    ensures var q := s.schedulers[p].pass.value.queue;
            CanBeTaken(Apply(s, Crash(p)), q, n) <==> exists r :: r != p && Serves(s, r, q)
  {
    var q := s.schedulers[p].pass.value.queue;
    var t := Apply(s, Crash(p));
    assert InFlight(s, q, n);
    assert PassOk(s.queues[q], s.schedulers[p].pass.value, s.now);
    assert Safe(ViewOf(s.queues[q], n), s.now);
    StepKeepsInv(s, Crash(p));
    assert forall r :: Serves(t, r, q) <==> r != p && Serves(s, r, q);
    NoJobIsStranded(t, q, n);
  }
}
