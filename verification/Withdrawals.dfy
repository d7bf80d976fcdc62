/** When a job that was cancelled or deleted can still be taken. */
module Withdrawals {
  import opened Wrappers
  import opened SortedSet
  import opened Protocol
  import opened Lifecycle
  import opened Safety
  import JQ = JobQueue
  import L = Leases

  predicate WasTaken(s: System, q: string, n: Name) {
    q in s.queues && Times(s.queues[q], n) != []
  }

  /** Some run from here takes n. */
  ghost predicate CanBeTaken(s: System, q: string, n: Name) {
    exists steps :: Runs(s, steps) && WasTaken(After(s, steps), q, n)
  }

  // ---------------------------------------------------------------------------------------------
  // Two ways in which a job can be out of reach for good

  /** Created and never taken, in neither registry that leads to a take, and in no pass. */
  ghost predicate Gone(s: System, q: string, n: Name) {
    && q in s.queues && n in s.queues[q].due && Times(s.queues[q], n) == []
    && n !in s.queues[q].state.scheduled && n !in s.queues[q].state.queued && !InFlight(s, q, n)
  }

  /** Created and never taken, and without a hash that can be loaded. */
  predicate Unloadable(q: Queue, n: Name) {
    n in q.due && Times(q, n) == [] && n !in q.running && JQ.Get(q.state, n).None?
  }

  lemma GoneStays(s: System, step: Step, q: string, n: Name)
    requires Gone(s, q, n) && Enabled(s, step)
    ensures Gone(Apply(s, step), q, n)
  {
    StepKeepsQueues(s, step);
    NewlyInFlight(s, step, q, n);
    match step
    case Act(r, a) => if r == q { ActLeavesGone(s.queues[q], a, s.now, n); }
    case EnqueueNext(p) =>
      assert s.schedulers[p].pass.value.names[0] in s.schedulers[p].pass.value.names;
    case _ =>
  }

  /** A pass gets a name in hand only by reading it in the scheduled registry. */
  lemma NewlyInFlight(s: System, step: Step, q: string, n: Name)
    requires Enabled(s, step)
    ensures InFlight(Apply(s, step), q, n) && !InFlight(s, q, n) ==>
              step.BeginPass? && step.q == q && n in s.queues[q].state.scheduled && 0 <= s.queues[q].state.scheduled[n]
  {
    if step.BeginPass? {
      JQ.DueNamesAreDue(s.queues[step.q].state, s.now);
    } else {
      assert InFlight(Apply(s, step), q, n) ==> InFlight(s, q, n);
    }
  }

  lemma ActLeavesGone(q: Queue, a: Action, now: int, n: Name)
    requires n in q.due && Times(q, n) == [] && n !in q.state.scheduled && n !in q.state.queued
    requires Possible(q, a) && (a.CreateNow? || a.CreateAt? ==> a.n !in q.due)
    ensures var r := Done(q, a, now);
            n in r.due && Times(r, n) == [] && n !in r.state.scheduled && n !in r.state.queued
  {
    if a.CreateNow? || a.CreateAt? {
      CreationLeavesOthers(q, a, now, n);
    } else {
      OnlyCreationAdds(q, a, now, n);
      DoneKeepsDue(q, a, now, n);
    }
  }

  lemma CreationLeavesOthers(q: Queue, a: Action, now: int, n: Name)
    requires (a.CreateNow? || a.CreateAt?) && a.n != n
    ensures var r := Done(q, a, now);
            && (n in r.due <==> n in q.due) && Times(r, n) == Times(q, n)
            && (n in r.state.scheduled <==> n in q.state.scheduled)
            && (n in r.state.queued <==> n in q.state.queued)
  {
  }

  lemma OnlyCreationAdds(q: Queue, a: Action, now: int, n: Name)
    requires Possible(q, a) && !a.CreateNow? && !a.CreateAt? && n !in q.state.queued
    ensures var r := Done(q, a, now);
            && (n in r.state.scheduled ==> n in q.state.scheduled) && n !in r.state.queued
            && Times(r, n) == Times(q, n)
  {
    if a.Cancel? || a.Delete? {
      WithdrawalAddsNothing(q, a, now, n);
    }
  }

  lemma WithdrawalAddsNothing(q: Queue, a: Action, now: int, n: Name)
    requires (a.Cancel? || a.Delete?) && n !in q.state.queued
    ensures var r := Done(q, a, now);
            && (n in r.state.scheduled ==> n in q.state.scheduled) && n !in r.state.queued
            && Times(r, n) == Times(q, n)
  {
  }

  lemma ActLeavesUnloadable(q: Queue, a: Action, now: int, n: Name)
    requires Unloadable(q, n) && Possible(q, a) && (a.CreateNow? || a.CreateAt? ==> a.n !in q.due)
    ensures Unloadable(Done(q, a, now), n)
  {
  }

  lemma UnloadableStays(s: System, step: Step, q: string, n: Name)
    requires q in s.queues && Unloadable(s.queues[q], n) && Enabled(s, step)
    ensures q in Apply(s, step).queues && Unloadable(Apply(s, step).queues[q], n)
  {
    StepKeepsQueues(s, step);
    match step
    case Act(r, a) => if r == q { ActLeavesUnloadable(s.queues[q], a, s.now, n); }
    case _ =>
  }

  lemma {:induction false} NeverTakenOnceGone(s: System, steps: seq<Step>, q: string, n: Name)
    requires Gone(s, q, n) && Runs(s, steps)
    ensures Gone(After(s, steps), q, n)
    decreases |steps|
  {
    if steps != [] {
      GoneStays(s, steps[0], q, n);
      NeverTakenOnceGone(Apply(s, steps[0]), steps[1..], q, n);
    }
  }

  lemma {:induction false} NeverTakenUnloadable(s: System, steps: seq<Step>, q: string, n: Name)
    requires q in s.queues && Unloadable(s.queues[q], n) && Runs(s, steps)
    ensures !WasTaken(After(s, steps), q, n)
    decreases |steps|
  {
    if steps != [] {
      UnloadableStays(s, steps[0], q, n);
      NeverTakenUnloadable(Apply(s, steps[0]), steps[1..], q, n);
    }
  }

  // ---------------------------------------------------------------------------------------------
  // Cancelling and deleting

  predicate IsWithdrawal(a: Action) {
    a.Cancel? || a.Delete?
  }

  /**
   * What keeps a withdrawal from being the last word: a scheduler pass has read the name, and the job can still be
   * loaded when the worker comes to it.
   */
  ghost predicate MayStillRun(s: System, q: string, a: Action)
    requires IsWithdrawal(a) && q in s.queues
  {
    && InFlight(s, q, a.n) && JQ.Get(s.queues[q].state, a.n).Some?
    && (a.Delete? && a.expireModel ==> s.queues[q].state.jobs[a.n].infoTtl != 0)
  }

  /**
   * Withdrawing a job that was created and not taken yet, in any reachable state: it is taken in some continuation
   * exactly if a pass has its name in hand and a hash that can be loaded remains. The pass enqueues it again, with the
   * handle it loaded before.
   */
  lemma WithdrawalSticksIff(s: System, q: string, a: Action)
    requires Inv(s) && IsWithdrawal(a) && q in s.queues
    requires a.n in s.queues[q].due && Times(s.queues[q], a.n) == []
    ensures var t := Apply(s, Act(q, a));
            MayStillRun(s, q, a) <==> CanBeTaken(t, q, a.n)
  {
    if MayStillRun(s, q, a) {
      var steps := InFlightIsTaken(s, q, a);
    } else {
      WithdrawnIsOutOfReach(s, q, a);
      OutOfReach(Apply(s, Act(q, a)), q, a.n);
    }
  }

  lemma OutOfReach(s: System, q: string, n: Name)
    requires q in s.queues && (Gone(s, q, n) || Unloadable(s.queues[q], n))
    ensures !CanBeTaken(s, q, n)
  {
    forall steps | Runs(s, steps) ensures !WasTaken(After(s, steps), q, n) {
      if Gone(s, q, n) {
        NeverTakenOnceGone(s, steps, q, n);
      } else {
        NeverTakenUnloadable(s, steps, q, n);
      }
    }
  }

  lemma WithdrawnIsOutOfReach(s: System, q: string, a: Action)
    requires Inv(s) && IsWithdrawal(a) && q in s.queues && !MayStillRun(s, q, a)
    requires a.n in s.queues[q].due && Times(s.queues[q], a.n) == []
    ensures var t := Apply(s, Act(q, a)); q in t.queues && (Gone(t, q, a.n) || Unloadable(t.queues[q], a.n))
  {
    var t := Apply(s, Act(q, a));
    var v, w := ViewOf(s.queues[q], a.n), ViewOf(t.queues[q], a.n);
    assert Safe(v, s.now);
    assert InFlight(t, q, a.n) ==> InFlight(s, q, a.n);
    WithdrawnView(s.queues[q], a, s.now);
    assert v.running.None?;
  }

  /** A withdrawal leaves a job out of the two registries, unless nothing can load it. */
  lemma WithdrawnView(q: Queue, a: Action, now: int)
    requires IsWithdrawal(a) && Safe(ViewOf(q, a.n), now) && a.n in q.due && Times(q, a.n) == []
    ensures var r := Done(q, a, now);
            && a.n in r.due && Times(r, a.n) == [] && r.running == q.running
            && (a.Delete? || JQ.Get(q.state, a.n).Some? ==> a.n !in r.state.scheduled && a.n !in r.state.queued)
            && (JQ.Get(r.state, a.n).Some? <==>
                JQ.Get(q.state, a.n).Some? && (a.Delete? && a.expireModel ==> q.state.jobs[a.n].infoTtl != 0))
  {
    var v := ViewOf(q, a.n);
    assert v.scheduled.Some? ==> v.job.Some? && v.job.value.status == JQ.SCHEDULED;
    assert v.queued.Some? && v.job.Some? ==> v.job.value.status == JQ.QUEUED;
  }

  /** The pass that has a name in hand, and the name's place in it. */
  lemma PassOf(s: System, q: string, n: Name) returns (p: nat, k: nat)
    requires Inv(s) && InFlight(s, q, n)
    ensures p in s.schedulers && s.schedulers[p].pass.Some? && s.schedulers[p].pass.value.queue == q && q in s.queues
    ensures k < |s.schedulers[p].pass.value.names| && s.schedulers[p].pass.value.names[k] == n
    ensures n in s.schedulers[p].pass.value.loaded
  {
    p :| p in s.schedulers && s.schedulers[p].pass.Some? && s.schedulers[p].pass.value.queue == q
         && n in s.schedulers[p].pass.value.names;
    var pass := s.schedulers[p].pass.value;
    assert PassOk(s.queues[q], pass, s.now);
    k :| 0 <= k < |pass.names| && pass.names[k] == n;
  }

  lemma StillLoadable(s: System, q: string, a: Action)
    requires Inv(s) && IsWithdrawal(a) && q in s.queues && MayStillRun(s, q, a)
    requires a.n in s.queues[q].due && Times(s.queues[q], a.n) == []
    ensures var t := Apply(s, Act(q, a));
            q in t.queues && t.schedulers == s.schedulers && JQ.Get(t.queues[q].state, a.n).Some?
  {
    assert Safe(ViewOf(s.queues[q], a.n), s.now);
    WithdrawnView(s.queues[q], a, s.now);
  }

  lemma InFlightIsTaken(s: System, q: string, a: Action) returns (steps: seq<Step>)
    requires Inv(s) && IsWithdrawal(a) && q in s.queues && MayStillRun(s, q, a)
    requires a.n in s.queues[q].due && Times(s.queues[q], a.n) == []
    ensures var t := Apply(s, Act(q, a)); Runs(t, steps) && WasTaken(After(t, steps), q, a.n)
  {
    var p, k := PassOf(s, q, a.n);
    StillLoadable(s, q, a);
    steps := PassReaches(Apply(s, Act(q, a)), p, k);
  }

  // ---------------------------------------------------------------------------------------------
  // What a withdrawal makes of the registries

  /** Some run from here, in which nobody withdraws n, ends with n in two registries. */
  ghost predicate CanOverlap(s: System, q: string, n: Name) {
    exists steps :: Runs(s, steps) && NeverWithdrawn(steps, q, n) && Overlaps(After(s, steps), q, n)
  }

  predicate Overlaps(s: System, q: string, n: Name) {
    q in s.queues && !Exclusive(ViewOf(s.queues[q], n))
  }

  /**
   * When a withdrawal makes the registries overlap: exactly if it is a cancellation that finds a job which a pass has
   * in hand. A deletion never does.
   */
  lemma RegistriesOverlapIff(s: System, q: string, a: Action)
    requires Inv(s) && IsWithdrawal(a) && Shaped(s, q, a.n)
    ensures CanOverlap(Apply(s, Act(q, a)), q, a.n) <==>
            a.Cancel? && InFlight(s, q, a.n) && JQ.Get(s.queues[q].state, a.n).Some?
  {
    var t := Apply(s, Act(q, a));
    if a.Cancel? && InFlight(s, q, a.n) && JQ.Get(s.queues[q].state, a.n).Some? {
      var p, k := PassOf(s, q, a.n);
      CancelledInFlight(s, q, a.n);
      var steps := PassEnqueues(t, p, k);
      OnlyEnqueues(steps, p, q, a.n);
      assert Overlaps(After(t, steps), q, a.n) by {
        var v := ViewOf(After(t, steps).queues[q], a.n);
        assert v.finished.Some? && v.queued.Some?;
      }
    } else {
      StepStaysGood(s, Act(q, a), q, a.n);
      StepKeepsInv(s, Act(q, a));
      forall steps | Runs(t, steps) && NeverWithdrawn(steps, q, a.n) ensures !Overlaps(After(t, steps), q, a.n) {
        NeverTorn(t, steps, q, a.n);
        RunStaysShaped(t, steps, q, a.n);
      }
    }
  }

  lemma CancelledInFlight(s: System, q: string, n: Name)
    requires Inv(s) && q in s.queues && InFlight(s, q, n) && JQ.Get(s.queues[q].state, n).Some?
    ensures var t := Apply(s, Act(q, Cancel(n)));
            q in t.queues && n in t.queues[q].state.finished && t.schedulers == s.schedulers
  {
    InFlightAwaits(s, q, n);
    assert s.queues[q].state.jobs[n].status in {JQ.SCHEDULED, JQ.STOPPED};
  }

  predicate AllEnqueues(steps: seq<Step>, p: nat) {
    forall i | 0 <= i < |steps| :: steps[i] == EnqueueNext(p)
  }

  lemma OnlyEnqueues(steps: seq<Step>, p: nat, q: string, n: Name)
    requires AllEnqueues(steps, p)
    ensures NeverWithdrawn(steps, q, n)
  {
  }

  /** The pass goes on until it has enqueued its k-th name, which stays in finished if it was there. */
  lemma {:induction false} PassEnqueues(s: System, p: nat, k: nat) returns (steps: seq<Step>)
    requires p in s.schedulers && s.schedulers[p].pass.Some? && s.schedulers[p].pass.value.queue in s.queues
    requires k < |s.schedulers[p].pass.value.names|
             && s.schedulers[p].pass.value.names[k] in s.schedulers[p].pass.value.loaded
    ensures Runs(s, steps) && AllEnqueues(steps, p)
    ensures var pass, t := s.schedulers[p].pass.value, After(s, steps);
            pass.queue in t.queues && Enqueues(s.queues[pass.queue].state, t.queues[pass.queue].state, pass.names[k])
    decreases k
  {
    var pass := s.schedulers[p].pass.value;
    var t := Apply(s, EnqueueNext(p));
    GoesOnQueue(s, p, pass.names[k]);
    var rest: seq<Step> := [];
    if k == 0 {
      assert Runs(t, []) && After(t, []) == t;
    } else {
      assert pass.names[1..][k - 1] == pass.names[k];
      rest := PassEnqueues(t, p, k - 1);
    }
    steps := [EnqueueNext(p)] + rest;
    assert steps[1..] == rest;
  }

  /** From queue `s` to queue `t`, n was enqueued: it can still be loaded if it could, and left no other registry. */
  predicate Enqueues(s: JQ.State, t: JQ.State, n: Name) {
    n in t.queued && t.finished == s.finished && (JQ.Get(s, n).Some? ==> JQ.Get(t, n).Some?)
  }

  lemma GoesOnQueue(s: System, p: nat, n: Name)
    requires p in s.schedulers && s.schedulers[p].pass.Some? && s.schedulers[p].pass.value.queue in s.queues
    requires s.schedulers[p].pass.value.names != []
    ensures var pass, t := s.schedulers[p].pass.value, Apply(s, EnqueueNext(p));
            && Enabled(s, EnqueueNext(p)) && pass.queue in t.queues && p in t.schedulers
            && var before, after := s.queues[pass.queue].state, t.queues[pass.queue].state;
               && after.finished == before.finished && (JQ.Get(before, n).Some? ==> JQ.Get(after, n).Some?)
               && (pass.names[0] == n && n in pass.loaded ==> n in after.queued)
               && (|pass.names| > 1 ==> t.schedulers[p].pass == Some(pass.(names := pass.names[1..])))
  {
  }

  // ---------------------------------------------------------------------------------------------
  // Special cases

  /**
   * Cancelling a scheduled job keeps it from ever running exactly when no scheduler pass has read its name already.
   */
  lemma CancelSticksIffNotInFlight(s: System, q: string, n: Name)
    requires Inv(s) && q in s.queues && n in s.queues[q].state.scheduled
    ensures var t := Apply(s, Act(q, Cancel(n)));
            InFlight(s, q, n) <==> CanBeTaken(t, q, n)
  {
    ScheduledCanBeLoaded(s, q, n);
    WithdrawalSticksIff(s, q, Cancel(n));
  }

  /** So does deleting it, and then also when its hash is made to expire at once. */
  lemma DeletionSticksIff(s: System, q: string, n: Name, expireModel: bool)
    requires Inv(s) && q in s.queues && n in s.queues[q].state.scheduled
    ensures n in s.queues[q].state.jobs
    ensures var t := Apply(s, Act(q, Delete(n, expireModel)));
            InFlight(s, q, n) && (expireModel ==> s.queues[q].state.jobs[n].infoTtl != 0) <==>
            CanBeTaken(t, q, n)
  {
    ScheduledCanBeLoaded(s, q, n);
    WithdrawalSticksIff(s, q, Delete(n, expireModel));
  }

  /** What is known of a queue and a job in a pass: the lock is held, and the job is due and not queued. */
  lemma InFlightIsLocked(s: System, q: string, n: Name)
    requires Inv(s) && InFlight(s, q, n)
    ensures L.Held(s.keys, q, s.now) && q in s.queues && n !in s.queues[q].state.queued
    ensures n in s.queues[q].state.scheduled ==> s.queues[q].state.scheduled[n] <= s.now
  {
    var p, k := PassOf(s, q, n);
    assert Owns(s, p, q);
    InFlightAwaits(s, q, n);
    assert Safe(ViewOf(s.queues[q], n), s.now);
  }

  /**
   * What whoever withdraws a job can check beforehand: before the job's time, once it is queued, or when no scheduler
   * has the queue's lock, no pass has it in hand, and it is never taken.
   */
  lemma WithdrawalSticksWhen(s: System, q: string, a: Action)
    requires Inv(s) && IsWithdrawal(a) && q in s.queues
    requires a.n in s.queues[q].due && Times(s.queues[q], a.n) == []
    requires var state := s.queues[q].state;
             || (a.n in state.scheduled && s.now < state.scheduled[a.n])
             || a.n in state.queued
             || !L.Held(s.keys, q, s.now)
    ensures !CanBeTaken(Apply(s, Act(q, a)), q, a.n)
  {
    if InFlight(s, q, a.n) {
      InFlightIsLocked(s, q, a.n);
    }
    WithdrawalSticksIff(s, q, a);
  }

  lemma ScheduledCanBeLoaded(s: System, q: string, n: Name)
    requires Inv(s) && q in s.queues && n in s.queues[q].state.scheduled
    ensures n in s.queues[q].due && Times(s.queues[q], n) == [] && JQ.Get(s.queues[q].state, n).Some?
  {
    assert Safe(ViewOf(s.queues[q], n), s.now);
    assert ViewOf(s.queues[q], n).scheduled.Some?;
  }

  /** In every run, a job withdrawn before it was taken, and while no pass had it in hand, is never taken later. */
  lemma NeverAfterWithdrawal(s0: System, before: seq<Step>, q: string, a: Action, after: seq<Step>)
    requires IsWithdrawal(a) && Initial(s0) && Runs(s0, before + [Act(q, a)] + after)
    requires var s := After(s0, before);
             q in s.queues && a.n in s.queues[q].due && Times(s.queues[q], a.n) == [] && !InFlight(s, q, a.n)
    ensures !WasTaken(After(s0, before + [Act(q, a)] + after), q, a.n)
  {
    var s := Cut(s0, before, Act(q, a), after);
    WithdrawalSticksIff(s, q, a);
    assert !CanBeTaken(Apply(s, Act(q, a)), q, a.n);
  }

  /** The pass goes on until it has enqueued its k-th name, and the workers go on until they take it. */
  lemma PassReaches(s: System, p: nat, k: nat) returns (steps: seq<Step>)
    requires p in s.schedulers && s.schedulers[p].pass.Some? && s.schedulers[p].pass.value.queue in s.queues
    requires var pass := s.schedulers[p].pass.value;
             k < |pass.names| && pass.names[k] in pass.loaded && JQ.Get(s.queues[pass.queue].state, pass.names[k]).Some?
    ensures var pass := s.schedulers[p].pass.value;
            var t := After(s, steps);
            Runs(s, steps) && pass.queue in t.queues && Times(t.queues[pass.queue], pass.names[k]) != []
  {
    var pass := s.schedulers[p].pass.value;
    var first := PassEnqueues(s, p, k);
    var rest := WorkersReach(After(s, first), pass.queue, pass.names[k]);
    Concatenated(s, first, rest);
    steps := first + rest;
  }

  /** A worker takes the least live job. */
  lemma LeastIsTaken(s: System, q: string)
    requires q in s.queues && JQ.LiveQueued(s.queues[q].state) != map[]
    ensures var live := JQ.LiveQueued(s.queues[q].state);
            var m := Least(live);
            var t := Apply(s, Act(q, Take(m)));
            && Enabled(s, Act(q, Take(m))) && q in t.queues && Times(t.queues[q], m) != []
            && JQ.LiveQueued(t.queues[q].state).Keys == live.Keys - {m}
  {
  }

  lemma {:induction false} WorkersReach(s: System, q: string, n: Name) returns (steps: seq<Step>)
    requires q in s.queues && n in JQ.LiveQueued(s.queues[q].state)
    ensures Runs(s, steps) && WasTaken(After(s, steps), q, n)
    decreases |JQ.LiveQueued(s.queues[q].state).Keys|
  {
    var live := JQ.LiveQueued(s.queues[q].state);
    var m := Least(live);
    LeastIsTaken(s, q);
    var t := Apply(s, Act(q, Take(m)));
    var rest := [];
    if m != n {
      assert |JQ.LiveQueued(t.queues[q].state).Keys| < |live.Keys|;
      rest := WorkersReach(t, q, n);
    }
    OneStep(s, Act(q, Take(m)), rest);
    steps := [Act(q, Take(m))] + rest;
  }
}
