/** What the job protocol guarantees in every run, whatever is cancelled, deleted or interrupted in it. */
module Safety {
  import opened Wrappers
  import opened SortedSet
  import opened Protocol
  import opened Lifecycle
  import JQ = JobQueue
  import L = Leases

  lemma Reached(s0: System, steps: seq<Step>)
    requires Initial(s0) && Runs(s0, steps)
    ensures Inv(After(s0, steps))
  {
    InitialInv(s0);
    RunKeepsInv(s0, steps);
  }

  lemma {:induction false} Concatenated(s: System, first: seq<Step>, second: seq<Step>)
    ensures After(s, first + second) == After(After(s, first), second)
    ensures Runs(s, first + second) <==> Runs(s, first) && Runs(After(s, first), second)
    decreases |first|
  {
    if first == [] {
      assert first + second == second;
    } else {
      assert (first + second)[1..] == first[1..] + second;
      Concatenated(Apply(s, first[0]), first[1..], second);
    }
  }

  lemma OneStep(s: System, step: Step, rest: seq<Step>)
    requires Enabled(s, step) && Runs(Apply(s, step), rest)
    ensures Runs(s, [step] + rest) && After(s, [step] + rest) == After(Apply(s, step), rest)
  {
    assert ([step] + rest)[1..] == rest;
  }

  /** A run split at one of its steps. */
  lemma Cut(s0: System, before: seq<Step>, step: Step, after: seq<Step>) returns (s: System)
    requires Initial(s0) && Runs(s0, before + [step] + after)
    ensures s == After(s0, before) && Inv(s) && Enabled(s, step)
    ensures Inv(Apply(s, step)) && Runs(Apply(s, step), after)
    ensures After(s0, before + [step] + after) == After(Apply(s, step), after)
  {
    s := After(s0, before);
    assert before + [step] + after == before + ([step] + after);
    Concatenated(s0, before, [step] + after);
    Reached(s0, before);
    assert ([step] + after)[1..] == after;
    StepKeepsInv(s, step);
  }

  // ---------------------------------------------------------------------------------------------
  // Leases

  /** At most one running scheduler has a queue's lock, and the stored key is live and was set by that scheduler. */
  lemma OneSchedulerPerQueue(s0: System, steps: seq<Step>, q: string)
    requires Initial(s0) && Runs(s0, steps)
    ensures var s := After(s0, steps);
            forall p | p in s.schedulers && !s.schedulers[p].stopped && q in s.schedulers[p].locks ::
              && L.Held(s.keys, q, s.now) && s.keys[q].owner == p
              && forall r | r in s.schedulers && !s.schedulers[r].stopped && q in s.schedulers[r].locks :: r == p
  {
    Reached(s0, steps);
    var s := After(s0, steps);
    forall p | p in s.schedulers && !s.schedulers[p].stopped && q in s.schedulers[p].locks
      ensures L.Held(s.keys, q, s.now) && s.keys[q].owner == p
    {
      assert Owns(s, p, q);
    }
  }

  /**
   * Exclusion is what the rest needs: if two schedulers were in a pass over the same due job, the job would run twice.
   */
  lemma TwoHoldersTakeTwice(
      s: System, p: nat, r: nat, q: string, n: Name, others: seq<Name>, more: seq<Name>, loaded: map<Name, JQ.Job>)
    requires p != r && p in s.schedulers && r in s.schedulers && q in s.queues && n in loaded
    requires s.schedulers[p].pass == Some(Pass(q, [n] + others, loaded))
    requires s.schedulers[r].pass == Some(Pass(q, [n] + more, loaded))
    requires s.queues[q].state.queued == map[] && JQ.Get(s.queues[q].state, n).Some?
    ensures var steps := [EnqueueNext(p), Act(q, Take(n)), EnqueueNext(r), Act(q, Take(n))];
            var t := After(s, steps);
            Runs(s, steps) && q in t.queues && Times(t.queues[q], n) == Times(s.queues[q], n) + [s.now, s.now]
  {
    var t := EnqueueAndTake(s, p, q, n);
    var u := EnqueueAndTake(t, r, q, n);
    Concatenated(s, [EnqueueNext(p), Act(q, Take(n))], [EnqueueNext(r), Act(q, Take(n))]);
    assert [EnqueueNext(p), Act(q, Take(n))] + [EnqueueNext(r), Act(q, Take(n))]
           == [EnqueueNext(p), Act(q, Take(n)), EnqueueNext(r), Act(q, Take(n))];
  }

  predicate AboutToEnqueue(s: System, p: nat, q: string, n: Name) {
    p in s.schedulers && q in s.queues && s.schedulers[p].pass.Some?
    && var pass := s.schedulers[p].pass.value;
       pass.queue == q && pass.names != [] && pass.names[0] == n && n in pass.loaded
  }

  lemma EnqueueAndTake(s: System, p: nat, q: string, n: Name) returns (t: System)
    requires AboutToEnqueue(s, p, q, n)
    requires s.queues[q].state.queued == map[] && JQ.Get(s.queues[q].state, n).Some?
    ensures Runs(s, [EnqueueNext(p), Act(q, Take(n))]) && t == After(s, [EnqueueNext(p), Act(q, Take(n))])
    ensures q in t.queues && t.now == s.now && t.queues[q].state.queued == map[] && JQ.Get(t.queues[q].state, n).Some?
    ensures Times(t.queues[q], n) == Times(s.queues[q], n) + [s.now]
    ensures t.schedulers.Keys == s.schedulers.Keys
            && forall r | r in s.schedulers && r != p :: t.schedulers[r] == s.schedulers[r]
  {
    EnqueuedAlone(s, p, q, n);
    var s1 := Apply(s, EnqueueNext(p));
    t := Apply(s1, Act(q, Take(n)));
    assert [EnqueueNext(p), Act(q, Take(n))][1..] == [Act(q, Take(n))];
    assert After(s1, [Act(q, Take(n))]) == t && Runs(s1, [Act(q, Take(n))]);
  }

  lemma EnqueuedAlone(s: System, p: nat, q: string, n: Name)
    requires AboutToEnqueue(s, p, q, n)
    requires s.queues[q].state.queued == map[] && JQ.Get(s.queues[q].state, n).Some?
    ensures var t := Apply(s, EnqueueNext(p));
            && q in t.queues && t.now == s.now && Possible(t.queues[q], Take(n))
            && t.queues[q].state.queued.Keys == {n} && t.queues[q].takes == s.queues[q].takes
            && t.schedulers == s.schedulers[p := t.schedulers[p]] && p in t.schedulers
  {
    var t := Apply(s, EnqueueNext(p));
    assert JQ.LiveQueued(t.queues[q].state).Keys == {n};
  }

  // ---------------------------------------------------------------------------------------------
  // Taking jobs

  /** In every run, over all queues, a job is taken at most once, and not before the time it was created for. */
  lemma TakenAtMostOnce(s0: System, steps: seq<Step>, q: string, r: string, n: Name)
    requires Initial(s0) && Runs(s0, steps) && q in After(s0, steps).queues && r in After(s0, steps).queues
    ensures var s := After(s0, steps);
            && |Times(s.queues[q], n)| <= 1
            && (Times(s.queues[q], n) != [] ==>
                  n in s.queues[q].due && s.queues[q].due[n] <= Times(s.queues[q], n)[0] <= s.now)
            && (Times(s.queues[q], n) != [] && Times(s.queues[r], n) != [] ==> q == r)
  {
    Reached(s0, steps);
    var s := After(s0, steps);
    assert Safe(ViewOf(s.queues[q], n), s.now) && Safe(ViewOf(s.queues[r], n), s.now);
  }

  /**
   * The registries are disjoint, the failed one aside, and agree with the status of their jobs and with the workers,
   * for all names but those that were cancelled while a pass had them in hand; a finished job has not failed, unless
   * its failure was reported when it was finished already; and a queued job has its hash unless it was deleted while a
   * pass had it in hand.
   */
  lemma RegistriesAgree(s0: System, steps: seq<Step>, name: string, torn: set<Name>)
    requires Initial(s0) && Runs(s0, steps) && name in s0.queues
    requires forall n | Torn(s0, steps, name, n) :: n in torn
    ensures name in After(s0, steps).queues && Agree(After(s0, steps).queues[name], torn)
    ensures var q := After(s0, steps).queues[name];
            forall n | n in q.state.finished && n in q.state.jobs && n !in torn && !FailedLate(s0, steps, name, n) ::
              q.state.jobs[n].status in {JQ.FINISHED, JQ.STOPPED}
    ensures forall n | n in After(s0, steps).queues[name].state.queued && !Disturbed(s0, steps, name, n) ::
              n in After(s0, steps).queues[name].state.jobs
  {
    var s := After(s0, steps);
    Reached(s0, steps);
    QueuesStay(s0, steps);
    forall n | n !in torn ensures Consistent(ViewOf(s.queues[name], n), s.now) {
      UntornIsConsistent(s0, steps, name, n);
    }
    assert AllSafe(s.queues[name], s.now);
    NamesApart(s.queues[name], s.now, torn);
    StatusesAgree(s.queues[name], s.now, torn);
    var state := s.queues[name].state;
    forall n | n in state.finished && n in state.jobs && n !in torn && !FailedLate(s0, steps, name, n)
      ensures state.jobs[n].status in {JQ.FINISHED, JQ.STOPPED}
    {
      UntornIsSettled(s0, steps, name, n);
    }
    forall n | n in s.queues[name].state.queued && !Disturbed(s0, steps, name, n)
      ensures n in s.queues[name].state.jobs
    {
      InitialIsClean(s0, name, n);
      InitialInv(s0);
      RunEvolves(s0, steps, name, n);
      assert ViewOf(s.queues[name], n).queued.Some?;
    }
  }

  lemma UntornIsConsistent(s0: System, steps: seq<Step>, q: string, n: Name)
    requires Initial(s0) && Runs(s0, steps) && q in s0.queues && !Torn(s0, steps, q, n)
    ensures var s := After(s0, steps); q in s.queues && Consistent(ViewOf(s.queues[q], n), s.now)
  {
    InitialInv(s0);
    InitialIsClean(s0, q, n);
    RunStaysShaped(s0, steps, q, n);
  }

  lemma UntornIsSettled(s0: System, steps: seq<Step>, q: string, n: Name)
    requires Initial(s0) && Runs(s0, steps) && q in s0.queues
    requires !Torn(s0, steps, q, n) && !FailedLate(s0, steps, q, n)
    ensures var s := After(s0, steps); q in s.queues && Settled(ViewOf(s.queues[q], n))
  {
    InitialInv(s0);
    InitialIsClean(s0, q, n);
    assert ViewOf(s0.queues[q], n) == NOTHING;
    RunStaysSettled(s0, steps, q, n);
  }

  lemma StepKeepsQueues(s: System, step: Step)
    ensures Apply(s, step).queues.Keys == s.queues.Keys
  {
    match step
    case Act(q, a) => assert Apply(s, step).queues.Keys == s.queues.Keys;
    case EnqueueNext(p) => assert Apply(s, step).queues.Keys == s.queues.Keys;
    case _ => assert Apply(s, step).queues.Keys == s.queues.Keys;
  }

  lemma {:induction false} QueuesStay(s: System, steps: seq<Step>)
    ensures After(s, steps).queues.Keys == s.queues.Keys
    decreases |steps|
  {
    if steps != [] {
      StepKeepsQueues(s, steps[0]);
      QueuesStay(Apply(s, steps[0]), steps[1..]);
    }
  }

  ghost predicate Agree(q: Queue, torn: set<Name>) {
    RegistriesApart(q.state, torn) && StatusesRight(q, torn)
  }

  predicate RegistriesApart(s: JQ.State, torn: set<Name>) {
    s.scheduled.Keys - torn !! s.queued.Keys - torn !! s.active.Keys - torn !! s.finished.Keys - torn
    !! s.canceled.Keys - torn
  }

  ghost predicate StatusesRight(q: Queue, torn: set<Name>) {
    var s := q.state;
    && (forall n | n in s.scheduled :: n in s.jobs && s.jobs[n].status == JQ.SCHEDULED)
    && (forall n | n in s.queued && n in s.jobs :: s.jobs[n].status == JQ.QUEUED)
    && (forall n | n in s.active && n !in torn ::
          n in s.jobs && s.jobs[n].status == JQ.STARTED && s.jobs[n].startedAt == Some(s.active[n] - s.jobs[n].timeout))
    && (forall n | n in s.canceled && n in s.jobs && n !in torn :: s.jobs[n].status == JQ.CANCELED)
    && (forall n | n in s.finished && n in s.jobs && n !in torn ::
          s.jobs[n].status in {JQ.FINISHED, JQ.FAILED, JQ.STOPPED})
    && (forall n | n in q.running :: n !in s.scheduled && n !in s.queued && (n !in torn ==> n !in s.canceled))
  }

  lemma NamesApart(q: Queue, now: int, torn: set<Name>)
    requires forall n | n !in torn :: Consistent(ViewOf(q, n), now)
    ensures RegistriesApart(q.state, torn)
  {
    var s := q.state;
    forall n | n in s.scheduled && n !in torn
      ensures n !in s.queued && n !in s.active && n !in s.finished && n !in s.canceled
    {
      assert Consistent(ViewOf(q, n), now);
    }
    forall n | n in s.queued && n !in torn ensures n !in s.active && n !in s.finished && n !in s.canceled {
      assert Consistent(ViewOf(q, n), now);
    }
    forall n | n in s.canceled && n !in torn ensures n !in s.active && n !in s.finished {
      assert Consistent(ViewOf(q, n), now);
    }
    forall n | n in s.active && n !in torn ensures n !in s.finished {
      assert Consistent(ViewOf(q, n), now);
    }
  }

  lemma StatusesAgree(q: Queue, now: int, torn: set<Name>)
    requires AllSafe(q, now) && forall n | n !in torn :: Consistent(ViewOf(q, n), now)
    ensures StatusesRight(q, torn)
  {
    var s := q.state;
    forall n | n in s.scheduled ensures n in s.jobs && s.jobs[n].status == JQ.SCHEDULED {
      assert Safe(ViewOf(q, n), now);
    }
    forall n | n in s.queued && n in s.jobs ensures s.jobs[n].status == JQ.QUEUED {
      assert Safe(ViewOf(q, n), now);
    }
    forall n | n in s.active && n !in torn
      ensures n in s.jobs && s.jobs[n].status == JQ.STARTED
              && s.jobs[n].startedAt == Some(s.active[n] - s.jobs[n].timeout)
    {
      assert Consistent(ViewOf(q, n), now);
    }
    forall n | n in s.canceled && n in s.jobs && n !in torn ensures s.jobs[n].status == JQ.CANCELED {
      assert Consistent(ViewOf(q, n), now);
    }
    forall n | n in s.finished && n in s.jobs && n !in torn
      ensures s.jobs[n].status in {JQ.FINISHED, JQ.FAILED, JQ.STOPPED}
    {
      assert Consistent(ViewOf(q, n), now);
    }
    forall n | n in q.running ensures n !in s.scheduled && n !in s.queued && (n !in torn ==> n !in s.canceled) {
      assert Safe(ViewOf(q, n), now);
      assert n !in torn ==> Consistent(ViewOf(q, n), now);
    }
  }

  /** A job created for time `when` is never taken earlier, whatever follows; and, unless withdrawn, it is not lost. */
  lemma NeverEarlyNeverLost(s0: System, before: seq<Step>, q: string, n: Name, job: JQ.Job, when: int, after: seq<Step>)
    requires Initial(s0) && Runs(s0, before + [Act(q, CreateAt(n, job, when))] + after)
    ensures var s := After(s0, before + [Act(q, CreateAt(n, job, when))] + after);
            q in s.queues && var v := ViewOf(s.queues[q], n);
            && (forall t | t in v.takes :: when <= t <= s.now)
            && (NeverWithdrawn(after, q, n) ==> v.scheduled == Some(when) || v.queued.Some? || |v.takes| == 1)
  {
    var s := Cut(s0, before, Act(q, CreateAt(n, job, when)), after);
    var t := Apply(s, Act(q, CreateAt(n, job, when)));
    CreatedIsPending(s, q, n, job, when);
    NeverEarly(t, after, q, n);
    if NeverWithdrawn(after, q, n) {
      NeverTorn(t, after, q, n);
      RunEvolves(t, after, q, n);
    }
  }

  lemma TakenInTime(v: View, now: int)
    requires Safe(v, now) && v.due.Some?
    ensures forall u | u in v.takes :: v.due.value <= u <= now
  {
  }

  lemma NeverEarly(s: System, steps: seq<Step>, q: string, n: Name)
    requires Inv(s) && Runs(s, steps) && q in s.queues && n in s.queues[q].due
    ensures var t := After(s, steps);
            q in t.queues && var v := ViewOf(t.queues[q], n);
            Safe(v, t.now) && forall u | u in v.takes :: s.queues[q].due[n] <= u <= t.now
  {
    DueStays(s, steps, q, n);
    RunKeepsInv(s, steps);
    var t := After(s, steps);
    var v := ViewOf(t.queues[q], n);
    assert v.due == Some(s.queues[q].due[n]);
    assert AllSafe(t.queues[q], t.now);
    TakenInTime(v, t.now);
  }

  lemma CreatedIsPending(s: System, q: string, n: Name, job: JQ.Job, when: int)
    requires Inv(s) && Enabled(s, Act(q, CreateAt(n, job, when)))
    ensures var t := Apply(s, Act(q, CreateAt(n, job, when)));
            Clean(t, q, n) && var v := ViewOf(t.queues[q], n); v.due == Some(when) && Pending(v) && v.takes == []
  {
    var t := Apply(s, Act(q, CreateAt(n, job, when)));
    assert Safe(ViewOf(s.queues[q], n), s.now);
    assert ViewOf(s.queues[q], n) == NOTHING;
    assert n !in s.queues[q].state.jobs by { assert ViewOf(s.queues[q], n).job.None?; }
    forall p | p in s.schedulers && s.schedulers[p].pass.Some? && s.schedulers[p].pass.value.queue == q
      ensures n !in s.schedulers[p].pass.value.names
    {
      assert PassOk(s.queues[q], s.schedulers[p].pass.value, s.now);
    }
    StepStaysGood(s, Act(q, CreateAt(n, job, when)), q, n);
  }

  /** What a job was created for does not change, and no take is forgotten. */
  ghost predicate SameDue(q: Queue, r: Queue, n: Name) {
    n in q.due ==> n in r.due && r.due[n] == q.due[n] && Times(q, n) <= Times(r, n)
  }

  lemma DoneKeepsDue(q: Queue, a: Action, now: int, n: Name)
    requires Possible(q, a) && (a.CreateNow? || a.CreateAt? ==> a.n !in q.due)
    ensures SameDue(q, Done(q, a, now), n)
  {
  }

  lemma StepKeepsDue(s: System, step: Step, q: string, n: Name)
    requires Enabled(s, step) && q in s.queues
    ensures q in Apply(s, step).queues && SameDue(s.queues[q], Apply(s, step).queues[q], n)
    ensures s.now <= Apply(s, step).now
  {
    StepKeepsQueues(s, step);
    match step
    case Act(r, a) => DoneKeepsDue(s.queues[r], a, s.now, n);
    case EnqueueNext(p) =>
    case _ =>
  }

  lemma {:induction false} DueStays(s: System, steps: seq<Step>, q: string, n: Name)
    requires Runs(s, steps) && q in s.queues
    ensures var t := After(s, steps); q in t.queues && SameDue(s.queues[q], t.queues[q], n) && s.now <= t.now
    decreases |steps|
  {
    if steps != [] {
      StepKeepsDue(s, steps[0], q, n);
      DueStays(Apply(s, steps[0]), steps[1..], q, n);
    }
  }
}
