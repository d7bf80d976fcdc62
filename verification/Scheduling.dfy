/** The WorkerScheduler class, and how its methods and the worker's dequeue are made of the steps of the protocol. */
module Scheduling {
  import opened Wrappers
  import opened SortedSet
  import opened Protocol
  import opened Safety
  import JQ = JobQueue
  import L = Leases
  import Q = Queues

  /** The broker's lock keys. */
  class LockStore {
    var keys: L.Keys

    constructor ()
      ensures keys == map[]
    {
      keys := map[];
    }

    /** KvLock.acquire. */
    method Acquire(q: string, owner: nat, ttl: nat, now: int) returns (acquired: bool)
      modifies this
      ensures acquired <==> !L.Held(old(keys), q, now)
      ensures keys == L.Acquired(old(keys), q, owner, ttl, now)
    {
      acquired := !L.Held(keys, q, now);
      if acquired {
        keys := keys[q := L.Lease(owner, now + ttl)];
      }
    }

    /** KvLock.expire: it does not look at the owner. */
    method Extend(q: string, ttl: nat, now: int)
      modifies this
      ensures keys == L.Extended(old(keys), q, ttl, now)
    {
      if L.Held(keys, q, now) {
        keys := keys[q := keys[q].(expiresAt := now + ttl)];
      }
    }

    /** KvLock.release: it does not look at the owner. */
    method Release(q: string)
      modifies this
      ensures keys == old(keys) - {q}
    {
      keys := keys - {q};
    }
  }

  /** A scheduler that asked for all its locks and got those of `got`. */
  function AfterAsking(c: Scheduler, got: set<string>, now: int): Scheduler {
    c.(locks := L.Stamped(c.locks, got, now), registries := c.locks.Keys + got, acquiredAt := Some(now))
  }

  class WorkerScheduler {
    const id: nat
    const interval: nat
    const queues: seq<string>
    const fallback: nat
    var locks: map<string, int>
    var registries: set<string>
    var lockAcquisitionTime: Option<int>
    var stopped: bool

    constructor (id: nat, queues: seq<string>, interval: nat, fallback: nat)
      ensures this.id == id && this.queues == queues
      ensures Value() == NewScheduler(interval, (set q | q in queues), fallback)
    {
      this.id, this.queues, this.interval, this.fallback := id, queues, interval, fallback;
      locks, registries, lockAcquisitionTime, stopped := map[], {}, None, false;
    }

    /** The scheduler between two passes, as the protocol sees it. */
    function Value(): Scheduler
      reads this
    {
      Scheduler(interval, (set q | q in queues), fallback, locks, registries, lockAcquisitionTime, None, stopped)
    }

    predicate ShouldReacquireLocks(now: int)
      reads this
      ensures ShouldReacquireLocks(now) <==> MayAcquire(Value(), now)
    {
      lockAcquisitionTime.None? || now - lockAcquisitionTime.value > fallback
    }

    /** What one round of WorkerScheduler.work does before its passes. */
    method BeginRound(store: LockStore, stopRequested: bool, now: int) returns (goesOn: bool)
      modifies this, store
      ensures goesOn <==> !stopRequested
      ensures stopRequested ==>
                store.keys == old(store.keys) - old(locks).Keys && Value() == old(Value()).(stopped := true)
      ensures old(ShouldReacquireLocks(now)) <==>
                old(lockAcquisitionTime).None? || now - old(lockAcquisitionTime).value > fallback
      ensures goesOn && old(ShouldReacquireLocks(now)) ==>
                var got := L.Free(old(store.keys), queues, now);
                && store.keys == L.AllAcquired(old(store.keys), got, id, interval + L.GRACE, now)
                && Value() == AfterAsking(old(Value()), got, now)
      ensures goesOn && !old(ShouldReacquireLocks(now)) ==> store.keys == old(store.keys) && Value() == old(Value())
    {
      if stopRequested {
        Stop(store);
        return false;
      }
      if ShouldReacquireLocks(now) {
        var _ := AcquireLocks(store, now);
      }
      goesOn := true;
    }

    method AcquireLocks(store: LockStore, now: int) returns (successful: set<string>)
      modifies this, store
      ensures successful == L.Free(old(store.keys), queues, now)
      ensures store.keys == L.AllAcquired(old(store.keys), successful, id, interval + L.GRACE, now)
      ensures Value() == AfterAsking(old(Value()), successful, now)
    {
      successful := {};
      ghost var start := L.Attempt(store.keys, locks, {});
      var i := 0;
      while i < |queues|
        invariant 0 <= i <= |queues|
        invariant L.Attempted(L.Attempt(store.keys, locks, successful), queues[i..], id, interval + L.GRACE, now)
                  == L.Attempted(start, queues, id, interval + L.GRACE, now)
        invariant stopped == old(stopped)
      {
        assert queues[i..][1..] == queues[i + 1..];
        var acquired := store.Acquire(queues[i], id, interval + L.GRACE, now);
        if acquired {
          locks := locks[queues[i] := now];
          successful := successful + {queues[i]};
        }
        i := i + 1;
      }
      L.AttemptGetsTheFree(start, queues, id, interval + L.GRACE, now);
      lockAcquisitionTime := Some(now);
      registries := locks.Keys;
    }

    method Heartbeat(store: LockStore, now: int)
      modifies this`locks, store
      ensures store.keys == L.AllExtended(old(store.keys), locks.Keys, interval + L.GRACE, now)
      ensures locks == L.Stamped(old(locks), old(locks).Keys, now)
    {
      var left := locks.Keys;
      ghost var done: set<string>, keys0, locks0 := {}, store.keys, locks;
      while left != {}
        invariant left !! done && left + done == locks0.Keys
        invariant store.keys == L.AllExtended(keys0, done, interval + L.GRACE, now)
        invariant locks == L.Stamped(locks0, done, now)
        decreases left
      {
        var q :| q in left;
        store.Extend(q, interval + L.GRACE, now);
        locks := locks[q := now];
        left, done := left - {q}, done + {q};
      }
    }

    method Stop(store: LockStore)
      modifies this, store
      ensures store.keys == old(store.keys) - old(locks).Keys
      ensures Value() == old(Value()).(stopped := true)
    {
      var left := locks.Keys;
      while left != {}
        invariant left <= locks.Keys
        invariant store.keys == old(store.keys) - (locks.Keys - left)
        invariant Value() == old(Value())
        decreases left
      {
        var q :| q in left;
        store.Release(q);
        left := left - {q};
      }
      stopped := true;
    }
  }

  // ---------------------------------------------------------------------------------------------
  // The methods as steps of the protocol

  function AcquireSteps(p: nat, qs: seq<string>): seq<Step>
    decreases |qs|
  {
    if qs == [] then [Refresh(p)] else [Acquire(p, qs[0])] + AcquireSteps(p, qs[1..])
  }

  /**
   * Acquiring lock by lock, then refreshing the registries, is what WorkerScheduler.AcquireLocks does; and a scheduler
   * can do so when it may ask for the locks of its queues.
   */
  lemma AcquireLocksIsSteps(s: System, p: nat, qs: seq<string>)
    requires p in s.schedulers
    ensures var free := L.Free(s.keys, qs, s.now);
            var was := s.schedulers[p];
            After(s, AcquireSteps(p, qs))
            == s.(keys := L.AllAcquired(s.keys, free, p, was.interval + L.GRACE, s.now),
                  schedulers := s.schedulers[p := AfterAsking(was, free, s.now)])
    ensures Idle(s, p) && MayAcquire(s.schedulers[p], s.now) && (forall q | q in qs :: q in s.schedulers[p].queues) ==>
              Runs(s, AcquireSteps(p, qs))
  {
    LocksAreAttempted(s, p, qs);
    assert L.Stamped(s.schedulers[p].locks, L.Free(s.keys, qs, s.now), s.now).Keys
           == s.schedulers[p].locks.Keys + L.Free(s.keys, qs, s.now);
    var ttl := s.schedulers[p].interval + L.GRACE;
    L.AttemptGetsTheFree(L.Attempt(s.keys, s.schedulers[p].locks, {}), qs, p, ttl, s.now);
    if Idle(s, p) && MayAcquire(s.schedulers[p], s.now) && forall q | q in qs :: q in s.schedulers[p].queues {
      LocksMayBeAttempted(s, p, qs);
    }
  }

  /**
   * What asking for locks means: those of its queues that nobody held are the scheduler's for the interval and a
   * minute, no other key changed, it looks at all queues whose locks it has, and asks again only after the fallback
   * period.
   */
  lemma AskingMeans(c: Scheduler, keys: L.Keys, qs: seq<string>, p: nat, now: int)
    ensures var got := L.Free(keys, qs, now);
            var after, keysAfter := AfterAsking(c, got, now), L.AllAcquired(keys, got, p, c.interval + L.GRACE, now);
            && L.GotFree(keys, keysAfter, c.locks, after.locks, qs, p, c.interval + 60, now)
            && after == c.(locks := after.locks, registries := after.locks.Keys, acquiredAt := Some(now))
  {
    L.AcquiringMeans(keys, c.locks, qs, p, c.interval + L.GRACE, now);
    assert L.Stamped(c.locks, L.Free(keys, qs, now), now).Keys == c.locks.Keys + L.Free(keys, qs, now);
  }

  /** After that, it may ask again when more than the fallback period has passed. */
  lemma MayAcquireMeans(c: Scheduler, later: int)
    ensures MayAcquire(c, later) <==>
            match c.acquiredAt case None => true case Some(since) => later > since + c.fallback
  {
  }

  lemma {:induction false} LocksAreAttempted(s: System, p: nat, qs: seq<string>, got: set<string> := {})
    requires p in s.schedulers
    ensures var was := s.schedulers[p];
            var a := L.Attempted(L.Attempt(s.keys, was.locks, got), qs, p, was.interval + L.GRACE, s.now);
            After(s, AcquireSteps(p, qs))
            == s.(keys := a.keys,
                  schedulers := s.schedulers[p := was.(locks := a.locks, registries := a.locks.Keys,
                                                       acquiredAt := Some(s.now))])
    decreases |qs|
  {
    var was := s.schedulers[p];
    if qs == [] {
      assert After(s, [Refresh(p)]) == After(Apply(s, Refresh(p)), []);
    } else {
      var u := Apply(s, Acquire(p, qs[0]));
      var steps := AcquireSteps(p, qs[1..]);
      assert ([Acquire(p, qs[0])] + steps)[1..] == steps;
      LocksAreAttempted(u, p, qs[1..], if L.Held(s.keys, qs[0], s.now) then got else got + {qs[0]});
    }
  }

  lemma {:induction false} LocksMayBeAttempted(s: System, p: nat, qs: seq<string>)
    requires Idle(s, p) && MayAcquire(s.schedulers[p], s.now) && forall q | q in qs :: q in s.schedulers[p].queues
    ensures Runs(s, AcquireSteps(p, qs))
    decreases |qs|
  {
    if qs == [] {
      OneStep(s, Refresh(p), []);
      assert [Refresh(p)] + [] == [Refresh(p)];
    } else {
      assert qs[0] in qs;
      LocksMayBeAttempted(Apply(s, Acquire(p, qs[0])), p, qs[1..]);
      OneStep(s, Acquire(p, qs[0]), AcquireSteps(p, qs[1..]));
    }
  }

  function HeartbeatSteps(p: nat, qs: seq<string>): seq<Step>
    decreases |qs|
  {
    if qs == [] then [] else [Heartbeat(p, qs[0])] + HeartbeatSteps(p, qs[1..])
  }

  /** Extending the locks one by one, in any order, is what WorkerScheduler.Heartbeat does. */
  lemma HeartbeatIsSteps(s: System, p: nat, qs: seq<string>)
    requires p in s.schedulers && (set q | q in qs) == s.schedulers[p].locks.Keys
    ensures var was := s.schedulers[p];
            After(s, HeartbeatSteps(p, qs))
            == s.(keys := L.AllExtended(s.keys, was.locks.Keys, was.interval + L.GRACE, s.now),
                  schedulers := s.schedulers[p := was.(locks := L.Stamped(was.locks, was.locks.Keys, s.now))])
    ensures !s.schedulers[p].stopped ==> Runs(s, HeartbeatSteps(p, qs))
  {
    ExtendedOneByOne(s, p, qs);
  }

  /** The system with other keys, and other locks of scheduler p. */
  function WithLocks(s: System, p: nat, keys: L.Keys, locks: map<string, int>): System
    requires p in s.schedulers
  {
    s.(keys := keys, schedulers := s.schedulers[p := s.schedulers[p].(locks := locks)])
  }

  lemma HeartbeatIsStep(s: System, p: nat, q: string)
    requires p in s.schedulers && q in s.schedulers[p].locks
    ensures var was := s.schedulers[p];
            Apply(s, Heartbeat(p, q)) ==
            WithLocks(s, p, L.Extended(s.keys, q, was.interval + L.GRACE, s.now), was.locks[q := s.now])
    ensures !s.schedulers[p].stopped ==> Enabled(s, Heartbeat(p, q))
  {
  }

  lemma WithLocksTwice(s: System, p: nat, keys: L.Keys, locks: map<string, int>)
    requires p in s.schedulers
    ensures WithLocks(s, p, s.keys, s.schedulers[p].locks) == s
    ensures forall keys0, locks0 ::
              WithLocks(WithLocks(s, p, keys0, locks0), p, keys, locks) == WithLocks(s, p, keys, locks)
  {
    assert s.schedulers[p := s.schedulers[p]] == s.schedulers;
  }

  lemma {:induction false} ExtendedOneByOne(s: System, p: nat, qs: seq<string>)
    requires p in s.schedulers && forall q | q in qs :: q in s.schedulers[p].locks
    ensures var was := s.schedulers[p];
            var some := set q | q in qs;
            var keys := L.AllExtended(s.keys, some, was.interval + L.GRACE, s.now);
            After(s, HeartbeatSteps(p, qs)) == WithLocks(s, p, keys, L.Stamped(was.locks, some, s.now))
    ensures !s.schedulers[p].stopped ==> Runs(s, HeartbeatSteps(p, qs))
    decreases |qs|
  {
    var was, ttl, some := s.schedulers[p], s.schedulers[p].interval + L.GRACE, set q | q in qs;
    WithLocksTwice(s, p, L.AllExtended(s.keys, some, ttl, s.now), L.Stamped(was.locks, some, s.now));
    if qs == [] {
      assert some == {};
      L.NothingExtended(s.keys, was.locks, ttl, s.now);
    } else {
      var q, rest := qs[0], qs[1..];
      assert qs == [q] + rest && q in qs;
      HeartbeatIsStep(s, p, q);
      ExtendedOneByOne(Apply(s, Heartbeat(p, q)), p, rest);
      var others := set r | r in rest;
      assert some == {q} + others;
      L.OneMoreExtended(s.keys, was.locks, q, others, ttl, s.now);
      FirstStep(s, Heartbeat(p, q), HeartbeatSteps(p, rest));
    }
  }

  lemma FirstStep(s: System, step: Step, rest: seq<Step>)
    ensures After(s, [step] + rest) == After(Apply(s, step), rest)
    ensures Runs(s, [step] + rest) <==> Enabled(s, step) && Runs(Apply(s, step), rest)
  {
    assert ([step] + rest)[1..] == rest;
  }

  /** After it, every key of the scheduler's locks is its own, for the interval and a minute; and no other changed. */
  lemma HeartbeatMeans(s: System, p: nat)
    requires LocksOk(s) && p in s.schedulers && !s.schedulers[p].stopped
    ensures var was := s.schedulers[p];
            var keys := L.AllExtended(s.keys, was.locks.Keys, was.interval + L.GRACE, s.now);
            forall q :: Lookup(keys, q) ==
              if q in was.locks then Some(L.Lease(p, s.now + was.interval + 60)) else Lookup(s.keys, q)
  {
    forall q | q in s.schedulers[p].locks ensures L.Held(s.keys, q, s.now) && s.keys[q].owner == p {
      assert Owns(s, p, q);
    }
  }

  /** A scheduler that stops leaves its queues to others at once, and no other key is gone. */
  lemma StopMeans(s: System, p: nat)
    requires p in s.schedulers
    ensures var t := Apply(s, Stop(p));
            && (forall q :: Lookup(t.keys, q) == if q in s.schedulers[p].locks then None else Lookup(s.keys, q))
            && t.schedulers == s.schedulers[p := s.schedulers[p].(stopped := true)]
            && t.queues == s.queues && t.now == s.now
    ensures var t := Apply(s, Stop(p));
            forall r, q | r in t.schedulers && q in s.schedulers[p].locks ::
              q in Apply(t, Acquire(r, q)).schedulers[r].locks
  {
  }

  function EnqueueSteps(p: nat, count: nat): seq<Step> {
    if count == 0 then [] else [EnqueueNext(p)] + EnqueueSteps(p, count - 1)
  }

  /** Enqueueing the names of a pass one by one, without interruption, is what Queue.EnqueueScheduledJobs does. */
  lemma {:induction false} EnqueueScheduledJobsIsSteps(s: System, p: nat)
    requires p in s.schedulers && s.schedulers[p].pass.Some?
    requires s.schedulers[p].pass.value.queue in s.queues && s.schedulers[p].pass.value.names != []
    ensures var pass := s.schedulers[p].pass.value;
            var t := After(s, EnqueueSteps(p, |pass.names|));
            && Runs(s, EnqueueSteps(p, |pass.names|))
            && p in t.schedulers && t.schedulers[p].pass.None?
            && pass.queue in t.queues
            && t.queues[pass.queue].state == JQ.Promoted(s.queues[pass.queue].state, pass.names, pass.loaded, s.now)
    decreases |s.schedulers[p].pass.value.names|
  {
    var pass := s.schedulers[p].pass.value;
    var t := Apply(s, EnqueueNext(p));
    var rest := EnqueueSteps(p, |pass.names| - 1);
    assert ([EnqueueNext(p)] + rest)[1..] == rest;
    if |pass.names| > 1 {
      EnqueueScheduledJobsIsSteps(t, p);
    }
  }

  /**
   * What dequeue_any removes beside the job it returns are names that cannot be loaded: it is a Purge step, and
   * together with prepare_for_execution a Take step after that.
   */
  lemma DequeueIsTake(q: Queue, now: int, after: JQ.State, except: Option<Name>)
    requires Q.Purged(q.state, after, except)
    requires except.Some? ==> except.value !in after.queued && IsLeast(JQ.LiveQueued(q.state), except.value)
    ensures var dead := q.state.queued.Keys - after.queued.Keys - (if except.Some? then {except.value} else {});
            && Possible(q, Purge(dead))
            && var purged := Done(q, Purge(dead), now);
               && (except.None? ==> after == purged.state)
               && (except.Some? ==>
                     && Possible(purged, Take(except.value))
                     && Done(purged, Take(except.value), now).state
                        == JQ.Prepared(after, except.value, q.state.jobs[except.value], now))
  {
    var dead := q.state.queued.Keys - after.queued.Keys - (if except.Some? then {except.value} else {});
    var purged := Done(q, Purge(dead), now).state;
    assert JQ.LiveQueued(purged) == JQ.LiveQueued(q.state);
    if except.None? {
      assert after.queued == q.state.queued - dead;
    } else {
      assert except.value in JQ.LiveQueued(q.state);
      assert after.queued == purged.queued - {except.value};
    }
  }
}
