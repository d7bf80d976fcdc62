/** The scheduler locks: KvLock keys that are set if absent, expire, and are extended or deleted by whoever asks. */
module Leases {
  import opened Wrappers

  /** What a scheduler adds to its interval when it sets or extends a lock. */
  const GRACE: nat := 60

  datatype Lease = Lease(owner: nat, expiresAt: int)

  type Keys = map<string, Lease>

  predicate Held(keys: Keys, q: string, now: int) {
    q in keys && now < keys[q].expiresAt
  }

  /** KvLock.acquire: SET with NX and EX. */
  function Acquired(keys: Keys, q: string, owner: nat, ttl: nat, now: int): Keys {
    if Held(keys, q, now) then keys else keys[q := Lease(owner, now + ttl)]
  }

  /** KvLock.expire: whoever calls it, and only if the key is there. */
  function Extended(keys: Keys, q: string, ttl: nat, now: int): Keys {
    if Held(keys, q, now) then keys[q := keys[q].(expiresAt := now + ttl)] else keys
  }

  /** The queues whose lock an attempt on all of `qs` gets. */
  function Free(keys: Keys, qs: seq<string>, now: int): set<string> {
    set q | q in qs && !Held(keys, q, now)
  }

  /** The keys after the locks of `free` were set. */
  function AllAcquired(keys: Keys, free: set<string>, owner: nat, ttl: nat, now: int): Keys {
    map q | q in keys.Keys + free :: if q in free then Lease(owner, now + ttl) else keys[q]
  }

  /** The keys after all of `qs` were extended. */
  function AllExtended(keys: Keys, qs: set<string>, ttl: nat, now: int): Keys {
    map q | q in keys :: if q in qs && Held(keys, q, now) then keys[q].(expiresAt := now + ttl) else keys[q]
  }

  /** Times of the locks `qs`, all set to now. */
  function Stamped(locks: map<string, int>, qs: set<string>, now: int): map<string, int> {
    map q | q in locks.Keys + qs :: if q in qs then now else locks[q]
  }

  datatype Attempt = Attempt(keys: Keys, locks: map<string, int>, got: set<string>)

  /** Asking for the locks of `qs` one after the other. */
  function Attempted(a: Attempt, qs: seq<string>, owner: nat, ttl: nat, now: int): Attempt
    decreases |qs|
  {
    if qs == [] then a
    else if Held(a.keys, qs[0], now) then Attempted(a, qs[1..], owner, ttl, now)
    else
      var got := Attempt(Acquired(a.keys, qs[0], owner, ttl, now), a.locks[qs[0] := now], a.got + {qs[0]});
      Attempted(got, qs[1..], owner, ttl, now)
  }

  lemma OneMoreFree(keys: Keys, q: string, qs: seq<string>, owner: nat, ttl: nat, now: int)
    requires ttl > 0
    ensures Free(keys, [q] + qs, now) ==
            (if Held(keys, q, now) then {} else {q}) + Free(Acquired(keys, q, owner, ttl, now), qs, now)
  {
    assert forall r :: r in [q] + qs <==> r == q || r in qs;
  }

  lemma OneMoreAcquired(a: Attempt, q: string, rest: set<string>, owner: nat, ttl: nat, now: int)
    requires !Held(a.keys, q, now)
    ensures AllAcquired(Acquired(a.keys, q, owner, ttl, now), rest, owner, ttl, now)
            == AllAcquired(a.keys, {q} + rest, owner, ttl, now)
    ensures Stamped(a.locks[q := now], rest, now) == Stamped(a.locks, {q} + rest, now)
  {
  }

  lemma NothingAcquired(a: Attempt, owner: nat, ttl: nat, now: int)
    ensures AllAcquired(a.keys, {}, owner, ttl, now) == a.keys
    ensures Stamped(a.locks, {}, now) == a.locks
  {
  }

  lemma NothingExtended(keys: Keys, locks: map<string, int>, ttl: nat, now: int)
    ensures AllExtended(keys, {}, ttl, now) == keys && Stamped(locks, {}, now) == locks
  {
  }

  lemma OneMoreExtended(keys: Keys, locks: map<string, int>, q: string, rest: set<string>, ttl: nat, now: int)
    requires ttl > 0
    ensures AllExtended(Extended(keys, q, ttl, now), rest, ttl, now) == AllExtended(keys, {q} + rest, ttl, now)
    ensures Stamped(locks[q := now], rest, now) == Stamped(locks, {q} + rest, now)
  {
  }

  /** The keys of `qs` that are missing or have expired are the owner's, and all others are as they were. */
  ghost predicate GotFree(
      before: Keys, after: Keys, locks: map<string, int>, locksAfter: map<string, int>, qs: seq<string>,
      owner: nat, ttl: nat, now: int) {
    forall q ::
      var free := q in qs && (q !in before || before[q].expiresAt <= now);
      && Lookup(after, q) == (if free then Some(Lease(owner, now + ttl)) else Lookup(before, q))
      && Lookup(locksAfter, q) == (if free then Some(now) else Lookup(locks, q))
  }

  lemma AcquiringMeans(keys: Keys, locks: map<string, int>, qs: seq<string>, owner: nat, ttl: nat, now: int)
    ensures var free := Free(keys, qs, now);
            var after := AllAcquired(keys, free, owner, ttl, now);
            GotFree(keys, after, locks, Stamped(locks, free, now), qs, owner, ttl, now)
  {
  }

  /** One after the other gives each lock that was free, once. */
  lemma {:induction false} AttemptGetsTheFree(a: Attempt, qs: seq<string>, owner: nat, ttl: nat, now: int)
    requires ttl > 0
    ensures var free := Free(a.keys, qs, now);
            Attempted(a, qs, owner, ttl, now)
            == Attempt(AllAcquired(a.keys, free, owner, ttl, now), Stamped(a.locks, free, now), a.got + free)
    decreases |qs|
  {
    var free := Free(a.keys, qs, now);
    if qs == [] {
      assert free == {};
      NothingAcquired(a, owner, ttl, now);
    } else {
      assert qs == [qs[0]] + qs[1..];
      OneMoreFree(a.keys, qs[0], qs[1..], owner, ttl, now);
      if Held(a.keys, qs[0], now) {
        AttemptGetsTheFree(a, qs[1..], owner, ttl, now);
        assert free == Free(a.keys, qs[1..], now);
      } else {
        var b := Attempt(Acquired(a.keys, qs[0], owner, ttl, now), a.locks[qs[0] := now], a.got + {qs[0]});
        var rest := Free(b.keys, qs[1..], now);
        AttemptGetsTheFree(b, qs[1..], owner, ttl, now);
        OneMoreAcquired(a, qs[0], rest, owner, ttl, now);
        assert b.got + rest == a.got + free;
      }
    }
  }
}
