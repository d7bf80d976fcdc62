/** When the queued registry, a sorted set, behaves as a first-in first-out list. */
module Fifo {
  import opened SortedSet
  import JQ = JobQueue

  lemma LeastComesFirst(z: ZSet, n: Name)
    requires IsLeast(z, n)
    ensures z != map[] && Least(z) == n && Sorted(z) == [n] + Sorted(z - {n})
  {
  }

  predicate Last(z: ZSet, n: Name, score: int) {
    n !in z && forall m | m in z :: z[m] < score || (z[m] == score && m < n)
  }

  lemma FirstStaysFirst(z: ZSet, n: Name, score: int)
    requires Last(z, n, score) && z != map[]
    ensures IsLeast(z[n := score], Least(z)) && Last(z - {Least(z)}, n, score)
    ensures z[n := score] - {Least(z)} == (z - {Least(z)})[n := score]
    ensures |z - {Least(z)}| < |z|
  {
    var first, y := Least(z), z[n := score];
    forall m | m in y && m != first ensures Precedes(y, first, m) {
      if m != n {
        assert Precedes(z, first, m);
      }
    }
    assert (z - {first}).Keys == z.Keys - {first};
  }

  lemma OnlyOne(n: Name, score: int)
    ensures Sorted(map[n := score]) == [n]
  {
    var z := map[n := score];
    LeastComesFirst(z, n);
    assert z - {n} == map[];
  }

  lemma {:induction false} GreatestComesLast(z: ZSet, n: Name, score: int)
    requires Last(z, n, score)
    ensures Sorted(z[n := score]) == Sorted(z) + [n]
    decreases |z|
  {
    if z == map[] {
      OnlyOne(n, score);
      assert z[n := score] == map[n := score];
    } else {
      var first, rest := Least(z), z - {Least(z)};
      FirstStaysFirst(z, n, score);
      GreatestComesLast(rest, n, score);
      LeastComesFirst(z, first);
      LeastComesFirst(z[n := score], first);
    }
  }

  /** No queued score is ahead of the clock, which is so while the clock does not go back. */
  predicate Clocked(z: ZSet, now: int) {
    forall m | m in z :: z[m] <= now
  }

  lemma ScoreIsLast(z: ZSet, front: bool, now: int)
    requires Clocked(z, now)
    ensures forall m | m in z :: z[m] <= JQ.EnqueueScore(z, front, now)
    ensures JQ.EnqueueScore(z, front, now) <= now
  {
  }

  /**
   * A job goes to the end of the queue, asked to the front or not, exactly when its name is greater than every name
   * queued with the score it gets. Jobs enqueued while the queue is not empty, and not to the front, all get the
   * greatest score that is queued, unless that is 0; any other gets the present.
   */
  lemma EnqueueAppends(z: ZSet, n: Name, front: bool, now: int)
    requires Clocked(z, now) && n !in z
    ensures var score := JQ.EnqueueScore(z, front, now);
            && (Sorted(z[n := score]) == Sorted(z) + [n] <==> forall m | m in z && z[m] == score :: m < n)
            && (forall m | m in z && (forall k | k in z :: z[k] <= z[m]) ::
                  score == if front || z[m] == 0 then now else z[m])
            && (z == map[] ==> score == now)
  {
    var score := JQ.EnqueueScore(z, front, now);
    ScoreIsLast(z, front, now);
    if forall m | m in z && z[m] == score :: m < n {
      forall m | m in z ensures z[m] < score || (z[m] == score && m < n) {}
      GreatestComesLast(z, n, score);
    } else if Sorted(z[n := score]) == Sorted(z) + [n] {
      var m :| m in z && z[m] == score && !(m < n);
      SortedMembers(z);
      var i :| 0 <= i < |z| && Sorted(z)[i] == m;
      assert Sorted(z[n := score])[i] == m && Sorted(z[n := score])[|z|] == n;
      SortedPair(z[n := score], i, |z|);
    }
  }

  datatype Op = Enqueue(n: Name, front: bool) | Dequeue | Tick(seconds: nat)

  datatype Registry = Registry(now: int, queued: ZSet, out: seq<Name>)

  datatype List = List(items: seq<Name>, out: seq<Name>)

  function OnRegistry(r: Registry, op: Op): Registry {
    match op
    case Enqueue(n, front) => r.(queued := r.queued[n := JQ.EnqueueScore(r.queued, front, r.now)])
    case Dequeue =>
      if r.queued == map[] then r else
        var n := Least(r.queued);
        r.(queued := r.queued - {n}, out := r.out + [n])
    case Tick(seconds) => r.(now := r.now + seconds)
  }

  function OnList(l: List, op: Op): List {
    match op
    case Enqueue(n, _) => l.(items := l.items + [n])
    case Dequeue => if l.items == [] then l else List(l.items[1..], l.out + [l.items[0]])
    case Tick(_) => l
  }

  function RunRegistry(r: Registry, ops: seq<Op>): Registry
    decreases |ops|
  {
    if ops == [] then r else RunRegistry(OnRegistry(r, ops[0]), ops[1..])
  }

  function RunList(l: List, ops: seq<Op>): List
    decreases |ops|
  {
    if ops == [] then l else RunList(OnList(l, ops[0]), ops[1..])
  }

  /** Every enqueued name is greater than those before it, which starts from names below `bound`. */
  predicate Increasing(ops: seq<Op>, bound: nat)
    decreases |ops|
  {
    ops != [] ==>
      if ops[0].Enqueue? then bound <= ops[0].n && Increasing(ops[1..], ops[0].n + 1) else Increasing(ops[1..], bound)
  }

  ghost predicate Tidy(r: Registry, bound: nat) {
    Clocked(r.queued, r.now) && forall m | m in r.queued :: m < bound
  }

  /** The operation keeps the registry tidy, and does to its list what it does to a list. */
  ghost predicate OnBoth(r: Registry, op: Op, bound: nat) {
    var s := OnRegistry(r, op);
    Tidy(s, bound) && OnList(List(Sorted(r.queued), r.out), op) == List(Sorted(s.queued), s.out)
  }

  lemma EnqueueOnBoth(r: Registry, n: Name, front: bool, bound: nat)
    requires Tidy(r, bound) && bound <= n
    ensures OnBoth(r, Enqueue(n, front), n + 1)
  {
    EnqueueAppends(r.queued, n, front, r.now);
    ScoreIsLast(r.queued, front, r.now);
  }

  lemma DequeueOnBoth(r: Registry, bound: nat)
    requires Tidy(r, bound)
    ensures OnBoth(r, Dequeue, bound)
  {
    if r.queued != map[] {
      LeastComesFirst(r.queued, Least(r.queued));
    }
  }

  lemma TickOnBoth(r: Registry, seconds: nat, bound: nat)
    requires Tidy(r, bound)
    ensures OnBoth(r, Tick(seconds), bound)
  {
  }

  lemma OneOperation(r: Registry, op: Op, bound: nat)
    requires Tidy(r, bound) && (op.Enqueue? ==> bound <= op.n)
    ensures OnBoth(r, op, if op.Enqueue? then op.n + 1 else bound)
  {
    match op
    case Enqueue(n, front) => EnqueueOnBoth(r, n, front, bound);
    case Dequeue => DequeueOnBoth(r, bound);
    case Tick(seconds) => TickOnBoth(r, seconds, bound);
  }

  /** With increasing names, a queue under any run of operations does what a list with append and remove-first does. */
  lemma {:induction false} RegistryIsList(r: Registry, ops: seq<Op>, bound: nat)
    requires Tidy(r, bound) && Increasing(ops, bound)
    ensures var t := RunRegistry(r, ops);
            RunList(List(Sorted(r.queued), r.out), ops) == List(Sorted(t.queued), t.out)
    decreases |ops|
  {
    if ops != [] {
      OneOperation(r, ops[0], bound);
      RegistryIsList(OnRegistry(r, ops[0]), ops[1..], if ops[0].Enqueue? then ops[0].n + 1 else bound);
    }
  }
}
