/** Redis sorted sets, as the job registries use them: members ordered by (score, name). */
module SortedSet {
  import opened Wrappers

  /** A job name, represented by its rank in byte order, which is how Redis breaks ties between equal scores. */
  type Name = nat

  type ZSet = map<Name, int>

  predicate Precedes(z: ZSet, a: Name, b: Name)
    requires a in z && b in z
  {
    z[a] < z[b] || (z[a] == z[b] && a < b)
  }

  predicate IsLeast(z: ZSet, n: Name) {
    n in z && forall m | m in z && m != n :: Precedes(z, n, m)
  }

  lemma {:induction false} LeastExists(z: ZSet)
    requires z != map[]
    ensures exists n :: IsLeast(z, n)
    decreases |z|
  {
    var n :| n in z;
    var rest := z - {n};
    assert rest.Keys == z.Keys - {n};
    if rest == map[] {
      assert z.Keys == rest.Keys + {n} == {n};
      assert IsLeast(z, n);
    } else {
      LeastExists(rest);
      var m :| IsLeast(rest, m);
      var least := if Precedes(z, n, m) then n else m;
      forall k | k in z && k != least ensures Precedes(z, least, k) {
        if k != n { assert k in rest; }
      }
      assert IsLeast(z, least);
    }
  }

  /** The member `zpopmin` takes. */
  function Least(z: ZSet): (n: Name)
    requires z != map[]
    ensures IsLeast(z, n)
  {
    LeastExists(z);
    var n :| n in z && IsLeast(z, n);
    n
  }

  /** All members in (score, name) order: `zrange 0 -1`. */
  function Sorted(z: ZSet): (s: seq<Name>)
    ensures |s| == |z|
    decreases |z|
  {
    if z == map[] then [] else
      var n := Least(z);
      var rest := z - {n};
      assert rest.Keys == z.Keys - {n};
      [n] + Sorted(rest)
  }

  ghost predicate InOrder(z: ZSet, s: seq<Name>) {
    && (forall n :: n in s <==> n in z)
    && (forall i, j | 0 <= i < j < |s| :: s[i] in z && s[j] in z && Precedes(z, s[i], s[j]))
  }

  /** `Sorted` lists every member once, each before all members it precedes. */
  lemma {:induction false} SortedOrder(z: ZSet)
    ensures InOrder(z, Sorted(z))
    decreases |z|
  {
    if z != map[] {
      var n := Least(z);
      var rest := z - {n};
      assert rest.Keys == z.Keys - {n};
      SortedOrder(rest);
      PrependLeast(z, n, rest, Sorted(rest));
    }
  }

  lemma PrependLeast(z: ZSet, n: Name, rest: ZSet, s: seq<Name>)
    requires IsLeast(z, n) && rest == z - {n} && InOrder(rest, s)
    ensures InOrder(z, [n] + s)
  {
    var t := [n] + s;
    forall i, j | 0 <= i < j < |t| ensures t[i] in z && t[j] in z && Precedes(z, t[i], t[j]) {
      assert t[j] == s[j - 1] && t[j] in rest;
      if i > 0 { assert t[i] == s[i - 1] && t[i] in rest; }
    }
    forall m ensures m in t <==> m in z {
      assert m in t <==> m == n || m in s;
      assert m in rest <==> m in z && m != n;
    }
  }

  lemma SortedMembers(z: ZSet)
    ensures forall n :: n in Sorted(z) <==> n in z
  {
    SortedOrder(z);
  }

  lemma SortedPair(z: ZSet, i: nat, j: nat)
    requires i < j < |z|
    ensures Sorted(z)[i] in z && Sorted(z)[j] in z && Precedes(z, Sorted(z)[i], Sorted(z)[j])
  {
    SortedOrder(z);
  }

  lemma SortedDistinct(z: ZSet)
    ensures forall i, j | 0 <= i < j < |z| :: Sorted(z)[i] != Sorted(z)[j]
  {
    forall i, j | 0 <= i < j < |z| ensures Sorted(z)[i] != Sorted(z)[j] {
      SortedPair(z, i, j);
    }
  }

  /** `zrange 0 count-1`: the first members in order. */
  function First(z: ZSet, count: nat): seq<Name> {
    if |z| <= count then Sorted(z) else Sorted(z)[..count]
  }

  lemma FirstMembers(z: ZSet, count: nat)
    ensures forall n | n in First(z, count) :: n in z
  {
    SortedMembers(z);
    var all := Sorted(z);
    forall n | n in First(z, count) ensures n in z {
      assert n in all;
    }
  }

  lemma FirstDistinct(z: ZSet, count: nat)
    ensures forall i, j | 0 <= i < j < |First(z, count)| :: First(z, count)[i] != First(z, count)[j]
  {
    SortedDistinct(z);
  }

  /** The first members are as many as asked for, in order, and the others come after them. */
  lemma FirstComeFirst(z: ZSet, count: nat)
    ensures |First(z, count)| == (if |z| <= count then |z| else count) && forall n | n in First(z, count) :: n in z
    ensures forall i, j | 0 <= i < j < |First(z, count)| :: Precedes(z, First(z, count)[i], First(z, count)[j])
    ensures forall n, m | n in First(z, count) && m in z && m !in First(z, count) :: Precedes(z, n, m)
  {
    var first := First(z, count);
    FirstMembers(z, count);
    forall i, j | 0 <= i < j < |first| ensures Precedes(z, first[i], first[j]) {
      SortedPair(z, i, j);
    }
    SortedMembers(z);
    forall n, m | n in first && m in z && m !in first ensures Precedes(z, n, m) {
      var i :| 0 <= i < |first| && first[i] == n;
      var j :| 0 <= j < |z| && Sorted(z)[j] == m;
      SortedPair(z, i, j);
    }
  }

  /** `zrangebyscore lo hi`: the members scored in [lo, hi], as a sorted set of their own. */
  function Between(z: ZSet, lo: int, hi: int): ZSet {
    map n | n in z && lo <= z[n] <= hi :: z[n]
  }

  /** `zremrangebyscore 0 hi`: what a registry's cleanup keeps. */
  function Cleaned(z: ZSet, hi: int): ZSet {
    map n | n in z && !(0 <= z[n] <= hi) :: z[n]
  }

  /** `zrange -1 -1 withscores`: the greatest score, if there is a member. */
  function LastScore(z: ZSet): (r: Option<int>)
    ensures r.None? <==> z == map[]
    ensures r.Some? ==> (exists n :: n in z && z[n] == r.value) && forall n | n in z :: z[n] <= r.value
  {
    if z == map[] then None else
      SortedOrder(z);
      var last := Sorted(z)[|z| - 1];
      assert last in Sorted(z);
      assert forall n | n in z :: z[n] <= z[last] by {
        forall n | n in z ensures z[n] <= z[last] {
          assert n in Sorted(z);
          var i :| 0 <= i < |z| && Sorted(z)[i] == n;
          if i < |z| - 1 { assert Precedes(z, Sorted(z)[i], Sorted(z)[|z| - 1]); }
        }
      }
      Some(z[last])
  }
}
