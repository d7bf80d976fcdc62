/** The worker's order of queues, and how long it stays idle. */
module Workers {
  import opened Wrappers
  import JQ = JobQueue
  import Q = Queues

  datatype Strategy = DEFAULT | ROUND_ROBIN | RANDOM

  function IndexOf(order: seq<string>, q: string): (i: nat)
    ensures i <= |order| && (i < |order| ==> order[i] == q) && forall j | 0 <= j < i :: order[j] != q
  {
    if order == [] || order[0] == q then 0 else 1 + IndexOf(order[1..], q)
  }

  /** The order after the queue at `pos` was served, round-robin. */
  function Rotated(order: seq<string>, pos: nat): seq<string>
    requires pos < |order|
  {
    order[pos + 1..] + order[..pos + 1]
  }

  ghost predicate IsRotation(order: seq<string>, queues: seq<string>) {
    exists k | 0 <= k <= |queues| :: order == queues[k..] + queues[..k]
  }

  lemma RotationAgain(order: seq<string>, queues: seq<string>, pos: nat)
    requires IsRotation(order, queues) && pos < |order|
    ensures IsRotation(Rotated(order, pos), queues)
  {
    var k :| 0 <= k <= |queues| && order == queues[k..] + queues[..k];
    var j := pos + 1;
    var m := if k + j <= |queues| then k + j else k + j - |queues|;
    RotateTwice(queues, k, j, m);
  }

  lemma RotateTwice(queues: seq<string>, k: nat, j: nat, m: nat)
    requires k <= |queues| && j <= |queues| && m <= |queues|
    requires m == k + j || m == k + j - |queues|
    ensures var order := queues[k..] + queues[..k];
            order[j..] + order[..j] == queues[m..] + queues[..m]
  {
    var order := queues[k..] + queues[..k];
    if m == k + j {
      assert order[j..] == queues[m..] + queues[..k];
      assert order[..j] == queues[k..m];
      assert queues[..k] + queues[k..m] == queues[..m];
    } else {
      assert order[j..] == queues[m..k];
      assert order[..j] == queues[k..] + queues[..m];
      assert queues[m..k] + queues[k..] == queues[m..];
    }
  }

  /** One job was taken from the first queue that had one, and nothing else but dead names is gone from any queue. */
  ghost predicate Served(order: seq<string>, before: seq<JQ.State>, after: seq<JQ.State>, served: Option<string>)
    requires |order| == |before|
  {
    if served.None? then Q.NothingLive(before) && Q.AllPurged(before, after)
    else exists f: Q.Found :: Q.IsFirstLive(before, f) && Q.TakenOut(before, after, f) && served == Some(order[f.from])
  }

  predicate AllDifferent(order: seq<string>) {
    forall i, j | 0 <= i < j < |order| :: order[i] != order[j]
  }

  class Worker {
    const queues: seq<string>
    const strategy: Strategy
    var orderedQueues: seq<string>

    constructor (queues: seq<string>, strategy: Strategy)
      ensures this.queues == queues && this.strategy == strategy && orderedQueues == queues
    {
      this.queues, this.strategy, orderedQueues := queues, strategy, queues;
    }

    /**
     * Worker.reorder_queues; `shuffled` is what the random strategy makes of the order. A queue that is not in the
     * order raises.
     */
    method ReorderQueues(reference: string, shuffled: seq<string>) returns (ok: bool)
      requires multiset(shuffled) == multiset(orderedQueues)
      modifies this
      ensures ok <==> strategy != ROUND_ROBIN || reference in old(orderedQueues)
      ensures !ok || strategy == DEFAULT ==> orderedQueues == old(orderedQueues)
      ensures strategy == RANDOM ==> orderedQueues == shuffled
      ensures ok && strategy == ROUND_ROBIN ==>
                orderedQueues == Rotated(old(orderedQueues), IndexOf(old(orderedQueues), reference))
      ensures strategy != RANDOM && old(IsRotation(orderedQueues, queues)) ==> IsRotation(orderedQueues, queues)
      ensures multiset(orderedQueues) == old(multiset(orderedQueues))
    {
      ok := true;
      match strategy
      case DEFAULT =>
      case RANDOM => orderedQueues := shuffled;
      case ROUND_ROBIN =>
        var pos := IndexOf(orderedQueues, reference);
        if pos == |orderedQueues| {
          return false;
        }
        assert orderedQueues == orderedQueues[..pos + 1] + orderedQueues[pos + 1..];
        if IsRotation(orderedQueues, queues) {
          RotationAgain(orderedQueues, queues, pos);
        }
        orderedQueues := orderedQueues[pos + 1..] + orderedQueues[..pos + 1];
    }

    /**
     * One turn of the dequeue loop that does not wait: Queue.dequeue_any over the ordered queues, then reorder_queues
     * at the one that was served. `objects` are the queues of that order.
     */
    method TakeNext(objects: seq<Q.Queue>, shuffled: seq<string>) returns (served: Option<string>)
      requires |objects| == |orderedQueues| && Q.Distinct(objects) && AllDifferent(orderedQueues)
      requires multiset(shuffled) == multiset(orderedQueues)
      modifies this, objects
      ensures Served(old(orderedQueues), old(Q.States(objects)), Q.States(objects), served)
      ensures var live := old(LiveQueues(orderedQueues, Q.States(objects)));
              var pos := FirstLive(old(orderedQueues), live);
              && served == (if pos < |old(orderedQueues)| then Some(old(orderedQueues)[pos]) else None)
              && (strategy == ROUND_ROBIN ==>
                    orderedQueues == if pos < |old(orderedQueues)| then Rotated(old(orderedQueues), pos)
                                     else old(orderedQueues))
    {
      var from := TakeOne(objects, orderedQueues);
      if from.None? {
        return None;
      }
      served := Some(orderedQueues[from.value]);
      var _ := ReorderQueues(orderedQueues[from.value], shuffled);
    }
  }

  /** Queue.dequeue_any over queues with the names `order`, without waiting: which of them a job was taken from. */
  method TakeOne(objects: seq<Q.Queue>, order: seq<string>) returns (from: Option<nat>)
    requires |objects| == |order| && Q.Distinct(objects) && AllDifferent(order)
    modifies objects
    ensures from.Some? ==> from.value < |order| && IndexOf(order, order[from.value]) == from.value
    ensures Served(order, old(Q.States(objects)), Q.States(objects),
                   if from.Some? then Some(order[from.value]) else None)
    ensures var pos := FirstLive(order, old(LiveQueues(order, Q.States(objects))));
            from == if pos < |order| then Some(pos) else None
  {
    ghost var before := Q.States(objects);
    var r := Q.DequeueAny(objects, None);
    FirstLiveIsDequeued(order, before);
    if r.value.None? {
      return None;
    }
    DequeuedIsFirstLive(order, before, r.value.value);
    from := Some(r.value.value.from);
    assert Q.IsFirstLive(before, r.value.value) && Q.TakenOut(before, Q.States(objects), r.value.value);
  }

  /** The position of the first queue that has a live job. */
  function FirstLive(order: seq<string>, live: set<string>): (i: nat)
    ensures i <= |order| && (i < |order| ==> order[i] in live) && forall j | 0 <= j < i :: order[j] !in live
  {
    if order == [] || order[0] in live then 0 else 1 + FirstLive(order[1..], live)
  }

  /** The names of the queues that have a job to take. */
  function LiveQueues(order: seq<string>, states: seq<JQ.State>): set<string>
    requires |states| == |order|
  {
    set i | 0 <= i < |order| && JQ.LiveQueued(states[i]) != map[] :: order[i]
  }

  /** No queue is found live exactly when nothing can be taken. */
  lemma FirstLiveIsDequeued(order: seq<string>, states: seq<JQ.State>)
    requires |states| == |order|
    ensures FirstLive(order, LiveQueues(order, states)) == |order| <==> Q.NothingLive(states)
  {
    var live := LiveQueues(order, states);
    var pos := FirstLive(order, live);
    if pos < |order| {
      var i :| 0 <= i < |order| && JQ.LiveQueued(states[i]) != map[] && order[i] == order[pos];
    } else {
      forall i | 0 <= i < |order| ensures JQ.LiveQueued(states[i]) == map[] {
        assert order[i] !in live;
      }
    }
  }

  /** The queue that dequeue_any takes a job from is the first live one, which a round-robin turn moves last. */
  lemma DequeuedIsFirstLive(order: seq<string>, states: seq<JQ.State>, f: Q.Found)
    requires |states| == |order| && AllDifferent(order) && Q.IsFirstLive(states, f)
    ensures FirstLive(order, LiveQueues(order, states)) == f.from && IndexOf(order, order[f.from]) == f.from
  {
    var live := LiveQueues(order, states);
    assert order[f.from] in live;
    forall j | 0 <= j < f.from ensures order[j] !in live {
      if order[j] in live {
        var i :| 0 <= i < |order| && JQ.LiveQueued(states[i]) != map[] && order[i] == order[j];
      }
    }
  }

  /** The queue served by the k-th dequeue of a round-robin worker, when `lives[i]` have a job at the i-th. */
  function ServedAt(order: seq<string>, lives: seq<set<string>>, k: nat): Option<string>
    requires k < |lives|
    decreases k
  {
    var pos := FirstLive(order, lives[0]);
    if k == 0 then (if pos < |order| then Some(order[pos]) else None)
    else ServedAt(if pos < |order| then Rotated(order, pos) else order, lives[1..], k - 1)
  }

  /** A queue at index i that keeps having jobs is served within i + 1 dequeues. */
  lemma {:induction false} ServedInTurn(order: seq<string>, lives: seq<set<string>>, i: nat)
    requires i < |order| && i < |lives|
    requires forall k | 0 <= k < |lives| :: order[i] in lives[k]
    ensures exists k | 0 <= k <= i :: ServedAt(order, lives, k) == Some(order[i])
    decreases i
  {
    var pos := FirstLive(order, lives[0]);
    assert pos <= i;
    if pos == i {
      assert ServedAt(order, lives, 0) == Some(order[i]);
    } else {
      var next := Rotated(order, pos);
      assert next[i - pos - 1] == order[i];
      ServedInTurn(next, lives[1..], i - pos - 1);
      var k :| 0 <= k <= i - pos - 1 && ServedAt(next, lives[1..], k) == Some(order[i]);
      assert ServedAt(order, lives, k + 1) == Some(order[i]);
    }
  }

  /** `math.ceil(ms / 1000)`, also of a negative number. */
  function CeilSeconds(ms: int): (s: int)
    ensures 1000 * (s - 1) < ms <= 1000 * s
  {
    -((-ms) / 1000)
  }

  datatype Outcome = Found | Nothing | Refused

  /** The timeout that the next pop is called with. */
  function Bounded(timeout: Option<nat>, left: Option<nat>): Option<nat> {
    if timeout.Some? && left.Some? && left.value < timeout.value then left else timeout
  }

  /**
   * Worker.dequeue_job_and_maintain_ttl: `arrives(k)` says whether the k-th pop finds a job, and `late(k)` by how many
   * milliseconds its round takes longer than the timeout. Times are in milliseconds, timeouts in seconds. `timeouts`
   * are those passed to the pops. Without a maximal idle time the loop ends only when a job arrives, the `arrival`-th
   * pop at the latest. A pop without a timeout does not wait, and one with timeout 0 is refused.
   */
  method DequeueAndMaintainTtl(
      timeout: Option<nat>, maxIdle: Option<nat>, arrives: nat -> bool, late: nat -> nat, ghost arrival: nat)
    returns (r: Outcome, idle: nat, timeouts: seq<Option<nat>>)
    requires timeout.Some? && maxIdle.None? ==> arrives(arrival)
    ensures r == Refused <==> Bounded(timeout, maxIdle) == Some(0)
    ensures r == Refused || timeout.None? ==> timeouts == [Bounded(timeout, maxIdle)]
    ensures |timeouts| > 0 && (r != Refused ==> (r == Found <==> arrives(|timeouts| - 1)))
    ensures forall i | 0 <= i < |timeouts| - 1 :: !arrives(i)
    ensures r != Refused && timeout.Some? ==>
              forall i | 0 <= i < |timeouts| ::
                timeouts[i].Some? && 0 < timeouts[i].value <= timeout.value
                && (maxIdle.Some? ==> timeouts[i].value <= maxIdle.value)
    ensures maxIdle.None? && timeout.Some? && r != Refused ==> r == Found
    ensures r == Nothing && timeout.Some? ==>
              maxIdle.Some? && 1000 * maxIdle.value <= idle < 1000 * (maxIdle.value + 1) + late(|timeouts| - 1)
    ensures r == Found && maxIdle.Some? && timeout.Some? ==> idle < 1000 * maxIdle.value
  {
    var wait, left := timeout, maxIdle;
    idle, timeouts := 0, [];
    while true
      invariant wait.Some? <==> timeout.Some?
      invariant left.Some? <==> maxIdle.Some?
      invariant wait.Some? ==> wait.value <= timeout.value
      invariant timeouts == [] ==> wait == timeout && left == maxIdle && idle == 0
      invariant timeouts != [] ==> Bounded(timeout, maxIdle) != Some(0) && wait.Some? && 0 < wait.value
      invariant timeouts != [] && left.Some? ==> 0 < left.value
      invariant left.Some? ==> left.value == CeilSeconds(1000 * maxIdle.value - idle) && left.value <= maxIdle.value
      invariant forall i | 0 <= i < |timeouts| ::
                  timeouts[i].Some? && 0 < timeouts[i].value <= timeout.value
                  && (maxIdle.Some? ==> timeouts[i].value <= maxIdle.value) && !arrives(i)
      invariant timeout.Some? && maxIdle.None? ==> |timeouts| <= arrival
      decreases if maxIdle.Some? then 1000 * maxIdle.value - idle else arrival - |timeouts|
    {
      wait := Bounded(wait, left);
      var k := |timeouts|;
      timeouts := timeouts + [wait];
      if wait == Some(0) {
        return Refused, idle, timeouts;
      }
      if arrives(k) {
        return Found, idle, timeouts;
      }
      if wait.None? {
        return Nothing, idle, timeouts;
      }
      idle := idle + 1000 * wait.value + late(k);
      if maxIdle.Some? {
        var leftNow := CeilSeconds(1000 * maxIdle.value - idle);
        if leftNow <= 0 {
          return Nothing, idle, timeouts;
        }
        left := Some(leftNow);
      }
    }
  }
}
