/**
 * `asyncPool(poolLimit, array, iteratorFn)`: runs the worker over every
 * item, keeping at most `poolLimit` calls in flight when throttling is on
 * (that is, when `poolLimit <= array.length`), and resolves to the
 * workers' results in input order.
 *
 * The event loop is modelled as a sequential step machine: a worker is
 * started when the loop reaches its item; workers settle only while the
 * loop awaits `Promise.race(executing)` (a nonempty batch of them, chosen
 * by the scheduler) and, at the end, while `Promise.all(ret)` waits for
 * the rest (in any order). The worker's eventual value is a function of
 * its item; a worker that rejects is not modelled (every caller in the
 * source catches inside its worker).
 */
module AsyncPool {
  import opened Wrappers

  /** The number of started workers whose promise has not settled yet. */
  function Pending<R>(ret: seq<Option<R>>): (n: nat)
    ensures n <= |ret|
    ensures n == 0 <==> forall k :: 0 <= k < |ret| ==> ret[k].Some?
  {
    if ret == [] then 0 else (if ret[0].None? then 1 else 0) + Pending(ret[1..])
  }

  lemma {:induction false} PendingAppend<R>(ret: seq<Option<R>>, x: Option<R>)
    ensures Pending(ret + [x]) == Pending(ret) + (if x.None? then 1 else 0)
  {
    if ret != [] {
      assert (ret + [x])[1..] == ret[1..] + [x];
      PendingAppend(ret[1..], x);
    }
  }

  /** Settling one pending worker lowers the in-flight count by one. */
  lemma {:induction false} PendingSettle<R>(ret: seq<Option<R>>, k: nat, v: R)
    requires k < |ret| && ret[k].None?
    ensures Pending(ret[k := Some(v)]) == Pending(ret) - 1
  {
    if k > 0 {
      assert ret[k := Some(v)][1..] == ret[1..][k - 1 := Some(v)];
      PendingSettle(ret[1..], k - 1, v);
    }
  }

  predicate Distinct(s: seq<nat>) {
    forall a, b :: 0 <= a < b < |s| ==> s[a] != s[b]
  }

  /** The concurrency the pool allows: `poolLimit`, and one worker when the limit is not positive. */
  function Ceiling(poolLimit: int): nat {
    if poolLimit >= 1 then poolLimit else 1
  }

  /** Every settled slot holds the value its own item's worker produced. */
  ghost predicate SettledInOrder<T, R>(ret: seq<Option<R>>, items: seq<T>, worker: T -> R) {
    |ret| <= |items| && forall k :: 0 <= k < |ret| && ret[k].Some? ==> ret[k].value == worker(items[k])
  }

  /**
   * The throttled pool's bookkeeping: `executing` lists, once each, exactly
   * the started workers that have not settled.
   */
  ghost predicate Tracked<T, R>(ret: seq<Option<R>>, executing: seq<nat>, items: seq<T>, worker: T -> R) {
    && SettledInOrder(ret, items, worker)
    && Distinct(executing)
    && (forall x :: x in executing ==> x < |ret|)
    && (forall k :: 0 <= k < |ret| ==> (ret[k].None? <==> k in executing))
    && Pending(ret) == |executing|
  }

  /** Starting the next worker and pushing it on `executing` keeps the bookkeeping. */
  lemma Push<T, R>(ret: seq<Option<R>>, executing: seq<nat>, items: seq<T>, worker: T -> R)
    requires Tracked(ret, executing, items, worker) && |ret| < |items|
    ensures Tracked(ret + [None], executing + [|ret|], items, worker)
  {
    PendingAppend(ret, None);
    var e := executing + [|ret|];
    assert forall a :: 0 <= a < |executing| ==> e[a] == executing[a] && executing[a] in executing;
  }

  /** The worker at `executing[j]` settles and its promise splices itself out of `executing`. */
  lemma Settle<T, R>(ret: seq<Option<R>>, executing: seq<nat>, j: nat, items: seq<T>, worker: T -> R)
    requires Tracked(ret, executing, items, worker) && j < |executing|
    ensures executing[j] < |ret|
    ensures Tracked(ret[executing[j] := Some(worker(items[executing[j]]))],
                    executing[..j] + executing[j + 1..], items, worker)
  {
    var k := executing[j];
    assert k in executing;
    PendingSettle(ret, k, worker(items[k]));
    var e := executing[..j] + executing[j + 1..];
    assert forall a :: 0 <= a < |e| ==> e[a] == executing[if a < j then a else a + 1];
    assert forall x :: x in e ==> x in executing && x != k;
  }

  /**
   * `await Promise.race(executing)`: the scheduler lets a nonempty batch of
   * the executing workers settle; each splices itself out of `executing`.
   */
  method Race<T, R>(ret: seq<Option<R>>, executing: seq<nat>, items: seq<T>, worker: T -> R)
      returns (ret': seq<Option<R>>, executing': seq<nat>)
    requires Tracked(ret, executing, items, worker) && |executing| >= 1
    ensures Tracked(ret', executing', items, worker)
    ensures |ret'| == |ret| && |executing'| < |executing|
  {
    ret', executing' := ret, executing;
    var batch :| 1 <= batch <= |executing|;
    var n := 0;
    while n < batch
      invariant 0 <= n <= batch && |executing'| == |executing| - n && |ret'| == |ret|
      invariant Tracked(ret', executing', items, worker)
    {
      var j :| 0 <= j < |executing'|;
      Settle(ret', executing', j, items, worker);
      var k := executing'[j];
      ret' := ret'[k := Some(worker(items[k]))];
      executing' := executing'[..j] + executing'[j + 1..];
      n := n + 1;
    }
  }

  /** `Promise.all(ret)`: the workers still in flight settle, in any order. */
  method AwaitAll<T, R>(ret: seq<Option<R>>, items: seq<T>, worker: T -> R) returns (results: seq<R>)
    requires SettledInOrder(ret, items, worker) && |ret| == |items|
    ensures |results| == |items|
    ensures forall i :: 0 <= i < |items| ==> results[i] == worker(items[i])
  {
    var all := ret;
    while exists k :: 0 <= k < |all| && all[k].None?
      invariant |all| == |items| && SettledInOrder(all, items, worker)
      decreases Pending(all)
    {
      var k :| 0 <= k < |all| && all[k].None?;
      PendingSettle(all, k, worker(items[k]));
      all := all[k := Some(worker(items[k]))];
    }
    results := seq(|all|, k requires 0 <= k < |all| => all[k].value);
  }

  /**
   * Runs `worker` over `items`. `results` are the workers' values in input
   * order whatever order they settled in; `peak` is the largest number of
   * workers that were in flight at once, taken after each start. Throttled
   * or not, it is the pool's ceiling, or the item count when there are
   * fewer items: the pool fills up before the first `Promise.race`, and a
   * race frees a slot before the next start.
   */
  method Run<T, R>(poolLimit: int, items: seq<T>, worker: T -> R) returns (results: seq<R>, ghost peak: nat)
    ensures |results| == |items|
    ensures forall i :: 0 <= i < |items| ==> results[i] == worker(items[i])
    ensures peak <= Ceiling(poolLimit)
    ensures peak == if |items| < Ceiling(poolLimit) then |items| else Ceiling(poolLimit)
  {
    var ret: seq<Option<R>> := [];
    var executing: seq<nat> := [];
    var throttle := poolLimit <= |items|;
    peak := 0;
    var i := 0;
    while i < |items|
      invariant 0 <= i <= |items| && |ret| == i
      invariant SettledInOrder(ret, items, worker)
      invariant throttle ==> Tracked(ret, executing, items, worker)
      invariant throttle ==> |executing| < Ceiling(poolLimit)
      invariant !throttle ==> Pending(ret) == i == peak && i < Ceiling(poolLimit)
      invariant throttle && i < Ceiling(poolLimit) ==> |executing| == i
      invariant peak == if i < Ceiling(poolLimit) then i else Ceiling(poolLimit)
    {
      // const p = ...iteratorFn(item); ret.push(p)
      PendingAppend(ret, None);
      if throttle {
        // executing.push(e)
        Push(ret, executing, items, worker);
        ret, executing := ret + [None], executing + [i];
        if Pending(ret) > peak {
          peak := Pending(ret);
        }
        if |executing| >= poolLimit {
          ret, executing := Race(ret, executing, items, worker);
        }
      } else {
        ret := ret + [None];
        peak := Pending(ret);
      }
      i := i + 1;
    }
    results := AwaitAll(ret, items, worker);
  }
}
