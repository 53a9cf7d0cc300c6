/** How the backfill divides the IDs 0..=maxId among its tasks. */
module Backfill {

  /** Tasks beyond one per ID are turned away. */
  function TaskCount(requested: nat, maxId: nat): nat {
    if requested <= maxId + 1 then requested else maxId + 1
  }

  ghost predicate Sensible(maxId: nat, tasks: nat) {
    maxId < 0xFFFF_FFFF && 0 < tasks <= maxId + 1
  }

  /** IDs per task, rounded up. */
  function WorkCount(maxId: nat, tasks: nat): (w: nat)
    requires tasks > 0
    ensures w > 0
  {
    (maxId + tasks) / tasks
  }

  /** First ID of a task; the product is cut down to 32 bits. */
  function StartId(maxId: nat, tasks: nat, k: nat): nat
    requires tasks > 0
  {
    WorkCount(maxId, tasks) * k % 0x1_0000_0000
  }

  /** One past the last ID of a task. */
  function EndId(maxId: nat, tasks: nat, k: nat): nat
    requires tasks > 0
  {
    var end := WorkCount(maxId, tasks) * (k + 1);
    (if end <= maxId + 1 then end else maxId + 1) % 0x1_0000_0000
  }

  predicate InTask(maxId: nat, tasks: nat, k: nat, id: nat)
    requires tasks > 0
  {
    StartId(maxId, tasks, k) <= id < EndId(maxId, tasks, k)
  }

  lemma WorkBounds(maxId: nat, tasks: nat)
    requires Sensible(maxId, tasks)
    ensures 1 <= WorkCount(maxId, tasks) <= maxId + 1
    ensures maxId + 1 <= WorkCount(maxId, tasks) * tasks <= maxId + tasks
  {
    var w := WorkCount(maxId, tasks);
    assert w * tasks + (maxId + tasks) % tasks == maxId + tasks;
    if w > maxId + 1 {
      MulMono(maxId + 2, w, tasks);
      MulMono(1, tasks, maxId + 1);
    }
  }

  lemma MulMono(a: nat, b: nat, c: nat)
    requires a <= b
    ensures a * c <= b * c
  {
  }

  /** A task that covers `id`. */
  function TaskOf(maxId: nat, tasks: nat, id: nat): nat
    requires tasks > 0
  {
    id / WorkCount(maxId, tasks)
  }

  /** Every ID of the range is in the range of some task, for every number of tasks. */
  lemma Covered(maxId: nat, tasks: nat, id: nat)
    requires Sensible(maxId, tasks) && id <= maxId
    ensures TaskOf(maxId, tasks, id) < tasks
    ensures InTask(maxId, tasks, TaskOf(maxId, tasks, id), id)
  {
    WorkBounds(maxId, tasks);
    var w := WorkCount(maxId, tasks);
    var k := id / w;
    assert w * k + id % w == id;
    assert w * (k + 1) == w * k + w;
    if k >= tasks {
      MulMono(tasks, k, w);
    }
  }

  /** A task never leaves 0..=maxId. */
  lemma InRange(maxId: nat, tasks: nat, k: nat, id: nat)
    requires Sensible(maxId, tasks) && InTask(maxId, tasks, k, id)
    ensures id <= maxId
  {
    EndBounds(maxId, tasks, k);
  }

  ghost predicate Disjoint(maxId: nat, tasks: nat)
    requires tasks > 0
  {
    forall j, k, id :: 0 <= j < k < tasks && InTask(maxId, tasks, j, id) ==> !InTask(maxId, tasks, k, id)
  }

  lemma NoWrap(maxId: nat, tasks: nat, k: nat)
    requires Sensible(maxId, tasks) && k < tasks
    requires WorkCount(maxId, tasks) * (tasks - 1) < 0x1_0000_0000
    ensures StartId(maxId, tasks, k) == WorkCount(maxId, tasks) * k
  {
    MulMono(k, tasks - 1, WorkCount(maxId, tasks));
  }

  lemma Apart(w: nat, j: nat, k: nat)
    requires j < k
    ensures w * (j + 1) <= w * k
  {
    MulMono(j + 1, k, w);
  }

  lemma EndBounds(maxId: nat, tasks: nat, k: nat)
    requires Sensible(maxId, tasks)
    ensures EndId(maxId, tasks, k) <= WorkCount(maxId, tasks) * (k + 1)
    ensures EndId(maxId, tasks, k) <= maxId + 1
  {
    var end := WorkCount(maxId, tasks) * (k + 1);
    assert end >= 0;
  }

  lemma DisjointWhenFits(maxId: nat, tasks: nat, j: nat, k: nat, id: nat)
    requires Sensible(maxId, tasks) && j < k < tasks
    requires WorkCount(maxId, tasks) * (tasks - 1) < 0x1_0000_0000
    requires InTask(maxId, tasks, j, id)
    ensures !InTask(maxId, tasks, k, id)
  {
    hide WorkCount, StartId, EndId;
    NoWrap(maxId, tasks, k);
    EndBounds(maxId, tasks, j);
    Apart(WorkCount(maxId, tasks), j, k);
    calc <= {
      EndId(maxId, tasks, j);
      WorkCount(maxId, tasks) * (j + 1);
      WorkCount(maxId, tasks) * k;
      StartId(maxId, tasks, k);
    }
  }

  /** No two tasks share an ID if and only if the last start fits in 32 bits. When it does not, the
      last task starts over near zero and redoes IDs that belong to others. */
  lemma DisjointIff(maxId: nat, tasks: nat)
    requires Sensible(maxId, tasks)
    ensures Disjoint(maxId, tasks) <==> WorkCount(maxId, tasks) * (tasks - 1) < 0x1_0000_0000
  {
    hide WorkCount, InTask, TaskOf;
    if WorkCount(maxId, tasks) * (tasks - 1) < 0x1_0000_0000 {
      forall j, k, id | 0 <= j < k < tasks && InTask(maxId, tasks, j, id)
        ensures !InTask(maxId, tasks, k, id)
      {
        DisjointWhenFits(maxId, tasks, j, k, id);
      }
    } else {
      Wraps(maxId, tasks);
      Covered(maxId, tasks, maxId);
    }
  }

  lemma OneLess(w: nat, n: nat)
    requires n > 0
    ensures w * (n - 1) == w * n - w
  {
  }

  lemma WrapOnce(p: nat)
    requires 0x1_0000_0000 <= p < 0x2_0000_0000
    ensures p % 0x1_0000_0000 == p - 0x1_0000_0000
  {
  }

  lemma TaskBefore(maxId: nat, w: nat, n: nat)
    requires w > 0 && w * n > maxId
    ensures maxId / w < n
  {
    if maxId / w >= n {
      MulMono(n, maxId / w, w);
    }
  }

  lemma Wraps(maxId: nat, tasks: nat)
    requires Sensible(maxId, tasks)
    requires WorkCount(maxId, tasks) * (tasks - 1) >= 0x1_0000_0000
    ensures TaskOf(maxId, tasks, maxId) < tasks - 1
    ensures InTask(maxId, tasks, tasks - 1, maxId)
  {
    WorkBounds(maxId, tasks);
    hide WorkCount;
    var w := WorkCount(maxId, tasks);
    OneLess(w, tasks);
    WrapOnce(w * (tasks - 1));
    TaskBefore(maxId, w, tasks - 1);
  }

  /** The share of a task is the smallest that lets the tasks reach every ID. */
  lemma WorkIsLeast(maxId: nat, tasks: nat, w: nat)
    requires Sensible(maxId, tasks)
    ensures w * tasks > maxId <==> w >= WorkCount(maxId, tasks)
  {
    WorkBounds(maxId, tasks);
    var least := WorkCount(maxId, tasks);
    hide WorkCount;
    if w >= least {
      MulMono(least, w, tasks);
    } else {
      MulMono(w + 1, least, tasks);
      assert (w + 1) * tasks == w * tasks + tasks;
    }
  }

  /** A task whose start fits has exactly the IDs of its share, counted off from 0, up to the highest;
      none, if that is passed before. */
  lemma TaskExact(maxId: nat, tasks: nat, k: nat, id: nat)
    requires Sensible(maxId, tasks) && k < tasks && WorkCount(maxId, tasks) * k < 0x1_0000_0000
    ensures InTask(maxId, tasks, k, id) <==> id <= maxId && id / WorkCount(maxId, tasks) == k
  {
    var w := WorkCount(maxId, tasks);
    hide WorkCount;
    assert w * (k + 1) == w * k + w;
    ShareOf(w, k, id);
  }

  lemma ShareOf(w: nat, k: nat, id: nat)
    requires w > 0
    ensures id / w == k <==> w * k <= id < w * k + w
  {
    assert w * (id / w) + id % w == id;
    if w * k <= id < w * k + w {
      if id / w < k {
        MulMono(id / w + 1, k, w);
      } else if id / w > k {
        MulMono(k + 1, id / w, w);
      }
    }
  }

  /** Such inputs exist: 2^31 + 1 tasks over 2^32 - 1 IDs get two IDs each. */
  lemma WrapHappens()
    ensures Sensible(0xFFFF_FFFE, 0x8000_0001)
    ensures !Disjoint(0xFFFF_FFFE, 0x8000_0001)
  {
    DisjointIff(0xFFFF_FFFE, 0x8000_0001);
  }
}
