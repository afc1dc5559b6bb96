/**
 * The group-unaware round-robin query allocation of the master: the task list grows
 * by registration, and each allocation picks the next task in turn.
 */
module RoundRobinAllocation {
  import opened Wrappers

  /** The address a client is sent to: a task host and a port. */
  datatype IPAddress = IPAddress(hostAddress: string, port: int)

  /** The information a task registers with; its contents do not matter here. */
  datatype TaskInfo = TaskInfo(info: string)

  /** The task picked by the call that sees the given counter value. */
  function Pick(taskList: seq<string>, counter: nat): (t: string)
    requires |taskList| > 0
    ensures t in taskList
  {
    taskList[counter % |taskList|]
  }

  /** The tasks picked by count consecutive calls starting at counter. */
  function Picks(taskList: seq<string>, counter: nat, count: nat): (ts: seq<string>)
    requires |taskList| > 0
    ensures |ts| == count
  {
    if count == 0 then [] else Picks(taskList, counter, count - 1) + [Pick(taskList, counter + count - 1)]
  }

  /** The list turned left by r places. */
  function Rotate(s: seq<string>, r: nat): seq<string>
    requires r <= |s|
  {
    s[r..] + s[..r]
  }

  lemma {:induction false} MulAtLeast(d: int, n: int)
    requires d >= 1 && n > 0
    ensures d * n >= n
  {
    if d > 1 {
      MulAtLeast(d - 1, n);
      assert d * n == (d - 1) * n + n;
    }
  }

  /** The remainder of q * n + x is x whenever 0 <= x < n. */
  lemma ModUnique(a: int, q: int, x: int, n: int)
    requires 0 < n && 0 <= x < n && a == q * n + x
    ensures a % n == x
  {
    var q', x' := a / n, a % n;
    assert a == q' * n + x';
    assert q * n - q' * n == (q - q') * n;
    if q > q' {
      MulAtLeast(q - q', n);
    } else if q < q' {
      assert q' * n - q * n == (q' - q) * n;
      MulAtLeast(q' - q, n);
    }
  }

  /** Advancing the counter by k < n advances the picked index by k, wrapping at most once. */
  lemma ModShift(c: nat, k: nat, n: nat)
    requires 0 < n && k < n
    ensures (c + k) % n == if c % n + k < n then c % n + k else c % n + k - n
  {
    var q, r := c / n, c % n;
    assert c == q * n + r;
    if r + k < n {
      ModUnique(c + k, q, r + k, n);
    } else {
      assert (q + 1) * n == q * n + n;
      ModUnique(c + k, q + 1, r + k - n, n);
    }
  }

  /** The first count picks starting at counter walk the list from counter % n, wrapping once. */
  lemma {:induction false} PicksWalk(taskList: seq<string>, counter: nat, count: nat)
    requires 0 < |taskList| && count <= |taskList|
    ensures forall k :: 0 <= k < count ==>
              Picks(taskList, counter, count)[k] == Rotate(taskList, counter % |taskList|)[k]
  {
    var n := |taskList|;
    var r := counter % n;
    if count > 0 {
      PicksWalk(taskList, counter, count - 1);
      var k := count - 1;
      var rot := Rotate(taskList, r);
      ModShift(counter, k, n);
      if r + k < n {
        assert rot[k] == taskList[r + k];
      } else {
        assert rot[k] == taskList[..r][k - (n - r)];
      }
    }
  }

  /**
   * Fairness: with n tasks and no registrations in between, any n consecutive
   * allocations return each task exactly once (as a multiset, so a task
   * registered twice is returned twice).
   */
  lemma NConsecutivePicksAreFair(taskList: seq<string>, counter: nat)
    requires |taskList| > 0
    ensures Picks(taskList, counter, |taskList|) == Rotate(taskList, counter % |taskList|)
    ensures multiset(Picks(taskList, counter, |taskList|)) == multiset(taskList)
  {
    var r := counter % |taskList|;
    PicksWalk(taskList, counter, |taskList|);
    assert taskList == taskList[..r] + taskList[r..];
  }

  /** a + b consecutive picks are a picks followed by the b picks after them. */
  lemma {:induction false} PicksSplit(taskList: seq<string>, counter: nat, a: nat, b: nat)
    requires |taskList| > 0
    ensures Picks(taskList, counter, a + b) == Picks(taskList, counter, a) + Picks(taskList, counter + a, b)
  {
    if b > 0 {
      PicksSplit(taskList, counter, a, b - 1);
      assert counter + (a + b) - 1 == (counter + a) + b - 1;
    }
  }

  lemma MulPred(k: nat, n: nat)
    requires k > 0
    ensures k * n == (k - 1) * n + n
  {
  }

  /**
   * Fairness over whole rounds: k * n consecutive picks over n tasks return each
   * task k times as often as it is listed.
   */
  lemma {:induction false} WholeRoundsAreFair(taskList: seq<string>, counter: nat, k: nat, t: string)
    requires |taskList| > 0
    ensures multiset(Picks(taskList, counter, k * |taskList|))[t] == k * multiset(taskList)[t]
  {
    var n, m := |taskList|, multiset(taskList)[t];
    if k > 0 {
      var before := (k - 1) * n;
      WholeRoundsAreFair(taskList, counter, k - 1, t);
      var first, last := Picks(taskList, counter, before), Picks(taskList, counter + before, n);
      assert multiset(first)[t] == (k - 1) * m;
      NConsecutivePicksAreFair(taskList, counter + before);
      assert multiset(last)[t] == m;
      PicksSplit(taskList, counter, before, n);
      MulPred(k, n);
      assert Picks(taskList, counter, k * n) == first + last;
      assert multiset(first + last)[t] == multiset(first)[t] + multiset(last)[t];
      MulPred(k, m);
    }
  }

  class RoundRobinQueryAllocationManager {
    /** The task addresses, in registration order. */
    var taskList: seq<string>
    /** The allocation counter (an AtomicInteger in the source). */
    var currentIndex: nat
    const clientToTaskPort: int

    constructor (clientToTaskPort: int)
      ensures taskList == [] && currentIndex == 0
      ensures this.clientToTaskPort == clientToTaskPort
    {
      taskList := [];
      currentIndex := 0;
      this.clientToTaskPort := clientToTaskPort;
    }

    /**
     * Returns the task at counter mod the list size, with the configured port, and
     * advances the counter by one; appId plays no part. An empty list would divide by zero.
     */
    method GetAllocatedTask(appId: string) returns (address: IPAddress)
      requires |taskList| > 0
      modifies this`currentIndex
      ensures address == IPAddress(Pick(taskList, old(currentIndex)), clientToTaskPort)
      ensures address.port == clientToTaskPort
      ensures currentIndex == old(currentIndex) + 1
    {
      var myIndex := currentIndex % |taskList|;
      currentIndex := currentIndex + 1;
      address := IPAddress(taskList[myIndex], clientToTaskPort);
    }

    /**
     * Hands the task to the base class, appends it to the list and returns the base's
     * result. The base class is not part of this model: superAddTaskInfo stands for
     * its addTaskInfo at the moment of the call, None standing for null.
     */
    method AddTaskInfo(taskAddress: string, taskInfo: TaskInfo,
                       superAddTaskInfo: (string, TaskInfo) -> Option<TaskInfo>)
      returns (t: Option<TaskInfo>)
      modifies this`taskList
      ensures t == superAddTaskInfo(taskAddress, taskInfo)
      ensures taskList == old(taskList) + [taskAddress]
    {
      t := superAddTaskInfo(taskAddress, taskInfo);
      taskList := taskList + [taskAddress];
    }
  }

  /**
   * A client of the manager: the first allocation after the first registration
   * returns that task, and then n allocations over n tasks follow the list in turn.
   */
  method AllocateInTurn(port: int, a: string, b: string, infoA: TaskInfo, infoB: TaskInfo,
                        superAddTaskInfo: (string, TaskInfo) -> Option<TaskInfo>,
                        app1: string, app2: string, app3: string)
    returns (first: IPAddress, second: IPAddress, third: IPAddress)
    ensures first == IPAddress(a, port) && second == IPAddress(b, port) && third == IPAddress(a, port)
  {
    var m := new RoundRobinQueryAllocationManager(port);
    var _ := m.AddTaskInfo(a, infoA, superAddTaskInfo);
    first := m.GetAllocatedTask(app1);
    var _ := m.AddTaskInfo(b, infoB, superAddTaskInfo);
    second := m.GetAllocatedTask(app2);
    third := m.GetAllocatedTask(app3);
  }
}
