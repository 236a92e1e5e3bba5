/** The scheduler proper: who runs, who is ready, who sleeps on what. */
module Sched {
  import opened Machine
  import opened ReadyQueues

  /** The highest-priority non-empty list from `q` on; NUM_QUEUES if none. */
  function Best(lists: seq<seq<nat>>, q: nat): (b: nat)
    requires |lists| == NUM_QUEUES && q <= NUM_QUEUES
    ensures q <= b <= NUM_QUEUES && (b < NUM_QUEUES ==> lists[b] != []) && forall r :: q <= r < b ==> lists[r] == []
    decreases NUM_QUEUES - q
  {
    if q == NUM_QUEUES || lists[q] != [] then q else Best(lists, q + 1)
  }

  const PRIO_USER: nat := 8
  const PRIO_IDLE: nat := 15

  /** process_alloc: a ready process with a full turn. */
  function NewProcess(pid: nat, priority: nat): Process {
    Process(pid, 0, 0, Ready, NULL, 0, priority, 2 + priority, 2 + priority, 0, 0, false, {}, {}, {}, {}, false, NULL,
      NULL)
  }

  /** init, the first user process, once it has the CPU. */
  function Booted(): Process {
    NewProcess(1, PRIO_USER).(status := Running, isUser := true)
  }

  /** A process as seen from outside the queues. */
  function Bare(x: Process): Process { x.(next := NULL, prev := NULL) }

  ghost predicate SameBare(m: Procs, n: Procs) {
    n.Keys == m.Keys && forall p :: p in m ==> Bare(n[p]) == Bare(m[p])
  }

  predicate Sleeper(x: Process, chan: nat) { x.status == Blocked && x.chan == chan }

  function Awake(x: Process): Process { x.(chan := NULL, status := Ready) }

  /** The table after the processes `ps` asleep on `chan` were woken. */
  function WakeAll(m: Procs, ps: seq<nat>, chan: nat): Procs {
    map p | p in m :: if p in ps && Sleeper(m[p], chan) then Awake(m[p]) else m[p]
  }

  /** Of the processes `ps`, in order, those of priority `q` asleep on `chan`. */
  function Woken(m: Procs, ps: seq<nat>, chan: nat, q: nat): seq<nat> {
    if ps == [] then []
    else
      var p := ps[|ps| - 1];
      Woken(m, ps[..|ps| - 1], chan, q) + if p in m && Sleeper(m[p], chan) && m[p].priority == q then [p] else []
  }

  // ---- What the operations do to one process, field by field ----

  /** All processes but `but` are as they were, the queues apart. */
  ghost predicate Rest(m: Procs, n: Procs, but: set<nat>) {
    n.Keys == m.Keys && forall p :: p in m && p !in but ==> Bare(n[p]) == Bare(m[p])
  }

  /** `next` runs; `prev`, if it ran until now, waits for a full new turn. */
  ghost predicate Handed(m: Procs, n: Procs, prev: nat, next: nat) {
    && Rest(m, n, {prev, next}) && prev in m && next in m && prev != next
    && Bare(n[next]) == Bare(m[next]).(status := Running)
    && Bare(n[prev]) ==
      if m[prev].status == Running then Bare(m[prev]).(status := Ready, ticksLeft := m[prev].quantum) else Bare(m[prev])
  }

  /** `c` has one more tick to its name and one less to run. */
  ghost predicate Paid(m: Procs, n: Procs, c: nat) {
    && Rest(m, n, {c}) && c in m && n[c].cpuTicks == m[c].cpuTicks + 1
    && (if m[c].ticksLeft == 0 then n[c].ticksLeft == 0 else n[c].ticksLeft == m[c].ticksLeft - 1)
    && n[c].(cpuTicks := m[c].cpuTicks, ticksLeft := m[c].ticksLeft) == m[c]
  }

  /** `c` sleeps on `chan` and `next` runs. */
  ghost predicate Slept(m: Procs, n: Procs, c: nat, chan: nat, next: nat) {
    && Rest(m, n, {c, next}) && c in m && next in m && c != next
    && Bare(n[c]) == Bare(m[c]).(status := Blocked, chan := chan)
    && Bare(n[next]) == Bare(m[next]).(status := Running)
  }

  /** Exactly those asleep on `chan` are ready now, and asleep on nothing. */
  ghost predicate Roused(m: Procs, n: Procs, chan: nat) {
    n.Keys == m.Keys && forall p :: p in m ==>
      if m[p].status == Blocked && m[p].chan == chan then Bare(n[p]) == Bare(m[p]).(status := Ready, chan := NULL)
      else Bare(n[p]) == Bare(m[p])
  }

  /** Only `p` is ready now, if it was asleep. */
  ghost predicate Awoken(m: Procs, n: Procs, p: nat) {
    && Rest(m, n, {p}) && p in m
    && Bare(n[p]) == if m[p].status == Blocked then Bare(m[p]).(status := Ready, chan := NULL) else Bare(m[p])
  }

  lemma HandedLaw(m: Procs, n: Procs, prev: nat, next: nat)
    requires prev in m && next in m && prev != next && SameBare(AfterYield(m, prev, next), n)
    ensures Handed(m, n, prev, next)
  {
    forall p | p in m ensures Bare(n[p]) == Bare(AfterYield(m, prev, next)[p]) {}
  }

  lemma SleptLaw(m: Procs, n: Procs, c: nat, chan: nat, next: nat)
    requires c in m && next in m && c != next && SameBare(AfterSleep(m, c, chan, next), n)
    ensures Slept(m, n, c, chan, next)
  {
    forall p | p in m ensures Bare(n[p]) == Bare(AfterSleep(m, c, chan, next)[p]) {}
  }

  lemma PaidLaw(m: Procs, c: nat)
    requires c in m
    ensures Paid(m, Charged(m, c), c)
  {
  }

  lemma RousedLaw(m: Procs, n: Procs, ps: seq<nat>, chan: nat)
    requires SameBare(WakeAll(m, ps, chan), n) && Listed(m, ps)
    ensures Roused(m, n, chan)
  {
    forall p | p in m ensures Bare(n[p]) == Bare(WakeAll(m, ps, chan)[p]) {}
  }

  lemma AwokenLaw(m: Procs, n: Procs, p: nat)
    requires p in m && if m[p].status == Blocked then SameBare(m[p := Awake(m[p])], n) else n == m
    ensures Awoken(m, n, p)
  {
    if m[p].status == Blocked {
      forall q | q in m ensures Bare(n[q]) == Bare(m[p := Awake(m[p])][q]) {}
    }
  }

  ghost predicate OneRunning(m: Procs, current: nat) {
    current in m && m[current].status != Ready && forall p :: p in m && m[p].status == Running ==> p == current
  }

  ghost predicate Listed(m: Procs, all: seq<nat>) {
    (forall p :: p in all <==> p in m) && NoDup(all)
  }

  ghost predicate NoDup(ps: seq<nat>) {
    forall i, j :: 0 <= i < j < |ps| ==> ps[i] != ps[j]
  }

  /** The list of all processes with one taken out. */
  method Unlisted(all: seq<nat>, p: nat) returns (kept: seq<nat>)
    ensures kept == Without(all, p)
  {
    hide Without;
    kept := [];
    WithoutNone(p);
    for i := 0 to |all|
      invariant kept == Without(all[..i], p)
    {
      WithoutStep(all, i, p);
      if all[i] != p { kept := kept + [all[i]]; }
    }
    assert all[..|all|] == all;
  }

  lemma WithoutNone(p: nat)
    ensures Without([], p) == []
  {
  }

  class Scheduler {
    var proc: Procs
    /** Every process, newest first. */
    var all: seq<nat>
    var head: seq<nat>
    var tail: seq<nat>
    var current: nat
    ghost var lists: seq<seq<nat>>

    ghost function K(): Queues
      reads this`head, this`tail, this`lists
    {
      Queues(head, tail, lists)
    }

    /** Between two statements of one step: `out` are ready but not yet queued. */
    ghost predicate Partly(out: set<nat>)
      reads this
    {
      QueuesOk(proc, K(), out) && OneRunning(proc, current) && Listed(proc, all)
    }

    /** Between steps: every ready process is queued once, under its priority;
        exactly the current process is running. */
    ghost predicate Valid()
      reads this
    {
      Partly({}) && proc[current].status == Running
    }

    /** After scheduler_start: init runs, idle is the only other process. */
    constructor (idle: nat, init: nat)
      requires idle != NULL && init != NULL && idle != init
      ensures Valid() && current == init && all == [init, idle]
      ensures forall p :: p in proc <==> p == idle || p == init
      ensures proc[idle] == NewProcess(0, PRIO_IDLE) && proc[init] == Booted()
      ensures proc[idle].pid == 0 && proc[idle].status == Ready && proc[idle].cpuTicks == proc[idle].childTicks == 0
      ensures proc[init].pid == 1 && proc[init].ppid == 0 && proc[init].status == Running
      ensures proc[init].cpuTicks == proc[init].childTicks == 0 && proc[init].isUser && !proc[idle].isUser
      ensures proc[init].priority == 8 && proc[init].quantum == proc[init].ticksLeft == 10
      ensures proc[idle].priority == 15 && proc[idle].quantum == proc[idle].ticksLeft == 17
    {
      proc := map[idle := NewProcess(0, PRIO_IDLE), init := Booted()];
      all := [init, idle];
      var none := seq(NUM_QUEUES, _ => NULL);
      head := none[PRIO_IDLE := idle];
      tail := none[PRIO_IDLE := idle];
      current := init;
      var empty: seq<nat> := [];
      lists := seq(NUM_QUEUES, _ => empty)[PRIO_IDLE := [idle]];
      new;
      BootQueues(proc, K(), idle, init);
    }

    ghost predicate SomeReady()
      reads this`lists
    {
      |lists| == NUM_QUEUES && Best(lists, 0) < NUM_QUEUES
    }

    /** Who runs next: the front of the best non-empty queue. */
    ghost function Front(): nat
      requires SomeReady()
      reads this`lists
    {
      lists[Best(lists, 0)][0]
    }

    lemma FrontReady()
      requires Partly({}) && SomeReady()
      ensures Front() in proc && proc[Front()].status == Ready && Front() != current
    {
      HeadThere(proc, K(), {}, Best(lists, 0));
    }

    lemma Facts()
      requires Valid()
      ensures Partly({}) && current in proc && proc[current].status == Running && Listed(proc, all)
    {
    }

    lemma HasCurrent(out: set<nat>)
      requires Partly(out)
      ensures current in proc
    {
    }

    method QueuePushBack(p: nat)
      requires p in proc && proc[p].status == Ready && QueuesOk(proc, K(), {p})
      modifies this`proc, this`head, this`tail, this`lists
      ensures QueuesOk(proc, K(), {}) && SameBare(old(proc), proc)
      ensures |old(lists)| == NUM_QUEUES && old(proc)[p].priority < NUM_QUEUES
      ensures var q := old(proc)[p].priority; lists == old(lists)[q := old(lists)[q] + [p]]
    {
      hide QueuesOk;
      PushOne(proc, K(), p);
      var q := proc[p].priority;
      var t := tail[q];
      proc := proc[p := proc[p].(next := NULL, prev := t)];
      if t != NULL {
        proc := proc[t := proc[t].(next := p)];
      } else {
        head := head[q := p];
      }
      tail := tail[q := p];
      lists := lists[q := lists[q] + [p]];
    }

    method QueuePopFront(q: nat) returns (p: nat)
      requires q < NUM_QUEUES && QueuesOk(proc, K(), {})
      modifies this`proc, this`head, this`tail, this`lists
      ensures |old(lists)| == NUM_QUEUES
      ensures old(lists)[q] == [] ==> p == NULL && proc == old(proc) && K() == old(K())
      ensures old(lists)[q] != [] ==> p == old(lists)[q][0] && p in proc && QueuesOk(proc, K(), {p})
      ensures old(lists)[q] != [] ==> proc[p].status == Ready && SameBare(old(proc), proc)
      ensures old(lists)[q] != [] ==> lists == old(lists)[q := old(lists)[q][1..]]
    {
      hide QueuesOk;
      HeadThere(proc, K(), {}, q);
      Sizes(proc, K(), {});
      p := head[q];
      if p == NULL { return; }
      PopOne(proc, K(), q);
      var x := proc[p].next;
      head := head[q := x];
      if x != NULL {
        proc := proc[x := proc[x].(prev := NULL)];
      } else {
        tail := tail[q := NULL];
      }
      proc := proc[p := proc[p].(next := NULL, prev := NULL)];
      lists := lists[q := lists[q][1..]];
    }

    /** pick_next: the front of the best non-empty queue. */
    method PickNext() returns (p: nat)
      requires QueuesOk(proc, K(), {})
      modifies this`proc, this`head, this`tail, this`lists
      ensures |old(lists)| == NUM_QUEUES
      ensures var b := Best(old(lists), 0);
        if b == NUM_QUEUES then p == NULL && proc == old(proc) && K() == old(K())
        else p == old(lists)[b][0] && p in proc && QueuesOk(proc, K(), {p}) && proc[p].status == Ready
             && SameBare(old(proc), proc) && lists == old(lists)[b := old(lists)[b][1..]]
    {
      hide QueuesOk;
      Sizes(proc, K(), {});
      var q := 0;
      while q < NUM_QUEUES
        invariant 0 <= q <= NUM_QUEUES && proc == old(proc) && K() == old(K()) && Best(lists, 0) == Best(lists, q)
      {
        HeadThere(proc, K(), {}, q);
        if head[q] != NULL {
          p := QueuePopFront(q);
          return;
        }
        q := q + 1;
      }
      return NULL;
    }

    /** scheduler_yield: the front of the best queue takes the CPU; the caller, if
        it was still running, goes to the back of its own queue afterwards. */
    method Yield()
      requires Partly({})
      modifies this`proc, this`head, this`tail, this`lists, this`current
      ensures Partly({}) && |old(lists)| == NUM_QUEUES && old(current) in old(proc)
      ensures !old(SomeReady()) ==> proc == old(proc) && K() == old(K()) && current == old(current)
      ensures old(SomeReady()) ==> current == old(Front()) != old(current) && current in old(proc)
      ensures old(SomeReady()) ==> current in proc && proc[current].status == Running
      ensures old(SomeReady()) ==> SameBare(AfterYield(old(proc), old(current), current), proc)
      ensures old(SomeReady()) ==> Handed(old(proc), proc, old(current), current)
      ensures old(SomeReady()) ==> var b := Best(old(lists), 0);
        lists == Requeued(old(proc), old(lists)[b := old(lists)[b][1..]], old(current))
    {
      hide QueuesOk, Listed, OneRunning, SameBare, AfterYield, Requeued, Handed;
      HasCurrent({});
      Sizes(proc, K(), {});
      ghost var b := Best(lists, 0);
      if b < NUM_QUEUES {
        HeadThere(proc, K(), {}, b);
        InRange(proc, K(), {}, lists[b][0]);
        Apart(proc, current, lists[b][0]);
      }
      ghost var m := proc;
      var next := PickNext();
      if next == NULL { return; }
      StillOne(m, proc, current);
      SameKeys(m, proc, all, current, next);
      BareYield(m, proc, current, next);
      BareRequeued(m, proc, lists, current);
      Switch(next);
      HandedLaw(m, proc, old(current), next);
    }

    /** The second half of scheduler_yield: hand the CPU to `next`. */
    method Switch(next: nat)
      requires QueuesOk(proc, K(), {next}) && OneRunning(proc, current) && Listed(proc, all)
      requires next in proc && proc[next].status == Ready && next != current
      modifies this`proc, this`head, this`tail, this`lists, this`current
      ensures Partly({}) && current == next && current in proc && proc[current].status == Running
      ensures SameBare(AfterYield(old(proc), old(current), next), proc)
      ensures |old(lists)| == NUM_QUEUES && lists == Requeued(old(proc), old(lists), old(current))
    {
      hide QueuesOk, Listed, SameBare;
      ghost var m := proc;
      var prev := current;
      Sizes(proc, K(), {next});
      InRange(proc, K(), {next}, prev);
      InRange(proc, K(), {next}, next);
      Dispatched(proc, next, proc[next].(status := Running), K());
      proc := proc[next := proc[next].(status := Running)];
      BareSelf(proc);
      if proc[prev].status == Running {
        ToReady(proc, prev, proc[prev].(status := Ready, ticksLeft := proc[prev].quantum), K());
        proc := proc[prev := proc[prev].(status := Ready, ticksLeft := proc[prev].quantum)];
        QueuePushBack(prev);
      }
      current := next;
      YieldFacts(m, proc, prev, next);
      ListedSame(m, proc, all);
    }

    /** scheduler_tick: the running process pays for the tick, and gives up the CPU
        when its turn is used up. */
    method Tick()
      requires Valid()
      modifies this`proc, this`head, this`tail, this`lists, this`current
      ensures Valid()
      ensures old(current) in old(proc)
      ensures var m := Charged(old(proc), old(current));
        if m[old(current)].ticksLeft > 0 || !old(SomeReady()) then proc == m && current == old(current)
          && lists == old(lists)
        else current in m && current == old(Front()) && SameBare(AfterYield(m, old(current), current), proc)
      ensures old(proc)[old(current)].ticksLeft > 1 || !old(SomeReady()) ==>
        current == old(current) && Paid(old(proc), proc, current)
      ensures old(proc)[old(current)].ticksLeft <= 1 && old(SomeReady()) ==>
        && current == old(Front())
        && exists m :: Paid(old(proc), m, old(current)) && Handed(m, proc, old(current), current)
    {
      HasCurrent({});
      hide QueuesOk, Listed, SameBare, AfterYield, Requeued, OneRunning, Handed;
      ChargedOk(proc, K(), current, all);
      PaidLaw(proc, current);
      ghost var x, m := proc[current], Charged(proc, current);
      assert m[current].ticksLeft > 0 <==> x.ticksLeft > 1;
      hide Charged, Paid, Scheduler.SomeReady, Scheduler.Front;
      proc := Charged(proc, current);
      if proc[current].ticksLeft == 0 { Yield(); }
    }

    /** sleep_on. The caller is not the idle process, so another is ready. */
    method SleepOn(chan: nat)
      requires Valid() && SomeReady()
      modifies this`proc, this`head, this`tail, this`lists, this`current
      ensures Valid() && current == old(Front()) != old(current)
      ensures old(current) in old(proc) && current in old(proc)
      ensures SameBare(AfterSleep(old(proc), old(current), chan, current), proc)
      ensures Slept(old(proc), proc, old(current), chan, current)
    {
      hide QueuesOk, Listed, SameBare, Requeued, AfterYield, OneRunning, Handed, Slept;
      HasCurrent({});
      ghost var m := proc;
      InRange(proc, K(), {}, current);
      var x := proc[current].(chan := chan, status := Blocked);
      Parked(proc, current, x, K());
      SleepFacts(m, current, x);
      proc := proc[current := x];
      ListedSame(m, proc, all);
      Yield();
      SleptLaw(m, proc, old(current), chan, current);
    }

    /** Change fields of a process that the queues do not look at. */
    method Amend(p: nat, x: Process)
      requires Partly({}) && p in proc && SameLink(proc[p], x)
      modifies this`proc
      ensures Partly({}) && proc == old(proc)[p := x]
    {
      hide QueuesOk;
      SameLinks(proc, proc[p := x], K(), {});
      proc := proc[p := x];
    }

    /** A new process joins the list of all and the queue of its priority. */
    method Admit(p: nat, x: Process)
      requires Partly({}) && p != NULL && p !in proc && x.status == Ready && x.priority < NUM_QUEUES
      modifies this`proc, this`all, this`head, this`tail, this`lists
      ensures Partly({}) && all == [p] + old(all) && SameBare(old(proc)[p := x], proc)
      ensures current in old(proc) && proc[current].status == old(proc)[current].status
      ensures |old(lists)| == NUM_QUEUES && lists == old(lists)[x.priority := old(lists)[x.priority] + [p]]
    {
      hide QueuesOk, SameBare, OneRunning, Listed;
      HasCurrent({});
      Sizes(proc, K(), {});
      ToReady(proc, p, x, K());
      ghost var m := proc;
      proc := proc[p := x];
      all := [p] + all;
      QueuePushBack(p);
      AdmitFacts(m, proc, p, x, current, old(all));
    }

    /** A process that is in no queue and not running leaves for good. */
    method Remove(p: nat)
      requires Partly({}) && p in proc && p != current && proc[p].status != Ready
      modifies this`proc, this`all
      ensures Partly({}) && proc == old(proc) - {p} && all == Without(old(all), p)
    {
      hide QueuesOk, Without, OneRunning, Listed;
      HasCurrent({});
      Gone(proc, p, K());
      RemoveFacts(proc, p, current, all);
      all := Unlisted(all, p);
      proc := proc - {p};
    }

    /** The running process changes for good: it exits. */
    method Retire(x: Process)
      requires Partly({}) && x.status == Terminated && x.priority < NUM_QUEUES && proc[current].status == Running
      modifies this`proc
      ensures Partly({}) && proc == old(proc)[current := x]
    {
      HasCurrent({});
      hide QueuesOk, Listed;
      InRange(proc, K(), {}, current);
      Parked(proc, current, x, K());
      SleepFacts(proc, current, x);
      ListedSame(proc, proc[current := x], all);
      proc := proc[current := x];
    }

    /** wakeup: every process asleep on `chan`, in list order, joins the back of
        its queue. */
    method Wakeup(chan: nat)
      requires Partly({}) && proc[current].status != Blocked
      modifies this`proc, this`head, this`tail, this`lists
      ensures Partly({}) && proc[current].status == old(proc)[current].status
      ensures SameBare(WakeAll(old(proc), old(all), chan), proc) && |lists| == |old(lists)| == NUM_QUEUES
      ensures Listed(old(proc), all) && Roused(old(proc), proc, chan)
      ensures forall q :: 0 <= q < NUM_QUEUES ==> lists[q] == old(lists)[q] + Woken(old(proc), all, chan, q)
    {
      hide QueuesOk, Listed, OneRunning, SameBare, WakeAll, Woken, Roused, Awoken;
      HasCurrent({});
      Sizes(proc, K(), {});
      ghost var m := proc;
      ghost var ls := lists;
      WakeNone(m, chan);
      var i := 0;
      while i < |all|
        invariant 0 <= i <= |all| && Partly({}) && current in m && current in proc
        invariant proc[current].status == m[current].status
        invariant SameBare(WakeAll(m, all[..i], chan), proc) && |lists| == NUM_QUEUES
        invariant forall q :: 0 <= q < NUM_QUEUES ==> lists[q] == ls[q] + Woken(m, all[..i], chan, q)
      {
        var p := all[i];
        ghost var n := proc;
        WakeAt(m, n, all, i, chan);
        forall q | 0 <= q < NUM_QUEUES ensures var one := if Sleeper(m[p], chan) && m[p].priority == q then [p] else [];
          Woken(m, all[..i + 1], chan, q) == Woken(m, all[..i], chan, q) + one
        {
          WokenStep(m, all, i, chan, q);
        }
        BareSelf(n);
        if proc[p].status == Blocked && proc[p].chan == chan {
          ProcessWake(p);
          HasCurrent({});
        }
        WakeStep(m, n, proc, all, i, chan);
        i := i + 1;
      }
      assert all[..|all|] == all;
      RousedLaw(m, proc, all, chan);
    }

    /** process_wake */
    method ProcessWake(p: nat)
      requires Partly({}) && p in proc && proc[current].status != Blocked
      modifies this`proc, this`head, this`tail, this`lists
      ensures Partly({}) && proc[current].status == old(proc)[current].status && |old(lists)| == NUM_QUEUES
      ensures old(proc)[p].priority < NUM_QUEUES
      ensures if old(proc)[p].status == Blocked
        then SameBare(old(proc)[p := Awake(old(proc)[p])], proc)
             && lists == old(lists)[old(proc)[p].priority := old(lists)[old(proc)[p].priority] + [p]]
        else proc == old(proc) && K() == old(K())
      ensures Awoken(old(proc), proc, p)
    {
      hide QueuesOk, Listed, Awoken;
      Sizes(proc, K(), {});
      InRange(proc, K(), {}, p);
      if proc[p].status == Blocked {
        ghost var m := proc;
        ToReady(proc, p, Awake(proc[p]), K());
        proc := proc[p := Awake(proc[p])];
        ghost var m1 := proc;
        QueuePushBack(p);
        WakeFacts(m, proc, p, current);
        ListedSame(m, proc, all);
      }
      AwokenLaw(old(proc), proc, p);
    }
  }

  /** The process table after the CPU went from `prev` to `next`. */
  function AfterYield(m: Procs, prev: nat, next: nat): Procs
    requires prev in m && next in m
  {
    var n := m[next := m[next].(status := Running)];
    if n[prev].status == Running && prev != next then n[prev := n[prev].(status := Ready, ticksLeft := n[prev].quantum)]
      else n
  }

  function AfterSleep(m: Procs, c: nat, chan: nat, next: nat): Procs
    requires c in m && next in m
  {
    m[c := m[c].(chan := chan, status := Blocked)][next := m[next].(status := Running)]
  }

  /** The running process after one timer tick. */
  function Charged(m: Procs, c: nat): Procs
    requires c in m
  {
    var x := m[c];
    m[c := x.(cpuTicks := x.cpuTicks + 1, ticksLeft := if x.ticksLeft > 0 then x.ticksLeft - 1 else 0)]
  }

  lemma ChargedOk(m: Procs, k: Queues, c: nat, all: seq<nat>)
    requires QueuesOk(m, k, {}) && OneRunning(m, c) && Listed(m, all)
    ensures var n := Charged(m, c);
      QueuesOk(n, k, {}) && OneRunning(n, c) && Listed(n, all) && n[c].status == m[c].status
  {
    hide QueuesOk;
    SameLinks(m, Charged(m, c), k, {});
  }

  /** The lists after the caller, if still running, was put at the back of its own. */
  function Requeued(m: Procs, lists: seq<seq<nat>>, prev: nat): seq<seq<nat>>
    requires prev in m && |lists| == NUM_QUEUES
  {
    var q := m[prev].priority;
    if m[prev].status == Running && q < NUM_QUEUES then lists[q := lists[q] + [prev]] else lists
  }

  lemma StillOne(m: Procs, n: Procs, current: nat)
    requires OneRunning(m, current) && SameBare(m, n)
    ensures OneRunning(n, current) && n[current].status == m[current].status
    ensures n[current].priority == m[current].priority
  {
    assert forall p :: p in m ==> Bare(n[p]).status == Bare(m[p]).status && Bare(n[p]).priority == Bare(m[p]).priority;
  }

  lemma SameKeys(m: Procs, n: Procs, all: seq<nat>, current: nat, next: nat)
    requires SameBare(m, n) && Listed(m, all)
    ensures n.Keys == m.Keys && Listed(n, all)
    ensures current in m ==> Bare(n[current]) == Bare(m[current])
  {
  }

  lemma Apart(m: Procs, current: nat, p: nat)
    requires OneRunning(m, current) && p in m && m[p].status == Ready
    ensures p != current && current in m
  {
  }

  lemma BareSelf(m: Procs)
    ensures SameBare(m, m)
  {
  }

  lemma BareTrans(l: Procs, m: Procs, n: Procs)
    requires SameBare(l, m) && SameBare(m, n)
    ensures SameBare(l, n)
  {
  }

  /** Links apart, it does not matter on which of two equal tables the CPU moves. */
  lemma BareYield(m: Procs, n: Procs, prev: nat, next: nat)
    requires SameBare(m, n) && prev in m && next in m
    ensures prev in n && next in n && SameBare(AfterYield(m, prev, next), AfterYield(n, prev, next))
    ensures forall z :: SameBare(AfterYield(n, prev, next), z) ==> SameBare(AfterYield(m, prev, next), z)
  {
    assert Bare(n[prev]) == Bare(m[prev]) && Bare(n[next]) == Bare(m[next]);
    assert n[prev].status == Bare(n[prev]).status && m[prev].status == Bare(m[prev]).status;
    assert n[prev].quantum == Bare(n[prev]).quantum && m[prev].quantum == Bare(m[prev]).quantum;
    var x, y := AfterYield(m, prev, next), AfterYield(n, prev, next);
    assert prev != next ==> Bare(y[prev]) == Bare(x[prev]);
    assert Bare(y[next]) == Bare(x[next]);
    forall p | p in x ensures Bare(y[p]) == Bare(x[p]) {
      if p != prev && p != next { assert Bare(n[p]) == Bare(m[p]); }
    }
    hide AfterYield, Bare;
    forall z | SameBare(y, z) ensures SameBare(x, z) {
      BareTrans(x, y, z);
    }
  }

  lemma BareRequeued(m: Procs, n: Procs, lists: seq<seq<nat>>, prev: nat)
    requires SameBare(m, n) && prev in m && |lists| == NUM_QUEUES
    ensures prev in n && Requeued(n, lists, prev) == Requeued(m, lists, prev)
  {
    assert Bare(n[prev]) == Bare(m[prev]);
    assert n[prev].status == Bare(n[prev]).status && m[prev].status == Bare(m[prev]).status;
    assert n[prev].priority == Bare(n[prev]).priority && m[prev].priority == Bare(m[prev]).priority;
  }

  lemma YieldFacts(m: Procs, n: Procs, prev: nat, next: nat)
    requires OneRunning(m, prev) && next in m && prev != next && m[next].status == Ready
    requires SameBare(AfterYield(m, prev, next), n)
    ensures OneRunning(n, next) && n[next].status == Running && n.Keys == m.Keys
  {
    var x := AfterYield(m, prev, next);
    forall p | p in n && n[p].status == Running ensures p == next {
      assert Bare(n[p]) == Bare(x[p]) && Bare(n[p]).status == Running && Bare(x[p]).status == x[p].status;
    }
    assert Bare(n[next]) == Bare(x[next]) && Bare(n[next]).status == n[next].status
      && Bare(x[next]).status == x[next].status;
  }

  function Without(ps: seq<nat>, p: nat): (qs: seq<nat>)
    ensures forall x :: x in qs <==> x in ps && x != p
  {
    if ps == [] then []
    else Without(ps[..|ps| - 1], p) + if ps[|ps| - 1] == p then [] else [ps[|ps| - 1]]
  }

  lemma WithoutStep(ps: seq<nat>, i: nat, p: nat)
    requires i < |ps|
    ensures Without(ps[..i + 1], p) == if ps[i] == p then Without(ps[..i], p) else Without(ps[..i], p) + [ps[i]]
  {
    assert ps[..i + 1][..i] == ps[..i];
  }

  lemma NoDupAppend(ps: seq<nat>, p: nat)
    requires NoDup(ps) && p !in ps
    ensures NoDup(ps + [p]) && NoDup([p] + ps)
  {
  }

  lemma {:induction false} WithoutDistinct(ps: seq<nat>, p: nat)
    requires NoDup(ps)
    ensures NoDup(Without(ps, p))
  {
    if ps != [] {
      var last, rest := ps[|ps| - 1], ps[..|ps| - 1];
      WithoutDistinct(rest, p);
      assert last !in rest;
      NoDupAppend(Without(rest, p), last);
      assert Without(rest, p) + [] == Without(rest, p);
    }
  }

  lemma AdmitFacts(m: Procs, n: Procs, p: nat, x: Process, c: nat, all: seq<nat>)
    requires OneRunning(m, c) && Listed(m, all) && p !in m && x.status == Ready && SameBare(m[p := x], n)
    ensures OneRunning(n, c) && n[c].status == m[c].status && Listed(n, [p] + all)
  {
    NoDupAppend(all, p);
    var y := m[p := x];
    forall q | q in n ensures n[q].status == y[q].status {
      assert Bare(n[q]) == Bare(y[q]) && Bare(n[q]).status == n[q].status && Bare(y[q]).status == y[q].status;
    }
    assert forall q :: q in [p] + all <==> q == p || q in all;
  }

  lemma RemoveFacts(m: Procs, p: nat, c: nat, all: seq<nat>)
    requires OneRunning(m, c) && Listed(m, all) && p in m && p != c
    ensures OneRunning(m - {p}, c) && Listed(m - {p}, Without(all, p))
  {
    WithoutDistinct(all, p);
  }

  lemma SleepFacts(m: Procs, c: nat, x: Process)
    requires OneRunning(m, c) && x.status != Running && x.status != Ready
    ensures OneRunning(m[c := x], c)
    ensures forall next :: next in m && next != c ==>
      AfterYield(m[c := x], c, next) == m[c := x][next := m[next].(status := Running)]
  {
  }

  lemma WakeNone(m: Procs, chan: nat)
    ensures SameBare(WakeAll(m, [], chan), m) && forall q :: Woken(m, [], chan, q) == []
  {
  }

  /** The process at hand in one turn of the loop in wakeup. */
  lemma WakeAt(m: Procs, n: Procs, all: seq<nat>, i: nat, chan: nat)
    requires Listed(m, all) && i < |all| && SameBare(WakeAll(m, all[..i], chan), n)
    ensures all[i] in m && all[i] in n && Bare(n[all[i]]) == Bare(m[all[i]])
    ensures var a, b := m[all[i]], n[all[i]]; a.status == b.status && a.chan == b.chan && a.priority == b.priority
  {
    var p := all[i];
    assert p !in all[..i];
    assert Bare(n[p]) == Bare(m[p]);
    assert Bare(n[p]).status == n[p].status && Bare(n[p]).chan == n[p].chan && Bare(n[p]).priority == n[p].priority;
    assert Bare(m[p]).status == m[p].status && Bare(m[p]).chan == m[p].chan && Bare(m[p]).priority == m[p].priority;
  }

  lemma WokenStep(m: Procs, all: seq<nat>, i: nat, chan: nat, q: nat)
    requires i < |all| && all[i] in m
    ensures var one := if Sleeper(m[all[i]], chan) && m[all[i]].priority == q then [all[i]] else [];
      Woken(m, all[..i + 1], chan, q) == Woken(m, all[..i], chan, q) + one
  {
    assert all[..i + 1][..i] == all[..i];
  }

  lemma WakeMore(m: Procs, ps: seq<nat>, p: nat, chan: nat)
    requires p in m
    ensures WakeAll(m, ps + [p], chan) == WakeAll(m, ps, chan)[p := if Sleeper(m[p], chan) then Awake(m[p]) else m[p]]
  {
    hide Awake, Sleeper;
  }

  lemma WakeStep(m: Procs, n: Procs, z: Procs, all: seq<nat>, i: nat, chan: nat)
    requires i < |all| && SameBare(WakeAll(m, all[..i], chan), n)
    requires var p := all[i];
      && p in m && p in n && Bare(n[p]) == Bare(m[p])
      && SameBare(if Sleeper(m[p], chan) then n[p := Awake(n[p])] else n, z)
    ensures SameBare(WakeAll(m, all[..i + 1], chan), z)
  {
    hide Bare, Awake, Sleeper, WakeAll;
    var p := all[i];
    WakeMore(m, all[..i], p, chan);
    assert all[..i + 1] == all[..i] + [p];
    AwakeBare(m[p], n[p]);
  }

  lemma AwakeBare(a: Process, b: Process)
    requires Bare(a) == Bare(b)
    ensures Bare(Awake(a)) == Bare(Awake(b))
  {
    assert Bare(Awake(a)) == Awake(Bare(a)) && Bare(Awake(b)) == Awake(Bare(b));
  }

  lemma WakeFacts(m: Procs, n: Procs, p: nat, current: nat)
    requires OneRunning(m, current) && p in m && m[p].status == Blocked && SameBare(m[p := Awake(m[p])], n)
    requires m[current].status != Blocked
    ensures OneRunning(n, current) && n[current].status == m[current].status
  {
    forall x | x in n && n[x].status == Running ensures x == current {
      assert Bare(n[x]).status == Running;
    }
    assert Bare(n[current]).status == Bare(m[p := Awake(m[p])][current]).status;
  }

  lemma ListedSame(m: Procs, n: Procs, all: seq<nat>)
    requires Listed(m, all) && n.Keys == m.Keys
    ensures Listed(n, all)
  {
  }

  lemma BootQueues(m: Procs, k: Queues, idle: nat, init: nat)
    requires m.Keys == {idle, init} && idle != NULL && init != NULL && idle != init
    requires m[idle] == NewProcess(0, PRIO_IDLE) && m[init] == Booted()
    requires Shape(k) && k.head[PRIO_IDLE] == k.tail[PRIO_IDLE] == idle && k.lists[PRIO_IDLE] == [idle]
    requires forall q :: 0 <= q < NUM_QUEUES && q != PRIO_IDLE ==> k.head[q] == k.tail[q] == NULL && k.lists[q] == []
    ensures QueuesOk(m, k, {})
  {
    forall q | 0 <= q < NUM_QUEUES ensures Chain(m, k.lists[q], k.head[q], k.tail[q], q) {
      if q == PRIO_IDLE { assert NodeOk(m, k.lists[q], 0, q); }
    }
  }

  lemma InRange(m: Procs, k: Queues, out: set<nat>, p: nat)
    requires QueuesOk(m, k, out) && p in m
    ensures m[p].priority < NUM_QUEUES && p != NULL && Shape(k)
  {
  }

  lemma Sizes(m: Procs, k: Queues, out: set<nat>)
    requires QueuesOk(m, k, out)
    ensures |k.head| == |k.tail| == |k.lists| == NUM_QUEUES
  {
  }
}
