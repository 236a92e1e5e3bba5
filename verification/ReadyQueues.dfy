/** The ready queues of the scheduler: sixteen doubly linked lists threaded
    through the process records themselves. A process is named by the address of
    its record; 0 is the null pointer. */
module ReadyQueues {
  import opened Machine

  const NUM_QUEUES: nat := 16

  datatype Status = Running | Ready | Blocked | Terminated

  datatype Process = Process(
    pid: nat, ppid: nat, pgid: nat, status: Status, chan: nat, exitStatus: int,
    priority: nat, quantum: nat, ticksLeft: nat, cpuTicks: nat, childTicks: nat,
    isUser: bool, pending: set<nat>, blocked: set<nat>, ignored: set<nat>, caught: set<nat>, noZombies: bool,
    next: nat, prev: nat)

  type Procs = map<nat, Process>

  function NextIn(xs: seq<nat>, i: nat): nat
    requires i < |xs|
  {
    if i + 1 < |xs| then xs[i + 1] else NULL
  }

  function PrevIn(xs: seq<nat>, i: nat): nat
    requires i < |xs|
  {
    if i > 0 then xs[i - 1] else NULL
  }

  ghost predicate NodeOk(m: Procs, xs: seq<nat>, i: nat, q: nat)
    requires i < |xs|
  {
    && xs[i] in m && xs[i] != NULL
    && m[xs[i]].next == NextIn(xs, i) && m[xs[i]].prev == PrevIn(xs, i)
    && m[xs[i]].status == Ready && m[xs[i]].priority == q
  }

  /** `xs` is the doubly linked list from `h` to `t`, of ready processes of
      priority `q`, each of them once. */
  ghost predicate Chain(m: Procs, xs: seq<nat>, h: nat, t: nat, q: nat) {
    && (if xs == [] then h == NULL && t == NULL else h == xs[0] && t == xs[|xs| - 1])
    && (forall i {:trigger xs[i]} :: 0 <= i < |xs| ==> NodeOk(m, xs, i, q))
    && (forall i, j :: 0 <= i < j < |xs| ==> xs[i] != xs[j])
  }

  datatype Queues = Queues(head: seq<nat>, tail: seq<nat>, lists: seq<seq<nat>>)

  ghost predicate Shape(k: Queues) {
    |k.head| == |k.tail| == |k.lists| == NUM_QUEUES
  }

  /** Every ready process is in the list of its priority, except those in `out`,
      which are in none; nothing else is in a list. */
  ghost predicate QueuesOk(m: Procs, k: Queues, out: set<nat>) {
    Shape(k) && Chains(m, k) && Members(m, k, out)
  }

  ghost predicate Chains(m: Procs, k: Queues)
    requires Shape(k)
  {
    forall q {:trigger k.lists[q]} :: 0 <= q < NUM_QUEUES ==> Chain(m, k.lists[q], k.head[q], k.tail[q], q)
  }

  ghost predicate Members(m: Procs, k: Queues, out: set<nat>)
    requires Shape(k)
  {
    && (forall p {:trigger m[p]} :: p in m ==> m[p].priority < NUM_QUEUES)
    && (forall p :: p in m && m[p].status == Ready && p !in out ==> p in k.lists[m[p].priority])
    && (forall q, p :: 0 <= q < NUM_QUEUES && p in k.lists[q] ==> p !in out)
    && NULL !in m
  }

  predicate SameLink(a: Process, b: Process) {
    a.next == b.next && a.prev == b.prev && a.status == b.status && a.priority == b.priority
  }

  /** Fields other than the links, the status and the priority do not matter. */
  lemma SameLinks(m: Procs, n: Procs, k: Queues, out: set<nat>)
    requires QueuesOk(m, k, out) && n.Keys == m.Keys && forall p :: p in m ==> SameLink(m[p], n[p])
    ensures QueuesOk(n, k, out)
  {
    forall q | 0 <= q < NUM_QUEUES ensures Chain(n, k.lists[q], k.head[q], k.tail[q], q) {
      assert Chain(m, k.lists[q], k.head[q], k.tail[q], q);
      forall i | 0 <= i < |k.lists[q]| ensures NodeOk(n, k.lists[q], i, q) {
        assert NodeOk(m, k.lists[q], i, q);
      }
    }
  }

  /** A process in no list may change state freely; if it becomes ready it must
      still be put in a list. */
  lemma OutsideOk(m: Procs, p: nat, x: Process, k: Queues, out: set<nat>)
    requires QueuesOk(m, k, out) && p != NULL && x.priority < NUM_QUEUES
    requires p !in m || p in out || m[p].status != Ready
    ensures QueuesOk(m[p := x], k, if x.status == Ready then out + {p} else out - {p})
  {
    var n := m[p := x];
    forall q | 0 <= q < NUM_QUEUES ensures p !in k.lists[q] {
      NotListed(m, k, out, p, q);
    }
    forall q | 0 <= q < NUM_QUEUES ensures Chain(n, k.lists[q], k.head[q], k.tail[q], q) {
      assert Chain(m, k.lists[q], k.head[q], k.tail[q], q);
      forall i | 0 <= i < |k.lists[q]| ensures NodeOk(n, k.lists[q], i, q) {
        assert NodeOk(m, k.lists[q], i, q);
      }
    }
    hide Chain;
  }

  lemma NotListed(m: Procs, k: Queues, out: set<nat>, p: nat, q: nat)
    requires QueuesOk(m, k, out) && q < NUM_QUEUES && (p !in m || p in out || m[p].status != Ready)
    ensures p !in k.lists[q]
  {
  }

  /** A process that is gone leaves the lists as they are. */
  lemma RemoveOk(m: Procs, p: nat, k: Queues, out: set<nat>)
    requires QueuesOk(m, k, out) && p in m && (p in out || m[p].status != Ready)
    ensures QueuesOk(m - {p}, k, out - {p})
  {
    forall q | 0 <= q < NUM_QUEUES ensures Chain(m - {p}, k.lists[q], k.head[q], k.tail[q], q) && p !in k.lists[q] {
      assert Chain(m, k.lists[q], k.head[q], k.tail[q], q);
      NotListed(m, k, out, p, q);
      forall i | 0 <= i < |k.lists[q]| ensures NodeOk(m - {p}, k.lists[q], i, q) {
        assert NodeOk(m, k.lists[q], i, q);
      }
    }
  }

  // ---- queue_push_back ----

  function Pushed(m: Procs, k: Queues, p: nat): (Procs, Queues)
    requires p in m && m[p].priority < NUM_QUEUES && |k.head| == |k.tail| == |k.lists| == NUM_QUEUES
    requires var t := k.tail[m[p].priority]; t == NULL || t in m
  {
    var q := m[p].priority;
    var t := k.tail[q];
    var m1 := m[p := m[p].(next := NULL, prev := t)];
    var m2 := if t != NULL then m1[t := m1[t].(next := p)] else m1;
    (m2, Queues(if t != NULL then k.head else k.head[q := p], k.tail[q := p], k.lists[q := k.lists[q] + [p]]))
  }

  lemma TailThere(m: Procs, k: Queues, out: set<nat>, q: nat)
    requires QueuesOk(m, k, out) && q < NUM_QUEUES
    ensures var t := k.tail[q]; t == NULL <==> k.lists[q] == []
    ensures k.lists[q] != [] ==> k.tail[q] in m && k.tail[q] == k.lists[q][|k.lists[q]| - 1] && k.tail[q] !in out
  {
    assert Chain(m, k.lists[q], k.head[q], k.tail[q], q);
    if k.lists[q] != [] { assert NodeOk(m, k.lists[q], |k.lists[q]| - 1, q); }
  }

  lemma PushChain(m: Procs, k: Queues, out: set<nat>, p: nat)
    requires QueuesOk(m, k, out) && p in out && p in m && m[p].status == Ready && p != NULL
    requires var t := k.tail[m[p].priority]; t == NULL || t in m
    ensures var (n, j) := Pushed(m, k, p); var q := m[p].priority; Chain(n, j.lists[q], j.head[q], j.tail[q], q)
  {
    var q := m[p].priority;
    var xs := k.lists[q];
    var (n, j) := Pushed(m, k, p);
    TailThere(m, k, out, q);
    NotListed(m, k, out, p, q);
    assert Chain(m, xs, k.head[q], k.tail[q], q);
    forall i | 0 <= i < |xs| + 1 ensures NodeOk(n, xs + [p], i, q) {
      if i < |xs| { assert NodeOk(m, xs, i, q); }
    }
  }

  lemma PushOther(m: Procs, k: Queues, out: set<nat>, p: nat, r: nat)
    requires QueuesOk(m, k, out) && p in out && p in m && m[p].status == Ready
    requires var t := k.tail[m[p].priority]; t == NULL || t in m
    requires r < NUM_QUEUES && r != m[p].priority
    ensures var (n, j) := Pushed(m, k, p); Chain(n, j.lists[r], j.head[r], j.tail[r], r)
  {
    var (n, j) := Pushed(m, k, p);
    TailThere(m, k, out, m[p].priority);
    var ys := k.lists[m[p].priority];
    if ys != [] { assert NodeOk(m, ys, |ys| - 1, m[p].priority); }
    NotListed(m, k, out, p, r);
    assert Chain(m, k.lists[r], k.head[r], k.tail[r], r);
    forall i | 0 <= i < |k.lists[r]| ensures NodeOk(n, k.lists[r], i, r) {
      assert NodeOk(m, k.lists[r], i, r);
    }
  }

  lemma PushOk(m: Procs, k: Queues, out: set<nat>, p: nat)
    requires QueuesOk(m, k, out) && p in out && p in m && m[p].status == Ready && p != NULL
    ensures var t := k.tail[m[p].priority]; t == NULL || t in m
    ensures var (n, j) := Pushed(m, k, p); QueuesOk(n, j, out - {p}) && n.Keys == m.Keys
  {
    var q := m[p].priority;
    TailThere(m, k, out, q);
    var (n, j) := Pushed(m, k, p);
    forall r | 0 <= r < NUM_QUEUES ensures Chain(n, j.lists[r], j.head[r], j.tail[r], r) {
      if r == q { PushChain(m, k, out, p); } else { PushOther(m, k, out, p, r); }
    }
    PushMembers(m, k, out, p);
  }

  lemma PushMembers(m: Procs, k: Queues, out: set<nat>, p: nat)
    requires Shape(k) && Members(m, k, out) && p in out && p in m && m[p].status == Ready
    requires var t := k.tail[m[p].priority]; t == NULL || t in m
    ensures var (n, j) := Pushed(m, k, p); Members(n, j, out - {p})
  {
    var q := m[p].priority;
    var (n, j) := Pushed(m, k, p);
    forall r, x | 0 <= r < NUM_QUEUES && x in j.lists[r] ensures x !in out - {p} {
      assert x == p || x in k.lists[r];
    }
    forall x | x in n && n[x].status == Ready && x !in out - {p} ensures x in j.lists[n[x].priority] {
      if x == p { assert j.lists[q][|k.lists[q]|] == p; } else { assert x in k.lists[m[x].priority]; }
    }
  }

  // ---- queue_pop_front ----

  lemma HeadThere(m: Procs, k: Queues, out: set<nat>, q: nat)
    requires QueuesOk(m, k, out) && q < NUM_QUEUES
    ensures k.head[q] == NULL <==> k.lists[q] == []
    ensures k.lists[q] != [] ==> var p := k.lists[q][0];
      k.head[q] == p && p in m && p !in out && m[p].status == Ready && m[p].priority == q
      && (m[p].next == NULL <==> |k.lists[q]| == 1)
      && (|k.lists[q]| > 1 ==> m[p].next == k.lists[q][1] && m[p].next in m && m[p].next != p)
  {
    assert Chain(m, k.lists[q], k.head[q], k.tail[q], q);
    if k.lists[q] != [] { assert NodeOk(m, k.lists[q], 0, q); }
    if |k.lists[q]| > 1 { assert NodeOk(m, k.lists[q], 1, q); }
  }

  function Popped(m: Procs, k: Queues, q: nat): (Procs, Queues)
    requires q < NUM_QUEUES && |k.head| == |k.tail| == |k.lists| == NUM_QUEUES
    requires k.head[q] in m && k.lists[q] != [] && var x := m[k.head[q]].next; x == NULL || x in m
  {
    var p := k.head[q];
    var x := m[p].next;
    var m1 := if x != NULL then m[x := m[x].(prev := NULL)] else m;
    (m1[p := m1[p].(next := NULL, prev := NULL)],
     Queues(k.head[q := x], if x != NULL then k.tail else k.tail[q := NULL], k.lists[q := k.lists[q][1..]]))
  }

  lemma PopSame(m: Procs, k: Queues, q: nat)
    requires Shape(k) && q < NUM_QUEUES && k.lists[q] != [] && Chain(m, k.lists[q], k.head[q], k.tail[q], q)
    requires k.head[q] in m && var x := m[k.head[q]].next; x == NULL || x in m
    ensures var (n, j) := Popped(m, k, q); Chain(n, j.lists[q], j.head[q], j.tail[q], q)
  {
    var xs := k.lists[q];
    var (n, j) := Popped(m, k, q);
    var ys := xs[1..];
    assert NodeOk(m, xs, 0, q) && (|xs| > 1 ==> NodeOk(m, xs, 1, q));
    forall i | 0 <= i < |ys| ensures NodeOk(n, ys, i, q) {
      assert NodeOk(m, xs, i + 1, q);
      assert ys[i] == xs[i + 1] != xs[0] && (i > 0 ==> xs[i + 1] != xs[1]);
    }
  }

  lemma PopOther(m: Procs, k: Queues, q: nat, r: nat)
    requires Shape(k) && q < NUM_QUEUES && r < NUM_QUEUES && r != q && k.lists[q] != []
    requires Chain(m, k.lists[q], k.head[q], k.tail[q], q) && Chain(m, k.lists[r], k.head[r], k.tail[r], r)
    requires k.head[q] in m && var x := m[k.head[q]].next; x == NULL || x in m
    ensures var (n, j) := Popped(m, k, q); Chain(n, j.lists[r], j.head[r], j.tail[r], r)
  {
    var xs := k.lists[q];
    var (n, j) := Popped(m, k, q);
    assert NodeOk(m, xs, 0, q) && (|xs| > 1 ==> NodeOk(m, xs, 1, q));
    var zs := k.lists[r];
    forall i | 0 <= i < |zs| ensures NodeOk(n, zs, i, r) {
      assert NodeOk(m, zs, i, r);
      assert zs[i] != k.head[q] && zs[i] != m[k.head[q]].next;
      assert n[zs[i]] == m[zs[i]];
    }
    hide NodeOk, Popped;
  }

  lemma PopMembers(m: Procs, k: Queues, out: set<nat>, q: nat)
    requires Shape(k) && Members(m, k, out) && q < NUM_QUEUES && k.lists[q] != [] && k.head[q] == k.lists[q][0]
    requires k.head[q] in m && var x := m[k.head[q]].next; x == NULL || x in m
    requires forall i :: 0 < i < |k.lists[q]| ==> k.lists[q][i] != k.head[q]
    requires forall r :: 0 <= r < NUM_QUEUES && r != q ==> k.head[q] !in k.lists[r]
    ensures var (n, j) := Popped(m, k, q); Members(n, j, out + {k.head[q]})
  {
    var p := k.head[q];
    var (n, j) := Popped(m, k, q);
    var xs, ys := k.lists[q], k.lists[q][1..];
    assert xs == [p] + ys;
    assert p !in ys;
    forall r, x | 0 <= r < NUM_QUEUES && x in j.lists[r] ensures x !in out + {p} {
      assert x in k.lists[r];
    }
    forall x | x in n && n[x].status == Ready && x !in out + {p} ensures x in j.lists[n[x].priority] {
      assert x in k.lists[m[x].priority];
    }
  }

  lemma NotThere(m: Procs, k: Queues, out: set<nat>, p: nat, r: nat)
    requires QueuesOk(m, k, out) && r < NUM_QUEUES && p in m && m[p].priority != r
    ensures p !in k.lists[r]
  {
    assert Chain(m, k.lists[r], k.head[r], k.tail[r], r);
  }

  lemma Distinct(m: Procs, k: Queues, q: nat)
    requires Shape(k) && q < NUM_QUEUES && Chain(m, k.lists[q], k.head[q], k.tail[q], q) && k.lists[q] != []
    ensures forall i :: 0 < i < |k.lists[q]| ==> k.lists[q][i] != k.head[q]
  {
  }

  lemma PopOk(m: Procs, k: Queues, out: set<nat>, q: nat)
    requires QueuesOk(m, k, out) && q < NUM_QUEUES && k.lists[q] != []
    ensures k.head[q] in m && var x := m[k.head[q]].next; x == NULL || x in m
    ensures var (n, j) := Popped(m, k, q); QueuesOk(n, j, out + {k.head[q]}) && n.Keys == m.Keys
  {
    HeadThere(m, k, out, q);
    var (n, j) := Popped(m, k, q);
    hide Chain;
    forall r | 0 <= r < NUM_QUEUES ensures Chain(n, j.lists[r], j.head[r], j.tail[r], r) {
      if r == q { PopSame(m, k, q); } else { PopOther(m, k, q, r); }
    }
    forall r | 0 <= r < NUM_QUEUES && r != q ensures k.head[q] !in k.lists[r] {
      NotThere(m, k, out, k.head[q], r);
    }
    Distinct(m, k, q);
    PopMembers(m, k, out, q);
  }

  // ---- The same steps, one process at a time ----

  lemma ToReady(m: Procs, p: nat, x: Process, k: Queues)
    requires QueuesOk(m, k, {}) && p != NULL && x.priority < NUM_QUEUES && x.status == Ready
    requires (p !in m || m[p].status != Ready)
    ensures QueuesOk(m[p := x], k, {p})
  {
    hide QueuesOk;
    OutsideOk(m, p, x, k, {});
    assert {} + {p} == {p};
  }

  lemma Parked(m: Procs, p: nat, x: Process, k: Queues)
    requires QueuesOk(m, k, {}) && p != NULL && x.priority < NUM_QUEUES && x.status != Ready
    requires (p !in m || m[p].status != Ready)
    ensures QueuesOk(m[p := x], k, {})
  {
    hide QueuesOk;
    OutsideOk(m, p, x, k, {});
    assert {} - {p} == {};
  }

  lemma Dispatched(m: Procs, p: nat, x: Process, k: Queues)
    requires QueuesOk(m, k, {p}) && p in m && x.priority < NUM_QUEUES && x.status != Ready && p != NULL
    ensures QueuesOk(m[p := x], k, {})
  {
    hide QueuesOk;
    OutsideOk(m, p, x, k, {p});
    assert {p} - {p} == {};
  }

  lemma PushOne(m: Procs, k: Queues, p: nat)
    requires QueuesOk(m, k, {p}) && p in m && m[p].status == Ready
    ensures m[p].priority < NUM_QUEUES && Shape(k) && p != NULL && var t := k.tail[m[p].priority]; t == NULL || t in m
    ensures var (n, j) := Pushed(m, k, p); QueuesOk(n, j, {}) && n.Keys == m.Keys
  {
    PushOk(m, k, {p}, p);
    hide QueuesOk;
    assert {p} - {p} == {};
  }

  lemma PopOne(m: Procs, k: Queues, q: nat)
    requires QueuesOk(m, k, {}) && q < NUM_QUEUES && k.lists[q] != []
    ensures k.head[q] in m && var x := m[k.head[q]].next; x == NULL || x in m
    ensures var (n, j) := Popped(m, k, q); QueuesOk(n, j, {k.head[q]}) && n.Keys == m.Keys
  {
    PopOk(m, k, {}, q);
    hide QueuesOk;
    assert {} + {k.head[q]} == {k.head[q]};
  }

  lemma Gone(m: Procs, p: nat, k: Queues)
    requires QueuesOk(m, k, {}) && p in m && m[p].status != Ready
    ensures QueuesOk(m - {p}, k, {})
  {
    RemoveOk(m, p, k, {});
    hide QueuesOk;
    assert {} - {p} == {};
  }
}
