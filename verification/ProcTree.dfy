/** Processes over time: fork, exit, wait and reap, and the CPU time they carry. */
module ProcTree {
  import opened Machine
  import opened ReadyQueues
  import opened Sched

  const SIGCHLD: nat := 17
  const NSIG: nat := 64
  const INIT_PID: nat := 1
  const PID_LIMIT: nat := 0x1_0000_0000

  // ---- The invariant of the process tree ----

  ghost predicate PidsUnique(m: Procs) {
    forall a, b :: a in m && b in m && m[a].pid == m[b].pid ==> a == b
  }

  /** Someone else who can reap `p`: its parent exists and has not itself exited. */
  ghost predicate HasParent(m: Procs, p: nat)
    requires p in m
  {
    exists q :: q in m && q != p && m[q].pid == m[p].ppid && m[q].status != Terminated
  }

  ghost predicate Parents(m: Procs, idle: nat) {
    forall p {:trigger HasParent(m, p)} :: p in m && p != idle ==> HasParent(m, p)
  }

  ghost predicate Anchors(m: Procs, idle: nat, init: nat) {
    && idle in m && m[idle].pid == 0 && (m[idle].status == Running || m[idle].status == Ready)
    && init in m && m[init].pid == INIT_PID && m[init].ppid == 0 && m[init].status != Terminated
  }

  ghost predicate TreeOk(m: Procs, idle: nat, init: nat, nextPid: nat) {
    PidsUnique(m) && Parents(m, idle) && Anchors(m, idle, init) && forall p :: p in m ==> m[p].pid < nextPid
  }

  // ---- Waiting for children ----

  /** The children of `me` that wait4 with this argument looks at. */
  predicate Matches(m: Procs, me: nat, pid: int, p: nat)
    requires me in m && p in m
  {
    && p != me && m[p].ppid == m[me].pid
    && (pid > 0 ==> m[p].pid == pid % PID_LIMIT)
    && (pid == 0 ==> m[p].pgid == m[me].pgid)
    && (pid < -1 ==> m[p].pgid == (-pid) % PID_LIMIT)
  }

  /** wait4 of `me` asks for the child `x`: for that pid, as 32 bits, for any child with
      -1, for one of its own process group with 0, and for one of the group -pid below. */
  ghost predicate Asked(me: Process, x: Process, pid: int) {
    && x.ppid == me.pid && (pid > 0 ==> x.pid == pid % 0x1_0000_0000)
    && (pid == 0 ==> x.pgid == me.pgid) && (pid < -1 ==> x.pgid == (-pid) % 0x1_0000_0000)
  }

  /** A child that `me` asks for, other than itself. */
  ghost predicate AskedFor(m: Procs, me: nat, pid: int, p: nat) {
    me in m && p in m && p != me && Asked(m[me], m[p], pid)
  }

  lemma MatchesAsked(m: Procs, me: nat, pid: int)
    requires me in m
    ensures forall p :: ChildFor(m, me, pid, p) <==> AskedFor(m, me, pid, p)
    ensures forall p :: ZombieFor(m, me, pid, p) <==> AskedFor(m, me, pid, p) && m[p].status == Terminated
  {
  }

  ghost predicate ZombieFor(m: Procs, me: nat, pid: int, p: nat) {
    me in m && p in m && Matches(m, me, pid, p) && m[p].status == Terminated
  }

  ghost predicate ChildFor(m: Procs, me: nat, pid: int, p: nat) {
    me in m && p in m && Matches(m, me, pid, p)
  }

  /** What makes wait4 go to sleep: a child to wait for, none to reap yet. */
  ghost predicate MustWait(m: Procs, me: nat, pid: int) {
    (forall p :: !ZombieFor(m, me, pid, p)) && exists p :: ChildFor(m, me, pid, p)
  }

  predicate AsleepOnSelf(m: Procs, q: nat) { q in m && m[q].status == Blocked && m[q].chan == q }

  /** Nobody but `but` sleeps in wait4 without a reason; `waits` holds the argument
      of every wait4 asleep. */
  ghost predicate Vigilant(m: Procs, waits: map<nat, int>, but: nat) {
    forall q :: q in waits && AsleepOnSelf(m, q) && q != but ==> MustWait(m, q, waits[q])
  }

  /** Nobody sleeps through a signal that could be delivered. */
  ghost predicate Attentive(m: Procs) {
    forall p :: p in m && m[p].status == Blocked ==> m[p].pending <= m[p].blocked
  }

  /** What the table knows beyond the process records. */
  datatype Book = Book(waits: map<nat, int>, but: nat, idle: nat, init: nat, made: nat)

  ghost predicate Sound(m: Procs, b: Book) {
    TreeOk(m, b.idle, b.init, b.made) && Vigilant(m, b.waits, b.but) && Attentive(m)
  }

  // ---- CPU time ----

  function Time(x: Process): nat { x.cpuTicks + x.childTicks }

  /** The time of the processes `ps`, own and of reaped children. */
  function Total(m: Procs, ps: seq<nat>): nat {
    if ps == [] then 0
    else Total(m, ps[..|ps| - 1]) + if ps[|ps| - 1] in m then Time(m[ps[|ps| - 1]]) else 0
  }

  lemma {:induction false} TotalSame(m: Procs, n: Procs, ps: seq<nat>)
    requires forall p :: p in ps ==> p in m && p in n && Time(n[p]) == Time(m[p])
    ensures Total(n, ps) == Total(m, ps)
  {
    if ps != [] { TotalSame(m, n, ps[..|ps| - 1]); }
  }

  /** One process of the list changes its time. */
  lemma {:induction false} TotalChange(m: Procs, ps: seq<nat>, p: nat, x: Process)
    requires p in m && p in ps && NoDup(ps)
    ensures Total(m[p := x], ps) == Total(m, ps) + Time(x) - Time(m[p])
  {
    var k := |ps| - 1;
    var qs := ps[..k];
    if ps[k] == p {
      assert p !in qs;
      TotalOutside(m, qs, p, x);
    } else {
      TotalChange(m, qs, p, x);
    }
  }

  lemma {:induction false} TotalOutside(m: Procs, ps: seq<nat>, p: nat, x: Process)
    requires p !in ps
    ensures Total(m[p := x], ps) == Total(m, ps)
  {
    if ps != [] { TotalOutside(m, ps[..|ps| - 1], p, x); }
  }

  lemma {:induction false} TotalRemove(m: Procs, ps: seq<nat>, p: nat)
    requires p in m && p in ps && NoDup(ps)
    ensures Total(m - {p}, Without(ps, p)) == Total(m, ps) - Time(m[p])
  {
    var k := |ps| - 1;
    var qs, x := ps[..k], ps[k];
    assert ps == qs + [x];
    WithoutLast(qs, x, p);
    TotalLast(m, qs, x);
    if x == p {
      assert p !in qs;
      WithoutAbsent(qs, p);
      TotalGone(m, qs, p);
    } else {
      TotalRemove(m, qs, p);
      TotalLast(m - {p}, Without(qs, p), x);
    }
    hide Total, Without;
  }

  lemma WithoutLast(qs: seq<nat>, x: nat, p: nat)
    ensures Without(qs + [x], p) == if x == p then Without(qs, p) else Without(qs, p) + [x]
  {
    assert (qs + [x])[..|qs|] == qs;
    assert Without(qs, p) + [] == Without(qs, p);
  }

  lemma TotalLast(m: Procs, qs: seq<nat>, x: nat)
    ensures Total(m, qs + [x]) == Total(m, qs) + if x in m then Time(m[x]) else 0
  {
    assert (qs + [x])[..|qs|] == qs;
  }

  lemma {:induction false} WithoutAbsent(ps: seq<nat>, p: nat)
    requires p !in ps
    ensures Without(ps, p) == ps
  {
    if ps != [] {
      WithoutAbsent(ps[..|ps| - 1], p);
      assert ps[..|ps| - 1] + [ps[|ps| - 1]] == ps;
    }
  }

  lemma {:induction false} TotalGone(m: Procs, ps: seq<nat>, p: nat)
    requires p !in ps
    ensures Total(m - {p}, ps) == Total(m, ps)
  {
    if ps != [] { TotalGone(m, ps[..|ps| - 1], p); }
  }

  lemma TotalBare(m: Procs, n: Procs, all: seq<nat>)
    requires SameBare(m, n) && Listed(m, all)
    ensures Total(n, all) == Total(m, all)
  {
    forall p | p in all ensures p in m && p in n && Time(n[p]) == Time(m[p]) {
      assert Bare(n[p]) == Bare(m[p]) && Time(Bare(n[p])) == Time(n[p]) && Time(Bare(m[p])) == Time(m[p]);
    }
    TotalSame(m, n, all);
  }

  // ---- What steps that leave the tree alone keep ----

  predicate SameFamily(a: Process, b: Process) {
    b.pid == a.pid && b.ppid == a.ppid && b.pgid == a.pgid && (b.status == Terminated <==> a.status == Terminated)
  }

  ghost predicate Family(m: Procs, n: Procs) {
    n.Keys == m.Keys && forall p :: p in m ==> SameFamily(m[p], n[p])
  }

  /** The same family, and nobody newly asleep. */
  predicate SameKin(a: Process, b: Process) {
    SameFamily(a, b) && (b.status == Blocked ==> a.status == Blocked && b.chan == a.chan)
  }

  ghost predicate Kin(m: Procs, n: Procs) {
    n.Keys == m.Keys && forall p :: p in m ==> SameKin(m[p], n[p])
  }

  ghost predicate SameTimes(m: Procs, n: Procs) {
    n.Keys == m.Keys && forall p :: p in m ==> Time(n[p]) == Time(m[p])
  }

  ghost predicate SameMasks(m: Procs, n: Procs) {
    n.Keys == m.Keys && forall p :: p in m ==>
      && n[p].pending == m[p].pending && n[p].blocked == m[p].blocked && n[p].exitStatus == m[p].exitStatus
      && n[p].isUser == m[p].isUser
  }

  ghost predicate Quiet(m: Procs, n: Procs) { Kin(m, n) && SameTimes(m, n) && SameMasks(m, n) }

  ghost predicate Runnable(m: Procs, p: nat) {
    p in m && (m[p].status == Running || m[p].status == Ready)
  }

  lemma BareFields(m: Procs, n: Procs)
    requires SameBare(m, n)
    ensures Quiet(m, n) && forall p :: p in m ==> n[p].status == m[p].status && n[p].chan == m[p].chan
  {
    forall p | p in m
      ensures SameKin(m[p], n[p]) && n[p].status == m[p].status && n[p].chan == m[p].chan && Time(n[p]) == Time(m[p])
      ensures n[p].pending == m[p].pending && n[p].blocked == m[p].blocked && n[p].exitStatus == m[p].exitStatus
      ensures n[p].isUser == m[p].isUser
    {
      BareOne(m[p], n[p]);
    }
  }

  lemma BareOne(a: Process, b: Process)
    requires Bare(a) == Bare(b)
    ensures SameKin(a, b) && b.status == a.status && b.chan == a.chan && Time(b) == Time(a) && b.pending == a.pending
    ensures b.blocked == a.blocked
    ensures b.isUser == a.isUser && b.exitStatus == a.exitStatus && b.ignored == a.ignored && b.caught == a.caught
    ensures b.noZombies == a.noZombies
  {
    assert a == Bare(b).(next := a.next, prev := a.prev);
  }

  lemma FamilyTree(m: Procs, n: Procs, idle: nat, init: nat, nextPid: nat)
    requires TreeOk(m, idle, init, nextPid) && Family(m, n) && Runnable(n, idle)
    ensures TreeOk(n, idle, init, nextPid)
  {
    forall p | p in n && p != idle ensures HasParent(n, p) {
      assert HasParent(m, p);
      var q :| q in m && q != p && m[q].pid == m[p].ppid && m[q].status != Terminated;
      assert q in n && n[q].pid == n[p].ppid && n[q].status != Terminated;
    }
  }

  lemma KinWaits(m: Procs, n: Procs, waits: map<nat, int>, but: nat)
    requires Vigilant(m, waits, but) && Kin(m, n)
    ensures Vigilant(n, waits, but)
    ensures !AsleepOnSelf(n, but) ==> Vigilant(n, waits, NULL)
  {
    forall q | q in waits && AsleepOnSelf(n, q) && q != but ensures MustWait(n, q, waits[q]) {
      FamilyWait(m, n, q, waits[q]);
    }
  }

  lemma KinFamily(m: Procs, n: Procs)
    requires Kin(m, n)
    ensures Family(m, n)
  {
  }

  lemma FamilyWait(m: Procs, n: Procs, q: nat, pid: int)
    requires Family(m, n) && MustWait(m, q, pid)
    ensures MustWait(n, q, pid)
  {
    forall p ensures !ZombieFor(n, q, pid, p) {
      assert !ZombieFor(m, q, pid, p);
    }
    var p :| ChildFor(m, q, pid, p);
    assert ChildFor(n, q, pid, p);
  }

  lemma MasksAttentive(m: Procs, n: Procs)
    requires Attentive(m) && Kin(m, n) && SameMasks(m, n)
    ensures Attentive(n)
  {
  }

  lemma TimesTotal(m: Procs, n: Procs, all: seq<nat>)
    requires SameTimes(m, n) && Listed(m, all)
    ensures Total(n, all) == Total(m, all) && Listed(n, all)
  {
    TotalSame(m, n, all);
  }

  /** Everything the table keeps survives a step that leaves the family alone. */
  lemma KinStep(m: Procs, n: Procs, all: seq<nat>, b: Book)
    requires Sound(m, b) && Listed(m, all) && Kin(m, n) && SameTimes(m, n) && Attentive(n) && Runnable(n, b.idle)
    ensures Sound(n, b) && Total(n, all) == Total(m, all) && (!AsleepOnSelf(n, b.but) ==> Sound(n, b.(but := NULL)))
  {
    hide TreeOk, Vigilant, Attentive, Listed, Kin, Family, SameTimes, Runnable, Total;
    KinFamily(m, n);
    FamilyTree(m, n, b.idle, b.init, b.made);
    KinWaits(m, n, b.waits, b.but);
    TimesTotal(m, n, all);
  }

  lemma QuietStep(m: Procs, n: Procs, all: seq<nat>, b: Book)
    requires Sound(m, b) && Listed(m, all) && Quiet(m, n) && Runnable(n, b.idle)
    ensures Sound(n, b) && Total(n, all) == Total(m, all)
  {
    hide TreeOk, Vigilant, Attentive, Listed, Kin, SameTimes, SameMasks, Runnable, Total;
    MasksAttentive(m, n);
    KinStep(m, n, all, b);
  }

  /** Moving the CPU from `prev` to `next` is quiet. */
  lemma YieldQuiet(m: Procs, n: Procs, prev: nat, next: nat, idle: nat)
    requires prev in m && next in m && m[next].status == Ready && SameBare(AfterYield(m, prev, next), n)
    ensures Quiet(m, n) && (Runnable(m, idle) ==> Runnable(n, idle))
  {
    hide AfterYield, SameBare;
    YieldFields(m, prev, next);
    BareFields(AfterYield(m, prev, next), n);
  }

  lemma YieldFields(m: Procs, prev: nat, next: nat)
    requires prev in m && next in m && m[next].status == Ready
    ensures var x := AfterYield(m, prev, next); Quiet(m, x) && forall p :: Runnable(m, p) ==> Runnable(x, p)
  {
    var x := AfterYield(m, prev, next);
    YieldOne(m, prev, next);
    hide AfterYield;
  }

  lemma YieldOne(m: Procs, prev: nat, next: nat)
    requires prev in m && next in m && m[next].status == Ready
    ensures var x := AfterYield(m, prev, next); x.Keys == m.Keys
    ensures var x := AfterYield(m, prev, next); forall p :: p in m ==> Shifted(m[p], x[p])
  {
    var x := AfterYield(m, prev, next);
    hide Shifted;
    forall p | p in m ensures Shifted(m[p], x[p]) { Shifts(m[p]); }
  }

  /** One process before and after the CPU moved. */
  ghost predicate Shifted(a: Process, b: Process) {
    && SameKin(a, b) && Time(b) == Time(a) && b.pending == a.pending && b.blocked == a.blocked
    && b.exitStatus == a.exitStatus && b.isUser == a.isUser
    && (a.status == Running || a.status == Ready ==> b.status == Running || b.status == Ready)
  }

  lemma Shifts(a: Process)
    ensures Shifted(a, a)
    ensures a.status == Ready ==> Shifted(a, a.(status := Running))
    ensures a.status == Running ==> Shifted(a, a.(status := Ready, ticksLeft := a.quantum))
  {
  }

  // ---- Signals ----

  const SIGKILL: nat := 9

  predicate DefaultIgnored(sig: int) { sig in {17, 18, 19, 20, 21, 22, 23, 28} }

  predicate Discarded(x: Process, sig: nat) {
    if sig == SIGKILL then x.pid == INIT_PID
    else sig in x.ignored || (sig !in x.caught && (DefaultIgnored(sig) || x.pid == INIT_PID))
  }

  predicate Receives(x: Process, sig: int) {
    x.isUser && x.status != Terminated && 1 <= sig <= NSIG && !Discarded(x, sig)
  }

  /** A process that received `sig`: it wakes if it can take the signal. */
  function Struck(x: Process, sig: nat): Process {
    var y := x.(pending := x.pending + {sig});
    if y.status == Blocked && !(y.pending <= y.blocked) then Awake(y) else y
  }

  /** What sending `sig` makes of the process `x`. It gets the signal exactly if it is a
      live user process that has not ignored it; SIGKILL cannot be ignored; the default
      of SIGCHLD, SIGCONT, SIGSTOP, SIGTSTP, SIGTTIN, SIGTTOU, SIGURG and SIGWINCH is to
      do nothing; and pid 1 gets only what it catches. It wakes exactly if the signal
      gives it one that it does not block. */
  ghost predicate Hit(x: Process, y: Process, sig: int) {
    var dropped := if sig == 9 then x.pid == 1
      else sig in x.ignored || (sig !in x.caught && (17 <= sig <= 23 || sig == 28 || x.pid == 1));
    var gets := x.isUser && x.status != Terminated && 1 <= sig <= 64 && !dropped;
    && y.pending == (if gets then x.pending + {sig} else x.pending) && y.blocked == x.blocked
    && y.status == (if gets && x.status == Blocked && !(y.pending <= x.blocked) then Ready else x.status)
    && y.pid == x.pid && y.ppid == x.ppid && y.pgid == x.pgid && y.exitStatus == x.exitStatus && y.isUser == x.isUser
  }

  lemma SignalHits(m: Procs, p: nat, sig: int)
    ensures forall n: Procs :: SameBare(Signalled(m, p, sig), n) ==>
      && (p in m ==> p in n && Hit(m[p], n[p], sig))
      && forall q :: q in m && q != p ==> q in n && Bare(n[q]) == Bare(m[q])
  {
    forall n: Procs | SameBare(Signalled(m, p, sig), n)
      ensures (p in m ==> p in n && Hit(m[p], n[p], sig))
        && forall q :: q in m && q != p ==> q in n && Bare(n[q]) == Bare(m[q])
    {
    }
  }

  function Signalled(m: Procs, p: nat, sig: int): Procs {
    if p in m && Receives(m[p], sig) then m[p := Struck(m[p], sig)] else m
  }

  /** What signals and wakeups leave alone in a process. */
  ghost predicate Kept(a: Process, b: Process) {
    && b.isUser == a.isUser && b.ignored == a.ignored && b.caught == a.caught && b.noZombies == a.noZombies
    && a.pending <= b.pending && b.exitStatus == a.exitStatus
    && (a.status == Running || a.status == Ready ==> b.status == a.status)
  }

  /** A step that only delivers signals and wakes sleepers. */
  ghost predicate Stirred(m: Procs, n: Procs) {
    Kin(m, n) && SameTimes(m, n) && (Attentive(m) ==> Attentive(n)) && forall p :: p in m ==> Kept(m[p], n[p])
  }

  lemma StruckKept(x: Process, sig: nat)
    ensures var y := Struck(x, sig); SameKin(x, y) && Time(y) == Time(x) && Kept(x, y) && y.priority == x.priority
    ensures var y := Struck(x, sig); y.status == Blocked ==> y.pending <= y.blocked
    ensures sig in Struck(x, sig).pending
  {
  }

  lemma SignalStirs(m: Procs, p: nat, sig: int)
    ensures Stirred(m, Signalled(m, p, sig))
  {
    if p in m && Receives(m[p], sig) {
      StruckKept(m[p], sig);
      hide Struck, Receives;
    }
  }

  lemma WakeStirs(m: Procs, ps: seq<nat>, chan: nat)
    ensures Stirred(m, WakeAll(m, ps, chan))
  {
    var n := WakeAll(m, ps, chan);
    forall p | p in m ensures SameKin(m[p], n[p]) && Time(n[p]) == Time(m[p]) && Kept(m[p], n[p])
      ensures n[p].status == Blocked ==> m[p].status == Blocked && n[p].pending == m[p].pending
      ensures n[p].status == Blocked ==> n[p].blocked == m[p].blocked
    {
      AwakeKept(m[p]);
      hide Awake;
    }
  }

  lemma AwakeKept(x: Process)
    ensures x.status == Blocked ==> SameKin(x, Awake(x)) && Time(Awake(x)) == Time(x) && Kept(x, Awake(x))
    ensures x.status == Blocked ==> Awake(x).status == Ready
  {
  }

  lemma Overwrite(m: Procs, n: Procs, p: nat, a: Process, b: Process)
    requires n == m[p := a]
    ensures n[p := b] == m[p := b]
  {
  }

  lemma StirTrans(l: Procs, m: Procs, n: Procs)
    requires Stirred(l, m) && Stirred(m, n)
    ensures Stirred(l, n)
  {
  }

  lemma BareStirs(m: Procs, n: Procs)
    requires SameBare(m, n)
    ensures Stirred(m, n)
  {
    BareFields(m, n);
    forall p | p in m ensures Kept(m[p], n[p]) { BareOne(m[p], n[p]); }
  }

  lemma StirStep(m: Procs, n: Procs, all: seq<nat>, b: Book)
    requires Sound(m, b) && Listed(m, all) && Stirred(m, n)
    ensures Sound(n, b) && Total(n, all) == Total(m, all) && (!AsleepOnSelf(n, b.but) ==> Sound(n, b.(but := NULL)))
  {
    Idle(m, b);
    hide TreeOk, Vigilant, Attentive, Listed, Kin, SameTimes, SameMasks, Total;
    KinStep(m, n, all, b);
  }

  /** Of the processes there were, only `c` may have fallen asleep or ended, and only
      ended ones are gone. */
  ghost predicate Onward(m: Procs, n: Procs, c: nat) {
    && (forall p :: p in n && p != c && n[p].status == Blocked ==>
          p in m && m[p].status == Blocked && n[p].chan == m[p].chan)
    && (forall p :: p in m && p != c && m[p].status != Terminated ==> p in n && n[p].status != Terminated)
    && (c in m ==> c in n)
  }

  lemma KinOnward(m: Procs, n: Procs, c: nat)
    requires Kin(m, n)
    ensures Onward(m, n, c)
  {
  }

  lemma SameOnward(m: Procs, c: nat)
    ensures Onward(m, m, c)
  {
  }

  lemma OnwardBoth(l: Procs, m: Procs, n: Procs, c: nat)
    requires Onward(l, m, c) && Kin(m, n)
    ensures Onward(l, n, c)
  {
  }

  lemma BareOnward(l: Procs, m: Procs, n: Procs, c: nat)
    requires Onward(l, m, c) && SameBare(m, n)
    ensures Onward(l, n, c)
  {
    BareFields(m, n);
    OnwardBoth(l, m, n, c);
  }

  lemma EndedOnward(m: Procs, n: Procs, c: nat, status: int)
    requires Ended(m, n, c, status)
    ensures Onward(m, n, c)
  {
    forall p | p in m && p != c ensures Orphaned(m[p], n[p], m[c].pid) {}
  }

  lemma StirOnward(m: Procs, n: Procs, c: nat)
    requires Stirred(m, n)
    ensures Onward(m, n, c)
  {
  }

  lemma WaitOnward(m: Procs, n: Procs, c: nat, next: nat, pid: int, r: Waited)
    requires c in m && m[c].status == Running
    requires r.Reaped? ==> ZombieFor(m, c, pid, r.child) && exists q :: ReapedBy(m, n, r.child, q)
    requires r.Asleep? ==>
      next in m && next != c && m[next].status == Ready && SameBare(AfterSleep(m, c, c, next), n)
    requires !r.Reaped? && !r.Asleep? ==> n == m
    ensures Onward(m, n, c)
  {
    hide Onward, ReapedBy, SameBare, AfterSleep;
    SameOnward(m, c);
    if r.Reaped? {
      var q :| ReapedBy(m, n, r.child, q);
      ReapOnward(m, n, r.child, q, c);
    } else if r.Asleep? {
      SleepOnward(m, c, c, next);
      BareOnward(m, AfterSleep(m, c, c, next), n, c);
    }
  }

  lemma ReapOnward(m: Procs, n: Procs, p: nat, q: nat, c: nat)
    requires ReapedBy(m, n, p, q) && m[p].status == Terminated && c != p
    ensures Onward(m, n, c)
  {
  }

  lemma ForkOnward(m: Procs, p: nat, c: nat, pid: nat)
    requires c in m && p !in m
    ensures Onward(m, m[p := ChildOf(m[c], pid)], c)
  {
  }

  lemma SleepOnward(m: Procs, c: nat, chan: nat, next: nat)
    requires c in m && next in m && m[next].status == Ready
    ensures Onward(m, AfterSleep(m, c, chan, next), c)
  {
  }

  lemma WakeOnward(m: Procs, ps: seq<nat>, chan: nat, c: nat)
    ensures Onward(m, WakeAll(m, ps, chan), c)
  {
  }

  lemma AdjustOnward(m: Procs, c: nat, x: Process)
    requires c in m
    ensures Onward(m, m[c := x], c)
  {
  }

  // ---- The process table ----

  class ProcessTable {
    const sc: Scheduler
    /** Processes ever made; the next pid is this number, in 32 bits. */
    var made: nat
    const idle: nat
    const init: nat
    /** Timer ticks ever charged to some process. */
    ghost var charged: nat

    /** The argument of every wait4 that went to sleep. */
    ghost var waits: map<nat, int>

    ghost function Ledger(but: nat): Book
      reads this`waits, this`made
    {
      Book(waits, but, idle, init, made)
    }

    /** Between two statements of one step; `but` may be asleep without a reason. */
    ghost predicate Settling(but: nat)
      reads this, sc
    {
      sc.Partly({}) && Sound(sc.proc, Ledger(but)) && made <= PID_LIMIT && Total(sc.proc, sc.all) == charged
    }

    /** Pids are unique, every process but idle has a parent that can reap it, no
        charged tick is lost, and nobody sleeps through a child's end or a signal. */
    ghost predicate Valid()
      reads this, sc
    {
      Settling(NULL) && sc.proc[sc.current].status == Running
    }

    constructor (sc: Scheduler, idle: nat, init: nat)
      requires sc.Valid() && TreeOk(sc.proc, idle, init, 2) && Total(sc.proc, sc.all) == 0 && Attentive(sc.proc)
      ensures Valid() && this.sc == sc && made == 2 && charged == 0 && waits == map[] && this.idle == idle
      ensures this.init == init
    {
      this.sc := sc;
      made := 2;
      this.idle := idle;
      this.init := init;
      charged := 0;
      waits := map[];
    }

    /** process_find: the process with that pid, NULL if there is none. */
    method Find(pid: nat) returns (p: nat)
      requires sc.Partly({})
      ensures p == NULL ==> forall q :: q in sc.proc ==> sc.proc[q].pid != pid
      ensures p != NULL ==> p in sc.proc && sc.proc[p].pid == pid
    {
      hide QueuesOk, OneRunning;
      NullOut();
      var i := 0;
      while i < |sc.all|
        invariant 0 <= i <= |sc.all| && forall j :: 0 <= j < i ==> sc.proc[sc.all[j]].pid != pid
      {
        if sc.proc[sc.all[i]].pid == pid { return sc.all[i]; }
        i := i + 1;
      }
      return NULL;
    }

    lemma NullOut()
      requires sc.Partly({})
      ensures NULL !in sc.proc && forall p :: p in sc.all ==> p in sc.proc
    {
    }

    /** While someone else runs, the idle process is queued: whoever sleeps or
        exits finds a successor. */
    lemma Successor()
      requires Settling(NULL) && sc.current != idle
      ensures sc.SomeReady()
    {
      var m := sc.proc;
      assert OneRunning(m, sc.current) && m[idle].status == Ready;
      InRange(m, sc.K(), {}, idle);
      assert idle in sc.lists[m[idle].priority];
      var b := Best(sc.lists, 0);
    }

    lemma Facts(but: nat)
      requires Settling(but)
      ensures sc.current in sc.proc && idle in sc.proc && init in sc.proc && Listed(sc.proc, sc.all)
      ensures Runnable(sc.proc, idle)
      ensures NULL !in sc.proc && OneRunning(sc.proc, sc.current)
    {
    }

    /** scheduler_tick: one more tick is charged, and accounted for. */
    method Tick()
      requires Valid()
      modifies this`charged, sc`proc, sc`head, sc`tail, sc`lists, sc`current
      ensures Valid() && charged == old(charged) + 1 && Onward(old(sc.proc), sc.proc, old(sc.current))
    {
      hide QueuesOk, OneRunning, Listed, SameBare, Sound, Total, AfterYield, Quiet, Runnable, Charged;
      hide Scheduler.SomeReady, Scheduler.Front, Paid, Handed, Kin, Onward;
      ghost var m := sc.proc;
      ghost var c := sc.current;
      Facts(NULL);
      if sc.SomeReady() { sc.FrontReady(); }
      TickSound(m, sc.all, c, Ledger(NULL));
      sc.Tick();
      charged := charged + 1;
      TickDone(Charged(m, c), sc.proc, c, sc.current, sc.all, Ledger(NULL));
      TickOnward(m, sc.proc, c);
    }

    /** signal_send */
    method SignalSend(p: nat, sig: int, ghost but: nat)
      requires Settling(but) && (p == NULL || p in sc.proc) && sc.proc[sc.current].status != Blocked
      modifies sc`proc, sc`head, sc`tail, sc`lists
      ensures Settling(but) && sc.current in old(sc.proc)
      ensures sc.proc[sc.current].status == old(sc.proc)[sc.current].status
      ensures SameBare(Signalled(old(sc.proc), p, sig), sc.proc) && Stirred(old(sc.proc), sc.proc)
      ensures p in old(sc.proc) ==> p in sc.proc && Hit(old(sc.proc)[p], sc.proc[p], sig)
      ensures forall q :: q in old(sc.proc) && q != p ==> q in sc.proc && Bare(sc.proc[q]) == Bare(old(sc.proc)[q])
    {
      hide QueuesOk, OneRunning, Listed, SameBare, Sound, Total, Stirred, Hit;
      ghost var m := sc.proc;
      Facts(but);
      SignalStirs(m, p, sig);
      SignalHits(m, p, sig);
      BareSelf(m);
      BareStirs(m, m);
      if p != NULL && Receives(sc.proc[p], sig) {
        ghost var x := sc.proc[p];
        hide Receives;
        var y := sc.proc[p].(pending := sc.proc[p].pending + {sig});
        sc.Amend(p, y);
        BareSelf(sc.proc);
        Overwrite(m, sc.proc, p, y, Awake(y));
        if sc.proc[p].status == Blocked && !(sc.proc[p].pending <= sc.proc[p].blocked) {
          sc.ProcessWake(p);
        }
        assert SameBare(m[p := Struck(x, sig)], sc.proc);
        BareStirs(Signalled(m, p, sig), sc.proc);
        StirTrans(m, Signalled(m, p, sig), sc.proc);
        StirStep(m, sc.proc, sc.all, Ledger(but));
      }
    }

    /** One orphan of the exiting process goes to init. */
    method AdoptOne(p: nat, init: nat)
      requires Valid() && p in sc.proc && p != sc.current && sc.proc[p].ppid == sc.proc[sc.current].pid
      requires sc.proc[sc.current].pid != INIT_PID && sc.current != idle && init == this.init
      modifies sc`proc, sc`head, sc`tail, sc`lists
      ensures Valid() && Rehomed(old(sc.proc), sc.proc, old(sc.proc[sc.current].pid), {p})
    {
      hide QueuesOk, OneRunning, Listed, SameBare, Sound, Total, Stirred, Rehomed, WakeAll, Signalled, Receives;
      ghost var m := sc.proc;
      Facts(NULL);
      AdoptSound(m, p, sc.current, sc.all, Ledger(NULL));
      sc.Amend(p, sc.proc[p].(ppid := INIT_PID));
      BareSelf(sc.proc);
      BareStirs(sc.proc, sc.proc);
      if sc.proc[p].status == Terminated {
        Facts(init);
        Notify(init);
      }
      RehomedOne(m, sc.proc, p, m[sc.current].pid);
    }

    /** Every child of the exiting process goes to init. */
    method Orphans(init: nat)
      requires Valid() && sc.proc[sc.current].pid != INIT_PID && sc.current != idle && init == this.init
      modifies sc`proc, sc`head, sc`tail, sc`lists
      ensures Valid() && sc.current in sc.proc && sc.proc[sc.current].pid == old(sc.proc[sc.current].pid)
      ensures Rehomed(old(sc.proc), sc.proc, old(sc.proc[sc.current].pid), old(sc.proc).Keys - {sc.current})
    {
      hide QueuesOk, OneRunning, Listed, SameBare, Sound, Total, Rehomed, Stirred;
      Facts(NULL);
      ghost var m := sc.proc;
      ghost var from := m[sc.current].pid;
      ghost var moved := {};
      BareSelf(m);
      BareStirs(m, m);
      RehomedNone(m, m, from);
      var i := 0;
      while i < |sc.all|
        invariant 0 <= i <= |sc.all| && Valid() && sc.current in sc.proc && sc.proc[sc.current].pid == from
        invariant Rehomed(m, sc.proc, from, moved)
        invariant sc.current !in moved && forall j :: 0 <= j < i && sc.all[j] != sc.current ==> sc.all[j] in moved
      {
        var p := sc.all[i];
        ghost var n := sc.proc;
        Facts(NULL);
        InList(n, sc.all, i);
        if p != sc.current {
          if sc.proc[p].ppid == sc.proc[sc.current].pid {
            AdoptOne(p, init);
            RehomedMore(m, n, sc.proc, from, moved, p);
            RehomedPid(n, sc.proc, from, {p}, sc.current);
          } else {
            RehomedSkip(m, n, from, moved, p);
          }
          moved := moved + {p};
        }
        i := i + 1;
      }
      EveryListed(m, sc.all, sc.current, moved);
      RehomedAll(m, sc.proc, from, moved, sc.current);
    }

    /** The parent of the exiting process; init in its place if the parent wants
        no zombies, which is woken so that it can find it has no child. */
    method Reaper(init: nat) returns (parent: nat)
      requires Valid() && sc.proc[sc.current].pid != INIT_PID && sc.current != idle && init == this.init
      modifies sc`proc, sc`head, sc`tail, sc`lists
      ensures Valid() && parent in sc.proc && parent != sc.current
      ensures sc.proc[parent].pid == sc.proc[sc.current].ppid && sc.proc[parent].status != Terminated
      ensures old(sc.current in sc.proc) && Rehomed(old(sc.proc), sc.proc, old(sc.proc[sc.current].ppid),
        if NoZombie(old(sc.proc), old(sc.current)) then {sc.current} else {})
    {
      hide QueuesOk, OneRunning, Listed, SameBare, Sound, Total, Stirred, Rehomed, WakeAll, Woken, Runnable;
      Facts(NULL);
      ghost var m := sc.proc;
      BareSelf(m);
      BareStirs(m, m);
      ParentThere(m, sc.current, Ledger(NULL));
      parent := Find(sc.proc[sc.current].ppid);
      TheParent(m, sc.current, parent, Ledger(NULL));
      if parent != init && (SIGCHLD in sc.proc[parent].ignored || sc.proc[parent].noZombies) {
        sc.Wakeup(parent);
        ghost var n := sc.proc;
        WakenOut(m, n, sc.all, parent);
        StirStep(m, n, sc.all, Ledger(NULL));
        Facts(NULL);
        DisownSound(n, sc.current, parent, sc.all, Ledger(NULL));
        sc.Amend(sc.current, sc.proc[sc.current].(ppid := INIT_PID));
        RehomedLast(m, n, sc.current);
        parent := init;
      } else {
        RehomedNone(m, m, m[sc.current].ppid);
      }
    }

    /** scheduler_exit. init may not exit; the original halts there. */
    method Exit(status: int) returns (panic: bool)
      requires Valid() && sc.current != idle
      modifies sc`proc, sc`head, sc`tail, sc`lists, sc`current
      ensures Valid() && (panic <==> old(sc.current) == init)
      ensures panic ==> sc.proc == old(sc.proc) && sc.current == old(sc.current) && sc.lists == old(sc.lists)
      ensures !panic ==> Ended(old(sc.proc), sc.proc, old(sc.current), status)
    {
      hide QueuesOk, OneRunning, Listed, SameBare, Sound, Total, Stirred, Rehomed, Runnable, Ended, Receives, WakeAll;
      hide Signalled, NoZombie, Quiet;
      Facts(NULL);
      ghost var m := sc.proc;
      ghost var c := sc.current;
      Idle(m, Ledger(NULL));
      var first := Find(INIT_PID);
      TheInit(m, first, c, Ledger(NULL));
      if sc.proc[sc.current].pid == INIT_PID { return true; }
      UserSound(m, c, sc.all, Ledger(NULL));
      sc.Amend(sc.current, sc.proc[sc.current].(isUser := false));
      ghost var m1 := sc.proc;
      Orphans(first);
      ghost var m2 := sc.proc;
      var parent := Reaper(first);
      ghost var m3 := sc.proc;
      Childless(m1, m2, m3, c, parent, Ledger(NULL));
      Facts(NULL);
      RetireSound(m3, c, parent, status, sc.all, Ledger(NULL));
      InRange(m3, sc.K(), {}, c);
      sc.Retire(sc.proc[sc.current].(exitStatus := status, status := Terminated));
      ghost var m4 := sc.proc;
      Notify(parent);
      ghost var m5 := sc.proc;
      Leave();
      Ending(m, m1, m2, m3, m4, m5, sc.proc, c, parent, status);
      return false;
    }

    /** The CPU leaves a process for good. */
    method Leave()
      requires Settling(NULL) && sc.current != idle && sc.proc[sc.current].status == Terminated
      modifies sc`proc, sc`head, sc`tail, sc`lists, sc`current
      ensures Valid() && Quiet(old(sc.proc), sc.proc)
    {
      hide QueuesOk, OneRunning, Listed, SameBare, Sound, Total, Runnable, AfterYield, Requeued, Quiet;
      hide Scheduler.SomeReady, Scheduler.Front;
      ghost var m := sc.proc;
      ghost var c := sc.current;
      Facts(NULL);
      Successor();
      sc.FrontReady();
      sc.Yield();
      YieldQuiet(m, sc.proc, c, sc.current, idle);
      QuietStep(m, sc.proc, sc.all, Ledger(NULL));
    }

    /** process_reap: the parent takes over the CPU time, the record goes. */
    method Reap(p: nat)
      requires Valid() && p in sc.proc && p != idle && sc.proc[p].status == Terminated
      modifies sc`proc, sc`all
      ensures Valid() && sc.all == Without(old(sc.all), p) && exists q :: ReapedBy(old(sc.proc), sc.proc, p, q)
    {
      hide QueuesOk, OneRunning, Listed, Sound, Total, Without, Runnable;
      Facts(NULL);
      ghost var m := sc.proc;
      ParentThere(m, p, Ledger(NULL));
      var parent := Find(sc.proc[p].ppid);
      TheParent(m, p, parent, Ledger(NULL));
      var x := sc.proc[parent].(childTicks := sc.proc[parent].childTicks + sc.proc[p].cpuTicks + sc.proc[p].childTicks);
      ReapSound(m, p, parent, x, sc.all, Ledger(NULL));
      sc.Amend(parent, x);
      sc.Remove(p);
      assert ReapedBy(m, sc.proc, p, parent);
    }

    /** process_fork: `memory` and `space` say whether the record and the address
        space could be allocated; `p` is the address of the new record. */
    method Fork(p: nat, memory: bool, space: bool) returns (ok: bool)
      requires Valid() && p != NULL && p !in sc.proc
      modifies this`made, sc`proc, sc`all, sc`head, sc`tail, sc`lists
      ensures ok <==> memory && space
      ensures made == old(made) + (if memory then 1 else 0)
      ensures !ok ==> sc.proc == old(sc.proc) && sc.all == old(sc.all) && sc.lists == old(sc.lists)
      ensures sc.current in old(sc.proc)
      ensures ok ==> sc.all == [p] + old(sc.all)
      ensures ok ==> SameBare(old(sc.proc)[p := ChildOf(old(sc.proc)[sc.current], old(made) % PID_LIMIT)], sc.proc)
      ensures old(made) < PID_LIMIT || !memory ==> Valid()
      ensures ok ==> p in sc.proc && Inherits(old(sc.proc)[sc.current], sc.proc[p])
      ensures ok ==> sc.proc[p].pid == old(made) % 0x1_0000_0000
      ensures ok ==> forall q :: q in old(sc.proc) ==> q in sc.proc && Bare(sc.proc[q]) == Bare(old(sc.proc)[q])
    {
      hide QueuesOk, OneRunning, Listed, Sound, Total, SameBare, ChildOf;
      Facts(NULL);
      ghost var m := sc.proc;
      ghost var b := Ledger(NULL);
      if !memory { return false; }
      var pid := made % PID_LIMIT;
      made := made + 1;
      InRange(m, sc.K(), {}, sc.current);
      if !space {
        MoreMade(m, b);
        return false;
      }
      var child := ChildOf(sc.proc[sc.current], pid);
      ForkSound(m, p, sc.current, sc.all, b);
      sc.Admit(p, child);
      BareSound(m[p := child], sc.proc, sc.all, b.(made := made));
      ChildInherits(m, sc.proc, p, m[sc.current], pid);
      return true;
    }

    /** sleep_on, called when no signal can be delivered. `why` is the argument of
        wait4 if it is wait4 that sleeps. */
    method SleepOn(chan: nat, ghost why: Sleeping)
      requires Valid() && sc.current != idle && sc.proc[sc.current].pending <= sc.proc[sc.current].blocked
      requires why.InWait? ==> MustWait(sc.proc, sc.current, why.pid)
      modifies this`waits, sc`proc, sc`head, sc`tail, sc`lists, sc`current
      ensures Valid() && old(sc.current) in old(sc.proc) && sc.current in old(sc.proc)
      ensures sc.current != old(sc.current) && old(sc.proc)[sc.current].status == Ready
      ensures SameBare(AfterSleep(old(sc.proc), old(sc.current), chan, sc.current), sc.proc)
    {
      hide QueuesOk, OneRunning, Listed, Sound, Total, SameBare, AfterSleep, Runnable, MustWait, Scheduler.SomeReady;
      hide Scheduler.Front;
      ghost var m := sc.proc;
      ghost var c := sc.current;
      Facts(NULL);
      Successor();
      sc.FrontReady();
      sc.SleepOn(chan);
      SleepSound(m, c, chan, sc.current, sc.all, Ledger(NULL), why);
      waits := NowWaits(waits, c, why);
      BareSound(AfterSleep(m, c, chan, sc.current), sc.proc, sc.all, Ledger(NULL));
    }

    /** One round of sys_wait4: the first ended child that matches, in list order, is
        reaped; otherwise there is none to wait for, or the caller may not sleep, or
        it sleeps until something changes and looks again. */
    method Wait4(pid: int, nohang: bool) returns (r: Waited)
      requires Valid() && sc.current != idle
      modifies this`waits, sc`proc, sc`all, sc`head, sc`tail, sc`lists, sc`current
      ensures Valid() && old(sc.current) in old(sc.proc)
      ensures r.Reaped? ==> sc.current == old(sc.current) && ZombieFor(old(sc.proc), sc.current, pid, r.child)
      ensures r.Reaped? ==> r.pid == old(sc.proc)[r.child].pid && r.status == old(sc.proc)[r.child].exitStatus
      ensures r.Reaped? ==> (exists q :: ReapedBy(old(sc.proc), sc.proc, r.child, q))
      ensures r.Reaped? ==> sc.all == Without(old(sc.all), r.child)
      ensures r.Reaped? ==>
        forall p :: p in Before(old(sc.all), r.child) ==> !ZombieFor(old(sc.proc), sc.current, pid, p)
      ensures r.NoChild? <==> forall p :: !ChildFor(old(sc.proc), old(sc.current), pid, p)
      ensures r.Reaped? ==>
        && AskedFor(old(sc.proc), old(sc.current), pid, r.child) && old(sc.proc)[r.child].status == Terminated
        && (0 < pid < 0x1_0000_0000 ==> r.pid == pid)
      ensures r.Reaped? ==> forall p :: p in Before(old(sc.all), r.child) ==>
        !(AskedFor(old(sc.proc), old(sc.current), pid, p) && old(sc.proc)[p].status == Terminated)
      ensures r.NoChild? <==> forall p :: !AskedFor(old(sc.proc), old(sc.current), pid, p)
      ensures r.NotYet? || r.Interrupted? || r.Asleep? ==>
        forall p :: AskedFor(old(sc.proc), old(sc.current), pid, p) ==> old(sc.proc)[p].status != Terminated
      ensures r.NotYet? || r.Interrupted? || r.Asleep? ==> MustWait(old(sc.proc), old(sc.current), pid)
      ensures r.NotYet? ==> nohang
      ensures r.Interrupted? || r.Asleep? ==>
        && !nohang
        && (r.Interrupted? <==> !(old(sc.proc)[old(sc.current)].pending <= old(sc.proc)[old(sc.current)].blocked))
      ensures r.NoChild? || r.NotYet? || r.Interrupted? ==>
        sc.proc == old(sc.proc) && sc.current == old(sc.current) && sc.all == old(sc.all)
      ensures r.Asleep? ==> sc.current in old(sc.proc) && sc.all == old(sc.all)
      ensures r.Asleep? ==> sc.current != old(sc.current) && old(sc.proc)[sc.current].status == Ready
      ensures r.Asleep? ==> SameBare(AfterSleep(old(sc.proc), old(sc.current), old(sc.current), sc.current), sc.proc)
    {
      hide QueuesOk, OneRunning, Listed, Sound, Total, SameBare, Without, AfterSleep, ReapedBy, Before, Asked;
      Facts(NULL);
      ghost var m := sc.proc;
      var me := sc.current;
      MatchesAsked(m, me, pid);
      var p, any := FirstEnded(pid);
      if p != NULL {
        r := Reaped(p, sc.proc[p].pid, sc.proc[p].exitStatus);
        NotIdle(m, p, Ledger(NULL));
        Reap(p);
        return;
      }
      if !any { return NoChild; }
      if nohang { return NotYet; }
      if !(sc.proc[me].pending <= sc.proc[me].blocked) { return Interrupted; }
      SleepOn(me, InWait(pid));
      return Asleep;
    }

    /** The loop of sys_wait4: the first ended child that matches, and whether any does. */
    method FirstEnded(pid: int) returns (p: nat, any: bool)
      requires Valid()
      ensures p != NULL ==> ZombieFor(sc.proc, sc.current, pid, p)
      ensures p != NULL ==> forall q :: q in Before(sc.all, p) ==> !ZombieFor(sc.proc, sc.current, pid, q)
      ensures p == NULL ==> forall q :: !ZombieFor(sc.proc, sc.current, pid, q)
      ensures any <==> exists q :: ChildFor(sc.proc, sc.current, pid, q)
    {
      hide QueuesOk, OneRunning, Listed, Sound, Total, Before;
      Facts(NULL);
      ghost var m := sc.proc;
      var me := sc.current;
      any := false;
      var i := 0;
      while i < |sc.all|
        invariant 0 <= i <= |sc.all|
        invariant forall j :: 0 <= j < i ==> !ZombieFor(m, me, pid, sc.all[j])
        invariant any <==> exists j :: 0 <= j < i && ChildFor(m, me, pid, sc.all[j])
      {
        InList(m, sc.all, i);
        p := sc.all[i];
        if Matches(sc.proc, me, pid, p) {
          assert ChildFor(m, me, pid, sc.all[i]);
          any := true;
          if sc.proc[p].status == Terminated {
            FirstOf(m, sc.all, i);
            return;
          }
        }
        i := i + 1;
      }
      Scanned(m, sc.all, me, pid);
      p := NULL;
    }

    /** wakeup, for any channel. */
    method WakeChannel(chan: nat)
      requires Valid()
      modifies sc`proc, sc`head, sc`tail, sc`lists
      ensures Valid() && SameBare(WakeAll(old(sc.proc), sc.all, chan), sc.proc)
    {
      hide QueuesOk, OneRunning, Listed, Sound, Total, SameBare, WakeAll, Woken, Stirred;
      Facts(NULL);
      ghost var m := sc.proc;
      sc.Wakeup(chan);
      WakeStirs(m, sc.all, chan);
      BareStirs(WakeAll(m, sc.all, chan), sc.proc);
      StirTrans(m, WakeAll(m, sc.all, chan), sc.proc);
      StirStep(m, sc.proc, sc.all, Ledger(NULL));
    }

    /** The running process changes its own mask, handlers or pending set. */
    method Adjust(x: Process)
      requires Valid() && OwnSignals(sc.proc[sc.current], x)
      modifies sc`proc
      ensures Valid() && sc.current in old(sc.proc) && sc.proc == old(sc.proc)[sc.current := x]
    {
      hide QueuesOk, OneRunning, Listed, Sound, Total, Runnable;
      Facts(NULL);
      AdjustSound(sc.proc, sc.current, x, sc.all, Ledger(NULL));
      sc.Amend(sc.current, x);
    }

    /** One system call or interrupt; what cannot happen in the state is skipped. */
    method Step(e: Event)
      requires Valid() && (MakesRecord(e) ==> made < PID_LIMIT)
      modifies this, sc
      ensures Valid() && made <= old(made) + (if MakesRecord(e) then 1 else 0)
      ensures charged == old(charged) + (if e.TimerTick? then 1 else 0)
      ensures Onward(old(sc.proc), sc.proc, old(sc.current))
    {
      hide QueuesOk, OneRunning, Listed, Sound, Total, SameBare, Runnable, Ended, ReapedBy, ChildOf, WakeAll;
      hide AfterSleep, Without, Before, Onward, Kin, Hit, Stirred, Signalled;
      Facts(NULL);
      ghost var m, c := sc.proc, sc.current;
      BareSelf(m);
      SameOnward(m, c);
      match e
      case TimerTick => Tick();
      case Forks(p, memory, space) =>
        if p != NULL && p !in sc.proc {
          ghost var pid := made % PID_LIMIT;
          ForkOnward(m, p, c, pid);
          var ok := Fork(p, memory, space);
          if ok { BareOnward(m, m[p := ChildOf(m[c], pid)], sc.proc, c); }
        }
      case Exits(status) =>
        if sc.current != idle {
          var panic := Exit(status);
          if !panic { EndedOnward(m, sc.proc, c, status); }
        }
      case Waits(pid, nohang) =>
        if sc.current != idle {
          var r := Wait4(pid, nohang);
          WaitOnward(m, sc.proc, c, sc.current, pid, r);
        }
      case Sleeps(chan) =>
        if sc.current != idle && sc.proc[sc.current].pending <= sc.proc[sc.current].blocked {
          SleepOn(chan, Elsewhere);
          SleepOnward(m, c, chan, sc.current);
          BareOnward(m, AfterSleep(m, c, chan, sc.current), sc.proc, c);
        }
      case Signals(p, sig) =>
        if p in sc.proc {
          SignalSend(p, sig, NULL);
          StirOnward(m, sc.proc, c);
        }
      case Wakes(chan) =>
        WakeOnward(m, sc.all, chan, c);
        WakeChannel(chan);
        BareOnward(m, WakeAll(m, sc.all, chan), sc.proc, c);
      case Adjusts(x) =>
        if OwnSignals(sc.proc[sc.current], x) {
          AdjustOnward(m, c, x);
          Adjust(x);
        }
    }

    /** Tell `q` that a child of its ended: SIGCHLD, and out of wait4. */
    method Notify(q: nat)
      requires Settling(q) && q in sc.proc && sc.proc[sc.current].status != Blocked
      modifies sc`proc, sc`head, sc`tail, sc`lists
      ensures Settling(NULL) && sc.current in old(sc.proc)
      ensures sc.proc[sc.current].status == old(sc.proc)[sc.current].status
      ensures SameBare(WakeAll(Signalled(old(sc.proc), q, SIGCHLD), sc.all, q), sc.proc)
      ensures Stirred(old(sc.proc), sc.proc) && q in sc.proc && !AsleepOnSelf(sc.proc, q)
      ensures Receives(old(sc.proc)[q], SIGCHLD) ==> SIGCHLD in sc.proc[q].pending
    {
      hide QueuesOk, OneRunning, Listed, SameBare, Sound, Total, Stirred, WakeAll, Woken, Signalled, Receives;
      ghost var m := sc.proc;
      Facts(q);
      SignalSend(q, SIGCHLD, q);
      Facts(q);
      ghost var n := sc.proc;
      sc.Wakeup(q);
      Notified(m, n, sc.proc, sc.all, q);
      StirStep(m, sc.proc, sc.all, Ledger(q));
    }
  }

  /** One process before and after some processes changed parents. */
  ghost predicate Rehome(a: Process, b: Process, from: nat, moves: bool) {
    && Kept(a, b) && b.pid == a.pid && b.pgid == a.pgid && (b.status == Terminated <==> a.status == Terminated)
    && (b.status == Blocked ==> a.status == Blocked && b.chan == a.chan)
    && b.ppid == if moves && a.ppid == from then INIT_PID else a.ppid
  }

  /** Signals and wakeups, and the children of `from` among `moved` went to init. */
  ghost predicate Rehomed(m: Procs, n: Procs, from: nat, moved: set<nat>) {
    n.Keys == m.Keys && SameTimes(m, n) && forall p :: p in m ==> Rehome(m[p], n[p], from, p in moved)
  }

  lemma RehomedOne(m: Procs, n: Procs, p: nat, from: nat)
    requires p in m && m[p].ppid == from && Stirred(m[p := m[p].(ppid := INIT_PID)], n)
    ensures Rehomed(m, n, from, {p})
  {
  }

  lemma RehomedMore(l: Procs, m: Procs, n: Procs, from: nat, moved: set<nat>, p: nat)
    requires Rehomed(l, m, from, moved) && Rehomed(m, n, from, {p}) && from != INIT_PID
    ensures Rehomed(l, n, from, moved + {p})
  {
  }

  lemma RehomedSkip(l: Procs, m: Procs, from: nat, moved: set<nat>, p: nat)
    requires Rehomed(l, m, from, moved) && p in m && m[p].ppid != from
    ensures Rehomed(l, m, from, moved + {p})
  {
  }

  lemma RehomedNone(m: Procs, n: Procs, from: nat)
    requires Stirred(m, n)
    ensures Rehomed(m, n, from, {})
  {
  }

  lemma RehomedPid(m: Procs, n: Procs, from: nat, moved: set<nat>, c: nat)
    requires Rehomed(m, n, from, moved) && c in m
    ensures c in n && n[c].pid == m[c].pid && Rehome(m[c], n[c], from, c in moved) && SameTimes(m, n)
  {
  }

  lemma InList(m: Procs, all: seq<nat>, i: nat)
    requires Listed(m, all) && i < |all|
    ensures all[i] in m
  {
    assert all[i] in all;
  }

  lemma EveryListed(m: Procs, all: seq<nat>, c: nat, moved: set<nat>)
    requires Listed(m, all) && forall j :: 0 <= j < |all| && all[j] != c ==> all[j] in moved
    ensures forall p :: p in m && p != c ==> p in moved
  {
  }

  lemma RehomedAll(l: Procs, m: Procs, from: nat, moved: set<nat>, c: nat)
    requires Rehomed(l, m, from, moved) && c in l && c !in moved && forall p :: p in l && p != c ==> p in moved
    ensures Rehomed(l, m, from, l.Keys - {c})
  {
    assert forall p :: p in l ==> (p in moved <==> p in l.Keys - {c});
  }

  /** Handing a child of `c` to init. If the child has ended, init may now be
      asleep without a reason. */
  lemma AdoptSound(m: Procs, p: nat, c: nat, all: seq<nat>, b: Book)
    requires Sound(m, b) && b.but == NULL && NULL !in m && Listed(m, all) && p in m && c in m && p != c
    requires m[c].status == Running
    requires m[p].ppid == m[c].pid && m[c].pid != INIT_PID && c != b.idle
    ensures var n := m[p := m[p].(ppid := INIT_PID)];
      Sound(n, b.(but := b.init)) && Total(n, all) == Total(m, all) && (m[p].status != Terminated ==> Sound(n, b))
  {
    var n := m[p := m[p].(ppid := INIT_PID)];
    TotalChange(m, all, p, n[p]);
    AdoptTree(m, p, c, b.idle, b.init, b.made);
    forall q | q in b.waits && AsleepOnSelf(n, q) && (q != b.init || m[p].status != Terminated)
      ensures MustWait(n, q, b.waits[q])
    {
      AdoptWait(m, p, c, q, b.waits[q], b.init);
    }
  }

  lemma AdoptTree(m: Procs, p: nat, c: nat, idle: nat, init: nat, made: nat)
    requires TreeOk(m, idle, init, made) && p in m && c in m && c != idle && m[p].ppid == m[c].pid
    requires m[c].pid != INIT_PID
    ensures TreeOk(m[p := m[p].(ppid := INIT_PID)], idle, init, made) && p != init
  {
    var n := m[p := m[p].(ppid := INIT_PID)];
    forall r | r in n && r != idle ensures HasParent(n, r) {
      assert HasParent(m, r);
      var q :| q in m && q != r && m[q].pid == m[r].ppid && m[q].status != Terminated;
      if r == p {
        assert init in n && init != p && n[init].pid == n[r].ppid && n[init].status != Terminated;
      } else {
        assert q in n && n[q].pid == n[r].ppid && n[q].status != Terminated;
      }
    }
  }

  lemma AdoptWait(m: Procs, p: nat, c: nat, q: nat, pid: int, init: nat)
    requires PidsUnique(m) && p in m && c in m && q in m && q != c && m[p].ppid == m[c].pid && MustWait(m, q, pid)
    requires init in m && m[init].pid == INIT_PID && (q != init || m[p].status != Terminated)
    ensures MustWait(m[p := m[p].(ppid := INIT_PID)], q, pid)
  {
    var n := m[p := m[p].(ppid := INIT_PID)];
    forall r ensures !ZombieFor(n, q, pid, r) {
      assert !ZombieFor(m, q, pid, r);
    }
    var w :| ChildFor(m, q, pid, w);
    assert w != p && ChildFor(n, q, pid, w);
  }

  /** The parent of `c` is not init and wants no zombies. */
  ghost predicate NoZombie(m: Procs, c: nat) {
    exists q ::
      q in m && c in m && m[q].pid == m[c].ppid && m[q].pid != INIT_PID && (SIGCHLD in m[q].ignored || m[q].noZombies)
  }

  lemma ParentThere(m: Procs, c: nat, b: Book)
    requires Sound(m, b) && c in m && c != b.idle
    ensures exists q :: q in m && m[q].pid == m[c].ppid
  {
    assert HasParent(m, c);
  }

  lemma TheParent(m: Procs, c: nat, q: nat, b: Book)
    requires Sound(m, b) && c in m && c != b.idle && q in m && m[q].pid == m[c].ppid
    ensures q != c && m[q].status != Terminated && b.init in m && m[b.init].pid == INIT_PID
    ensures m[b.init].status != Terminated
    ensures NoZombie(m, c) <==> q != b.init && (SIGCHLD in m[q].ignored || m[q].noZombies)
  {
    assert HasParent(m, c);
  }

  lemma WakenOut(m: Procs, n: Procs, all: seq<nat>, q: nat)
    requires Listed(m, all) && q in m && SameBare(WakeAll(m, all, q), n)
    ensures Stirred(m, n) && !AsleepOnSelf(n, q) && q in n
    ensures forall p :: p in m ==>
      && p in n && n[p].pid == m[p].pid && n[p].ppid == m[p].ppid
      && (n[p].status == Terminated <==> m[p].status == Terminated)
  {
    WakeStirs(m, all, q);
    BareStirs(WakeAll(m, all, q), n);
    BareFields(WakeAll(m, all, q), n);
    StirTrans(m, WakeAll(m, all, q), n);
  }

  /** The exiting process moves from a parent that is awake to init. */
  lemma DisownSound(m: Procs, c: nat, q: nat, all: seq<nat>, b: Book)
    requires Sound(m, b) && b.but == NULL && NULL !in m && Listed(m, all) && c in m && m[c].status == Running
    requires c != b.idle
    requires m[c].pid != INIT_PID && q in m && m[q].pid == m[c].ppid && !AsleepOnSelf(m, q)
    ensures var n := m[c := m[c].(ppid := INIT_PID)]; Sound(n, b) && Total(n, all) == Total(m, all)
  {
    var n := m[c := m[c].(ppid := INIT_PID)];
    TotalChange(m, all, c, n[c]);
    DisownTree(m, c, b.idle, b.init, b.made);
    hide Total, Parents;
    forall w | w in b.waits && AsleepOnSelf(n, w) ensures MustWait(n, w, b.waits[w]) {
      MoveWait(m, c, q, w, b.waits[w]);
    }
  }

  lemma DisownTree(m: Procs, c: nat, idle: nat, init: nat, made: nat)
    requires TreeOk(m, idle, init, made) && c in m && c != idle && m[c].pid != INIT_PID
    ensures TreeOk(m[c := m[c].(ppid := INIT_PID)], idle, init, made)
  {
    var n := m[c := m[c].(ppid := INIT_PID)];
    forall r | r in n && r != idle ensures HasParent(n, r) {
      assert HasParent(m, r);
      var w :| w in m && w != r && m[w].pid == m[r].ppid && m[w].status != Terminated;
      assert r != c ==> w in n && n[w].pid == n[r].ppid && n[w].status != Terminated;
      assert r == c ==> init in n && init != c && n[init].pid == n[r].ppid && n[init].status != Terminated;
    }
  }

  lemma MoveWait(m: Procs, c: nat, q: nat, w: nat, pid: int)
    requires PidsUnique(m) && c in m && m[c].status == Running && q in m && m[q].pid == m[c].ppid && w in m && w != q
    requires w != c
    requires MustWait(m, w, pid)
    ensures MustWait(m[c := m[c].(ppid := INIT_PID)], w, pid)
  {
    var n := m[c := m[c].(ppid := INIT_PID)];
    forall r ensures !ZombieFor(n, w, pid, r) {
      assert !ZombieFor(m, w, pid, r);
    }
    var k :| ChildFor(m, w, pid, k);
    assert k != c && ChildFor(n, w, pid, k);
  }

  lemma RehomedLast(m: Procs, n: Procs, c: nat)
    requires Stirred(m, n) && c in m
    ensures Rehomed(m, n[c := n[c].(ppid := INIT_PID)], m[c].ppid, {c})
  {
  }

  /** What exit did: the process is a zombie with its status; its children belong
      to init; whoever is to reap it has SIGCHLD pending and is out of wait4. */
  ghost predicate Ended(m: Procs, n: Procs, c: nat, status: int) {
    && n.Keys == m.Keys && c in m && SameTimes(m, n)
    && n[c].pid == m[c].pid && n[c].status == Terminated && n[c].exitStatus == status && !n[c].isUser
    && n[c].ppid == (if NoZombie(m, c) then INIT_PID else m[c].ppid)
    && (forall p :: p in m && p != c ==> Orphaned(m[p], n[p], m[c].pid))
    && exists q :: q in n && Told(m, n, c, q)
  }

  ghost predicate Orphaned(a: Process, b: Process, from: nat) {
    && b.pid == a.pid && b.pgid == a.pgid && (b.status == Terminated <==> a.status == Terminated)
    && (b.status == Blocked ==> a.status == Blocked && b.chan == a.chan)
    && b.ppid == if a.ppid == from then INIT_PID else a.ppid
  }

  ghost predicate Told(m: Procs, n: Procs, c: nat, q: nat)
    requires c in n && q in n
  {
    && q in m && q != c && n[q].pid == n[c].ppid && !AsleepOnSelf(n, q)
    && (Receives(m[q], SIGCHLD) ==> SIGCHLD in n[q].pending)
  }

  lemma TheInit(m: Procs, p: nat, c: nat, b: Book)
    requires Sound(m, b) && p in m && m[p].pid == INIT_PID && c in m && c != b.idle
    ensures p == b.init && (m[c].pid == INIT_PID <==> c == b.init) && m[c].ppid != m[c].pid
  {
    assert HasParent(m, c);
  }

  lemma UserSound(m: Procs, c: nat, all: seq<nat>, b: Book)
    requires Sound(m, b) && Listed(m, all) && c in m && Runnable(m, b.idle)
    ensures var n := m[c := m[c].(isUser := false)]; Sound(n, b) && Total(n, all) == Total(m, all)
  {
    var n := m[c := m[c].(isUser := false)];
    assert Kin(m, n) && SameTimes(m, n) && Runnable(n, b.idle) && (Attentive(m) ==> Attentive(n));
    hide TreeOk, Vigilant, Attentive, Listed, Kin, SameTimes, Runnable, Total;
    KinStep(m, n, all, b);
  }

  lemma Childless(m1: Procs, m2: Procs, m3: Procs, c: nat, parent: nat, b: Book)
    requires Sound(m3, b) && c in m1 && m1[c].pid != INIT_PID && Rehomed(m1, m2, m1[c].pid, m1.Keys - {c})
    requires c in m2 && Rehomed(m2, m3, m2[c].ppid, if NoZombie(m2, c) then {c} else {})
    requires parent in m3 && parent != c && m3[parent].pid == m3[c].ppid
    ensures c in m3 && m3[c].pid == m1[c].pid && forall p :: p in m3 ==> m3[p].ppid != m3[c].pid
  {
    hide NoZombie;
    forall p | p in m3 ensures m3[p].ppid != m3[c].pid {
      assert Rehome(m1[p], m2[p], m1[c].pid, p in m1.Keys - {c});
      assert p != c ==> Rehome(m2[p], m3[p], m2[c].ppid, false);
    }
  }

  /** The process becomes a zombie: only its parent can now be asleep wrongly. */
  lemma RetireSound(m: Procs, c: nat, parent: nat, status: int, all: seq<nat>, b: Book)
    requires Sound(m, b) && b.but == NULL && NULL !in m && Listed(m, all) && c in m && m[c].status == Running
    requires c != b.idle && c != b.init
    requires parent in m && m[parent].pid == m[c].ppid && forall p :: p in m ==> m[p].ppid != m[c].pid
    ensures var n := m[c := m[c].(exitStatus := status, status := Terminated)];
      Sound(n, b.(but := parent)) && Total(n, all) == Total(m, all)
  {
    hide TreeOk, Vigilant, Total;
    var n := m[c := m[c].(exitStatus := status, status := Terminated)];
    TotalChange(m, all, c, n[c]);
    RetireTree(m, c, status, b.idle, b.init, b.made);
    UniquePids(m, b.idle, b.init, b.made);
    RetireVigilant(m, c, parent, status, b.waits, b.but);
  }

  lemma UniquePids(m: Procs, idle: nat, init: nat, made: nat)
    requires TreeOk(m, idle, init, made)
    ensures PidsUnique(m)
  {
  }

  lemma RetireVigilant(m: Procs, c: nat, parent: nat, status: int, waits: map<nat, int>, but: nat)
    requires Vigilant(m, waits, but) && PidsUnique(m) && but == NULL && NULL !in m && c in m && m[c].status == Running
    requires parent in m && m[parent].pid == m[c].ppid
    ensures Vigilant(m[c := m[c].(exitStatus := status, status := Terminated)], waits, parent)
  {
    var n := m[c := m[c].(exitStatus := status, status := Terminated)];
    hide MustWait, PidsUnique;
    forall w | w in waits && AsleepOnSelf(n, w) && w != parent ensures MustWait(n, w, waits[w]) {
      RetireWait(m, n, c, parent, w, waits[w]);
    }
  }

  lemma RetireTree(m: Procs, c: nat, status: int, idle: nat, init: nat, made: nat)
    requires TreeOk(m, idle, init, made) && c in m && c != idle && c != init
    requires forall p :: p in m ==> m[p].ppid != m[c].pid
    ensures TreeOk(m[c := m[c].(exitStatus := status, status := Terminated)], idle, init, made)
  {
    var n := m[c := m[c].(exitStatus := status, status := Terminated)];
    forall r | r in n && r != idle ensures HasParent(n, r) {
      assert HasParent(m, r);
      var w :| w in m && w != r && m[w].pid == m[r].ppid && m[w].status != Terminated;
      assert w != c && w in n && n[w].pid == n[r].ppid && n[w].status != Terminated;
    }
  }

  lemma RetireWait(m: Procs, n: Procs, c: nat, parent: nat, w: nat, pid: int)
    requires PidsUnique(m) && c in m && parent in m && m[parent].pid == m[c].ppid && w in m && w != parent
    requires MustWait(m, w, pid)
    requires n.Keys == m.Keys && (forall p :: p in m && p != c ==> n[p] == m[p]) && n[c].pid == m[c].pid
    requires n[c].ppid == m[c].ppid && n[c].pgid == m[c].pgid
    ensures MustWait(n, w, pid)
  {
    forall r ensures !ZombieFor(n, w, pid, r) {
      assert !ZombieFor(m, w, pid, r);
    }
    var k :| ChildFor(m, w, pid, k);
    assert k != c && ChildFor(n, w, pid, k);
  }

  lemma Ending(m: Procs, m1: Procs, m2: Procs, m3: Procs, m4: Procs, m5: Procs, n: Procs, c: nat, parent: nat,
               status: int)
    requires c in m && m1 == m[c := m[c].(isUser := false)] && Rehomed(m1, m2, m[c].pid, m1.Keys - {c})
    requires c in m2 && Rehomed(m2, m3, m2[c].ppid, if NoZombie(m2, c) then {c} else {}) && c in m3
    requires m4 == m3[c := m3[c].(exitStatus := status, status := Terminated)] && Stirred(m4, m5) && Quiet(m5, n)
    requires m[c].ppid != m[c].pid && parent in m3 && parent != c && m3[parent].pid == m3[c].ppid
    requires !AsleepOnSelf(m5, parent)
    requires parent in m5 && (Receives(m4[parent], SIGCHLD) ==> SIGCHLD in m5[parent].pending)
    ensures Ended(m, n, c, status)
  {
    hide NoZombie, Receives, Rehomed, Stirred, Quiet, Rehome, SameKin, Orphaned, SameTimes, Time, Kept;
    SameNoZombie(m, m1, m2, c);
    var moved := if NoZombie(m2, c) then {c} else {};
    RehomedPid(m1, m2, m[c].pid, m1.Keys - {c}, c);
    RehomedPid(m2, m3, m2[c].ppid, moved, c);
    StirredAt(m4, m5, c);
    QuietAt(m5, n, c);
    TimesUpdate(m, m1, c);
    TimesUpdate(m3, m4, c);
    EndTimes(m, m1, m2, m3, m4, m5, n, c);
    EndedOne(m[c], m2[c], m3[c], m5[c], n[c], status, NoZombie(m2, c));
    forall p | p in m && p != c ensures Orphaned(m[p], n[p], m[c].pid) {
      RehomedPid(m1, m2, m[c].pid, m1.Keys - {c}, p);
      RehomedPid(m2, m3, m2[c].ppid, moved, p);
      StirredAt(m4, m5, p);
      QuietAt(m5, n, p);
      OrphanedOne(m[p], m2[p], m3[p], m5[p], n[p], m[c].pid, m2[c].ppid);
    }
    var p := parent;
    RehomedPid(m1, m2, m[c].pid, m1.Keys - {c}, p);
    RehomedPid(m2, m3, m2[c].ppid, moved, p);
    SameReceives(m[p], m2[p], m[c].pid, true);
    SameReceives(m2[p], m3[p], m2[c].ppid, false);
    StirredAt(m4, m5, p);
    QuietAt(m5, n, p);
    assert Told(m, n, c, parent);
  }

  lemma TimesUpdate(m: Procs, n: Procs, c: nat)
    requires c in m && c in n && n == m[c := n[c]] && n[c].cpuTicks == m[c].cpuTicks
    requires n[c].childTicks == m[c].childTicks
    ensures SameTimes(m, n) && n.Keys == m.Keys
  {
  }

  lemma EndTimes(m: Procs, m1: Procs, m2: Procs, m3: Procs, m4: Procs, m5: Procs, n: Procs, c: nat)
    requires c in m && m1.Keys == m.Keys && SameTimes(m, m1) && SameTimes(m1, m2) && SameTimes(m2, m3)
    requires SameTimes(m3, m4) && SameTimes(m4, m5) && SameTimes(m5, n)
    ensures SameTimes(m, n) && n.Keys == m.Keys == m2.Keys == m3.Keys == m4.Keys == m5.Keys
  {
    hide Time;
  }

  lemma EndedOne(a: Process, a2: Process, a3: Process, a5: Process, z: Process, status: int, gone: bool)
    requires Rehome(a.(isUser := false), a2, a.pid, false) && Rehome(a2, a3, a2.ppid, gone)
    requires SameKin(a3.(exitStatus := status, status := Terminated), a5) && a5.exitStatus == status && SameKin(a5, z)
    requires z.exitStatus == a5.exitStatus && z.isUser == a5.isUser == a3.isUser
    ensures !z.isUser && z.pid == a5.pid == a3.pid == a.pid && z.status == Terminated && z.exitStatus == status
    ensures z.ppid == if gone then INIT_PID else a.ppid
  {
  }

  lemma OrphanedOne(a: Process, a2: Process, a3: Process, a5: Process, z: Process, from: nat, other: nat)
    requires Rehome(a, a2, from, true) && Rehome(a2, a3, other, false) && SameKin(a3, a5) && SameKin(a5, z)
    ensures Orphaned(a, z, from)
  {
  }

  lemma StirredAt(m: Procs, n: Procs, p: nat)
    requires Stirred(m, n) && p in m
    ensures SameTimes(m, n) && p in n && SameKin(m[p], n[p]) && Kept(m[p], n[p]) && n[p].exitStatus == m[p].exitStatus
    ensures n[p].pid == m[p].pid && n[p].isUser == m[p].isUser
  {
  }

  lemma QuietAt(m: Procs, n: Procs, p: nat)
    requires Quiet(m, n) && p in m
    ensures SameTimes(m, n) && p in n && SameKin(m[p], n[p]) && n[p].pending == m[p].pending
    ensures n[p].exitStatus == m[p].exitStatus && n[p].pid == m[p].pid && n[p].isUser == m[p].isUser
    ensures AsleepOnSelf(n, p) ==> AsleepOnSelf(m, p)
  {
  }

  lemma SameReceives(a: Process, b: Process, from: nat, moves: bool)
    requires Rehome(a, b, from, moves)
    ensures Receives(a, SIGCHLD) <==> Receives(b, SIGCHLD)
  {
  }

  lemma SameNoZombie(m: Procs, m1: Procs, m2: Procs, c: nat)
    requires c in m && m1 == m[c := m[c].(isUser := false)] && Rehomed(m1, m2, m[c].pid, m1.Keys - {c})
    ensures NoZombie(m2, c) <==> NoZombie(m, c)
  {
    assert Rehome(m1[c], m2[c], m[c].pid, false);
    forall q | q in m
      ensures m2[q].pid == m[q].pid && m2[q].ignored == m[q].ignored && m2[q].noZombies == m[q].noZombies
    {
      assert Rehome(m1[q], m2[q], m[c].pid, q in m1.Keys - {c});
    }
  }

  // ---- Reap, fork, sleep ----

  ghost predicate ReapedBy(m: Procs, n: Procs, p: nat, q: nat) {
    && p in m && q in m && q != p && m[q].pid == m[p].ppid
    && n == m[q := m[q].(childTicks := m[q].childTicks + Time(m[p]))] - {p}
  }

  lemma ReapSound(m: Procs, p: nat, q: nat, x: Process, all: seq<nat>, b: Book)
    requires Sound(m, b) && Listed(m, all) && p in m && q in m && p != q && m[p].status == Terminated && p != b.idle
    requires m[q].pid == m[p].ppid
    requires x == m[q].(childTicks := m[q].childTicks + Time(m[p]))
    ensures var n := m[q := x] - {p}; Sound(n, b) && Total(n, Without(all, p)) == Total(m, all)
  {
    hide Total, Without, Listed, KinBut, TreeOk, Vigilant, Attentive, Time;
    assert Time(x) == Time(m[q]) + Time(m[p]) by { ReapTime(m[q], m[p]); }
    ReapTotal(m, p, q, x, all);
    ReapKin(m, p, q, x);
    ReapTree(m, m[q := x] - {p}, p, b.idle, b.init, b.made);
    ReapWaits(m, m[q := x] - {p}, p, b.waits, b.but);
  }

  lemma ReapTime(a: Process, z: Process)
    ensures Time(a.(childTicks := a.childTicks + Time(z))) == Time(a) + Time(z)
  {
  }

  lemma ReapKin(m: Procs, p: nat, q: nat, x: Process)
    requires Attentive(m) && q in m && SameKin(m[q], x) && x.status == m[q].status && x.pending == m[q].pending
    requires x.blocked == m[q].blocked
    ensures var n := m[q := x] - {p}; KinBut(m, n, p) && Attentive(n)
  {
  }

  lemma ReapWaits(m: Procs, n: Procs, p: nat, waits: map<nat, int>, but: nat)
    requires Vigilant(m, waits, but) && KinBut(m, n, p) && p in m && m[p].status == Terminated
    ensures Vigilant(n, waits, but)
  {
    forall w | w in waits && AsleepOnSelf(n, w) && w != but ensures MustWait(n, w, waits[w]) {
      ReapWait(m, n, p, w, waits[w]);
    }
  }

  lemma ReapTotal(m: Procs, p: nat, q: nat, x: Process, all: seq<nat>)
    requires Listed(m, all) && p in m && q in m && p != q && Time(x) == Time(m[q]) + Time(m[p])
    ensures Total(m[q := x] - {p}, Without(all, p)) == Total(m, all)
  {
    hide Total, Without;
    TotalChange(m, all, q, x);
    TotalRemove(m[q := x], all, p);
  }

  /** All but `p` is as before, as far as the family goes. */
  ghost predicate KinBut(m: Procs, n: Procs, p: nat) {
    n.Keys == m.Keys - {p} && forall r :: r in n ==> SameKin(m[r], n[r]) && n[r].status == m[r].status
  }

  lemma ReapTree(m: Procs, n: Procs, p: nat, idle: nat, init: nat, made: nat)
    requires TreeOk(m, idle, init, made) && p in m && m[p].status == Terminated && KinBut(m, n, p)
    ensures TreeOk(n, idle, init, made)
  {
    forall r | r in n && r != idle ensures HasParent(n, r) {
      assert HasParent(m, r);
      var w :| w in m && w != r && m[w].pid == m[r].ppid && m[w].status != Terminated;
      assert w in n && n[w].pid == n[r].ppid && n[w].status != Terminated;
    }
  }

  lemma ReapWait(m: Procs, n: Procs, p: nat, w: nat, pid: int)
    requires p in m && m[p].status == Terminated && KinBut(m, n, p) && w in n && MustWait(m, w, pid)
    ensures MustWait(n, w, pid)
  {
    forall r ensures !ZombieFor(n, w, pid, r) {
      assert !ZombieFor(m, w, pid, r);
    }
    var k :| ChildFor(m, w, pid, k);
    assert !ZombieFor(m, w, pid, k);
    assert k != p && ChildFor(n, w, pid, k);
  }

  /** process_fork: what the child takes from its parent. */
  /** A forked child: its parent's group, priority, mask and actions; a full turn, no
      time used, and nothing pending. */
  ghost predicate Inherits(x: Process, y: Process) {
    && y.ppid == x.pid && y.pgid == x.pgid && y.priority == x.priority && y.blocked == x.blocked
    && y.ignored == x.ignored && y.caught == x.caught && y.noZombies == x.noZombies && y.isUser
    && y.status == Ready && y.pending == {} && y.chan == NULL && y.exitStatus == 0
    && y.quantum == y.ticksLeft == x.priority + 2 && y.cpuTicks == y.childTicks == 0
  }

  lemma ChildInherits(m: Procs, n: Procs, p: nat, x: Process, pid: nat)
    requires SameBare(m[p := ChildOf(x, pid)], n) && p !in m
    ensures p in n && Inherits(x, n[p]) && n[p].pid == pid && forall q :: q in m ==> q in n && Bare(n[q]) == Bare(m[q])
  {
  }

  function ChildOf(x: Process, pid: nat): Process {
    NewProcess(pid, x.priority).(isUser := true, ppid := x.pid, pgid := x.pgid, blocked := x.blocked,
      ignored := x.ignored, caught := x.caught, noZombies := x.noZombies)
  }

  lemma {:induction false} TotalFront(m: Procs, p: nat, ps: seq<nat>)
    ensures Total(m, [p] + ps) == Total(m, [p]) + Total(m, ps)
  {
    if ps == [] {
      assert [p] + ps == [p];
    } else {
      var qs := ps[..|ps| - 1];
      TotalFront(m, p, qs);
      assert ([p] + ps)[..|ps|] == [p] + qs;
    }
  }

  lemma ForkSound(m: Procs, p: nat, c: nat, all: seq<nat>, b: Book)
    requires Sound(m, b) && b.but == NULL && NULL !in m && Listed(m, all) && c in m && p !in m && m[c].status == Running
    requires p != b.idle
    ensures var x := ChildOf(m[c], b.made % PID_LIMIT); x.status == Ready && x.priority == m[c].priority
    ensures var n := m[p := ChildOf(m[c], b.made % PID_LIMIT)];
      && Total(n, [p] + all) == Total(m, all) && Listed(n, [p] + all)
      && (b.made < PID_LIMIT ==> Sound(n, b.(made := b.made + 1)))
  {
    var n := m[p := ChildOf(m[c], b.made % PID_LIMIT)];
    TotalFront(n, p, all);
    TotalOutside(m, all, p, n[p]);
    assert Total(n, [p]) == 0;
    NoDupAppend(all, p);
    assert forall q :: q in [p] + all <==> q == p || q in all;
    if b.made < PID_LIMIT { ForkTree(m, p, c, b); }
  }

  lemma ForkTree(m: Procs, p: nat, c: nat, b: Book)
    requires Sound(m, b) && b.but == NULL && NULL !in m && c in m && p !in m && m[c].status == Running
    requires b.made < PID_LIMIT
    ensures Sound(m[p := ChildOf(m[c], b.made % PID_LIMIT)], b.(made := b.made + 1))
  {
    var x := ChildOf(m[c], b.made % PID_LIMIT);
    assert x.status == Ready && x.pid == b.made && x.ppid == m[c].pid;
    hide ChildOf;
    var n := m[p := x];
    ForkFamily(m, p, c, x, b);
    assert Attentive(n) by { hide TreeOk, Vigilant; }
    assert PidsUnique(m);
    hide TreeOk, PidsUnique, Attentive;
    forall w | w in b.waits && AsleepOnSelf(n, w) ensures MustWait(n, w, b.waits[w]) {
      assert AsleepOnSelf(m, w);
      ForkWait(m, p, c, x, w, b.waits[w]);
    }
  }

  lemma ForkFamily(m: Procs, p: nat, c: nat, x: Process, b: Book)
    requires TreeOk(m, b.idle, b.init, b.made) && c in m && p !in m && m[c].status == Running && x.pid == b.made
    requires x.ppid == m[c].pid
    ensures TreeOk(m[p := x], b.idle, b.init, b.made + 1)
  {
    var n := m[p := x];
    forall r | r in n && r != b.idle ensures HasParent(n, r) {
      assert r != p ==> HasParent(m, r);
      var w :| w in m && w != r && m[w].pid == n[r].ppid && m[w].status != Terminated;
      assert w in n && n[w].pid == n[r].ppid && n[w].status != Terminated;
    }
  }

  lemma ForkWait(m: Procs, p: nat, c: nat, x: Process, w: nat, pid: int)
    requires PidsUnique(m) && c in m && p !in m && x.ppid == m[c].pid && x.status == Ready && w in m
    requires MustWait(m, w, pid)
    ensures MustWait(m[p := x], w, pid)
  {
    var n := m[p := x];
    forall r ensures !ZombieFor(n, w, pid, r) {
      assert !ZombieFor(m, w, pid, r);
    }
    var k :| ChildFor(m, w, pid, k);
    assert ChildFor(n, w, pid, k);
  }

  /** Pids stay unique across a fork exactly until the 32-bit counter wraps: the
      next child would then share pid 0 with idle. */
  lemma ForkExact(m: Procs, p: nat, c: nat, b: Book)
    requires Sound(m, b) && b.but == NULL && NULL !in m && c in m && p !in m && m[c].status == Running
    requires b.made <= PID_LIMIT
    ensures PidsUnique(m[p := ChildOf(m[c], b.made % PID_LIMIT)]) <==> b.made < PID_LIMIT
  {
    var n := m[p := ChildOf(m[c], b.made % PID_LIMIT)];
    if b.made < PID_LIMIT {
      ForkTree(m, p, c, b);
    } else {
      assert n[p].pid == n[b.idle].pid == 0;
    }
  }

  lemma MoreMade(m: Procs, b: Book)
    requires Sound(m, b)
    ensures Sound(m, b.(made := b.made + 1))
  {
  }

  lemma BareSound(m: Procs, n: Procs, all: seq<nat>, b: Book)
    requires SameBare(m, n) && Listed(m, all)
    ensures Sound(m, b) ==> Sound(n, b)
    ensures Total(n, all) == Total(m, all)
  {
    TotalBare(m, n, all);
    BareStirs(m, n);
    hide Sound, SameBare, Stirred, Total;
    if Sound(m, b) { StirStep(m, n, all, b); }
  }

  /** Who sleeps: wait4, with its argument, or anything else. */
  datatype Sleeping = InWait(pid: int) | Elsewhere

  ghost function NowWaits(waits: map<nat, int>, c: nat, why: Sleeping): map<nat, int> {
    if why.InWait? then waits[c := why.pid] else waits - {c}
  }

  lemma SleepSound(m: Procs, c: nat, chan: nat, next: nat, all: seq<nat>, b: Book, why: Sleeping)
    requires Sound(m, b) && b.but == NULL && NULL !in m && Listed(m, all) && c in m && c != b.idle
    requires m[c].status == Running && m[c].pending <= m[c].blocked
    requires why.InWait? ==> MustWait(m, c, why.pid)
    requires next in m && m[next].status == Ready
    ensures var n := AfterSleep(m, c, chan, next);
      Total(n, all) == Total(m, all) && Listed(n, all) && Sound(n, b.(waits := NowWaits(b.waits, c, why)))
  {
    hide AfterSleep, Total, TreeOk, Listed, Attentive, Runnable, Family, MustWait, SameTimes, Vigilant, NowWaits;
    hide AsleepOnSelf;
    var n := AfterSleep(m, c, chan, next);
    Idle(m, b);
    SleepFamily(m, c, chan, next, b.idle);
    TimesTotal(m, n, all);
    FamilyTree(m, n, b.idle, b.init, b.made);
    SleepWaits(m, n, c, b.waits, why);
  }

  lemma SleepWaits(m: Procs, n: Procs, c: nat, waits: map<nat, int>, why: Sleeping)
    requires Vigilant(m, waits, NULL) && NULL !in m && Family(m, n) && (why.InWait? ==> MustWait(m, c, why.pid))
    requires forall w :: AsleepOnSelf(n, w) && w != c ==> AsleepOnSelf(m, w)
    ensures Vigilant(n, NowWaits(waits, c, why), NULL)
  {
    hide Family, MustWait;
    var ws := NowWaits(waits, c, why);
    forall w | w in ws && AsleepOnSelf(n, w) ensures MustWait(n, w, ws[w]) {
      FamilyWait(m, n, w, ws[w]);
    }
  }

  lemma SleepFamily(m: Procs, c: nat, chan: nat, next: nat, idle: nat)
    requires c in m && next in m && c != idle && m[c].status == Running && m[next].status == Ready && Runnable(m, idle)
    requires Attentive(m) && m[c].pending <= m[c].blocked
    ensures var n := AfterSleep(m, c, chan, next); Family(m, n) && SameTimes(m, n) && Runnable(n, idle) && Attentive(n)
    ensures var n := AfterSleep(m, c, chan, next); forall w :: AsleepOnSelf(n, w) && w != c ==> AsleepOnSelf(m, w)
  {
  }

  // ---- wait4 ----

  datatype Waited = Reaped(child: nat, pid: nat, status: int) | NoChild | NotYet | Interrupted | Asleep

  /** What stands before `p` in a list. */
  ghost function Before(all: seq<nat>, p: nat): seq<nat> {
    if all == [] || all[0] == p then [] else [all[0]] + Before(all[1..], p)
  }

  lemma {:induction false} FirstOf(m: Procs, all: seq<nat>, i: nat)
    requires NoDup(all) && i < |all|
    ensures Before(all, all[i]) == all[..i]
  {
    if i > 0 {
      FirstOf(m, all[1..], i - 1);
      assert all[..i] == [all[0]] + all[1..][..i - 1];
    }
  }

  lemma NotIdle(m: Procs, p: nat, b: Book)
    requires Sound(m, b) && p in m && m[p].status == Terminated
    ensures p != b.idle
  {
  }

  lemma Scanned(m: Procs, all: seq<nat>, me: nat, pid: int)
    requires Listed(m, all)
    ensures (exists p :: ChildFor(m, me, pid, p)) <==> exists j :: 0 <= j < |all| && ChildFor(m, me, pid, all[j])
    ensures (forall j :: 0 <= j < |all| ==> !ZombieFor(m, me, pid, all[j])) ==> forall p :: !ZombieFor(m, me, pid, p)
  {
    hide Matches;
    forall p | ChildFor(m, me, pid, p) ensures exists j :: 0 <= j < |all| && ChildFor(m, me, pid, all[j]) {
      assert p in all;
    }
    forall p | ZombieFor(m, me, pid, p) ensures exists j :: 0 <= j < |all| && ZombieFor(m, me, pid, all[j]) {
      assert p in all;
    }
  }

  // ---- Runs ----

  /** What a process may do to its own signal state. */
  predicate OwnSignals(a: Process, b: Process) {
    b == a.(pending := b.pending, blocked := b.blocked, ignored := b.ignored, caught := b.caught,
      noZombies := b.noZombies)
  }

  lemma AdjustSound(m: Procs, c: nat, x: Process, all: seq<nat>, b: Book)
    requires Sound(m, b) && Listed(m, all) && c in m && m[c].status == Running && OwnSignals(m[c], x)
    ensures SameLink(m[c], x) && Sound(m[c := x], b) && Total(m[c := x], all) == Total(m, all)
  {
    Idle(m, b);
    var n := m[c := x];
    assert Kin(m, n) && SameTimes(m, n) && Runnable(n, b.idle) && Attentive(n) by { hide TreeOk, Vigilant; }
    hide TreeOk, Vigilant, Listed, Kin, SameTimes, Runnable, Attentive, OwnSignals;
    KinStep(m, n, all, b);
  }

  datatype Event =
    | TimerTick
    | Forks(p: nat, memory: bool, space: bool)
    | Exits(status: int)
    | Waits(pid: int, nohang: bool)
    | Sleeps(chan: nat)
    | Signals(p: nat, sig: int)
    | Wakes(chan: nat)
    | Adjusts(x: Process)

  function Ticks(es: seq<Event>): nat {
    if es == [] then 0 else Ticks(es[..|es| - 1]) + if es[|es| - 1].TimerTick? then 1 else 0
  }

  /** A fork that gets a record for the child, and with it a pid. */
  predicate MakesRecord(e: Event) { e.Forks? && e.memory }

  /** The forks of a run that use up a pid. */
  function PidsTaken(es: seq<Event>): nat {
    if es == [] then 0 else PidsTaken(es[..|es| - 1]) + if MakesRecord(es[|es| - 1]) then 1 else 0
  }

  lemma {:induction false} PidsTakenPrefix(es: seq<Event>, i: nat)
    requires i <= |es|
    ensures PidsTaken(es[..i]) <= PidsTaken(es)
    decreases |es| - i
  {
    if i == |es| {
      assert es[..i] == es;
    } else {
      PidsTakenPrefix(es, i + 1);
      assert es[..i + 1][..i] == es[..i];
    }
  }

  /** Every run from boot whose forks do not use up the 32-bit pids: no step breaks
      the table, and the CPU time of the processes there are adds up to the ticks
      there were. */
  method Run(idle: nat, init: nat, es: seq<Event>) returns (t: ProcessTable)
    requires idle != NULL && init != NULL && idle != init && PidsTaken(es) + 2 <= PID_LIMIT
    ensures fresh(t) && t.Valid() && t.charged == Ticks(es)
  {
    hide ProcessTable.Valid;
    t := Boot(idle, init);
    for i := 0 to |es|
      invariant fresh(t) && fresh(t.sc) && t.Valid() && t.charged == Ticks(es[..i])
      invariant t.made <= PidsTaken(es[..i]) + 2
    {
      assert es[..i + 1][..i] == es[..i];
      PidsTakenPrefix(es, i + 1);
      t.Step(es[i]);
    }
    assert es[..|es|] == es;
  }

  lemma Notified(m: Procs, n: Procs, z: Procs, all: seq<nat>, q: nat)
    requires Listed(m, all) && q in m && SameBare(Signalled(m, q, SIGCHLD), n) && SameBare(WakeAll(n, all, q), z)
    ensures Stirred(m, z) && q in z && !AsleepOnSelf(z, q) && SameBare(WakeAll(Signalled(m, q, SIGCHLD), all, q), z)
    ensures Receives(m[q], SIGCHLD) ==> SIGCHLD in z[q].pending
  {
    var x := Signalled(m, q, SIGCHLD);
    SignalStirs(m, q, SIGCHLD);
    BareStirs(x, n);
    WakeStirs(n, all, q);
    BareStirs(WakeAll(n, all, q), z);
    assert Receives(m[q], SIGCHLD) ==> SIGCHLD in x[q].pending by { StruckKept(m[q], SIGCHLD); }
    assert q in z && !AsleepOnSelf(z, q) by { BareFields(WakeAll(n, all, q), z); }
    WakeBare(x, n, all, q);
    hide SameBare, Signalled, WakeAll, Receives, Listed;
    BareTrans(WakeAll(x, all, q), WakeAll(n, all, q), z);
    assert SIGCHLD in x[q].pending ==> SIGCHLD in z[q].pending;
    hide Stirred;
    StirTrans(m, x, n);
    StirTrans(m, n, WakeAll(n, all, q));
    StirTrans(m, WakeAll(n, all, q), z);
  }

  lemma WakeBare(m: Procs, n: Procs, ps: seq<nat>, chan: nat)
    requires SameBare(m, n)
    ensures SameBare(WakeAll(m, ps, chan), WakeAll(n, ps, chan))
  {
    hide Awake, Bare, Sleeper;
    forall p | p in m ensures Bare(WakeAll(n, ps, chan)[p]) == Bare(WakeAll(m, ps, chan)[p]) {
      assert Bare(m[p]) == Bare(n[p]);
      AwakeBare(m[p], n[p]);
      SleeperBare(m[p], n[p], chan);
    }
  }

  lemma SleeperBare(a: Process, b: Process, chan: nat)
    requires Bare(a) == Bare(b)
    ensures Sleeper(a, chan) <==> Sleeper(b, chan)
  {
    BareOne(a, b);
  }

  lemma TickDone(m: Procs, n: Procs, c: nat, next: nat, all: seq<nat>, b: Book)
    requires c in m && Listed(m, all) && Sound(m, b) && Runnable(m, b.idle)
    requires n == m || (next in m && m[next].status == Ready && SameBare(AfterYield(m, c, next), n))
    ensures Sound(n, b) && Total(n, all) == Total(m, all) && Kin(m, n)
  {
    hide Sound, Listed, SameBare, AfterYield, Total, Runnable, SameTimes, SameMasks;
    if n != m {
      YieldQuiet(m, n, c, next, b.idle);
      QuietStep(m, n, all, b);
    }
  }

  lemma TickOnward(m: Procs, n: Procs, c: nat)
    requires c in m && Kin(Charged(m, c), n)
    ensures Onward(m, n, c)
  {
  }

  /** The state the kernel boots into: idle is process 0, init process 1. */
  method Boot(idle: nat, init: nat) returns (t: ProcessTable)
    requires idle != NULL && init != NULL && idle != init
    ensures fresh(t) && fresh(t.sc) && t.Valid() && t.idle == idle && t.init == init && t.made == 2 && t.charged == 0
    ensures t.sc.proc == map[idle := NewProcess(0, PRIO_IDLE), init := Booted()] && t.sc.all == [init, idle]
    ensures t.sc.current == init
  {
    hide TreeOk, Total, Attentive, Scheduler.Valid, ProcessTable.Valid, NewProcess, Booted;
    var sc := new Scheduler(idle, init);
    BootTree(sc.proc, idle, init);
    TotalTwo(sc.proc, init, idle);
    t := new ProcessTable(sc, idle, init);
  }

  lemma BootTree(m: Procs, idle: nat, init: nat)
    requires (forall p :: p in m <==> p == idle || p == init) && idle != init
    requires m[idle].pid == 0 && m[idle].status == Ready && m[init].pid == 1 && m[init].ppid == 0
    requires m[init].status == Running
    ensures TreeOk(m, idle, init, 2) && Attentive(m)
  {
    assert m[idle].pid == m[init].ppid && HasParent(m, init);
  }

  lemma TotalTwo(m: Procs, a: nat, b: nat)
    requires a in m && b in m
    ensures Total(m, [a, b]) == Time(m[a]) + Time(m[b])
  {
    assert [a, b][..1] == [a] && [a][..0] == [];
    assert Total(m, [a]) == Time(m[a]);
  }

  lemma TickSound(m: Procs, all: seq<nat>, c: nat, b: Book)
    requires c in m && Listed(m, all) && Sound(m, b)
    ensures var n := Charged(m, c);
      Total(n, all) == Total(m, all) + 1 && Listed(n, all) && Sound(n, b) && Runnable(n, b.idle)
    ensures var n := Charged(m, c); n.Keys == m.Keys && forall p :: p in m && p != c ==> n[p] == m[p]
  {
    var n := Charged(m, c);
    TotalChange(m, all, c, n[c]);
    hide TreeOk, Vigilant, Attentive, Total, Kin, Family, SameMasks, Runnable;
    Idle(m, b);
    ChargedKin(m, c, b.idle);
    hide Charged;
    KinFamily(m, n);
    FamilyTree(m, n, b.idle, b.init, b.made);
    KinWaits(m, n, b.waits, b.but);
    MasksAttentive(m, n);
  }

  lemma ChargedKin(m: Procs, c: nat, idle: nat)
    requires c in m && Runnable(m, idle)
    ensures Kin(m, Charged(m, c)) && SameMasks(m, Charged(m, c)) && Runnable(Charged(m, c), idle)
  {
  }

  lemma Idle(m: Procs, b: Book)
    requires Sound(m, b)
    ensures Runnable(m, b.idle) && b.init in m && m[b.init].pid == INIT_PID && m[b.init].status != Terminated
    ensures m[b.idle].pid == 0
  {
  }
}
