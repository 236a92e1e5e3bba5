/** Sleeping and waking across the kernel: processes that come and go and use pipes.
    A process that sleeps in pipe_read or pipe_write is Blocked on the address of
    the pipe; whoever changes the pipe wakes that address. */
module Wakeups {
  import opened ReadyQueues
  import opened Sched
  import ProcTree
  import Pipe

  /** A pipe call a process is in the middle of. */
  datatype PipeCall = InRead(pipe: nat, size: nat) | InWrite(pipe: nat, write: Pipe.Write)

  datatype Kernel = Kernel(proc: Procs, all: seq<nat>, pipes: map<nat, Pipe.State>, calls: map<nat, PipeCall>)

  /** The condition of the loop around sleep_on that the call is in. */
  predicate Stuck(s: Pipe.State, c: PipeCall) {
    match c
    case InRead(_, _) => s.data == [] && s.writers != 0
    case InWrite(_, w) =>
      if w.filling then |s.data| == Pipe.PIPE_SIZE && s.readers != 0 && w.done < |w.src|
      else |w.src| <= Pipe.PIPE_SIZE && Pipe.PIPE_SIZE - |s.data| < |w.src| && s.readers != 0
  }

  ghost predicate CallOk(k: Kernel, p: nat) {
    p in k.calls ==>
      k.calls[p].pipe in k.pipes && (k.calls[p].InWrite? ==> k.calls[p].write.done <= |k.calls[p].write.src|)
  }

  /** A process asleep in a pipe call sleeps on that pipe and has a reason to. */
  ghost predicate Justified(k: Kernel, p: nat) {
    p in k.calls && p in k.proc && k.proc[p].status == Blocked && k.calls[p].pipe in k.pipes ==>
      k.proc[p].chan == k.calls[p].pipe && Stuck(k.pipes[k.calls[p].pipe], k.calls[p])
  }

  ghost predicate Inv(k: Kernel) {
    && Listed(k.proc, k.all) && ProcTree.Attentive(k.proc)
    && (forall a :: a in k.pipes ==> |k.pipes[a].data| <= Pipe.PIPE_SIZE)
    && (forall p {:trigger CallOk(k, p)} :: CallOk(k, p))
    && (forall p {:trigger Justified(k, p)} :: Justified(k, p))
  }

  /** Whoever sleeps in `n` slept in `m` already, on the same channel. */
  ghost predicate Eased(m: Procs, n: Procs) {
    forall p :: p in n && n[p].status == Blocked ==> p in m && m[p].status == Blocked && n[p].chan == m[p].chan
  }

  datatype Event =
    | NewPipe(a: nat)
    | Begin(c: nat, call: PipeCall)
    | Proceed(c: nat, next: nat)
    | Close(a: nat, reader: bool)
    | Open(a: nat, reader: bool)
    | Signal(p: nat, sig: int)
    | Wake(chan: nat)
    | Switch(prev: nat, next: nat)
    | Doze(c: nat, chan: nat, next: nat)
    | Tick(c: nat)
    | Fork(c: nat, p: nat, pid: nat)
    | Exit(c: nat, q: nat, next: nat, status: int)
    | Reap(p: nat, q: nat)
    | Adjust(c: nat, x: Process)

  function Wake1(k: Kernel, a: nat): Kernel { k.(proc := WakeAll(k.proc, k.all, a)) }

  /** Changing a pipe, then waking it. */
  function Change(k: Kernel, a: nat, s: Pipe.State): Kernel { Wake1(k.(pipes := k.pipes[a := s]), a) }

  /** No call is under way on the pipe: whoever is in one has an end of it open. */
  predicate Unused(k: Kernel, a: nat) { forall c :: c in k.calls ==> k.calls[c].pipe != a }

  /** The last end of a pipe is closed; its address may serve again. */
  function Freed(k: Kernel, a: nat): Kernel { Wake1(k, a).(pipes := k.pipes - {a}) }

  predicate Free(m: Procs, c: nat) { c in m && m[c].pending <= m[c].blocked }

  predicate CanSleep(m: Procs, c: nat, next: nat) {
    c in m && next in m && m[c].status == Running && m[next].status == Ready
  }

  /** The call of `c` goes to sleep, and `next` runs, which may have been woken just
      before. */
  function Sleeping(k: Kernel, c: nat, a: nat, next: nat, call: PipeCall): Kernel
    requires CanSleep(k.proc, c, next)
  {
    k.(proc := AfterSleep(k.proc, c, a, next), calls := k.calls[c := call])
  }

  /** One stretch of the call that `c` is in: it returns, or sleeps and `next` runs. */
  function Stretch(k: Kernel, c: nat, next: nat): Kernel
    requires c in k.calls && k.calls[c].pipe in k.pipes && c in k.proc
    requires |k.pipes[k.calls[c].pipe].data| <= Pipe.PIPE_SIZE
    requires k.calls[c].InWrite? ==> k.calls[c].write.done <= |k.calls[c].write.src|
  {
    var a := k.calls[c].pipe;
    var signal := !(k.proc[c].pending <= k.proc[c].blocked);
    match k.calls[c]
    case InRead(_, size) =>
      var (s, r) := Pipe.Reading(k.pipes[a], size, signal);
      if r.ReadSleeps? then (if CanSleep(k.proc, c, next) then Sleeping(k, c, a, next, k.calls[c]) else k)
      else if r.Got? then Change(k, a, s).(calls := k.calls - {c})
      else k.(calls := k.calls - {c})
    case InWrite(_, w) =>
      var (s, w', r) := Pipe.Writing(k.pipes[a], w, signal);
      var k1 := if w'.done > w.done then Change(k, a, s) else k;
      if r.WriteSleeps? then (if CanSleep(k1.proc, c, next) then Sleeping(k1, c, a, next, InWrite(a, w')) else k)
      else k1.(calls := k.calls - {c})
  }

  /** One step; what cannot happen in the state is skipped. */
  function Step(k: Kernel, e: Event): Kernel
    requires Inv(k)
  {
    match e
    case NewPipe(a) => if a in k.pipes then k else k.(pipes := k.pipes[a := Pipe.State([], 1, 1)])
    case Begin(c, call) =>
      if c in k.proc && k.proc[c].status == Running && c !in k.calls && call.pipe in k.pipes && Fresh(call)
      then k.(calls := k.calls[c := call]) else k
    case Proceed(c, next) =>
      assert CallOk(k, c);
      if c in k.calls && c in k.proc && k.proc[c].status == Running then Stretch(k, c, next) else k
    case Close(a, reader) =>
      if a !in k.pipes || (if reader then k.pipes[a].readers else k.pipes[a].writers) == 0 then k
      else if k.pipes[a].readers + k.pipes[a].writers == 1 then (if Unused(k, a) then Freed(k, a) else k)
      else if reader then Change(k, a, k.pipes[a].(readers := k.pipes[a].readers - 1))
      else Change(k, a, k.pipes[a].(writers := k.pipes[a].writers - 1))
    case Open(a, reader) =>
      if a !in k.pipes then k
      else if reader then k.(pipes := k.pipes[a := k.pipes[a].(readers := k.pipes[a].readers + 1)])
      else k.(pipes := k.pipes[a := k.pipes[a].(writers := k.pipes[a].writers + 1)])
    case Signal(p, sig) => k.(proc := ProcTree.Signalled(k.proc, p, sig))
    case Wake(chan) => Wake1(k, chan)
    case Switch(prev, next) =>
      if CanSleep(k.proc, prev, next) then k.(proc := AfterYield(k.proc, prev, next)) else k
    case Doze(c, chan, next) =>
      if CanSleep(k.proc, c, next) && c !in k.calls && Free(k.proc, c)
      then k.(proc := AfterSleep(k.proc, c, chan, next)) else k
    case Tick(c) => if c in k.proc then k.(proc := Charged(k.proc, c)) else k
    case Fork(c, p, pid) =>
      if c in k.proc && k.proc[c].status == Running && p !in k.proc && p !in k.calls
      then k.(proc := k.proc[p := ProcTree.ChildOf(k.proc[c], pid)], all := [p] + k.all) else k
    case Exit(c, q, next, status) =>
      if CanExit(k, c, q, next, status) then k.(proc := Exited(k.proc, k.all, c, q, next, status)) else k
    case Reap(p, q) =>
      if p in k.proc && q in k.proc && p != q && k.proc[p].status == Terminated
      then k.(proc := Reaped(k.proc, p, q), all := Without(k.all, p), calls := k.calls - {p}) else k
    case Adjust(c, x) =>
      if c in k.proc && k.proc[c].status == Running && ProcTree.OwnSignals(k.proc[c], x)
      then k.(proc := k.proc[c := x]) else k
  }

  /** scheduler_exit of `c`, outside any call: its children go to init, it becomes a
      zombie, `q` is told, and `next` runs. */
  function Exited(m: Procs, all: seq<nat>, c: nat, q: nat, next: nat, status: int): Procs
    requires c in m && next in m
  {
    var told := Told(m, all, c, q, status);
    told[next := told[next].(status := Running)]
  }

  function Told(m: Procs, all: seq<nat>, c: nat, q: nat, status: int): (n: Procs)
    requires c in m
    ensures n.Keys == m.Keys
  {
    WakeAll(ProcTree.Signalled(Ended(m, c, status), q, ProcTree.SIGCHLD), all, q)
  }

  /** `next` is ready by then; it may be `q` itself. */
  predicate CanExit(k: Kernel, c: nat, q: nat, next: nat, status: int) {
    && c in k.proc && k.proc[c].status == Running && c !in k.calls
    && next in k.proc && Told(k.proc, k.all, c, q, status)[next].status == Ready
  }

  function Ended(m: Procs, c: nat, status: int): Procs
    requires c in m
  {
    var n := map p | p in m :: if m[p].ppid == m[c].pid then m[p].(ppid := ProcTree.INIT_PID) else m[p];
    n[c := n[c].(status := Terminated, exitStatus := status, isUser := false)]
  }

  /** process_reap of `p` by `q`. */
  function Reaped(m: Procs, p: nat, q: nat): Procs
    requires p in m && q in m
  {
    m[q := m[q].(childTicks := m[q].childTicks + ProcTree.Time(m[p]))] - {p}
  }

  predicate Fresh(c: PipeCall) { c.InWrite? ==> c.write.done == 0 && !c.write.filling }

  // ---- Steps that put nobody to sleep ----

  /** Processes may come and go, as long as nobody starts to sleep. */
  lemma TableInv(k: Kernel, n: Procs, all: seq<nat>)
    requires Inv(k) && Eased(k.proc, n) && ProcTree.Attentive(n) && Listed(n, all)
    ensures Inv(k.(proc := n, all := all))
  {
    var z := k.(proc := n, all := all);
    forall p ensures CallOk(z, p) && Justified(z, p) {
      assert CallOk(k, p) && Justified(k, p);
    }
  }

  lemma EasedInv(k: Kernel, n: Procs)
    requires Inv(k) && n.Keys == k.proc.Keys && Eased(k.proc, n) && ProcTree.Attentive(n)
    ensures Inv(k.(proc := n))
  {
    TableInv(k, n, k.all);
  }

  lemma WakeEased(m: Procs, ps: seq<nat>, a: nat)
    requires ProcTree.Attentive(m)
    ensures WakeAll(m, ps, a).Keys == m.Keys && Eased(m, WakeAll(m, ps, a)) && ProcTree.Attentive(WakeAll(m, ps, a))
    ensures Listed(m, ps) ==> forall p :: p in m ==> !Sleeper(WakeAll(m, ps, a)[p], a)
    ensures forall p :: p in m && m[p].status != Blocked ==> WakeAll(m, ps, a)[p] == m[p]
  {
  }

  /** Whatever is done to a pipe, if its address is woken afterwards then nobody is
      left asleep on it without a reason. */
  lemma ChangeInv(k: Kernel, a: nat, s: Pipe.State)
    requires Inv(k) && a in k.pipes && |s.data| <= Pipe.PIPE_SIZE
    ensures Inv(Change(k, a, s))
  {
    hide WakeAll;
    WakeEased(k.proc, k.all, a);
    var z := Change(k, a, s);
    forall p ensures CallOk(z, p) && Justified(z, p) {
      assert CallOk(k, p) && Justified(k, p);
    }
  }

  lemma WakeInv(k: Kernel, a: nat)
    requires Inv(k)
    ensures Inv(Wake1(k, a))
  {
    hide WakeAll;
    WakeEased(k.proc, k.all, a);
    EasedInv(k, WakeAll(k.proc, k.all, a));
  }

  lemma FreedInv(k: Kernel, a: nat)
    requires Inv(k) && Unused(k, a)
    ensures Inv(Freed(k, a))
  {
    WakeInv(k, a);
    var y, z := Wake1(k, a), Freed(k, a);
    hide Wake1;
    forall p ensures CallOk(z, p) && Justified(z, p) {
      assert CallOk(y, p) && Justified(y, p);
    }
  }

  lemma SignalEased(m: Procs, p: nat, sig: int)
    requires ProcTree.Attentive(m)
    ensures var n := ProcTree.Signalled(m, p, sig); n.Keys == m.Keys && Eased(m, n) && ProcTree.Attentive(n)
  {
    ProcTree.SignalStirs(m, p, sig);
    var n := ProcTree.Signalled(m, p, sig);
    hide ProcTree.Signalled;
    assert forall q :: q in m ==> ProcTree.SameKin(m[q], n[q]);
  }

  lemma SignalInv(k: Kernel, p: nat, sig: int)
    requires Inv(k)
    ensures Inv(k.(proc := ProcTree.Signalled(k.proc, p, sig)))
  {
    hide ProcTree.Signalled;
    SignalEased(k.proc, p, sig);
    EasedInv(k, ProcTree.Signalled(k.proc, p, sig));
  }

  lemma SwitchInv(k: Kernel, prev: nat, next: nat)
    requires Inv(k) && CanSleep(k.proc, prev, next)
    ensures Inv(k.(proc := AfterYield(k.proc, prev, next)))
  {
    EasedInv(k, AfterYield(k.proc, prev, next));
  }

  // ---- Processes come and go ----

  lemma ForkInv(k: Kernel, c: nat, p: nat, pid: nat)
    requires Inv(k) && c in k.proc && p !in k.proc
    ensures Inv(k.(proc := k.proc[p := ProcTree.ChildOf(k.proc[c], pid)], all := [p] + k.all))
  {
    TableInv(k, k.proc[p := ProcTree.ChildOf(k.proc[c], pid)], [p] + k.all);
  }

  lemma EndedEased(m: Procs, c: nat, status: int)
    requires c in m && ProcTree.Attentive(m)
    ensures var n := Ended(m, c, status); n.Keys == m.Keys && Eased(m, n) && ProcTree.Attentive(n)
  {
  }

  lemma RunsEased(m: Procs, next: nat)
    requires next in m && ProcTree.Attentive(m)
    ensures var n := m[next := m[next].(status := Running)];
      n.Keys == m.Keys && Eased(m, n) && ProcTree.Attentive(n)
  {
  }

  lemma EasedTwice(m: Procs, n: Procs, z: Procs)
    requires Eased(m, n) && Eased(n, z)
    ensures Eased(m, z)
  {
  }

  lemma ExitEased(m: Procs, all: seq<nat>, c: nat, q: nat, next: nat, status: int)
    requires c in m && next in m && ProcTree.Attentive(m)
    ensures var n := Exited(m, all, c, q, next, status); n.Keys == m.Keys && Eased(m, n) && ProcTree.Attentive(n)
  {
    hide Ended, ProcTree.Signalled, WakeAll, Eased, ProcTree.Attentive;
    var n1 := Ended(m, c, status);
    EndedEased(m, c, status);
    var n2 := ProcTree.Signalled(n1, q, ProcTree.SIGCHLD);
    SignalEased(n1, q, ProcTree.SIGCHLD);
    EasedTwice(m, n1, n2);
    var n3 := WakeAll(n2, all, q);
    WakeEased(n2, all, q);
    EasedTwice(m, n2, n3);
    RunsEased(n3, next);
    EasedTwice(m, n3, n3[next := n3[next].(status := Running)]);
  }

  lemma ExitInv(k: Kernel, c: nat, q: nat, next: nat, status: int)
    requires Inv(k) && c in k.proc && next in k.proc
    ensures Inv(k.(proc := Exited(k.proc, k.all, c, q, next, status)))
  {
    hide Exited;
    ExitEased(k.proc, k.all, c, q, next, status);
    EasedInv(k, Exited(k.proc, k.all, c, q, next, status));
  }

  lemma ReapInv(k: Kernel, p: nat, q: nat)
    requires Inv(k) && p in k.proc && q in k.proc && p != q
    ensures Inv(k.(proc := Reaped(k.proc, p, q), all := Without(k.all, p), calls := k.calls - {p}))
  {
    DoneInv(k, p);
    var z := k.(calls := k.calls - {p});
    WithoutDistinct(k.all, p);
    TableInv(z, Reaped(k.proc, p, q), Without(k.all, p));
  }

  lemma AdjustInv(k: Kernel, c: nat, x: Process)
    requires Inv(k) && c in k.proc && k.proc[c].status == Running && ProcTree.OwnSignals(k.proc[c], x)
    ensures Inv(k.(proc := k.proc[c := x]))
  {
    EasedInv(k, k.proc[c := x]);
  }

  lemma TickInv(k: Kernel, c: nat)
    requires Inv(k) && c in k.proc
    ensures Inv(k.(proc := Charged(k.proc, c)))
  {
    EasedInv(k, Charged(k.proc, c));
  }

  // ---- Steps that put someone to sleep ----

  lemma SleepInv(k: Kernel, c: nat, a: nat, next: nat, call: PipeCall)
    requires Inv(k) && CanSleep(k.proc, c, next) && Free(k.proc, c)
    requires call.pipe == a && a in k.pipes && Stuck(k.pipes[a], call)
    requires (call.InWrite? ==> call.write.done <= |call.write.src|)
    ensures Inv(k.(proc := AfterSleep(k.proc, c, a, next), calls := k.calls[c := call]))
  {
    var z := k.(proc := AfterSleep(k.proc, c, a, next), calls := k.calls[c := call]);
    forall p ensures CallOk(z, p) && Justified(z, p) {
      assert CallOk(k, p) && Justified(k, p);
    }
  }

  lemma DozeInv(k: Kernel, c: nat, chan: nat, next: nat)
    requires Inv(k) && CanSleep(k.proc, c, next) && Free(k.proc, c) && c !in k.calls
    ensures Inv(k.(proc := AfterSleep(k.proc, c, chan, next)))
  {
    var z := k.(proc := AfterSleep(k.proc, c, chan, next));
    forall p ensures CallOk(z, p) && Justified(z, p) {
      assert CallOk(k, p) && Justified(k, p);
    }
  }

  lemma DoneInv(k: Kernel, c: nat)
    requires Inv(k)
    ensures Inv(k.(calls := k.calls - {c}))
  {
    var z := k.(calls := k.calls - {c});
    forall p ensures CallOk(z, p) && Justified(z, p) {
      assert CallOk(k, p) && Justified(k, p);
    }
  }

  /** A stretch that sleeps found the condition of its loop true, in the pipe as it
      leaves it, and no signal to deliver. */
  lemma SleepsStuck(s: Pipe.State, w: Pipe.Write, a: nat, size: nat, signal: bool)
    requires w.done <= |w.src| && |s.data| <= Pipe.PIPE_SIZE
    ensures var (s', r) := Pipe.Reading(s, size, signal);
      r.ReadSleeps? ==> s' == s && !signal && Stuck(s, InRead(a, size))
    ensures var (s', w', r) := Pipe.Writing(s, w, signal);
      && |s'.data| <= Pipe.PIPE_SIZE && w'.done <= |w'.src| && (w'.done <= w.done ==> s' == s)
      && (r.WriteSleeps? ==> !signal && Stuck(s', InWrite(a, w')))
  {
  }

  lemma ReadInv(k: Kernel, c: nat, next: nat)
    requires Inv(k) && c in k.calls && k.calls[c].InRead? && c in k.proc && k.calls[c].pipe in k.pipes
    ensures Inv(Stretch(k, c, next))
  {
    hide Inv, Stuck, AfterSleep, WakeAll;
    PipeSize(k, k.calls[c].pipe);
    var a, size := k.calls[c].pipe, k.calls[c].size;
    var signal := !(k.proc[c].pending <= k.proc[c].blocked);
    SleepsStuck(k.pipes[a], Pipe.Write([], 0, false), a, size, signal);
    var (s, r) := Pipe.Reading(k.pipes[a], size, signal);
    if r.ReadSleeps? {
      if CanSleep(k.proc, c, next) { SleepInv(k, c, a, next, k.calls[c]); }
    } else if r.Got? {
      ChangeInv(k, a, s);
      DoneInv(Change(k, a, s), c);
    } else {
      DoneInv(k, c);
    }
  }

  lemma PipeSize(k: Kernel, a: nat)
    requires Inv(k) && a in k.pipes
    ensures |k.pipes[a].data| <= Pipe.PIPE_SIZE
  {
  }

  lemma CallSize(k: Kernel, c: nat)
    requires Inv(k) && c in k.calls
    ensures k.calls[c].pipe in k.pipes && (k.calls[c].InWrite? ==> k.calls[c].write.done <= |k.calls[c].write.src|)
  {
    assert CallOk(k, c);
  }

  lemma WriteInv(k: Kernel, c: nat, next: nat)
    requires Inv(k) && c in k.calls && k.calls[c].InWrite? && c in k.proc && k.calls[c].pipe in k.pipes
    requires k.proc[c].status == Running
    requires k.calls[c].write.done <= |k.calls[c].write.src|
    ensures |k.pipes[k.calls[c].pipe].data| <= Pipe.PIPE_SIZE && Inv(Stretch(k, c, next))
  {
    hide Inv, Stuck, AfterSleep, WakeAll, Pipe.Writing;
    PipeSize(k, k.calls[c].pipe);
    var a, w := k.calls[c].pipe, k.calls[c].write;
    var signal := !(k.proc[c].pending <= k.proc[c].blocked);
    SleepsStuck(k.pipes[a], w, a, 0, signal);
    var (s, w', r) := Pipe.Writing(k.pipes[a], w, signal);
    var k1 := if w'.done > w.done then Change(k, a, s) else k;
    AwakeSame(k, a, s, c);
    assert Inv(k1) by { if w'.done > w.done { ChangeInv(k, a, s); } }
    if r.WriteSleeps? {
      if CanSleep(k1.proc, c, next) { SleepInv(k1, c, a, next, InWrite(a, w')); }
    } else {
      DoneInv(k1, c);
    }
  }

  /** What a stretch of a write is, seen from outside. */
  lemma WriteIs(k: Kernel, c: nat, next: nat, s: Pipe.State, w: Pipe.Write, r: Pipe.WriteOutcome)
    requires Inv(k) && c in k.calls && k.calls[c].InWrite? && c in k.proc && k.proc[c].status == Running
    requires k.calls[c].pipe in k.pipes && k.calls[c].write.done <= |k.calls[c].write.src|
    requires |k.pipes[k.calls[c].pipe].data| <= Pipe.PIPE_SIZE
    requires (s, w, r) ==
      Pipe.Writing(k.pipes[k.calls[c].pipe], k.calls[c].write, !(k.proc[c].pending <= k.proc[c].blocked))
    ensures var a, v, z := k.calls[c].pipe, k.calls[c].write, Step(k, Proceed(c, next));
      var m := if w.done > v.done then WakeAll(k.proc, k.all, a) else k.proc;
      && (r.WriteSleeps? && CanSleep(m, c, next) ==>
            z == Kernel(AfterSleep(m, c, a, next), k.all, k.pipes[a := s], k.calls[c := InWrite(a, w)]))
      && (!r.WriteSleeps? ==> z == Kernel(m, k.all, k.pipes[a := s], k.calls - {c}))
  {
    hide Inv, Stuck, AfterSleep, WakeAll, Pipe.Writing, CanSleep;
    var a, v := k.calls[c].pipe, k.calls[c].write;
    SleepsStuck(k.pipes[a], v, a, 0, !(k.proc[c].pending <= k.proc[c].blocked));
    if w.done <= v.done { assert k.pipes[a := s] == k.pipes; }
  }

  lemma AwakeSame(k: Kernel, a: nat, s: Pipe.State, c: nat)
    requires c in k.proc && k.proc[c].status == Running
    ensures var z := Change(k, a, s);
      c in z.proc && z.proc[c] == k.proc[c] && z.calls == k.calls && z.pipes == k.pipes[a := s]
  {
  }

  lemma StepInv(k: Kernel, e: Event)
    requires Inv(k)
    ensures Inv(Step(k, e))
  {
    match e
    case NewPipe(a) => NewInv(k, a);
    case Begin(c, call) => BeginInv(k, c, call);
    case Proceed(c, next) => ProceedInv(k, c, next);
    case Close(a, reader) => CloseInv(k, a, reader);
    case Open(a, reader) => OpenInv(k, a, reader);
    case Doze(c, chan, next) =>
      hide Inv, AfterSleep;
      if CanSleep(k.proc, c, next) && c !in k.calls && Free(k.proc, c) { DozeInv(k, c, chan, next); }
    case _ => TableStepInv(k, e);
  }

  /** The events of the process table: nobody falls asleep. */
  predicate OfTable(e: Event) {
    e.Signal? || e.Wake? || e.Switch? || e.Tick? || e.Fork? || e.Exit? || e.Reap? || e.Adjust?
  }

  lemma TableStepInv(k: Kernel, e: Event)
    requires Inv(k) && OfTable(e)
    ensures Inv(Step(k, e))
  {
    hide Inv, AfterYield, Exited, Reaped, Charged, ProcTree.Signalled, WakeAll, ProcTree.ChildOf, Without;
    match e
    case Signal(p, sig) => SignalInv(k, p, sig);
    case Wake(chan) => WakeInv(k, chan);
    case Switch(prev, next) => if CanSleep(k.proc, prev, next) { SwitchInv(k, prev, next); }
    case Tick(c) => if c in k.proc { TickInv(k, c); }
    case Fork(c, p, pid) => if c in k.proc && p !in k.proc { ForkInv(k, c, p, pid); }
    case Exit(c, q, next, status) => if c in k.proc && next in k.proc { ExitInv(k, c, q, next, status); }
    case Reap(p, q) => if p in k.proc && q in k.proc && p != q { ReapInv(k, p, q); }
    case Adjust(c, x) =>
      if c in k.proc && k.proc[c].status == Running && ProcTree.OwnSignals(k.proc[c], x) { AdjustInv(k, c, x); }
  }

  lemma ProceedInv(k: Kernel, c: nat, next: nat)
    requires Inv(k)
    ensures Inv(Step(k, Proceed(c, next)))
  {
    hide Inv, Stretch;
    if c in k.calls && c in k.proc && k.proc[c].status == Running {
      CallSize(k, c);
      if k.calls[c].InRead? { ReadInv(k, c, next); } else { WriteInv(k, c, next); }
    }
  }

  lemma CloseInv(k: Kernel, a: nat, reader: bool)
    requires Inv(k)
    ensures Inv(Step(k, Close(a, reader)))
  {
    hide Change, Freed, Inv;
    if a in k.pipes {
      PipeSize(k, a);
      if Unused(k, a) { FreedInv(k, a); }
      if reader && k.pipes[a].readers > 0 { ChangeInv(k, a, k.pipes[a].(readers := k.pipes[a].readers - 1)); }
      if !reader && k.pipes[a].writers > 0 { ChangeInv(k, a, k.pipes[a].(writers := k.pipes[a].writers - 1)); }
    }
  }

  lemma TableStepEased(k: Kernel, e: Event)
    requires Inv(k) && OfTable(e)
    ensures Eased(k.proc, Step(k, e).proc)
  {
    if e.Signal? || e.Wake? || e.Exit? {
      TellEased(k, e);
    } else {
      OwnEased(k, e);
    }
  }

  lemma TellEased(k: Kernel, e: Event)
    requires Inv(k) && (e.Signal? || e.Wake? || e.Exit?)
    ensures Eased(k.proc, Step(k, e).proc)
  {
    hide Inv, Eased, Exited, ProcTree.Signalled, WakeAll, ProcTree.Attentive;
    EasedSame(k.proc);
    AllAttentive(k);
    match e
    case Signal(p, sig) => SignalEased(k.proc, p, sig);
    case Wake(chan) => WakeEased(k.proc, k.all, chan);
    case Exit(c, q, next, status) =>
      if c in k.proc && next in k.proc { ExitEased(k.proc, k.all, c, q, next, status); }
  }

  lemma OwnEased(k: Kernel, e: Event)
    requires Inv(k) && (e.Switch? || e.Tick? || e.Fork? || e.Reap? || e.Adjust?)
    ensures Eased(k.proc, Step(k, e).proc)
  {
    hide Inv, Eased, AfterYield, Reaped, Charged, ProcTree.ChildOf, Without;
    EasedSame(k.proc);
    match e
    case Switch(prev, next) => if CanSleep(k.proc, prev, next) { SwitchEased(k.proc, prev, next); }
    case Tick(c) => if c in k.proc { TickEased(k.proc, c); }
    case Fork(c, p, pid) => if c in k.proc { ForkEased(k.proc, c, p, pid); }
    case Reap(p, q) => if p in k.proc && q in k.proc { ReapEased(k.proc, p, q); }
    case Adjust(c, x) =>
      if c in k.proc && ProcTree.OwnSignals(k.proc[c], x) && k.proc[c].status == Running {
        AdjustEased(k.proc, c, x);
      }
  }

  lemma AllAttentive(k: Kernel)
    requires Inv(k)
    ensures ProcTree.Attentive(k.proc)
  {
  }

  lemma EasedSame(m: Procs)
    ensures Eased(m, m)
  {
  }

  lemma SwitchEased(m: Procs, prev: nat, next: nat)
    requires CanSleep(m, prev, next)
    ensures Eased(m, AfterYield(m, prev, next))
  {
  }

  lemma TickEased(m: Procs, c: nat)
    requires c in m
    ensures Eased(m, Charged(m, c))
  {
  }

  lemma ForkEased(m: Procs, c: nat, p: nat, pid: nat)
    requires c in m
    ensures Eased(m, m[p := ProcTree.ChildOf(m[c], pid)])
  {
  }

  lemma ReapEased(m: Procs, p: nat, q: nat)
    requires p in m && q in m
    ensures Eased(m, Reaped(m, p, q))
  {
  }

  lemma AdjustEased(m: Procs, c: nat, x: Process)
    requires c in m && m[c].status == Running && ProcTree.OwnSignals(m[c], x)
    ensures Eased(m, m[c := x])
  {
  }

  lemma NewInv(k: Kernel, a: nat)
    requires Inv(k)
    ensures Inv(Step(k, NewPipe(a)))
  {
    var z := Step(k, NewPipe(a));
    forall p ensures CallOk(z, p) && Justified(z, p) {
      assert CallOk(k, p) && Justified(k, p);
    }
  }

  lemma BeginInv(k: Kernel, c: nat, call: PipeCall)
    requires Inv(k)
    ensures Inv(Step(k, Begin(c, call)))
  {
    var z := Step(k, Begin(c, call));
    forall p ensures CallOk(z, p) && Justified(z, p) {
      assert CallOk(k, p) && Justified(k, p);
    }
  }

  lemma OpenInv(k: Kernel, a: nat, reader: bool)
    requires Inv(k)
    ensures Inv(Step(k, Open(a, reader)))
  {
    var z := Step(k, Open(a, reader));
    forall p ensures CallOk(z, p) && Justified(z, p) {
      assert CallOk(k, p) && Justified(k, p);
    }
  }

  function Run(k: Kernel, es: seq<Event>): Kernel
    requires Inv(k)
    decreases |es|
  {
    if es == [] then k else StepInv(k, es[0]); Run(Step(k, es[0]), es[1..])
  }

  lemma {:induction false} RunInv(k: Kernel, es: seq<Event>)
    requires Inv(k)
    ensures Inv(Run(k, es))
    decreases |es|
  {
    hide Inv, Step;
    if es != [] {
      StepInv(k, es[0]);
      RunInv(Step(k, es[0]), es[1..]);
    }
  }

  /** The kernel as it starts: idle and init, and no pipes. */
  function Boot(idle: nat, init: nat): Kernel {
    Kernel(map[idle := NewProcess(0, PRIO_IDLE), init := Booted()], [init, idle], map[], map[])
  }

  lemma BootInv(idle: nat, init: nat)
    requires idle != init
    ensures Inv(Boot(idle, init))
  {
    var k := Boot(idle, init);
    forall p ensures CallOk(k, p) && Justified(k, p) {
    }
  }

  function FromBoot(idle: nat, init: nat, es: seq<Event>): Kernel
    requires idle != init
  {
    BootInv(idle, init);
    Run(Boot(idle, init), es)
  }

  /** No lost wakeups: after every run from boot, with processes forked, ending and
      reaped on the way, a process asleep in pipe_read or pipe_write sleeps on that
      pipe and still has the condition it sleeps for, and no process that is asleep
      has a signal it could take. */
  lemma NoLostWakeup(idle: nat, init: nat, es: seq<Event>, p: nat)
    requires idle != init && p in FromBoot(idle, init, es).proc && FromBoot(idle, init, es).proc[p].status == Blocked
    ensures var z := FromBoot(idle, init, es); z.proc[p].pending <= z.proc[p].blocked
    ensures var z := FromBoot(idle, init, es);
      p in z.calls ==>
        z.calls[p].pipe == z.proc[p].chan && z.calls[p].pipe in z.pipes && Stuck(z.pipes[z.calls[p].pipe], z.calls[p])
  {
    BootInv(idle, init);
    RunInv(Boot(idle, init), es);
    var z := FromBoot(idle, init, es);
    assert CallOk(z, p) && Justified(z, p);
  }
}
