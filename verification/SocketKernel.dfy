/** Sockets and processes together, as the kernel's own calls work on them: the process
    table, the socket table, and the socket calls that are under way. */
module SocketKernel {
  import opened Machine
  import opened ReadyQueues
  import opened Sched
  import PipeKernel
  import ProcTree
  import Sockets
  import Sleep = SocketSleep
  import Wakeups

  datatype Event = Operate(op: Sockets.Event) | Other(e: ProcTree.Event)

  /** The same, but for the links of the ready queues. */
  ghost predicate Like(k: Sleep.Kernel, z: Sleep.Kernel) {
    SameBare(k.proc, z.proc) && z == k.(proc := z.proc)
  }

  /** Who is in a call is there, has not ended, and is not the idle process. */
  ghost predicate Callers(k: Sleep.Kernel, idle: nat) {
    forall p :: p in k.calls ==> p in k.proc && k.proc[p].status != Terminated && p != idle
  }

  /** The kernel and who runs. */
  datatype Moment = Moment(k: Sleep.Kernel, me: nat)

  /** What one event makes of the kernel: a step of `SocketSleep`, or a change of
      processes in which only the one that runs can fall asleep or end. */
  ghost predicate Follows(x: Moment, y: Moment, idle: nat, e: Event) {
    Sleep.Base(x.k) &&
    match e
    case Operate(op) => if x.me != idle then Like(Sleep.Step(x.k, Sleep.Op(x.me, op, y.me)), y.k) else y == x
    case Other(_) =>
      if x.me !in x.k.calls
      then ProcTree.Onward(x.k.proc, y.k.proc, x.me) && y.k == x.k.(proc := y.k.proc, all := y.k.all) else y == x
  }

  class Kernel {
    const table: ProcTree.ProcessTable
    const net: Sockets.SocketTable
    var calls: map<nat, Sleep.Call>
    /** A call has left someone asleep whom it should have woken. */
    ghost var lost: bool

    ghost function State(): Sleep.Kernel
      reads this, table.sc, net
    {
      Sleep.Kernel(table.sc.proc, table.sc.all, net.socks, net.own, calls)
    }

    ghost function Now(): Moment
      reads this, table.sc, net
    {
      Moment(State(), table.sc.current)
    }

    ghost predicate Valid()
      reads this, table, table.sc, net
    {
      && table.Valid() && net.Valid() && Sleep.Base(State()) && Callers(State(), table.idle)
      && (!lost ==> Sleep.Sleepers(State()))
    }

    constructor (table: ProcTree.ProcessTable, net: Sockets.SocketTable)
      requires table.Valid() && net.Valid() && net.socks == map[]
      ensures Valid() && this.table == table && this.net == net && calls == map[] && !lost
    {
      hide ProcTree.ProcessTable.Valid, Sockets.NetOk, Sockets.LogOk;
      PipeKernel.TableFacts(table);
      this.table := table;
      this.net := net;
      calls := map[];
      lost := false;
    }

    /** The wakeups of an operation, one after another. */
    method WakeEach(at: set<nat>)
      requires table.Valid()
      modifies table.sc
      ensures table.Valid() && table.sc.all == old(table.sc.all) && table.sc.current == old(table.sc.current)
      ensures SameBare(Sleep.Roused(old(table.sc.proc), table.sc.all, at), table.sc.proc)
    {
      hide ProcTree.ProcessTable.Valid, SameBare, WakeAll, Sleep.Roused;
      ghost var m := table.sc.proc;
      var left := at;
      BareSelf(m);
      Sleep.RousedOne(m, table.sc.all, {}, 0);
      assert at - left == {};
      while left != {}
        invariant left <= at && table.Valid() && table.sc.all == old(table.sc.all)
        invariant table.sc.current == old(table.sc.current)
        invariant SameBare(Sleep.Roused(m, table.sc.all, at - left), table.sc.proc)
        decreases left
      {
        var a :| a in left;
        ghost var n := table.sc.proc;
        Sleep.RousedOne(m, table.sc.all, at - left, a);
        assert at - (left - {a}) == at - left + {a};
        table.WakeChannel(a);
        WokenMore(Sleep.Roused(m, table.sc.all, at - left), n, table.sc.proc, table.sc.all, a);
        left := left - {a};
      }
      assert at - left == at;
    }

    /** The end of a stretch, as far as processes go: the wakeups it makes, and sleep_on
        or return. `mid` are the processes after the wakeups. */
    method Turn(at: set<nat>, sleeps: bool, chan: nat) returns (ghost mid: Procs)
      requires table.Valid() && table.sc.current != table.idle
      requires sleeps ==> Wakeups.Free(table.sc.proc, table.sc.current)
      modifies table`waits, table.sc
      ensures table.Valid() && table.sc.all == old(table.sc.all)
      ensures var c := old(table.sc.current);
        Turned(old(table.sc.proc), mid, table.sc.proc, table.sc.all, c, table.sc.current, at, sleeps, chan)
    {
      hide ProcTree.ProcessTable.Valid, SameBare, AfterSleep, Sleep.Roused;
      PipeKernel.CurrentRuns(table);
      var c := table.sc.current;
      ghost var m := table.sc.proc;
      WakeEach(at);
      StillRuns(m, table.sc.proc, table.sc.all, at, c);
      mid := table.sc.proc;
      if sleeps { table.SleepOn(chan, ProcTree.Elsewhere); }
    }

    /** One stretch of a socket call of the running process, up to its return or to
        sleep_on. */
    method Operate(op: Sockets.Event)
      requires Valid() && table.sc.current != table.idle
      modifies this`calls, this`lost, table`waits, table.sc, net
      ensures Valid() && (lost <==> old(lost) || Forgetful(old(State()), op))
      ensures !old(lost) && lost ==> !Sleep.Sleepers(State())
      ensures Like(Sleep.Step(old(State()), Sleep.Op(old(table.sc.current), op, table.sc.current)), State())
    {
      hide ProcTree.ProcessTable.Valid, Sockets.SocketTable.Valid, Sleep.Base, Callers, Like, Turned, Sleep.Do;
      hide Sleep.Step, Sleep.Links, Sleep.Chan, Wakeups.Free, Sleep.Did, Forgetful, Sleep.Sleepers;
      ghost var k := State();
      PipeKernel.CurrentRuns(table);
      Netted(k);
      var c := table.sc.current;
      var signal := !Wakeups.Free(table.sc.proc, c);
      Sleep.DoOk(k.socks, k.own, op, signal);
      var z := Sleep.Do(net.socks, net.own, op, signal);
      SignalSet(k.socks, k.own, op, signal);
      var sleeps := Sleep.Perform(net, WithSignal(op, signal));
      DidIs(z, net.socks, net.own, sleeps);
      var chan := if z.pause.Waits? then Sleep.Chan(net.socks, z.pause.call) else 0;
      calls := calls - {c};
      if z.pause.Waits? { calls := calls[c := z.pause.call]; }
      ghost var mid := Turn(z.woken, sleeps, chan);
      OpLike(k, State(), mid, c, table.sc.current, op, z, table.idle);
      lost := lost || Forgetful(k, op);
      if !old(lost) { OpExact(k, State(), c, op, table.sc.current); }
    }

    /** Everything that happens to processes outside socket calls. */
    method Otherwise(e: ProcTree.Event)
      requires Valid() && table.sc.current !in calls && (ProcTree.MakesRecord(e) ==> table.made < ProcTree.PID_LIMIT)
      modifies table, table.sc
      ensures Valid() && table.made <= old(table.made) + (if ProcTree.MakesRecord(e) then 1 else 0)
      ensures ProcTree.Onward(old(table.sc.proc), table.sc.proc, old(table.sc.current))
    {
      hide ProcTree.ProcessTable.Valid, Sockets.SocketTable.Valid, Sleep.Base, Callers, ProcTree.Onward, Listed;
      hide ProcTree.Attentive, Sleep.Sleepers;
      ghost var k := State();
      table.Step(e);
      PipeKernel.TableFacts(table);
      OnwardKeeps(k, State(), old(table.sc.current), table.idle);
    }

    /** What the running process or an interrupt does next; what cannot happen is
        skipped. */
    method Step(e: Event)
      requires Valid() && (Forks(e) ==> table.made < ProcTree.PID_LIMIT)
      modifies this, table, table.sc, net
      ensures Valid() && table.made <= old(table.made) + (if Forks(e) then 1 else 0)
      ensures lost <==>
        old(lost) || (e.Operate? && old(table.sc.current) != table.idle && Forgetful(old(State()), e.op))
      ensures Follows(old(Now()), Now(), table.idle, e)
    {
      hide Kernel.Valid, Forgetful, Like, Sleep.Step, Sleep.Base, ProcTree.Onward;
      ValidBase(this);
      match e
      case Operate(op) => if table.sc.current != table.idle { Operate(op); }
      case Other(t) => if table.sc.current !in calls { Otherwise(t); }
    }
  }

  /** The operation is one of the two that wake nobody, and somebody waits for it. */
  ghost predicate Forgetful(k: Sleep.Kernel, op: Sockets.Event) {
    exists p :: Sleep.Asleep(k, p) && Sleep.Forgets(k.socks, op, k.calls[p])
  }

  predicate Forks(e: Event) { e.Other? && ProcTree.MakesRecord(e.e) }

  /** The forks of a run that use up a pid. */
  function PidsTaken(es: seq<Event>): nat {
    if es == [] then 0 else (if Forks(es[0]) then 1 else 0) + PidsTaken(es[1..])
  }

  /** The moments of a run, each following from the one before by its event. */
  ghost predicate History(h: seq<Moment>, es: seq<Event>, idle: nat) {
    |h| == |es| + 1 && forall i :: 0 <= i < |es| ==> Follows(h[i], h[i + 1], idle, es[i])
  }

  method RunOn(k: Kernel, es: seq<Event>) returns (ghost h: seq<Moment>)
    requires k.Valid() && k.table.made + PidsTaken(es) <= ProcTree.PID_LIMIT
    modifies k, k.table, k.table.sc, k.net
    ensures k.Valid() && History(h, es, k.table.idle) && h[0] == old(k.Now()) && h[|es|] == k.Now()
    decreases |es|
  {
    hide Kernel.Valid, Forgetful, Follows, Kernel.State;
    h := [k.Now()];
    if es != [] {
      k.Step(es[0]);
      ghost var rest := RunOn(k, es[1..]);
      Longer(h[0], rest, es, k.table.idle);
      h := h + rest;
    }
  }

  lemma Longer(x: Moment, h: seq<Moment>, es: seq<Event>, idle: nat)
    requires es != [] && History(h, es[1..], idle) && Follows(x, h[0], idle, es[0])
    ensures History([x] + h, es, idle)
  {
    hide Follows;
    var g := [x] + h;
    forall i | 0 <= i < |es| ensures Follows(g[i], g[i + 1], idle, es[i]) {
      if i > 0 { assert es[i] == es[1..][i - 1] && g[i] == h[i - 1] && g[i + 1] == h[i]; }
    }
  }

  /** After every run from boot: whoever is asleep has no signal to take, and unless a
      second listen or a dissolved name has lost a wakeup, whoever is asleep in a socket
      call sleeps where the next change wakes it and has a reason to sleep. */
  method Run(idle: nat, init: nat, es: seq<Event>) returns (k: Kernel, ghost h: seq<Moment>)
    requires idle != NULL && init != NULL && idle != init && PidsTaken(es) + 2 <= ProcTree.PID_LIMIT
    ensures fresh(k) && k.Valid() && History(h, es, idle) && h[|es|] == k.Now()
    ensures h[0].k.proc == Wakeups.Boot(idle, init).proc && h[0].k.socks == map[] && h[0].me == init
    ensures forall p :: p in k.table.sc.proc && k.table.sc.proc[p].status == Blocked ==> Dutiful(k.State(), p, k.lost)
  {
    hide ProcTree.ProcessTable.Valid, Sockets.SocketTable.Valid, Kernel.Valid, Dutiful;
    var table := ProcTree.Boot(idle, init);
    var net := new Sockets.SocketTable();
    k := new Kernel(table, net);
    h := RunOn(k, es);
    forall p | p in k.table.sc.proc && k.table.sc.proc[p].status == Blocked ensures Dutiful(k.State(), p, k.lost) {
      ValidBase(k);
      AllDutiful(k.State(), p, k.lost);
    }
  }

  ghost predicate Dutiful(k: Sleep.Kernel, p: nat, lost: bool) {
    && p in k.proc && k.proc[p].pending <= k.proc[p].blocked
    && (!lost && p in k.calls ==>
          k.proc[p].chan == Sleep.Chan(k.socks, k.calls[p]) && Sleep.Stuck(k.socks, k.calls[p]))
  }

  lemma ValidBase(k: Kernel)
    requires k.Valid()
    ensures Sleep.Base(k.State()) && (!k.lost ==> Sleep.Sleepers(k.State()))
  {
  }

  lemma AllDutiful(k: Sleep.Kernel, p: nat, lost: bool)
    requires Sleep.Base(k) && (!lost ==> Sleep.Sleepers(k)) && p in k.proc && k.proc[p].status == Blocked
    ensures Dutiful(k, p, lost)
  {
    hide Sleep.Net, Sleep.Stuck, Sleep.Chan;
    if !lost { assert Sleep.Justified(k, p); }
  }

  /** Exactly then a sleeper is left without a reason. */
  lemma OpExact(k: Sleep.Kernel, z: Sleep.Kernel, c: nat, op: Sockets.Event, next: nat)
    requires Sleep.Base(k) && Sleep.Sleepers(k) && c in k.proc && k.proc[c].status == Running
    requires Like(Sleep.Step(k, Sleep.Op(c, op, next)), z)
    ensures Sleep.Sleepers(z) <==> !Forgetful(k, op)
  {
    hide Like, Sleep.Step, Sleep.Base, Sleep.Sleepers, Sleep.Forgets;
    var e := Sleep.Op(c, op, next);
    Sleep.StepExact(k, e);
    Sleep.StepBase(k, e);
    LikeBase(Sleep.Step(k, e), z);
    LikeBack(Sleep.Step(k, e), z);
    LikeBase(z, Sleep.Step(k, e));
    assert Sleep.Loses(k, e) <==> Forgetful(k, op);
  }

  lemma LikeBack(k: Sleep.Kernel, z: Sleep.Kernel)
    requires Like(k, z)
    ensures Like(z, k)
  {
  }

  lemma Netted(k: Sleep.Kernel)
    requires Sleep.Base(k)
    ensures Sleep.Net(k.socks, k.own) && Sleep.Links(k.socks)
  {
    Sleep.NetLinks(k.socks, k.own);
  }

  lemma DidIs(z: Sleep.Effect, socks: Sockets.Socks, own: Sockets.Owners, sleeps: bool)
    requires Sleep.Did(z, socks, own, sleeps)
    ensures socks == z.socks && own == z.own && (sleeps <==> z.pause.Waits?)
  {
  }

  /** The call finds out by itself whether a signal is there. */
  function WithSignal(op: Sockets.Event, signal: bool): Sockets.Event {
    match op
    case Connects(s, l, srv, memory, nonblock, _) => Sockets.Connects(s, l, srv, memory, nonblock, signal)
    case Accepts(l, nonblock, _, installed) => Sockets.Accepts(l, nonblock, signal, installed)
    case Recvs(s, size, nonblock, _, peek) => Sockets.Recvs(s, size, nonblock, signal, peek)
    case Sends(s, src, done, nonblock, _) => Sockets.Sends(s, src, done, nonblock, signal)
    case SendsMsg(s, msg, given, found, memory, nonblock, _) =>
      Sockets.SendsMsg(s, msg, given, found, memory, nonblock, signal)
    case RecvsMsg(s, size, nonblock, _, peek) => Sockets.RecvsMsg(s, size, nonblock, signal, peek)
    case _ => op
  }

  lemma SignalSet(m: Sockets.Socks, own: Sockets.Owners, op: Sockets.Event, signal: bool)
    requires Sleep.Links(m)
    ensures var o := WithSignal(op, signal); Sleep.Do(m, own, o, Sleep.Signalled(o)) == Sleep.Do(m, own, op, signal)
  {
    hide Sleep.Creating, Sleep.Pairing, Sleep.Opening, Sleep.Connecting, Sleep.Accepting, Sleep.Taking, Sleep.Putting;
    hide Sleep.Shutting, Sleep.Closing, Sleep.PuttingMsg, Sleep.TakingMsg, Sleep.Naming;
  }

  /** The stretch is the step of the model. */
  lemma OpLike(k: Sleep.Kernel, z: Sleep.Kernel, mid: Procs, c: nat, next: nat, op: Sockets.Event, e: Sleep.Effect,
               idle: nat)
    requires Sleep.Base(k) && Callers(k, idle) && c in k.proc && k.proc[c].status == Running && c != idle
    requires Sleep.Links(k.socks) && e == Sleep.Do(k.socks, k.own, op, !Wakeups.Free(k.proc, c))
    requires z.all == k.all && z.socks == e.socks && z.own == e.own
    requires z.calls == if e.pause.Waits? then (k.calls - {c})[c := e.pause.call] else k.calls - {c}
    requires var chan := if e.pause.Waits? then Sleep.Chan(z.socks, e.pause.call) else 0;
      Turned(k.proc, mid, z.proc, k.all, c, next, e.woken, e.pause.Waits?, chan)
    ensures Like(Sleep.Step(k, Sleep.Op(c, op, next)), z) && Sleep.Base(z) && Callers(z, idle)
  {
    hide Sleep.Base, SameBare, AfterSleep, Sleep.Roused, Callers, Sleep.Do, Sleep.Chan, Sleep.Links;
    var y := Sleep.Step(k, Sleep.Op(c, op, next));
    Sleep.StepBase(k, Sleep.Op(c, op, next));
    TurnCallers(k, z, mid, c, next, e, idle);
    if e.pause.Waits? {
      var x, chan := Sleep.Roused(k.proc, k.all, e.woken), Sleep.Chan(z.socks, e.pause.call);
      PipeKernel.BareSleep(x, mid, c, chan, next, z.proc);
    }
    assert Like(y, z);
    hide Like;
    LikeBase(y, z);
  }

  lemma TurnCallers(k: Sleep.Kernel, z: Sleep.Kernel, mid: Procs, c: nat, next: nat, e: Sleep.Effect, idle: nat)
    requires Callers(k, idle) && c in k.proc && k.proc[c].status == Running && c != idle
    requires z.calls.Keys <= k.calls.Keys + {c}
    requires var chan := if e.pause.Waits? then Sleep.Chan(z.socks, e.pause.call) else 0;
      Turned(k.proc, mid, z.proc, k.all, c, next, e.woken, e.pause.Waits?, chan)
    ensures Callers(z, idle)
  {
    hide Sleep.Chan, SameBare, Sleep.Roused, AfterSleep, Callers;
    var x := Sleep.Roused(k.proc, k.all, e.woken);
    RousedLives(k.proc, k.all, e.woken);
    BareLives(x, mid);
    if e.pause.Waits? {
      var chan := Sleep.Chan(z.socks, e.pause.call);
      SleepLives(mid, c, chan, next);
      BareLives(AfterSleep(mid, c, chan, next), z.proc);
      LivesTwice(x, mid, AfterSleep(mid, c, chan, next));
      LivesTwice(x, AfterSleep(mid, c, chan, next), z.proc);
    }
    LivesTwice(k.proc, x, z.proc);
    hide Lives;
    CallersLive(k, z, c, idle);
  }

  /** Nobody has ended. */
  ghost predicate Lives(m: Procs, n: Procs) {
    n.Keys == m.Keys && forall p :: p in m && m[p].status != Terminated ==> n[p].status != Terminated
  }

  lemma LivesTwice(l: Procs, m: Procs, n: Procs)
    requires Lives(l, m) && Lives(m, n)
    ensures Lives(l, n)
  {
  }

  lemma BareLives(m: Procs, n: Procs)
    requires SameBare(m, n)
    ensures Lives(m, n)
  {
    ProcTree.BareFields(m, n);
  }

  lemma CallersLive(k: Sleep.Kernel, z: Sleep.Kernel, c: nat, idle: nat)
    requires Callers(k, idle) && Lives(k.proc, z.proc) && c in k.proc && k.proc[c].status == Running && c != idle
    requires z.calls.Keys <= k.calls.Keys + {c}
    ensures Callers(z, idle)
  {
  }

  lemma RousedLives(m: Procs, all: seq<nat>, at: set<nat>)
    ensures Lives(m, Sleep.Roused(m, all, at))
  {
  }

  lemma SleepLives(m: Procs, c: nat, chan: nat, next: nat)
    requires c in m && next in m
    ensures Lives(m, AfterSleep(m, c, chan, next))
  {
  }

  lemma LikeBase(k: Sleep.Kernel, z: Sleep.Kernel)
    requires Sleep.Base(k) && Like(k, z)
    ensures Sleep.Base(z) && (Sleep.Sleepers(k) ==> Sleep.Sleepers(z))
  {
    hide Sleep.Net, Sleep.Stuck, Sleep.Chan;
    ProcTree.BareFields(k.proc, z.proc);
    if Sleep.Sleepers(k) {
      forall p ensures Sleep.Justified(z, p) { assert Sleep.Justified(k, p); }
    }
  }

  lemma OnwardKeeps(k: Sleep.Kernel, z: Sleep.Kernel, c: nat, idle: nat)
    requires Sleep.Base(k) && Callers(k, idle) && c !in k.calls && ProcTree.Onward(k.proc, z.proc, c)
    requires Listed(z.proc, z.all) && ProcTree.Attentive(z.proc)
    requires z == k.(proc := z.proc, all := z.all)
    ensures Sleep.Base(z) && Callers(z, idle) && (Sleep.Sleepers(k) ==> Sleep.Sleepers(z))
  {
    hide Sleep.Net, Sleep.Stuck, Sleep.Chan;
    if Sleep.Sleepers(k) {
      forall p ensures Sleep.Justified(z, p) { assert Sleep.Justified(k, p); }
    }
  }

  ghost predicate Turned(m: Procs, mid: Procs, n: Procs, all: seq<nat>, c: nat, next: nat, at: set<nat>, sleeps: bool,
                         chan: nat) {
    && SameBare(Sleep.Roused(m, all, at), mid)
    && (if sleeps then Wakeups.CanSleep(mid, c, next) && SameBare(AfterSleep(mid, c, chan, next), n) else n == mid)
  }

  lemma WokenMore(x: Procs, n: Procs, z: Procs, all: seq<nat>, a: nat)
    requires SameBare(x, n) && SameBare(WakeAll(n, all, a), z)
    ensures SameBare(WakeAll(x, all, a), z)
  {
    hide SameBare, WakeAll;
    ProcTree.WakeBare(x, n, all, a);
    BareTrans(WakeAll(x, all, a), WakeAll(n, all, a), z);
  }

  lemma StillRuns(m: Procs, n: Procs, all: seq<nat>, at: set<nat>, c: nat)
    requires c in m && m[c].status == Running && SameBare(Sleep.Roused(m, all, at), n)
    ensures c in n && n[c].status == Running && n[c].pending == m[c].pending && n[c].blocked == m[c].blocked
  {
    ProcTree.BareFields(Sleep.Roused(m, all, at), n);
  }
}
