/** Pipes and processes together, as the kernel's own calls work on them: the process
    table, a ring buffer for every pipe, and the pipe calls that are under way. */
module PipeKernel {
  import opened Machine
  import opened ReadyQueues
  import opened Sched
  import Pipe
  import ProcTree
  import Rings
  import Wakeups

  datatype Event =
    | MakePipe(a: nat)
    | BeginRead(a: nat, size: nat)
    | BeginWrite(a: nat, src: seq<Rings.Byte>)
    | GoOn
    | CloseEnd(a: nat, reader: bool)
    | Other(e: ProcTree.Event)

  /** The same, but for the links of the ready queues. */
  ghost predicate Like(k: Wakeups.Kernel, z: Wakeups.Kernel) {
    SameBare(k.proc, z.proc) && z == k.(proc := z.proc)
  }

  /** The kernel and who runs. */
  datatype Moment = Moment(k: Wakeups.Kernel, me: nat)

  /** What one event makes of the kernel: a step of `Wakeups`, or a change of processes
      in which only the one that runs can fall asleep or end. */
  ghost predicate Follows(x: Moment, y: Moment, idle: nat, e: Event) {
    var k, me := x.k, x.me;
    Wakeups.Inv(k) &&
    match e
    case MakePipe(a) => y == Moment(Wakeups.Step(k, Wakeups.NewPipe(a)), me)
    case BeginRead(a, size) => y == Began(x, idle, Wakeups.InRead(a, size))
    case BeginWrite(a, src) => y == Began(x, idle, Wakeups.InWrite(a, Pipe.Write(src, 0, false)))
    case GoOn => if me in k.calls then Like(Wakeups.Step(k, Wakeups.Proceed(me, y.me)), y.k) else y == x
    case CloseEnd(a, reader) =>
      if CanClose(x, a, reader) then Like(Wakeups.Step(k, Wakeups.Close(a, reader)), y.k) && y.me == me else y == x
    case Other(_) =>
      if me !in k.calls then ProcTree.Onward(k.proc, y.k.proc, me) && y.k.pipes == k.pipes && y.k.calls == k.calls
      else y == x
  }

  ghost function Began(x: Moment, idle: nat, call: Wakeups.PipeCall): Moment
    requires Wakeups.Inv(x.k)
  {
    if x.me !in x.k.calls && x.me != idle && call.pipe in x.k.pipes
    then Moment(Wakeups.Step(x.k, Wakeups.Begin(x.me, call)), x.me) else x
  }

  ghost predicate CanClose(x: Moment, a: nat, reader: bool) {
    && a in x.k.pipes && x.me !in x.k.calls && HasEnd(x.k.pipes[a], reader)
    && (x.k.pipes[a].readers + x.k.pipes[a].writers == 1 ==> Wakeups.Unused(x.k, a))
  }

  /** Who is in a call is there, has not ended, and is not the idle process. */
  ghost predicate Callers(k: Wakeups.Kernel, idle: nat) {
    forall p :: p in k.calls ==> p in k.proc && k.proc[p].status != Terminated && p != idle
  }

  class Kernel {
    const table: ProcTree.ProcessTable
    var pipes: map<nat, Pipe.PipeBuffer>
    var calls: map<nat, Wakeups.PipeCall>

    ghost function Parts(): set<object>
      reads this`pipes
    {
      (set a | a in pipes :: pipes[a]) + (set a | a in pipes :: pipes[a].ring)
        + (set a | a in pipes :: pipes[a].ring.buf)
    }

    ghost function Contents(): (m: map<nat, Pipe.State>)
      reads this`pipes, Parts()
      ensures m.Keys == pipes.Keys
    {
      map a | a in pipes :: pipes[a].View()
    }

    ghost function State(): Wakeups.Kernel
      reads this, table.sc, Parts()
    {
      Wakeups.Kernel(table.sc.proc, table.sc.all, Contents(), calls)
    }

    ghost function Now(): Moment
      reads this, table.sc, Parts()
    {
      Moment(State(), table.sc.current)
    }

    /** Every pipe has a buffer of its own. */
    ghost predicate Buffers()
      reads this`pipes, Parts()
    {
      && (forall a :: a in pipes ==> pipes[a].Valid())
      && (forall a, b :: a in pipes && b in pipes && a != b ==>
            pipes[a] != pipes[b] && pipes[a].ring != pipes[b].ring && pipes[a].ring.buf != pipes[b].ring.buf)
    }

    ghost predicate Valid()
      reads this, table, table.sc, Parts()
    {
      table.Valid() && Buffers() && Callers(State(), table.idle) && Wakeups.Inv(State())
    }

    constructor (table: ProcTree.ProcessTable)
      requires table.Valid()
      ensures Valid() && this.table == table && pipes == map[] && calls == map[] && Parts() == {}
    {
      hide ProcTree.ProcessTable.Valid, Wakeups.Inv;
      TableFacts(table);
      this.table := table;
      pipes := map[];
      calls := map[];
      new;
      NoneInv(State());
    }

    // ---- The buffers ----

    method ReadPipe(a: nat, size: nat, signal: bool) returns (r: Pipe.ReadOutcome)
      requires Buffers() && a in pipes
      modifies Parts()
      ensures Buffers() && (Contents()[a], r) == Pipe.Reading(old(Contents())[a], size, signal)
      ensures Contents() == old(Contents())[a := Contents()[a]] && (r.ReadSleeps? ==> !signal)
    {
      hide Pipe.Reading;
      r := pipes[a].Read(size, signal);
    }

    method WritePipe(a: nat, w: Pipe.Write, signal: bool) returns (w': Pipe.Write, r: Pipe.WriteOutcome)
      requires Buffers() && a in pipes && w.done <= |w.src|
      modifies Parts()
      ensures |old(Contents())[a].data| <= Pipe.PIPE_SIZE
      ensures Buffers() && (Contents()[a], w', r) == Pipe.Writing(old(Contents())[a], w, signal)
      ensures Contents() == old(Contents())[a := Contents()[a]] && (r.WriteSleeps? ==> !signal)
    {
      hide Pipe.Writing, Pipe.PipeBuffer.Waits;
      w', r := pipes[a].WriteOn(w, signal);
    }

    // ---- The calls ----

    lemma Facts()
      requires Valid()
      ensures table.sc.current in table.sc.proc && table.sc.proc[table.sc.current].status == Running
      ensures table.idle in table.sc.proc && Listed(table.sc.proc, table.sc.all)
      ensures table.sc.current != table.idle ==> table.sc.proc[table.idle].status == Ready
    {
      table.Facts(NULL);
    }

    /** The process table is none of the buffers. */
    lemma Outside()
      ensures table !in Parts() && table.sc !in Parts() && this !in Parts()
    {
    }

    method Finish(a: nat, wakes: bool, sleeps: bool, call: Wakeups.PipeCall) returns (ghost mid: Procs)
      requires table.Valid() && Buffers() && table.sc.current != table.idle
      requires sleeps ==> table.sc.proc[table.sc.current].pending <= table.sc.proc[table.sc.current].blocked
      modifies this`calls, table`waits, table.sc
      ensures table.Valid() && Buffers() && Contents() == old(Contents()) && table.sc.all == old(table.sc.all)
      ensures var c := old(table.sc.current);
        Finished(old(table.sc.proc), mid, table.sc.proc, table.sc.all, c, table.sc.current, a, wakes, sleeps)
      ensures var c := old(table.sc.current); calls == if sleeps then old(calls)[c := call] else old(calls) - {c}
    {
      hide ProcTree.ProcessTable.Valid, Finished, Kernel.Buffers, Kernel.Contents;
      Outside();
      var c := table.sc.current;
      calls := if sleeps then calls[c := call] else calls - {c};
      mid := Turn(table, a, wakes, sleeps);
    }

    method ReadOn(a: nat, size: nat, call: Wakeups.PipeCall) returns (r: Pipe.ReadOutcome, ghost mid: Procs)
      requires table.Valid() && Buffers() && table.sc.current != table.idle && a in pipes
      modifies this`calls, table`waits, table.sc, Parts()
      ensures table.Valid() && Buffers()
      ensures ReadTo(old(State()), State(), mid, old(table.sc.current), table.sc.current, a, size, call, r)
    {
      hide ProcTree.ProcessTable.Valid, Finished, Kernel.Buffers, Kernel.Contents, Pipe.Reading, HasSignal;
      Outside();
      CurrentRuns(table);
      SleepsFree(table.sc.proc, table.sc.current);
      var signal := HasSignal(table.sc.proc, table.sc.current);
      r := ReadPipe(a, size, signal);
      mid := Finish(a, r.Got?, r.ReadSleeps?, call);
    }

    method WriteOn(a: nat, w: Pipe.Write) returns (w': Pipe.Write, r: Pipe.WriteOutcome, ghost mid: Procs)
      requires table.Valid() && Buffers() && table.sc.current != table.idle && a in pipes && w.done <= |w.src|
      modifies this`calls, table`waits, table.sc, Parts()
      ensures table.Valid() && Buffers()
      ensures WriteTo(old(State()), State(), mid, old(table.sc.current), table.sc.current, a, w, w', r)
    {
      hide ProcTree.ProcessTable.Valid, Finished, Kernel.Buffers, Kernel.Contents, Pipe.Writing, HasSignal, WriteTo;
      ghost var k := State();
      Outside();
      CurrentRuns(table);
      var signal := HasSignal(table.sc.proc, table.sc.current);
      SleepsFree(table.sc.proc, table.sc.current);
      w', r := WritePipe(a, w, signal);
      var wakes, sleeps := w'.done > w.done, r.WriteSleeps?;
      mid := Finish(a, wakes, sleeps, Wakeups.InWrite(a, w'));
      WriteToIs(k, State(), mid, old(table.sc.current), table.sc.current, a, w, w', r, signal);
    }

    /** The caller's stretch of pipe_read or pipe_write, up to its return or to sleep_on. */
    method GoOn()
      requires Valid() && table.sc.current in calls
      modifies this`calls, table`waits, table.sc, Parts()
      ensures Valid() && Parts() == old(Parts())
      ensures Like(Wakeups.Step(old(State()), Wakeups.Proceed(old(table.sc.current), table.sc.current)), State())
    {
      hide ProcTree.ProcessTable.Valid, Wakeups.Inv, Like, Finished, Callers, Wakeups.Step, Kernel.Buffers;
      hide Kernel.Contents, Kernel.Parts, Pipe.Reading, Pipe.Writing, ReadTo, WriteTo;
      ghost var k := State();
      Facts();
      Outside();
      var c := table.sc.current;
      Wakeups.CallSize(k, c);
      NotIdle(k, c, table.idle);
      ghost var mid;
      match calls[c]
      case InRead(a, size) =>
        var r;
        r, mid := ReadOn(a, size, calls[c]);
        ReadLike(k, State(), mid, c, table.sc.current, r, table.idle);
      case InWrite(a, w) =>
        var w', r;
        w', r, mid := WriteOn(a, w);
        WriteLike(k, State(), mid, c, table.sc.current, w', r, table.idle);
    }

    method Attach(a: nat, b: Pipe.PipeBuffer)
      requires Buffers() && a !in pipes && b.Valid() && {b, b.ring, b.ring.buf} !! Parts()
      modifies this`pipes
      ensures Buffers() && Parts() <= old(Parts()) + {b, b.ring, b.ring.buf}
      ensures Contents() == old(Contents())[a := b.View()]
    {
      hide Pipe.PipeBuffer.Valid;
      pipes := pipes[a := b];
    }

    method AddBuffer(a: nat)
      requires Buffers() && a !in pipes
      modifies this`pipes
      ensures Buffers() && fresh(Parts() - old(Parts())) && Contents() == old(Contents())[a := Pipe.State([], 1, 1)]
    {
      hide Pipe.PipeBuffer.Valid, Kernel.Contents, Kernel.Buffers;
      ghost var parts := Parts();
      var b := new Pipe.PipeBuffer();
      assert Parts() == parts && forall o :: o in parts ==> old(allocated(o));
      Attach(a, b);
    }

    /** pipe_create */
    method Make(a: nat)
      requires Valid()
      modifies this`pipes
      ensures Valid() && fresh(Parts() - old(Parts())) && State() == Wakeups.Step(old(State()), Wakeups.NewPipe(a))
    {
      hide ProcTree.ProcessTable.Valid, Wakeups.Inv, Kernel.Buffers, Kernel.Contents, Kernel.Parts;
      Wakeups.StepInv(State(), Wakeups.NewPipe(a));
      if a !in pipes { AddBuffer(a); }
    }

    /** The running process enters pipe_read or pipe_write. */
    method Begin(call: Wakeups.PipeCall)
      requires Valid() && table.sc.current !in calls && table.sc.current != table.idle && Wakeups.Fresh(call)
      requires call.pipe in pipes
      modifies this`calls
      ensures Valid() && State() == Wakeups.Step(old(State()), Wakeups.Begin(table.sc.current, call))
    {
      hide ProcTree.ProcessTable.Valid, Wakeups.Inv, Kernel.Buffers, Kernel.Contents;
      Facts();
      Outside();
      Wakeups.StepInv(State(), Wakeups.Begin(table.sc.current, call));
      calls := calls[table.sc.current := call];
    }

    method ReleaseEnd(a: nat, reader: bool) returns (gone: bool)
      requires Buffers() && a in pipes && HasEnd(Contents()[a], reader)
      modifies Parts()
      ensures Buffers() && Contents() == old(Contents())[a := OneLess(old(Contents())[a], reader)]
      ensures gone <==> old(Contents())[a].readers + old(Contents())[a].writers == 1
    {
      hide Pipe.Reading, Pipe.Writing;
      gone := pipes[a].Release(reader);
    }

    method Forget(a: nat)
      requires Buffers() && a in pipes
      modifies this`pipes
      ensures Buffers() && Parts() <= old(Parts()) && Contents() == old(Contents()) - {a}
    {
      hide Pipe.PipeBuffer.Valid;
      pipes := pipes - {a};
    }

    method DropEnd(a: nat, reader: bool) returns (gone: bool)
      requires Buffers() && a in pipes && HasEnd(Contents()[a], reader)
      modifies this`pipes, Parts()
      ensures Buffers() && Parts() <= old(Parts())
      ensures Dropped(old(Contents()), Contents(), a, reader, gone)
    {
      hide Kernel.Buffers, Kernel.Contents, OneLess;
      gone := ReleaseEnd(a, reader);
      if gone { Forget(a); }
    }

    method Tell(a: nat)
      requires table.Valid() && Buffers()
      modifies table.sc
      ensures table.Valid() && Buffers() && Contents() == old(Contents()) && table.sc.all == old(table.sc.all)
      ensures SameBare(WakeAll(old(table.sc.proc), table.sc.all, a), table.sc.proc)
      ensures table.sc.current == old(table.sc.current)
    {
      hide ProcTree.ProcessTable.Valid, Kernel.Buffers, Kernel.Contents, SameBare, WakeAll;
      Outside();
      table.WakeChannel(a);
    }

    method DropTold(a: nat, reader: bool) returns (gone: bool)
      requires table.Valid() && Buffers() && a in pipes && HasEnd(Contents()[a], reader)
      modifies this`pipes, table.sc, Parts()
      ensures table.Valid() && Buffers() && Parts() <= old(Parts()) && table.sc.all == old(table.sc.all)
      ensures Dropped(old(Contents()), Contents(), a, reader, gone)
      ensures SameBare(WakeAll(old(table.sc.proc), table.sc.all, a), table.sc.proc)
      ensures table.sc.current == old(table.sc.current)
    {
      hide ProcTree.ProcessTable.Valid, Kernel.Buffers, Kernel.Contents, SameBare, WakeAll, Dropped, HasEnd;
      Outside();
      gone := DropEnd(a, reader);
      Tell(a);
    }

    /** pipe_release. Who is in a call on the pipe has an end of it open. */
    method Close(a: nat, reader: bool)
      requires Valid() && a in pipes && HasEnd(Contents()[a], reader)
      requires Contents()[a].readers + Contents()[a].writers == 1 ==> Wakeups.Unused(State(), a)
      modifies this`pipes, table.sc, Parts()
      ensures Valid() && Parts() <= old(Parts()) && table.sc.current == old(table.sc.current)
      ensures Like(Wakeups.Step(old(State()), Wakeups.Close(a, reader)), State())
    {
      hide ProcTree.ProcessTable.Valid, Wakeups.Inv, Kernel.Buffers, Callers, SameBare, WakeAll, Like, Wakeups.Step;
      hide Kernel.Contents, Kernel.Parts, Dropped, HasEnd, Wakeups.Unused;
      ghost var k := State();
      Outside();
      var gone := DropTold(a, reader);
      CloseLike(k, State(), a, reader, gone, table.idle);
    }

    /** Everything that happens to processes outside pipe calls. */
    method Otherwise(e: ProcTree.Event)
      requires Valid() && table.sc.current !in calls && (ProcTree.MakesRecord(e) ==> table.made < ProcTree.PID_LIMIT)
      modifies table, table.sc
      ensures Valid() && table.made <= old(table.made) + (if ProcTree.MakesRecord(e) then 1 else 0)
      ensures ProcTree.Onward(old(table.sc.proc), table.sc.proc, old(table.sc.current)) && Contents() == old(Contents())
    {
      hide ProcTree.ProcessTable.Valid, Wakeups.Inv, Kernel.Buffers, Kernel.Contents, Callers, ProcTree.Onward, Listed;
      hide ProcTree.Attentive;
      ghost var k := State();
      Outside();
      table.Step(e);
      TableFacts(table);
      OnwardInv(k, State(), old(table.sc.current), table.idle);
    }

    /** What the running process or an interrupt does next; what cannot happen is
        skipped. A process in a pipe call does nothing but go on with it. */
    method Step(e: Event)
      requires Valid() && (Forks(e) ==> table.made < ProcTree.PID_LIMIT)
      modifies this, table, table.sc, Parts()
      ensures Valid() && fresh(Parts() - old(Parts())) && table.made <= old(table.made) + (if Forks(e) then 1 else 0)
      ensures Follows(old(Now()), Now(), table.idle, e)
    {
      hide ProcTree.ProcessTable.Valid, Wakeups.Inv, Kernel.Buffers, Kernel.Contents, Callers, Like, Wakeups.Step;
      hide Kernel.Valid, Kernel.Parts, ProcTree.Onward;
      ValidInv(this);
      Outside();
      var me := table.sc.current;
      match e
      case MakePipe(a) => Make(a);
      case BeginRead(a, size) =>
        if me !in calls && me != table.idle && a in pipes { Begin(Wakeups.InRead(a, size)); }
      case BeginWrite(a, src) =>
        if me !in calls && me != table.idle && a in pipes { Begin(Wakeups.InWrite(a, Pipe.Write(src, 0, false))); }
      case GoOn => if me in calls { GoOn(); }
      case CloseEnd(a, reader) =>
        if a in pipes && me !in calls {
          EndsAt(a);
          var b := pipes[a];
          var last := b.readers + b.writers == 1;
          if (if reader then b.readers > 0 else b.writers > 0) &&
             (last ==> forall c :: c in calls ==> calls[c].pipe != a)
          {
            Close(a, reader);
          }
        }
      case Other(t) => if me !in calls { Otherwise(t); }
    }

    lemma EndsAt(a: nat)
      requires a in pipes
      ensures Contents()[a].readers == pipes[a].readers && Contents()[a].writers == pipes[a].writers
    {
    }
  }

  predicate Forks(e: Event) { e.Other? && ProcTree.MakesRecord(e.e) }

  /** The forks of a run that use up a pid. */
  function PidsTaken(es: seq<Event>): nat {
    if es == [] then 0 else (if Forks(es[0]) then 1 else 0) + PidsTaken(es[1..])
  }

  /** The moments of a run, each following from the one before by its event. */
  ghost predicate History(h: seq<Moment>, es: seq<Event>, idle: nat) {
    |h| == |es| + 1 && forall i :: 0 <= i < |es| ==> Follows(h[i], h[i + 1], idle, es[i])
  }

  method RunOn(k: Kernel, es: seq<Event>) returns (ghost h: seq<Moment>)
    requires k.Valid() && k.table.made + PidsTaken(es) <= ProcTree.PID_LIMIT
    modifies k, k.table, k.table.sc, k.Parts()
    ensures k.Valid() && History(h, es, k.table.idle) && h[0] == old(k.Now()) && h[|es|] == k.Now()
    decreases |es|
  {
    hide Kernel.Valid, Kernel.Parts, Follows, Kernel.State;
    h := [k.Now()];
    if es != [] {
      k.Step(es[0]);
      ghost var rest := RunOn(k, es[1..]);
      Longer(h[0], rest, es, k.table.idle);
      h := h + rest;
    }
  }

  lemma Longer(x: Moment, h: seq<Moment>, es: seq<Event>, idle: nat)
    requires es != [] && History(h, es[1..], idle) && Follows(x, h[0], idle, es[0])
    ensures History([x] + h, es, idle)
  {
    hide Follows;
    var g := [x] + h;
    forall i | 0 <= i < |es| ensures Follows(g[i], g[i + 1], idle, es[i]) {
      if i > 0 { assert es[i] == es[1..][i - 1] && g[i] == h[i - 1] && g[i + 1] == h[i]; }
    }
  }

  /** No lost wakeups, of the kernel's own calls: after every run from boot, whoever is
      asleep has no signal to take, and whoever is asleep in pipe_read or pipe_write
      sleeps on that pipe, whose ring buffer still gives it a reason to. */
  method Run(idle: nat, init: nat, es: seq<Event>) returns (k: Kernel, ghost h: seq<Moment>)
    requires idle != NULL && init != NULL && idle != init && PidsTaken(es) + 2 <= ProcTree.PID_LIMIT
    ensures fresh(k) && k.Valid() && History(h, es, idle) && h[|es|] == k.Now()
    ensures h[0] == Moment(Wakeups.Boot(idle, init), init)
    ensures forall p :: p in k.table.sc.proc && k.table.sc.proc[p].status == Blocked ==> Dutiful(k.State(), p)
  {
    hide ProcTree.ProcessTable.Valid, Wakeups.Inv, Kernel.Contents, Kernel.Valid, Kernel.Parts, Dutiful;
    var table := ProcTree.Boot(idle, init);
    k := new Kernel(table);
    h := RunOn(k, es);
    forall p | p in k.table.sc.proc && k.table.sc.proc[p].status == Blocked ensures Dutiful(k.State(), p) {
      ValidInv(k);
      AllDutiful(k.State(), p);
    }
  }

  /** The sleeper `p` has no signal it could take, and if it is in a pipe call, it
      sleeps on that pipe and the condition of its loop is true. */
  ghost predicate Dutiful(k: Wakeups.Kernel, p: nat) {
    && p in k.proc && k.proc[p].pending <= k.proc[p].blocked
    && (p in k.calls ==>
          && k.calls[p].pipe in k.pipes && k.proc[p].chan == k.calls[p].pipe
          && Wakeups.Stuck(k.pipes[k.calls[p].pipe], k.calls[p]))
  }

  lemma ValidInv(k: Kernel)
    requires k.Valid()
    ensures Wakeups.Inv(k.State())
  {
  }

  lemma AllDutiful(k: Wakeups.Kernel, p: nat)
    requires Wakeups.Inv(k) && p in k.proc && k.proc[p].status == Blocked
    ensures Dutiful(k, p)
  {
    assert Wakeups.CallOk(k, p) && Wakeups.Justified(k, p);
  }

  ghost predicate HasEnd(s: Pipe.State, reader: bool) { if reader then s.readers > 0 else s.writers > 0 }

  ghost function OneLess(s: Pipe.State, reader: bool): Pipe.State
    requires HasEnd(s, reader)
  {
    if reader then s.(readers := s.readers - 1) else s.(writers := s.writers - 1)
  }

  /** One end of the pipe `a` is closed, and with the last one the pipe is freed. */
  ghost predicate Dropped(m: map<nat, Pipe.State>, n: map<nat, Pipe.State>, a: nat, reader: bool, gone: bool) {
    && a in m && HasEnd(m[a], reader) && (gone <==> m[a].readers + m[a].writers == 1)
    && n == if gone then m - {a} else m[a := OneLess(m[a], reader)]
  }

  lemma TableFacts(table: ProcTree.ProcessTable)
    requires table.Valid()
    ensures Listed(table.sc.proc, table.sc.all) && ProcTree.Attentive(table.sc.proc)
  {
  }

  lemma CloseLike(k: Wakeups.Kernel, z: Wakeups.Kernel, a: nat, reader: bool, gone: bool, idle: nat)
    requires Wakeups.Inv(k) && Callers(k, idle) && a in k.pipes && Dropped(k.pipes, z.pipes, a, reader, gone)
    requires k.pipes[a].readers + k.pipes[a].writers == 1 ==> Wakeups.Unused(k, a)
    requires SameBare(WakeAll(k.proc, k.all, a), z.proc) && z.all == k.all && z.calls == k.calls
    ensures Like(Wakeups.Step(k, Wakeups.Close(a, reader)), z) && Wakeups.Inv(z) && Callers(z, idle)
  {
    hide Wakeups.Inv, SameBare, WakeAll, Callers, Wakeups.Unused;
    WakeCallers(k, z, a, idle);
    var y := Wakeups.Step(k, Wakeups.Close(a, reader));
    Wakeups.StepInv(k, Wakeups.Close(a, reader));
    assert Like(y, z);
    hide Like;
    LikeInv(y, z);
  }

  lemma OnwardInv(k: Wakeups.Kernel, z: Wakeups.Kernel, c: nat, idle: nat)
    requires Wakeups.Inv(k) && Callers(k, idle) && c !in k.calls && ProcTree.Onward(k.proc, z.proc, c)
    requires Listed(z.proc, z.all) && ProcTree.Attentive(z.proc) && z.calls == k.calls && z.pipes == k.pipes
    ensures Wakeups.Inv(z) && Callers(z, idle)
  {
    forall p ensures Wakeups.CallOk(z, p) && Wakeups.Justified(z, p) {
      assert Wakeups.CallOk(k, p) && Wakeups.Justified(k, p);
    }
  }

  lemma SleepsFree(m: Procs, c: nat)
    requires c in m
    ensures HasSignal(m, c) <==> !(m[c].pending <= m[c].blocked)
  {
  }

  lemma WriteToIs(k: Wakeups.Kernel, z: Wakeups.Kernel, mid: Procs, c: nat, next: nat, a: nat, w: Pipe.Write,
                  w': Pipe.Write, r: Pipe.WriteOutcome, signal: bool)
    requires c in k.proc && a in k.pipes && a in z.pipes && z.pipes == k.pipes[a := z.pipes[a]] && z.all == k.all
    requires w.done <= |w.src| && |k.pipes[a].data| <= Pipe.PIPE_SIZE && signal == HasSignal(k.proc, c)
    requires (z.pipes[a], w', r) == Pipe.Writing(k.pipes[a], w, signal)
    requires Finished(k.proc, mid, z.proc, k.all, c, next, a, w'.done > w.done, r.WriteSleeps?)
    requires z.calls == if r.WriteSleeps? then k.calls[c := Wakeups.InWrite(a, w')] else k.calls - {c}
    ensures WriteTo(k, z, mid, c, next, a, w, w', r)
  {
  }

  lemma NotIdle(k: Wakeups.Kernel, c: nat, idle: nat)
    requires Callers(k, idle) && c in k.calls
    ensures c != idle
  {
  }

  /** What a stretch of pipe_read by `c` does to buffers, processes and calls. */
  ghost predicate ReadTo(k: Wakeups.Kernel, z: Wakeups.Kernel, mid: Procs, c: nat, next: nat, a: nat, size: nat,
                         call: Wakeups.PipeCall, r: Pipe.ReadOutcome) {
    && c in k.proc && a in k.pipes && a in z.pipes && z.pipes == k.pipes[a := z.pipes[a]] && z.all == k.all
    && (z.pipes[a], r) == Pipe.Reading(k.pipes[a], size, HasSignal(k.proc, c))
    && Finished(k.proc, mid, z.proc, k.all, c, next, a, r.Got?, r.ReadSleeps?)
    && z.calls == if r.ReadSleeps? then k.calls[c := call] else k.calls - {c}
  }

  ghost predicate WriteTo(k: Wakeups.Kernel, z: Wakeups.Kernel, mid: Procs, c: nat, next: nat, a: nat, w: Pipe.Write,
                          w': Pipe.Write, r: Pipe.WriteOutcome) {
    && c in k.proc && a in k.pipes && a in z.pipes && z.pipes == k.pipes[a := z.pipes[a]] && z.all == k.all
    && w.done <= |w.src| && |k.pipes[a].data| <= Pipe.PIPE_SIZE
    && (z.pipes[a], w', r) == Pipe.Writing(k.pipes[a], w, HasSignal(k.proc, c))
    && Finished(k.proc, mid, z.proc, k.all, c, next, a, w'.done > w.done, r.WriteSleeps?)
    && z.calls == if r.WriteSleeps? then k.calls[c := Wakeups.InWrite(a, w')] else k.calls - {c}
  }

  predicate HasSignal(m: Procs, c: nat)
    requires c in m
  {
    !(m[c].pending <= m[c].blocked)
  }

  lemma ReadStep(k: Wakeups.Kernel, z: Wakeups.Kernel, mid: Procs, c: nat, next: nat, r: Pipe.ReadOutcome)
    requires Wakeups.Inv(k) && c in k.calls && k.calls[c].InRead? && c in k.proc && k.proc[c].status == Running
    requires ReadTo(k, z, mid, c, next, k.calls[c].pipe, k.calls[c].size, k.calls[c], r)
    ensures Like(Wakeups.Step(k, Wakeups.Proceed(c, next)), z)
  {
    hide Wakeups.Inv, SameBare, AfterSleep, WakeAll;
    Wakeups.PipeSize(k, k.calls[c].pipe);
    BareSelf(k.proc);
  }

  lemma WriteStep(k: Wakeups.Kernel, z: Wakeups.Kernel, mid: Procs, c: nat, next: nat, w: Pipe.Write,
                  r: Pipe.WriteOutcome)
    requires Wakeups.Inv(k) && c in k.calls && k.calls[c].InWrite? && c in k.proc && k.proc[c].status == Running
    requires WriteTo(k, z, mid, c, next, k.calls[c].pipe, k.calls[c].write, w, r)
    ensures Like(Wakeups.Step(k, Wakeups.Proceed(c, next)), z)
  {
    hide Wakeups.Inv, SameBare, AfterSleep, WakeAll, Pipe.Writing, Wakeups.Step;
    var a, v := k.calls[c].pipe, k.calls[c].write;
    Wakeups.WriteIs(k, c, next, z.pipes[a], w, r);
    BareSelf(k.proc);
    if r.WriteSleeps? && w.done > v.done { BareSleep(WakeAll(k.proc, k.all, a), mid, c, a, next, z.proc); }
  }

  /** The stretch is the step of the model. */
  lemma ReadLike(k: Wakeups.Kernel, z: Wakeups.Kernel, mid: Procs, c: nat, next: nat, r: Pipe.ReadOutcome, idle: nat)
    requires Wakeups.Inv(k) && Callers(k, idle) && c in k.calls && k.calls[c].InRead?
    requires ReadTo(k, z, mid, c, next, k.calls[c].pipe, k.calls[c].size, k.calls[c], r)
    requires c in k.proc && k.proc[c].status == Running
    ensures Like(Wakeups.Step(k, Wakeups.Proceed(c, next)), z) && Wakeups.Inv(z) && Callers(z, idle)
  {
    hide Wakeups.Inv, Finished, Callers, Like, Wakeups.Step, Pipe.Reading;
    FinishCallers(k, z, mid, c, next, k.calls[c].pipe, r.Got?, r.ReadSleeps?, idle);
    ReadStep(k, z, mid, c, next, r);
    Wakeups.StepInv(k, Wakeups.Proceed(c, next));
    LikeInv(Wakeups.Step(k, Wakeups.Proceed(c, next)), z);
  }

  lemma WriteLike(k: Wakeups.Kernel, z: Wakeups.Kernel, mid: Procs, c: nat, next: nat, w: Pipe.Write,
                  r: Pipe.WriteOutcome, idle: nat)
    requires Wakeups.Inv(k) && Callers(k, idle) && c in k.calls && k.calls[c].InWrite?
    requires WriteTo(k, z, mid, c, next, k.calls[c].pipe, k.calls[c].write, w, r)
    requires c in k.proc && k.proc[c].status == Running
    ensures Like(Wakeups.Step(k, Wakeups.Proceed(c, next)), z) && Wakeups.Inv(z) && Callers(z, idle)
  {
    hide Wakeups.Inv, Finished, Callers, Like, Wakeups.Step, Pipe.Writing;
    FinishCallers(k, z, mid, c, next, k.calls[c].pipe, w.done > k.calls[c].write.done, r.WriteSleeps?, idle);
    WriteStep(k, z, mid, c, next, w, r);
    Wakeups.StepInv(k, Wakeups.Proceed(c, next));
    LikeInv(Wakeups.Step(k, Wakeups.Proceed(c, next)), z);
  }

  lemma BareSleep(m: Procs, n: Procs, c: nat, a: nat, next: nat, z: Procs)
    requires SameBare(m, n) && Wakeups.CanSleep(n, c, next) && SameBare(AfterSleep(n, c, a, next), z)
    ensures Wakeups.CanSleep(m, c, next) && SameBare(AfterSleep(m, c, a, next), z)
  {
    ProcTree.BareFields(m, n);
    var x, y := AfterSleep(m, c, a, next), AfterSleep(n, c, a, next);
    forall p | p in x ensures Bare(z[p]) == Bare(x[p]) {
      assert Bare(m[p]) == Bare(n[p]) && Bare(z[p]) == Bare(y[p]);
    }
  }

  lemma FinishCallers(k: Wakeups.Kernel, z: Wakeups.Kernel, mid: Procs, c: nat, next: nat, a: nat, wakes: bool,
                      sleeps: bool, idle: nat)
    requires Callers(k, idle) && c in k.calls && Finished(k.proc, mid, z.proc, k.all, c, next, a, wakes, sleeps)
    requires z.calls.Keys <= k.calls.Keys
    ensures Callers(z, idle)
  {
    hide Callers, SameBare, AfterSleep, WakeAll;
    var y := k.(proc := mid);
    if wakes { WakeCallers(k, y, a, idle); } else { SameCallers(k, y, idle); }
    if sleeps { SleepCallers(y, z, c, a, next, idle); } else { SameCallers(y, z, idle); }
  }

  /** The end of a stretch: wakeup of the pipe if it changed, and sleep_on or return.
      `mid` are the processes after the wakeup. */
  method Turn(table: ProcTree.ProcessTable, a: nat, wakes: bool, sleeps: bool) returns (ghost mid: Procs)
    requires table.Valid() && table.sc.current != table.idle
    requires sleeps ==> table.sc.proc[table.sc.current].pending <= table.sc.proc[table.sc.current].blocked
    modifies table`waits, table.sc
    ensures table.Valid() && table.sc.all == old(table.sc.all)
    ensures var c := old(table.sc.current);
      Finished(old(table.sc.proc), mid, table.sc.proc, table.sc.all, c, table.sc.current, a, wakes, sleeps)
  {
    hide ProcTree.ProcessTable.Valid, SameBare, AfterSleep, WakeAll;
    CurrentRuns(table);
    var c := table.sc.current;
    ghost var m := table.sc.proc;
    if wakes {
      table.WakeChannel(a);
      StillRuns(m, table.sc.proc, table.sc.all, a, c);
    }
    mid := table.sc.proc;
    if sleeps { table.SleepOn(a, ProcTree.Elsewhere); }
  }

  lemma CurrentRuns(table: ProcTree.ProcessTable)
    requires table.Valid()
    ensures table.sc.current in table.sc.proc && table.sc.proc[table.sc.current].status == Running
  {
  }

  /** First those asleep on `a` wake, if `wakes`; then `c` sleeps on it, if `sleeps`. */
  ghost predicate Finished(m: Procs, mid: Procs, n: Procs, all: seq<nat>, c: nat, next: nat, a: nat, wakes: bool,
                           sleeps: bool) {
    && (if wakes then SameBare(WakeAll(m, all, a), mid) else mid == m)
    && (if sleeps then Wakeups.CanSleep(mid, c, next) && SameBare(AfterSleep(mid, c, a, next), n) else n == mid)
  }

  lemma StillRuns(m: Procs, n: Procs, all: seq<nat>, a: nat, c: nat)
    requires c in m && m[c].status == Running && SameBare(WakeAll(m, all, a), n)
    ensures c in n && n[c].status == Running && n[c].pending == m[c].pending && n[c].blocked == m[c].blocked
  {
    ProcTree.BareFields(WakeAll(m, all, a), n);
  }

  lemma SleepCallers(k: Wakeups.Kernel, z: Wakeups.Kernel, c: nat, a: nat, next: nat, idle: nat)
    requires Callers(k, idle) && Wakeups.CanSleep(k.proc, c, next) && SameBare(AfterSleep(k.proc, c, a, next), z.proc)
    requires z.calls.Keys <= k.calls.Keys
    ensures Callers(z, idle)
  {
    ProcTree.BareFields(AfterSleep(k.proc, c, a, next), z.proc);
  }

  lemma WakeCallers(k: Wakeups.Kernel, z: Wakeups.Kernel, a: nat, idle: nat)
    requires Callers(k, idle) && SameBare(WakeAll(k.proc, k.all, a), z.proc) && z.calls.Keys <= k.calls.Keys
    ensures Callers(z, idle)
  {
    ProcTree.BareFields(WakeAll(k.proc, k.all, a), z.proc);
  }

  lemma SameCallers(k: Wakeups.Kernel, z: Wakeups.Kernel, idle: nat)
    requires Callers(k, idle) && z.proc == k.proc && z.calls.Keys <= k.calls.Keys
    ensures Callers(z, idle)
  {
  }

  lemma LikeInv(k: Wakeups.Kernel, z: Wakeups.Kernel)
    requires Wakeups.Inv(k) && Like(k, z)
    ensures Wakeups.Inv(z)
  {
    ProcTree.BareFields(k.proc, z.proc);
    forall p ensures Wakeups.CallOk(z, p) && Wakeups.Justified(z, p) {
      assert Wakeups.CallOk(k, p) && Wakeups.Justified(k, p);
    }
  }

  lemma NoneInv(k: Wakeups.Kernel)
    requires k.pipes == map[] && k.calls == map[] && Listed(k.proc, k.all) && ProcTree.Attentive(k.proc)
    ensures Wakeups.Inv(k)
  {
    forall p ensures Wakeups.CallOk(k, p) && Wakeups.Justified(k, p) {}
  }
}
