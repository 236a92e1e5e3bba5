/** Sleeping and waking on sockets. Whoever waits for a socket sleeps on its address, or
    a sender on that of its peer; whoever changes a socket wakes those who look at it,
    with two exceptions that are stated exactly. */
module SocketSleep {
  import opened Machine
  import opened ReadyQueues
  import opened Rings
  import opened Sched
  import opened Sockets
  import ProcTree
  import Wakeups

  /** A socket call in the middle of its loop around sleep_on. A datagram for `t` goes to
      the other end of a pair or to what a name leads to. */
  datatype Call =
    | InRecv(s: nat)
    | InSend(s: nat)
    | InAccept(l: nat)
    | InConnect(l: nat)
    | InRecvMsg(s: nat)
    | InSendMsg(s: nat, t: nat, size: nat, paired: bool)

  datatype Kernel = Kernel(proc: Procs, all: seq<nat>, socks: Socks, own: Owners, calls: map<nat, Call>)

  /** What the call sleeps on. */
  function Chan(m: Socks, c: Call): nat {
    match c
    case InRecv(s) => s
    case InSend(s) => if s in m then m[s].peer else NULL
    case InAccept(l) => l
    case InConnect(l) => l
    case InRecvMsg(s) => s
    case InSendMsg(_, t, _, _) => t
  }

  /** The condition of its loop. */
  predicate Stuck(m: Socks, c: Call) {
    match c
    case InRecv(s) =>
      s in m && m[s].kind == Stream && m[s].data == [] && m[s].state == Connected && !m[s].eof && !m[s].rdShut
    case InSend(s) =>
      && s in m && m[s].kind == Stream && m[s].peer in m && m[s].state == Connected && !m[s].wrShut
      && !m[m[s].peer].rdShut && |m[m[s].peer].data| == SOCK_BUF
    case InAccept(l) => l in m && m[l].backlog == []
    case InConnect(l) => l in m && m[l].kind == Stream && m[l].state == Listening && |m[l].backlog| >= m[l].maxback
    case InRecvMsg(s) => s in m && m[s].msgs == [] && !m[s].rdShut && (m[s].named || !m[s].eof)
    case InSendMsg(s, t, size, paired) =>
      t in m && Queued(m[t].msgs) + size > SOCK_BUF && (paired ==> s in m && m[s].peer == t)
  }

  // ---- The invariant ----

  ghost predicate LinkOk(m: Socks, s: nat)
    requires s in m
  {
    var x := m[s];
    && (x.peer != NULL ==> x.peer in m && x.peer != s && m[x.peer].peer == s)
    && (x.kind == Stream && x.state != Connected ==> x.peer == NULL) && |x.data| <= SOCK_BUF
  }

  ghost predicate Links(m: Socks) {
    NULL !in m && forall s {:trigger LinkOk(m, s)} :: s in m ==> LinkOk(m, s)
  }

  /** A listener takes at least one connection. */
  ghost predicate Takes(m: Socks) { forall l :: l in m && m[l].state == Listening ==> m[l].maxback >= 1 }

  ghost predicate Net(m: Socks, own: Owners) { NetOk(m, own) && Takes(m) }

  lemma NetLinks(m: Socks, own: Owners)
    requires NetOk(m, own)
    ensures Links(m)
  {
    forall s | s in m ensures LinkOk(m, s) {
      assert SockOk(m, own, s);
    }
  }

  /** A process asleep in a socket call sleeps where it is looked for, with a reason. */
  ghost predicate Justified(k: Kernel, p: nat) {
    p in k.calls && p in k.proc && k.proc[p].status == Blocked ==>
      k.proc[p].chan == Chan(k.socks, k.calls[p]) && Stuck(k.socks, k.calls[p])
  }

  ghost predicate Base(k: Kernel) {
    Listed(k.proc, k.all) && ProcTree.Attentive(k.proc) && Net(k.socks, k.own)
  }

  ghost predicate Sleepers(k: Kernel) { forall p {:trigger Justified(k, p)} :: Justified(k, p) }

  // ---- What one stretch of a call does ----

  datatype Pause = Goes | Waits(call: Call)

  /** The sockets afterwards, the addresses woken, and whether the caller sleeps. */
  datatype Effect = Effect(socks: Socks, own: Owners, woken: set<nat>, pause: Pause)

  function Still(m: Socks, own: Owners): Effect { Effect(m, own, {}, Goes) }

  function Wait(m: Socks, own: Owners, c: Call, wait: bool): Effect {
    Effect(m, own, {}, if wait then Waits(c) else Goes)
  }

  function Creating(m: Socks, own: Owners, s: nat, kind: Kind): Effect {
    if s == NULL || s in m then Still(m, own) else Effect(m[s := Fresh(kind)], own[s := Fd], {}, Goes)
  }

  function Pairing(m: Socks, own: Owners, a: nat, b: nat, kind: Kind): Effect {
    if a == NULL || b == NULL || a == b || a in m || b in m then Still(m, own)
    else Effect(Paired(m, a, b, kind), own[a := Fd][b := Fd], {}, Goes)
  }

  function Listened(m: Socks, s: nat, backlog: int): Socks
    requires s in m
  {
    m[s := m[s].(state := Listening, maxback := Clamp(backlog))]
  }

  function Opening(m: Socks, own: Owners, s: nat, bound: bool, backlog: int): Effect {
    if s in m && m[s].kind == Stream && bound && m[s].state != Connected
    then Effect(Listened(m, s, backlog), own, {}, Goes) else Still(m, own)
  }

  function Connecting(m: Socks, own: Owners, s: nat, l: nat, srv: nat, memory: bool, wait: bool): Effect {
    if s !in m || m[s].kind != Stream || srv == NULL || srv in m || l !in m || m[l].kind != Stream ||
       m[l].state != Listening || !FreeToJoin(m, s, l)
    then Still(m, own)
    else if |m[l].backlog| >= m[l].maxback then Wait(m, own, InConnect(l), wait)
    else if memory then Effect(Joined(m, s, l, srv), own[srv := Queue(l)], {l}, Goes)
    else Still(m, own)
  }

  /** Everyone who is told of a close: the closed and their peers. */
  function Told(m: Socks, dead: set<nat>): set<nat> {
    dead + set d | d in dead && d in m && m[d].peer != NULL :: m[d].peer
  }

  function Accepting(m: Socks, own: Owners, l: nat, wait: bool, installed: bool): Effect {
    if l !in m || m[l].state != Listening then Still(m, own)
    else if m[l].backlog == [] then Wait(m, own, InAccept(l), wait)
    else
      var c := m[l].backlog[0];
      var n := m[l := m[l].(backlog := m[l].backlog[1..])];
      if installed then Effect(n, own[c := Fd], {l}, Goes)
      else Effect(Closed(n, {c}), own - {c}, {l} + Told(n, {c}), Goes)
  }

  function Closing(m: Socks, own: Owners, s: nat): Effect {
    if s in m && s in own && own[s] == Fd then
      var dead := {s} + Elements(m[s].backlog);
      Effect(Closed(m, dead), own - dead, Told(m, dead), Goes)
    else Still(m, own)
  }

  function Taking(m: Socks, own: Owners, s: nat, size: nat, nonblock: bool, signal: bool, peek: bool): Effect {
    if s !in m || m[s].kind != Stream then Still(m, own)
    else
      var (x, r) := Receiving(m[s], size, nonblock, signal, peek);
      if r.Got? && !peek then Effect(m[s := x], own, {s}, Goes)
      else Wait(m, own, InRecv(s), r.Sleeps?)
  }

  function Putting(m: Socks, own: Owners, s: nat, src: seq<Byte>, done: nat, nonblock: bool, signal: bool): Effect
    requires Links(m)
  {
    if s !in m || m[s].kind != Stream || done > |src| || m[s].peer !in m then Still(m, own)
    else
      var p := m[s].peer;
      assert LinkOk(m, p);
      var (y, now, r) := Sending(m[s], m[p], src, done, nonblock, signal);
      Effect(m[p := y], own, if now > done then {p} else {}, if r.SendSleeps? then Waits(InSend(s)) else Goes)
  }

  function ShutTold(m: Socks, s: nat, how: int): set<nat>
    requires s in m
  {
    (if how != 1 then {s} else {}) + (if how != 0 && m[s].peer != NULL then {m[s].peer} else {})
  }

  function Shutting(m: Socks, own: Owners, s: nat, how: int): Effect {
    if s !in m || m[s].state != Connected || how < 0 || how > 2 then Still(m, own)
    else Effect(ShutDown(m, s, how != 1, how != 0), own, ShutTold(m, s, how), Goes)
  }

  function TakingMsg(m: Socks, own: Owners, s: nat, wait: bool, peek: bool): Effect {
    if s !in m || m[s].kind != Dgram then Still(m, own)
    else if m[s].msgs == [] then
      Wait(m, own, InRecvMsg(s), !m[s].rdShut && (m[s].named || !m[s].eof) && wait)
    else if peek then Still(m, own)
    else Effect(m[s := m[s].(msgs := m[s].msgs[1..])], own, {s}, Goes)
  }

  function PuttingMsg(
    m: Socks, own: Owners, s: nat, msg: seq<Byte>, given: bool, found: nat, memory: bool, wait: bool): Effect
  {
    if s !in m || m[s].kind != Dgram || |msg| > SOCK_BUF then Still(m, own)
    else match Target(m, s, given, found)
      case Nowhere(_) => Still(m, own)
      case To(t) =>
        if t !in m then Still(m, own)
        else if !Fits(m, t, msg) then Wait(m, own, InSendMsg(s, t, |msg|, !given && m[s].peer == t), wait)
        else if memory then Effect(m[t := m[t].(msgs := m[t].msgs + [msg])], own, {t}, Goes)
        else Still(m, own)
  }

  function Naming(m: Socks, own: Owners, s: nat, ok: bool, named: bool): Effect {
    if s in m && m[s].kind == Dgram && ok then Effect(Named(m, s, named), own, {}, Goes) else Still(m, own)
  }

  /** One stretch of each call, with the wakeups it makes. `signal` says whether the
      caller has a signal to take. */
  function Do(m: Socks, own: Owners, op: Sockets.Event, signal: bool): Effect
    requires Links(m)
  {
    match op
    case Creates(s, kind) => Creating(m, own, s, kind)
    case Pairs(a, b, kind) => Pairing(m, own, a, b, kind)
    case Listens(s, bound, backlog) => Opening(m, own, s, bound, backlog)
    case Connects(s, l, srv, memory, nonblock, _) => Connecting(m, own, s, l, srv, memory, !nonblock && !signal)
    case Accepts(l, nonblock, _, installed) => Accepting(m, own, l, !nonblock && !signal, installed)
    case Recvs(s, size, nonblock, _, peek) => Taking(m, own, s, size, nonblock, signal, peek)
    case Sends(s, src, done, nonblock, _) => Putting(m, own, s, src, done, nonblock, signal)
    case Shuts(s, how) => Shutting(m, own, s, how)
    case Closes(s) => Closing(m, own, s)
    case SendsMsg(s, msg, given, found, memory, nonblock, _) =>
      PuttingMsg(m, own, s, msg, given, found, memory, !nonblock && !signal)
    case RecvsMsg(s, _, nonblock, _, peek) => TakingMsg(m, own, s, !nonblock && !signal, peek)
    case Names(s, t) => Naming(m, own, s, t in m && m[t].kind == Dgram, true)
    case Dissolves(s) => Naming(m, own, s, true, false)
  }

  // ---- The socket table does that ----

  /** The outcome of a call is what `z` says. */
  predicate Did(z: Effect, socks: Socks, own: Owners, sleeps: bool) {
    socks == z.socks && own == z.own && (sleeps <==> z.pause.Waits?)
  }

  /** Whether the call finds a signal to take. */
  function Signalled(op: Sockets.Event): bool {
    match op
    case Connects(_, _, _, _, _, signal) => signal
    case Accepts(_, _, signal, _) => signal
    case Recvs(_, _, _, signal, _) => signal
    case Sends(_, _, _, _, signal) => signal
    case SendsMsg(_, _, _, _, _, _, signal) => signal
    case RecvsMsg(_, _, _, signal, _) => signal
    case _ => false
  }

  /** The calls of the socket table do what is said here of them. */
  method Perform(t: SocketTable, op: Sockets.Event) returns (sleeps: bool)
    requires t.Valid()
    modifies t
    ensures t.Valid() && Links(old(t.socks))
    ensures Did(Do(old(t.socks), old(t.own), op, Signalled(op)), t.socks, t.own, sleeps)
  {
    hide SocketTable.Valid, Links, Closing, Naming, Shutting, Connecting, Accepting, Taking, Putting, PuttingMsg;
    hide TakingMsg, Creating, Pairing, Opening, Did;
    sleeps := false;
    match op
    case Closes(s) => PerformClose(t, s);
    case Shuts(s, how) => PerformShut(t, s, how);
    case Names(s, d) => PerformName(t, s, d);
    case Dissolves(s) => PerformDissolve(t, s);
    case Connects(s, l, srv, memory, nonblock, signal) =>
      sleeps := PerformConnect(t, s, l, srv, memory, nonblock, signal);
    case Accepts(l, nonblock, signal, installed) => sleeps := PerformAccept(t, l, nonblock, signal, installed);
    case Recvs(s, size, nonblock, signal, peek) => sleeps := PerformRecv(t, s, size, nonblock, signal, peek);
    case Sends(s, src, done, nonblock, signal) => sleeps := PerformSend(t, s, src, done, nonblock, signal);
    case SendsMsg(s, msg, given, found, memory, nonblock, signal) =>
      sleeps := PerformSendMsg(t, s, msg, given, found, memory, nonblock, signal);
    case RecvsMsg(s, size, nonblock, signal, peek) => sleeps := PerformRecvMsg(t, s, size, nonblock, signal, peek);
    case _ => PerformNew(t, op);
  }

  method PerformClose(t: SocketTable, s: nat)
    requires t.Valid()
    modifies t
    ensures t.Valid() && Links(old(t.socks)) && Did(Closing(old(t.socks), old(t.own), s), t.socks, t.own, false)
  {
    NetLinks(t.socks, t.own);
    hide NetOk, LogOk, Closed, Links, Elements;
    if s in t.socks && s in t.own && t.own[s] == Fd { t.Free(s); }
  }

  method PerformShut(t: SocketTable, s: nat, how: int)
    requires t.Valid()
    modifies t
    ensures t.Valid() && Links(old(t.socks)) && Did(Shutting(old(t.socks), old(t.own), s, how), t.socks, t.own, false)
  {
    NetLinks(t.socks, t.own);
    hide NetOk, LogOk, ShutDown, Links;
    if s in t.socks { var _ := t.Shutdown(s, how); }
  }

  method PerformName(t: SocketTable, s: nat, d: nat)
    requires t.Valid()
    modifies t
    ensures t.Valid() && Links(old(t.socks))
    ensures var m := old(t.socks);
      Did(Naming(m, old(t.own), s, d in m && m[d].kind == Dgram, true), t.socks, t.own, false)
  {
    NetLinks(t.socks, t.own);
    NullOut(t.socks, t.own);
    hide NetOk, LogOk, Named, Links;
    if s in t.socks && t.socks[s].kind == Dgram && d in t.socks { var _ := t.ConnectName(s, d); }
  }

  method PerformDissolve(t: SocketTable, s: nat)
    requires t.Valid()
    modifies t
    ensures t.Valid() && Links(old(t.socks))
    ensures Did(Naming(old(t.socks), old(t.own), s, true, false), t.socks, t.own, false)
  {
    NetLinks(t.socks, t.own);
    hide NetOk, LogOk, Named, Links;
    if s in t.socks && t.socks[s].kind == Dgram { t.Dissolve(s); }
  }

  method PerformNew(t: SocketTable, op: Sockets.Event)
    requires t.Valid() && (op.Creates? || op.Pairs? || op.Listens?)
    modifies t
    ensures t.Valid() && Links(old(t.socks)) && Did(Do(old(t.socks), old(t.own), op, false), t.socks, t.own, false)
  {
    NetLinks(t.socks, t.own);
    hide NetOk, LogOk, Paired, Links;
    match op
    case Creates(s, kind) => if s != NULL && s !in t.socks { t.Create(s, kind); }
    case Pairs(a, b, kind) =>
      if a != NULL && b != NULL && a != b && a !in t.socks && b !in t.socks { t.Pair(a, b, kind); }
    case Listens(s, bound, backlog) => if s in t.socks { var _ := t.Listen(s, bound, backlog); }
  }

  method PerformConnect(
    t: SocketTable, s: nat, l: nat, srv: nat, memory: bool, nonblock: bool, signal: bool)
    returns (sleeps: bool)
    requires t.Valid()
    modifies t
    ensures t.Valid() && Links(old(t.socks))
    ensures Did(Connecting(old(t.socks), old(t.own), s, l, srv, memory, !nonblock && !signal), t.socks, t.own, sleeps)
  {
    NetLinks(t.socks, t.own);
    hide NetOk, LogOk, Queued, FlowOk, Links, Joined;
    sleeps := false;
    if s in t.socks && t.socks[s].kind == Stream && srv != NULL && srv !in t.socks && l in t.socks
      && FreeToJoin(t.socks, s, l) && t.socks[l].kind == Stream {
      var r := t.ConnectOn(s, l, srv, memory, nonblock, signal);
      sleeps := r == ConnectSleeps;
    }
  }

  method PerformAccept(t: SocketTable, l: nat, nonblock: bool, signal: bool, installed: bool) returns (sleeps: bool)
    requires t.Valid()
    modifies t
    ensures t.Valid() && Links(old(t.socks))
    ensures Did(Accepting(old(t.socks), old(t.own), l, !nonblock && !signal, installed), t.socks, t.own, sleeps)
  {
    NetLinks(t.socks, t.own);
    hide NetOk, LogOk, Queued, FlowOk, Links, Closed;
    sleeps := false;
    if l in t.socks {
      var r := t.Accept(l, nonblock, signal, installed);
      sleeps := r == AcceptSleeps;
    }
  }

  method PerformRecv(t: SocketTable, s: nat, size: nat, nonblock: bool, signal: bool, peek: bool) returns (sleeps: bool)
    requires t.Valid()
    modifies t
    ensures t.Valid() && Links(old(t.socks))
    ensures Did(Taking(old(t.socks), old(t.own), s, size, nonblock, signal, peek), t.socks, t.own, sleeps)
  {
    hide NetOk, LogOk, Queued, FlowOk, Links, RecvSays;
    NetLinks(t.socks, t.own);
    sleeps := false;
    if s in t.socks && t.socks[s].kind == Stream {
      var r := t.Recv(s, size, nonblock, signal, peek);
      sleeps := r.Sleeps?;
    }
  }

  method PerformSend(
    t: SocketTable, s: nat, src: seq<Byte>, done: nat, nonblock: bool, signal: bool)
    returns (sleeps: bool)
    requires t.Valid()
    modifies t
    ensures t.Valid() && Links(old(t.socks))
    ensures Did(Putting(old(t.socks), old(t.own), s, src, done, nonblock, signal), t.socks, t.own, sleeps)
  {
    NetLinks(t.socks, t.own);
    hide NetOk, LogOk, Queued, FlowOk, Sending;
    sleeps := false;
    if s in t.socks && t.socks[s].kind == Stream && done <= |src| && t.socks[s].peer in t.socks {
      var _, r := t.Send(s, src, done, nonblock, signal);
      sleeps := r == SendSleeps;
    }
  }

  method PerformSendMsg(
    t: SocketTable, s: nat, msg: seq<Byte>, given: bool, found: nat, memory: bool, nonblock: bool, signal: bool)
    returns (sleeps: bool)
    requires t.Valid()
    modifies t
    ensures t.Valid() && Links(old(t.socks))
    ensures Did(
      PuttingMsg(old(t.socks), old(t.own), s, msg, given, found, memory, !nonblock && !signal), t.socks, t.own, sleeps)
  {
    NetLinks(t.socks, t.own);
    hide NetOk, LogOk, Links, PuttingMsg, Target, MsgHindrance, Fits;
    sleeps := false;
    if s in t.socks && t.socks[s].kind == Dgram {
      var to := if found in t.socks then found else NULL;
      SameTarget(t.socks, t.own, s, given, found);
      ghost var m := t.socks;
      var r := t.SendMsg(s, msg, given, to, memory, nonblock, signal);
      SendMsgDid(m, t.socks, t.own, s, msg, given, found, memory, nonblock, signal, r);
      sleeps := r == MsgSleeps;
    } else {
      NoMsgDid(t.socks, t.own, s, msg, given, found, memory, !nonblock && !signal);
    }
  }

  lemma SameTarget(m: Socks, own: Owners, s: nat, given: bool, found: nat)
    requires NetOk(m, own) && s in m && m[s].kind == Dgram
    ensures var d := Target(m, s, given, found);
      d == Target(m, s, given, if found in m then found else NULL) && (d.To? ==> d.t in m)
    ensures forall msg, nonblock, signal ::
      MsgHindrance(m, s, msg, given, if found in m then found else NULL, nonblock, signal)
      == MsgHindrance(m, s, msg, given, found, nonblock, signal)
  {
    NullOut(m, own);
    TargetThere(m, own, s, given, found);
    hide NetOk;
  }

  lemma NoMsgDid(m: Socks, own: Owners, s: nat, msg: seq<Byte>, given: bool, found: nat, memory: bool, wait: bool)
    requires s !in m || m[s].kind != Dgram
    ensures Did(PuttingMsg(m, own, s, msg, given, found, memory, wait), m, own, false)
  {
  }

  /** What SendMsg promises, said as an effect. */
  lemma SendMsgDid(m: Socks, n: Socks, own: Owners, s: nat, msg: seq<Byte>, given: bool, found: nat, memory: bool,
                   nonblock: bool, signal: bool, r: MsgOutcome)
    requires s in m && m[s].kind == Dgram
    requires var d := Target(m, s, given, found); d.To? ==> d.t in m
    requires var d := Target(m, s, given, found);
      && (r == MsgSent <==> |msg| <= SOCK_BUF && d.To? && memory && Fits(m, d.t, msg))
      && (r == MsgSent ==> n == m[d.t := m[d.t].(msgs := m[d.t].msgs + [msg])])
    requires r != MsgSent ==> n == m && r == MsgHindrance(m, s, msg, given, found, nonblock, signal)
    ensures Did(PuttingMsg(m, own, s, msg, given, found, memory, !nonblock && !signal), n, own, r == MsgSleeps)
  {
    hide Fits;
  }

  method PerformRecvMsg(
    t: SocketTable, s: nat, size: nat, nonblock: bool, signal: bool, peek: bool)
    returns (sleeps: bool)
    requires t.Valid()
    modifies t
    ensures t.Valid() && Links(old(t.socks))
    ensures Did(TakingMsg(old(t.socks), old(t.own), s, !nonblock && !signal, peek), t.socks, t.own, sleeps)
  {
    NetLinks(t.socks, t.own);
    hide NetOk, LogOk, Queued, FlowOk, Links;
    sleeps := false;
    if s in t.socks && t.socks[s].kind == Dgram {
      var r := t.RecvMsg(s, size, nonblock, signal, peek);
      sleeps := r == TakeSleeps;
    }
  }

  // ---- Who is woken and who is left asleep ----

  /** A call that is stuck and not woken is stuck in the same way afterwards. */
  ghost predicate Spares(m: Socks, n: Socks, woken: set<nat>, c: Call) {
    Stuck(m, c) && Chan(m, c) !in woken ==> Stuck(n, c) && Chan(n, c) == Chan(m, c)
  }

  ghost predicate Kept(m: Socks, z: Effect, c: Call) { Spares(m, z.socks, z.woken, c) }

  lemma NewSpares(m: Socks, n: Socks, c: Call)
    requires forall s :: s in m ==> s in n && n[s] == m[s]
    ensures Spares(m, n, {}, c)
  {
  }

  lemma ListenSpares(m: Socks, s: nat, backlog: int, c: Call)
    requires s in m && m[s].state != Connected && m[s].kind == Stream
    ensures Spares(m, Listened(m, s, backlog), {}, c) <==>
      !(c == InConnect(s) && Stuck(m, c) && |m[s].backlog| < Clamp(backlog))
  {
  }

  lemma JoinSpares(m: Socks, s: nat, l: nat, srv: nat, c: Call)
    requires Links(m) && Takes(m) && s in m && l in m && srv !in m && m[s].kind == Stream && FreeToJoin(m, s, l)
    ensures Spares(m, Joined(m, s, l, srv), {l}, c)
  {
    assert LinkOk(m, s);
  }

  lemma ClosedSpares(m: Socks, dead: set<nat>, c: Call)
    requires Links(m) && dead <= m.Keys
    ensures Spares(m, Closed(m, dead), Told(m, dead), c)
  {
    var n := Closed(m, dead);
    forall r | r in m && r !in dead && m[r].peer in dead ensures r in Told(m, dead) {
      assert LinkOk(m, r);
      assert m[r].peer in dead && m[r].peer in m && m[m[r].peer].peer == r;
    }
    forall d | d in dead && d in m && m[d].peer != NULL ensures m[d].peer in Told(m, dead) {
    }
    hide Told, Queued;
  }

  lemma BacklogSpares(m: Socks, l: nat, q: seq<nat>, c: Call)
    requires l in m
    ensures Spares(m, m[l := m[l].(backlog := q)], {l}, c)
  {
  }

  lemma DataSpares(m: Socks, s: nat, data: seq<Byte>, c: Call)
    requires Links(m) && s in m
    ensures Spares(m, m[s := m[s].(data := data)], {s}, c)
  {
  }

  lemma MsgsSpares(m: Socks, s: nat, msgs: seq<seq<Byte>>, c: Call)
    requires s in m
    ensures Spares(m, m[s := m[s].(msgs := msgs)], {s}, c)
  {
    hide Queued;
  }

  lemma ShutSpares(m: Socks, s: nat, how: int, c: Call)
    requires Links(m) && s in m && 0 <= how <= 2
    ensures Spares(m, ShutDown(m, s, how != 1, how != 0), ShutTold(m, s, how), c)
  {
    hide Queued;
    assert LinkOk(m, s);
  }

  lemma NameSpares(m: Socks, s: nat, named: bool, c: Call)
    requires s in m && m[s].kind == Dgram
    ensures Spares(m, Named(m, s, named), {}, c) <==> !(c == InRecvMsg(s) && Stuck(m, c) && !named && m[s].eof)
  {
    hide Queued;
  }

  /** The one way in which an operation leaves a sleeper behind: listen makes room on a
      full listener, and dissolving a name ends a stream of datagrams, both without
      waking anyone. */
  predicate Forgets(m: Socks, op: Sockets.Event, c: Call) {
    match op
    case Listens(s, bound, backlog) =>
      bound && s in m && c == InConnect(s) && Stuck(m, c) && |m[s].backlog| < Clamp(backlog)
    case Dissolves(s) => s in m && m[s].kind == Dgram && c == InRecvMsg(s) && Stuck(m, c) && m[s].eof
    case _ => false
  }

  /** Exactly when a sleeper that is not woken still has its reason to sleep. */
  lemma DoSpares(m: Socks, own: Owners, op: Sockets.Event, signal: bool, c: Call)
    requires Net(m, own)
    ensures Links(m)
    ensures Kept(m, Do(m, own, op, signal), c) <==> !Forgets(m, op, c)
  {
    NetLinks(m, own);
    hide Net, Kept, Naming, Opening;
    if op.Listens? {
      ListenForgets(m, own, op.s, op.bound, op.backlog, c);
    } else if op.Dissolves? {
      DissolveForgets(m, own, op.s, c);
    } else {
      DoKeeps(m, own, op, signal, c);
    }
  }

  /** Everything else wakes all whom it concerns. */
  lemma DoKeeps(m: Socks, own: Owners, op: Sockets.Event, signal: bool, c: Call)
    requires Net(m, own) && !op.Listens? && !op.Dissolves?
    ensures Links(m) && Kept(m, Do(m, own, op, signal), c)
  {
    NetLinks(m, own);
    hide Net, Kept, Stuck, Creating, Pairing, Opening, Connecting, Accepting, Taking, Putting, Shutting;
    hide Closing, PuttingMsg, TakingMsg, Naming, Links;
    match op
    case Creates(s, kind) => CreateSpares(m, own, s, kind, c);
    case Pairs(a, b, kind) => PairSpares(m, own, a, b, kind, c);
    case SendsMsg(s, msg, given, found, memory, nonblock, _) =>
      SendMsgSpares(m, own, s, msg, given, found, memory, !nonblock && !signal, c);
    case RecvsMsg(s, _, nonblock, _, peek) => RecvMsgSpares(m, own, s, !nonblock && !signal, peek, c);
    case Names(s, t) => NamesSpares(m, own, s, t in m && m[t].kind == Dgram, c);
    case _ => StreamKeeps(m, own, op, signal, c);
  }

  lemma LinksOf(m: Socks, own: Owners)
    requires Net(m, own)
    ensures Links(m)
  {
    NetLinks(m, own);
  }

  lemma StreamKeeps(m: Socks, own: Owners, op: Sockets.Event, signal: bool, c: Call)
    requires Net(m, own)
    requires op.Connects? || op.Accepts? || op.Recvs? || op.Sends? || op.Shuts? || op.Closes?
    ensures Links(m) && Kept(m, Do(m, own, op, signal), c)
  {
    hide Net, Kept, Stuck, Connecting, Accepting, Taking, Putting, Shutting, Closing, Links;
    LinksOf(m, own);
    match op
    case Connects(s, l, srv, memory, nonblock, _) => ConnectSpares(m, own, s, l, srv, memory, !nonblock && !signal, c);
    case Accepts(l, nonblock, _, installed) => AcceptSpares(m, own, l, !nonblock && !signal, installed, c);
    case Recvs(s, size, nonblock, _, peek) => RecvSpares(m, own, s, size, nonblock, signal, peek, c);
    case Sends(s, src, done, nonblock, _) => SendSpares(m, own, s, src, done, nonblock, signal, c);
    case Shuts(s, how) => ShutdownSpares(m, own, s, how, c);
    case Closes(s) => CloseSpares(m, own, s, c);
  }

  lemma CreateSpares(m: Socks, own: Owners, s: nat, kind: Kind, c: Call)
    ensures Kept(m, Creating(m, own, s, kind), c)
  {
    hide Spares;
    SameSpares(m, c);
    if s !in m { NewSpares(m, m[s := Fresh(kind)], c); }
  }

  lemma PairSpares(m: Socks, own: Owners, a: nat, b: nat, kind: Kind, c: Call)
    ensures Kept(m, Pairing(m, own, a, b, kind), c)
  {
    hide Spares;
    SameSpares(m, c);
    if a !in m && b !in m { NewSpares(m, Paired(m, a, b, kind), c); }
  }

  lemma ConnectSpares(m: Socks, own: Owners, s: nat, l: nat, srv: nat, memory: bool, wait: bool, c: Call)
    requires Net(m, own)
    ensures Kept(m, Connecting(m, own, s, l, srv, memory, wait), c)
  {
    NetLinks(m, own);
    hide Spares, NetOk;
    SameSpares(m, c);
    if s in m && m[s].kind == Stream && srv !in m && l in m && FreeToJoin(m, s, l) { JoinSpares(m, s, l, srv, c); }
  }

  lemma RecvSpares(m: Socks, own: Owners, s: nat, size: nat, nonblock: bool, signal: bool, peek: bool, c: Call)
    requires Links(m)
    ensures Kept(m, Taking(m, own, s, size, nonblock, signal, peek), c)
  {
    hide Spares;
    SameSpares(m, c);
    var z := Taking(m, own, s, size, nonblock, signal, peek);
    if z.woken != {} { DataSpares(m, s, z.socks[s].data, c); }
  }

  lemma ShutdownSpares(m: Socks, own: Owners, s: nat, how: int, c: Call)
    requires Links(m)
    ensures Kept(m, Shutting(m, own, s, how), c)
  {
    hide Spares;
    SameSpares(m, c);
    if s in m && m[s].state == Connected && 0 <= how <= 2 { ShutSpares(m, s, how, c); }
  }

  lemma SendMsgSpares(
    m: Socks, own: Owners, s: nat, msg: seq<Byte>, given: bool, found: nat, memory: bool, wait: bool, c: Call)
    ensures Kept(m, PuttingMsg(m, own, s, msg, given, found, memory, wait), c)
  {
    hide Spares, Queued;
    SameSpares(m, c);
    if s in m && Target(m, s, given, found).To? && Target(m, s, given, found).t in m {
      var t := Target(m, s, given, found).t;
      MsgsSpares(m, t, m[t].msgs + [msg], c);
    }
  }

  lemma RecvMsgSpares(m: Socks, own: Owners, s: nat, wait: bool, peek: bool, c: Call)
    ensures Kept(m, TakingMsg(m, own, s, wait, peek), c)
  {
    hide Spares, Queued;
    SameSpares(m, c);
    if s in m && m[s].msgs != [] { MsgsSpares(m, s, m[s].msgs[1..], c); }
  }

  lemma NamesSpares(m: Socks, own: Owners, s: nat, ok: bool, c: Call)
    ensures Kept(m, Naming(m, own, s, ok, true), c)
  {
    SameSpares(m, c);
    if s in m && m[s].kind == Dgram { NameSpares(m, s, true, c); }
  }

  lemma DissolveForgets(m: Socks, own: Owners, s: nat, c: Call)
    ensures Kept(m, Naming(m, own, s, true, false), c) <==> !Forgets(m, Dissolves(s), c)
  {
    SameSpares(m, c);
    if s in m && m[s].kind == Dgram { NameSpares(m, s, false, c); }
  }

  lemma SameSpares(m: Socks, c: Call)
    ensures Spares(m, m, {}, c)
  {
  }

  lemma ListenForgets(m: Socks, own: Owners, s: nat, bound: bool, backlog: int, c: Call)
    ensures Kept(m, Opening(m, own, s, bound, backlog), c) <==> !Forgets(m, Listens(s, bound, backlog), c)
  {
    SameSpares(m, c);
    if s in m && m[s].kind == Stream && m[s].state != Connected { ListenSpares(m, s, backlog, c); }
  }

  /** A sequence of two changes, each waking whom it concerns. */
  lemma SparesBoth(m: Socks, n: Socks, z: Socks, a: set<nat>, b: set<nat>, c: Call)
    requires Spares(m, n, a, c) && Spares(n, z, b, c)
    ensures Spares(m, z, a + b, c)
  {
  }

  lemma AcceptSpares(m: Socks, own: Owners, l: nat, wait: bool, installed: bool, c: Call)
    requires Net(m, own)
    ensures Kept(m, Accepting(m, own, l, wait, installed), c)
  {
    SameSpares(m, c);
    if l in m && m[l].state == Listening && m[l].backlog != [] {
      var q := m[l].backlog;
      var n := m[l := m[l].(backlog := q[1..])];
      AcceptOk(m, own, l, Hand);
      NetLinks(n, own[q[0] := Hand]);
      BacklogSpares(m, l, q[1..], c);
      ClosedSpares(n, {q[0]}, c);
      SparesBoth(m, n, Closed(n, {q[0]}), {l}, Told(n, {q[0]}), c);
    }
  }

  lemma CloseSpares(m: Socks, own: Owners, s: nat, c: Call)
    requires Net(m, own)
    ensures Kept(m, Closing(m, own, s), c)
  {
    SameSpares(m, c);
    NetLinks(m, own);
    if s in m && s in own && own[s] == Fd {
      DeadThere(m, own, s);
      ClosedSpares(m, {s} + Elements(m[s].backlog), c);
    }
  }

  lemma DeadThere(m: Socks, own: Owners, s: nat)
    requires NetOk(m, own) && s in m
    ensures {s} + Elements(m[s].backlog) <= m.Keys
  {
    assert SockOk(m, own, s);
    forall i | 0 <= i < |m[s].backlog| ensures m[s].backlog[i] in m {
      assert Waiting(m, own, s, m[s].backlog[i]);
    }
  }

  lemma SendSpares(m: Socks, own: Owners, s: nat, src: seq<Byte>, done: nat, nonblock: bool, signal: bool, c: Call)
    requires Links(m)
    ensures Kept(m, Putting(m, own, s, src, done, nonblock, signal), c)
  {
    SameSpares(m, c);
    var z := Putting(m, own, s, src, done, nonblock, signal);
    if z.woken != {} {
      DataSpares(m, m[s].peer, z.socks[m[s].peer].data, c);
    } else {
      SendNothing(m, own, s, src, done, nonblock, signal);
    }
  }

  lemma SendNothing(m: Socks, own: Owners, s: nat, src: seq<Byte>, done: nat, nonblock: bool, signal: bool)
    requires Links(m) && Putting(m, own, s, src, done, nonblock, signal).woken == {}
    ensures Putting(m, own, s, src, done, nonblock, signal).socks == m
  {
    if s in m && m[s].kind == Stream && done <= |src| && m[s].peer in m {
      var p := m[s].peer;
      assert LinkOk(m, p);
      assert m[p].data + src[done..done] == m[p].data;
      assert m[p := m[p]] == m;
    }
  }

  // ---- What every operation keeps ----

  /** Links, backlogs and owners stay right, and a caller that sleeps has a reason. */
  lemma DoOk(m: Socks, own: Owners, op: Sockets.Event, signal: bool)
    requires Net(m, own)
    ensures Links(m)
    ensures var z := Do(m, own, op, signal);
      Net(z.socks, z.own) && (z.pause.Waits? ==> !signal && Stuck(z.socks, z.pause.call))
  {
    NetLinks(m, own);
    hide Net, Stuck, Creating, Pairing, Opening, Connecting, Accepting, Taking, Putting, Shutting, Closing;
    hide PuttingMsg, TakingMsg, Naming, Links;
    match op
    case Creates(s, kind) => CreateNet(m, own, s, kind);
    case Pairs(a, b, kind) => PairNet(m, own, a, b, kind);
    case Listens(s, bound, backlog) => ListenNet(m, own, s, bound, backlog);
    case Connects(s, l, srv, memory, nonblock, _) => ConnectNet(m, own, s, l, srv, memory, !nonblock && !signal);
    case Accepts(l, nonblock, _, installed) => AcceptNet(m, own, l, !nonblock && !signal, installed);
    case Recvs(s, size, nonblock, _, peek) => RecvNet(m, own, s, size, nonblock, signal, peek);
    case Sends(s, src, done, nonblock, _) => SendNet(m, own, s, src, done, nonblock, signal);
    case Shuts(s, how) => ShutdownNet(m, own, s, how);
    case Closes(s) => CloseNet(m, own, s);
    case SendsMsg(s, msg, given, found, memory, nonblock, _) =>
      SendMsgNet(m, own, s, msg, given, found, memory, !nonblock && !signal);
    case RecvsMsg(s, _, nonblock, _, peek) => RecvMsgNet(m, own, s, !nonblock && !signal, peek);
    case Names(s, t) => NameNet(m, own, s, t in m && m[t].kind == Dgram, true);
    case Dissolves(s) => NameNet(m, own, s, true, false);
  }

  /** What an operation must leave behind. */
  ghost predicate Proper(z: Effect, wait: bool) {
    Net(z.socks, z.own) && (z.pause.Waits? ==> wait && Stuck(z.socks, z.pause.call))
  }

  lemma CreateNet(m: Socks, own: Owners, s: nat, kind: Kind)
    requires Net(m, own)
    ensures Proper(Creating(m, own, s, kind), false)
  {
    hide NetOk;
    if s != NULL && s !in m { NewOk(m, own, s, kind); }
  }

  lemma PairNet(m: Socks, own: Owners, a: nat, b: nat, kind: Kind)
    requires Net(m, own)
    ensures Proper(Pairing(m, own, a, b, kind), false)
  {
    hide NetOk;
    if a != NULL && b != NULL && a != b && a !in m && b !in m { PairOk(m, own, a, b, kind); }
  }

  lemma ListenNet(m: Socks, own: Owners, s: nat, bound: bool, backlog: int)
    requires Net(m, own)
    ensures Proper(Opening(m, own, s, bound, backlog), false)
  {
    hide NetOk;
    if s in m && m[s].kind == Stream && m[s].state != Connected { ListenOk(m, own, s, Clamp(backlog)); }
  }

  lemma ConnectNet(m: Socks, own: Owners, s: nat, l: nat, srv: nat, memory: bool, wait: bool)
    requires Net(m, own)
    ensures Proper(Connecting(m, own, s, l, srv, memory, wait), wait)
  {
    hide NetOk;
    var z := Connecting(m, own, s, l, srv, memory, wait);
    if z.woken != {} { JoinOk(m, own, s, l, srv); }
  }

  lemma AcceptNet(m: Socks, own: Owners, l: nat, wait: bool, installed: bool)
    requires Net(m, own)
    ensures Proper(Accepting(m, own, l, wait, installed), wait)
  {
    hide NetOk;
    if l in m && m[l].state == Listening && m[l].backlog != [] {
      var c := m[l].backlog[0];
      var n := m[l := m[l].(backlog := m[l].backlog[1..])];
      AcceptOk(m, own, l, Fd);
      AcceptOk(m, own, l, Hand);
      FreedOk(n, own[c := Hand], c);
      FreedIsClosed(n, own[c := Hand], c);
      assert own[c := Hand] - {c} == own - {c};
    }
  }

  lemma RecvNet(m: Socks, own: Owners, s: nat, size: nat, nonblock: bool, signal: bool, peek: bool)
    requires Net(m, own)
    ensures Proper(Taking(m, own, s, size, nonblock, signal, peek), !signal)
  {
    hide NetOk, Queued;
    var z := Taking(m, own, s, size, nonblock, signal, peek);
    if z.woken != {} {
      Buffers(m, own, s);
      PlainOk(m, own, s, z.socks[s]);
    }
  }

  lemma SendNet(m: Socks, own: Owners, s: nat, src: seq<Byte>, done: nat, nonblock: bool, signal: bool)
    requires Net(m, own)
    ensures Links(m) && Proper(Putting(m, own, s, src, done, nonblock, signal), !signal)
  {
    NetLinks(m, own);
    hide NetOk, Queued;
    var z := Putting(m, own, s, src, done, nonblock, signal);
    if s in m && m[s].kind == Stream && done <= |src| && m[s].peer in m {
      var p := m[s].peer;
      assert LinkOk(m, p) && LinkOk(m, s);
      Buffers(m, own, p);
      Sound(m, own, p);
      PlainOk(m, own, p, z.socks[p]);
    }
  }

  lemma ShutdownNet(m: Socks, own: Owners, s: nat, how: int)
    requires Net(m, own)
    ensures Proper(Shutting(m, own, s, how), false)
  {
    hide NetOk;
    if s in m && m[s].state == Connected { ShutOk(m, own, s, how != 1, how != 0); }
  }

  lemma CloseNet(m: Socks, own: Owners, s: nat)
    requires Net(m, own)
    ensures Proper(Closing(m, own, s), false)
  {
    hide NetOk;
    if s in m && s in own && own[s] == Fd { ClosedOk(m, own, s); }
  }

  lemma SendMsgNet(
    m: Socks, own: Owners, s: nat, msg: seq<Byte>, given: bool, found: nat, memory: bool, wait: bool)
    requires Net(m, own)
    ensures Proper(PuttingMsg(m, own, s, msg, given, found, memory, wait), wait)
  {
    hide NetOk, Queued;
    var z := PuttingMsg(m, own, s, msg, given, found, memory, wait);
    if z.woken != {} {
      var t := Target(m, s, given, found).t;
      Buffers(m, own, t);
      QueuedLast(m[t].msgs, msg);
      PlainOk(m, own, t, z.socks[t]);
    }
  }

  lemma RecvMsgNet(m: Socks, own: Owners, s: nat, wait: bool, peek: bool)
    requires Net(m, own)
    ensures Proper(TakingMsg(m, own, s, wait, peek), wait)
  {
    hide NetOk, Queued;
    var z := TakingMsg(m, own, s, wait, peek);
    if z.woken != {} {
      Buffers(m, own, s);
      QueuedFirst(m[s].msgs);
      PlainOk(m, own, s, z.socks[s]);
    }
  }

  lemma NameNet(m: Socks, own: Owners, s: nat, ok: bool, named: bool)
    requires Net(m, own)
    ensures Proper(Naming(m, own, s, ok, named), false)
  {
    hide NetOk;
    if s in m && m[s].kind == Dgram { NamedNet(m, own, s, named); }
  }

  // ---- The whole kernel ----

  /** The table after everyone asleep on one of the addresses `at` was woken. */
  function Roused(m: Procs, all: seq<nat>, at: set<nat>): Procs {
    map p | p in m :: if p in all && m[p].status == Blocked && m[p].chan in at then Awake(m[p]) else m[p]
  }

  /** That is one wakeup after another. */
  lemma RousedOne(m: Procs, all: seq<nat>, at: set<nat>, a: nat)
    ensures Roused(m, all, {}) == m && WakeAll(Roused(m, all, at), all, a) == Roused(m, all, at + {a})
  {
  }

  datatype Event =
    | Op(c: nat, op: Sockets.Event, next: nat)
    | Table(e: Wakeups.Event)
    | Doze(c: nat, chan: nat, next: nat)

  /** The operation has been carried out and its wakeups made; `c` has left its call. */
  function Carried(k: Kernel, c: nat, z: Effect): Kernel {
    Kernel(Roused(k.proc, k.all, z.woken), k.all, z.socks, z.own, k.calls - {c})
  }

  /** The running `c` goes to sleep in `call`. */
  function Lying(k: Kernel, c: nat, call: Call, next: nat): Kernel
    requires c in k.proc && next in k.proc
  {
    k.(proc := AfterSleep(k.proc, c, Chan(k.socks, call), next), calls := k.calls[c := call])
  }

  predicate Runs(m: Procs, c: nat) { c in m && m[c].status == Running }

  /** One stretch of a call of `c`: it returns, or sleeps and `next` runs, which may
      have been woken just before. */
  function Stretch(k: Kernel, c: nat, op: Sockets.Event, next: nat): Kernel
    requires Links(k.socks)
  {
    var z := Do(k.socks, k.own, op, !Wakeups.Free(k.proc, c));
    var k1 := Carried(k, c, z);
    if !z.pause.Waits? then k1
    else if Wakeups.CanSleep(k1.proc, c, next) then Lying(k1, c, z.pause.call, next) else k
  }

  /** The processes alone. */
  function Bare(k: Kernel): Wakeups.Kernel { Wakeups.Kernel(k.proc, k.all, map[], map[]) }

  /** What happens to processes apart from sockets; one in a socket call does not end. */
  predicate OfTable(k: Kernel, e: Wakeups.Event) {
    match e
    case Fork(_, p, _) => p !in k.calls
    case Exit(c, _, _, _) => c !in k.calls
    case _ => Wakeups.OfTable(e)
  }

  /** One step; what cannot happen in the state is skipped. */
  function Step(k: Kernel, e: Event): Kernel
    requires Base(k)
  {
    BareInv(k);
    NetLinks(k.socks, k.own);
    match e
    case Op(c, op, next) => if Runs(k.proc, c) then Stretch(k, c, op, next) else k
    case Table(t) =>
      if OfTable(k, t) then
        var n := Wakeups.Step(Bare(k), t);
        k.(proc := n.proc, all := n.all, calls := map p | p in k.calls && p in n.proc :: k.calls[p])
      else k
    case Doze(c, chan, next) =>
      if Wakeups.CanSleep(k.proc, c, next) && c !in k.calls && Wakeups.Free(k.proc, c)
      then k.(proc := AfterSleep(k.proc, c, chan, next)) else k
  }

  lemma BareInv(k: Kernel)
    requires Listed(k.proc, k.all) && ProcTree.Attentive(k.proc)
    ensures Wakeups.Inv(Bare(k))
  {
    forall p ensures Wakeups.CallOk(Bare(k), p) && Wakeups.Justified(Bare(k), p) {
    }
  }

  /** The process `p` of `k` is asleep in a socket call. */
  predicate Asleep(k: Kernel, p: nat) { p in k.calls && p in k.proc && k.proc[p].status == Blocked }

  /** The step leaves a process asleep that the operation should have woken. */
  ghost predicate Loses(k: Kernel, e: Event) {
    && e.Op? && Runs(k.proc, e.c)
    && exists p :: Asleep(k, p) && Forgets(k.socks, e.op, k.calls[p])
  }

  lemma RousedEased(m: Procs, all: seq<nat>, at: set<nat>)
    requires Listed(m, all) && ProcTree.Attentive(m)
    ensures var n := Roused(m, all, at);
      && n.Keys == m.Keys && Listed(n, all) && ProcTree.Attentive(n)
      && forall p :: p in m ==> if m[p].status == Blocked && m[p].chan in at then n[p].status == Ready else n[p] == m[p]
  {
  }

  // ---- What a step does to the sleepers ----

  /** One sleeper keeps its reason exactly if the operation does not forget it. */
  lemma CarriedOne(k: Kernel, c: nat, op: Sockets.Event, signal: bool, p: nat)
    requires Base(k) && Sleepers(k) && c in k.proc && k.proc[c].status == Running
    ensures Links(k.socks)
    ensures var z := Do(k.socks, k.own, op, signal);
      Justified(Carried(k, c, z), p) <==> !(Asleep(k, p) && Forgets(k.socks, op, k.calls[p]))
  {
    NetLinks(k.socks, k.own);
    assert Justified(k, p);
    RousedEased(k.proc, k.all, Do(k.socks, k.own, op, signal).woken);
    hide Roused, Do, NetOk, Links, Listed, ProcTree.Attentive;
    if Asleep(k, p) {
      ForgetsKept(k.socks, k.own, op, signal, k.calls[p]);
      hide Stuck, Chan, Forgets, Net;
    }
  }

  /** Whoever is forgotten is not woken and has no reason left; nobody else. */
  lemma ForgetsKept(m: Socks, own: Owners, op: Sockets.Event, signal: bool, c: Call)
    requires Net(m, own) && Stuck(m, c)
    ensures Links(m)
    ensures var z := Do(m, own, op, signal);
      Forgets(m, op, c) <==> Chan(m, c) !in z.woken && !(Stuck(z.socks, c) && Chan(z.socks, c) == Chan(m, c))
  {
    hide Do, NetOk, Links, Stuck, Chan, Forgets, Takes;
    DoSpares(m, own, op, signal, c);
  }

  lemma CarriedBase(k: Kernel, c: nat, op: Sockets.Event, signal: bool)
    requires Base(k)
    ensures Links(k.socks) && Base(Carried(k, c, Do(k.socks, k.own, op, signal)))
  {
    hide Do, Net, Roused;
    DoOk(k.socks, k.own, op, signal);
    RousedEased(k.proc, k.all, Do(k.socks, k.own, op, signal).woken);
  }

  lemma LyingBase(k: Kernel, c: nat, call: Call, next: nat)
    requires Base(k) && c in k.proc && next in k.proc && Wakeups.Free(k.proc, c)
    ensures Base(Lying(k, c, call, next))
  {
    hide Net, Chan;
  }

  /** Falling asleep with a reason disturbs no other sleeper. */
  lemma LyingOne(k: Kernel, c: nat, call: Call, next: nat, p: nat)
    requires Wakeups.CanSleep(k.proc, c, next) && c !in k.calls && Stuck(k.socks, call)
    ensures Justified(Lying(k, c, call, next), p) <==> Justified(k, p)
  {
    hide Stuck, Chan;
  }

  /** Waking leaves those alone who are not asleep. */
  lemma CarriedAwake(k: Kernel, c: nat, z: Effect)
    requires Listed(k.proc, k.all) && ProcTree.Attentive(k.proc) && Runs(k.proc, c)
    ensures var k1 := Carried(k, c, z);
      c in k1.proc && k1.proc[c] == k.proc[c] && c !in k1.calls && k1.socks == z.socks
  {
    RousedEased(k.proc, k.all, z.woken);
  }

  lemma StretchBase(k: Kernel, c: nat, op: Sockets.Event, next: nat)
    requires Base(k) && Runs(k.proc, c)
    ensures Links(k.socks) && Base(Stretch(k, c, op, next))
  {
    var signal := !Wakeups.Free(k.proc, c);
    CarriedBase(k, c, op, signal);
    DoOk(k.socks, k.own, op, signal);
    var z := Do(k.socks, k.own, op, signal);
    CarriedAwake(k, c, z);
    hide Do, Carried, Base, Links, Lying, Net, Stuck;
    if z.pause.Waits? && Wakeups.CanSleep(Carried(k, c, z).proc, c, next) {
      LyingBase(Carried(k, c, z), c, z.pause.call, next);
    }
  }

  lemma StretchOne(k: Kernel, c: nat, op: Sockets.Event, next: nat, p: nat)
    requires Base(k) && Sleepers(k) && Runs(k.proc, c)
    ensures Links(k.socks)
    ensures Justified(Stretch(k, c, op, next), p) <==> !(Asleep(k, p) && Forgets(k.socks, op, k.calls[p]))
  {
    var signal := !Wakeups.Free(k.proc, c);
    CarriedOne(k, c, op, signal, p);
    DoOk(k.socks, k.own, op, signal);
    var z := Do(k.socks, k.own, op, signal);
    CarriedAwake(k, c, z);
    assert Justified(k, p);
    WaitsWakes(k.socks, k.own, op, signal);
    hide Do, Carried, Base, Links, Lying, Net, Stuck, Justified, Sleepers;
    if z.pause.Waits? && Wakeups.CanSleep(Carried(k, c, z).proc, c, next) {
      LyingOne(Carried(k, c, z), c, z.pause.call, next, p);
    }
  }

  /** Neither of the two that forget a sleeper sleeps itself. */
  lemma WaitsWakes(m: Socks, own: Owners, op: Sockets.Event, signal: bool)
    requires Links(m)
    ensures op.Listens? || op.Dissolves? ==> !Do(m, own, op, signal).pause.Waits?
  {
  }

  lemma TableBase(k: Kernel, e: Wakeups.Event)
    requires Base(k)
    ensures Base(Step(k, Table(e)))
  {
    BareInv(k);
    Wakeups.StepInv(Bare(k), e);
    hide Net, Wakeups.Step;
  }

  lemma TableOne(k: Kernel, e: Wakeups.Event, p: nat)
    requires Base(k) && Justified(k, p)
    ensures Justified(Step(k, Table(e)), p)
  {
    hide Net, Wakeups.Step, Stuck, Chan, Wakeups.Inv, Wakeups.Eased, Listed, ProcTree.Attentive;
    BareInv(k);
    if OfTable(k, e) {
      Wakeups.TableStepEased(Bare(k), e);
      EasedOne(k.proc, Wakeups.Step(Bare(k), e).proc, p);
    }
  }

  lemma EasedOne(m: Procs, n: Procs, p: nat)
    requires Wakeups.Eased(m, n)
    ensures p in n && n[p].status == Blocked ==> p in m && m[p].status == Blocked && n[p].chan == m[p].chan
  {
  }

  lemma DozeBase(k: Kernel, c: nat, chan: nat, next: nat)
    requires Base(k)
    ensures Base(Step(k, Doze(c, chan, next)))
  {
    hide Net;
  }

  lemma OpBase(k: Kernel, c: nat, op: Sockets.Event, next: nat)
    requires Base(k)
    ensures Base(Step(k, Op(c, op, next)))
  {
    hide Base, Stretch;
    if Runs(k.proc, c) { StretchBase(k, c, op, next); }
  }

  lemma StepBase(k: Kernel, e: Event)
    requires Base(k)
    ensures Base(Step(k, e))
  {
    hide Base, Step;
    match e
    case Op(c, op, next) => OpBase(k, c, op, next);
    case Table(t) => TableBase(k, t);
    case Doze(c, chan, next) => DozeBase(k, c, chan, next);
  }

  lemma DozeOne(k: Kernel, c: nat, chan: nat, next: nat, p: nat)
    requires Base(k) && Justified(k, p)
    ensures Justified(Step(k, Doze(c, chan, next)), p)
  {
    hide Net, Stuck, Chan;
  }

  /** No step leaves a sleeper without a reason but a listen that makes room on a full
      listener somebody waits for, and a connect to nowhere that ends a stream of
      datagrams somebody waits for; and those do. */
  lemma StepExact(k: Kernel, e: Event)
    requires Base(k) && Sleepers(k)
    ensures Base(Step(k, e)) && (Sleepers(Step(k, e)) <==> !Loses(k, e))
  {
    StepBase(k, e);
    var z := Step(k, e);
    hide Base, Forgets, Stretch;
    match e
    case Op(c, op, next) =>
      if Runs(k.proc, c) {
        forall p ensures Justified(z, p) <==> !(Asleep(k, p) && Forgets(k.socks, op, k.calls[p])) {
          StretchOne(k, c, op, next, p);
        }
        hide Justified;
        if Loses(k, e) {
          var p :| Asleep(k, p) && Forgets(k.socks, op, k.calls[p]);
          assert !Justified(z, p);
        }
      }
    case Table(t) =>
      hide Step;
      forall p ensures Justified(z, p) { assert Justified(k, p); TableOne(k, t, p); }
    case Doze(c, chan, next) =>
      hide Step;
      forall p ensures Justified(z, p) { assert Justified(k, p); DozeOne(k, c, chan, next, p); }
  }

  function Run(k: Kernel, es: seq<Event>): Kernel
    requires Base(k)
    decreases |es|
  {
    if es == [] then k else StepBase(k, es[0]); Run(Step(k, es[0]), es[1..])
  }

  /** No step of the run is one of the two that lose a wakeup. */
  ghost predicate Careful(k: Kernel, es: seq<Event>)
    requires Base(k)
    decreases |es|
  {
    es != [] ==> !Loses(k, es[0]) && (StepBase(k, es[0]); Careful(Step(k, es[0]), es[1..]))
  }

  lemma {:induction false} RunKeeps(k: Kernel, es: seq<Event>)
    requires Base(k)
    ensures Base(Run(k, es)) && (Sleepers(k) && Careful(k, es) ==> Sleepers(Run(k, es)))
    decreases |es|
  {
    hide Base, Sleepers, Step, Loses;
    if es != [] {
      StepBase(k, es[0]);
      if Sleepers(k) { StepExact(k, es[0]); }
      RunKeeps(Step(k, es[0]), es[1..]);
    }
  }

  /** The kernel as it starts: idle and init, and no sockets. */
  function Boot(idle: nat, init: nat): Kernel {
    Kernel(Wakeups.Boot(idle, init).proc, Wakeups.Boot(idle, init).all, map[], map[], map[])
  }

  lemma BootOk(idle: nat, init: nat)
    requires idle != init
    ensures Base(Boot(idle, init)) && Sleepers(Boot(idle, init))
  {
    Wakeups.BootInv(idle, init);
  }

  function FromBoot(idle: nat, init: nat, es: seq<Event>): Kernel
    requires idle != init
  {
    BootOk(idle, init);
    Run(Boot(idle, init), es)
  }

  /** After every run from boot in which neither happens, whoever is asleep in a socket
      call sleeps where the next change of its socket wakes it, still has the condition
      it sleeps for, and has no signal it could take. */
  lemma NoLostWakeup(idle: nat, init: nat, es: seq<Event>, p: nat)
    requires idle != init && Asleep(FromBoot(idle, init, es), p)
    ensures var z := FromBoot(idle, init, es); z.proc[p].pending <= z.proc[p].blocked
    ensures var z := FromBoot(idle, init, es);
      Base(Boot(idle, init)) && (Careful(Boot(idle, init), es) ==>
        z.proc[p].chan == Chan(z.socks, z.calls[p]) && Stuck(z.socks, z.calls[p]))
  {
    BootOk(idle, init);
    RunKeeps(Boot(idle, init), es);
    var z := FromBoot(idle, init, es);
    hide FromBoot, Stuck, Chan, NetOk;
    if Careful(Boot(idle, init), es) { assert Justified(z, p); }
  }

  // ---- The two exceptions happen ----

  /** Process 1 runs, 2 is ready and 3 sleeps on `chan` in `call`. */
  function Three(chan: nat, call: Call, m: Socks, own: Owners): Kernel {
    Kernel(ThreeProcs(chan), [1, 2, 3], m, own, map[3 := call])
  }

  function ThreeProcs(chan: nat): Procs {
    var x := NewProcess(0, PRIO_IDLE);
    map[1 := x.(status := Running), 2 := x.(status := Ready), 3 := x.(status := Blocked, chan := chan)]
  }

  lemma ThreeListed(chan: nat)
    ensures var m := ThreeProcs(chan);
      && Listed(m, [1, 2, 3]) && ProcTree.Attentive(m) && Wakeups.CanSleep(m, 1, 2)
      && 3 in m && m[3].status == Blocked && m[3].chan == chan
  {
  }

  lemma ThreeOk(chan: nat, call: Call, m: Socks, own: Owners)
    requires Net(m, own) && Chan(m, call) == chan && Stuck(m, call)
    ensures var k := Three(chan, call, m, own);
      Base(k) && Sleepers(k) && Asleep(k, 3) && Wakeups.CanSleep(k.proc, 1, 2)
  {
    hide Net, Stuck, Chan, ThreeProcs, Listed, ProcTree.Attentive;
    ThreeListed(chan);
    var k := Three(chan, call, m, own);
    forall p ensures Justified(k, p) {
    }
  }

  function FullListener(): Socks {
    var end := Fresh(Stream).(state := Connected);
    var full := Fresh(Stream).(state := Listening, maxback := 1, backlog := [8]);
    map[5 := end.(peer := 8), 8 := end.(peer := 5), 9 := full]
  }

  lemma FullListenerOk()
    ensures Net(FullListener(), map[5 := Fd, 8 := Queue(9), 9 := Fd]) && Stuck(FullListener(), InConnect(9))
  {
    var m, own := FullListener(), map[5 := Fd, 8 := Queue(9), 9 := Fd];
    forall s | s in m ensures SockOk(m, own, s) {
      assert m[9].backlog[0] == 8;
    }
  }

  /** Listener 9 has its one place taken and process 3 waits to connect to it; process 1
      calls listen again, with two places. There is room, and 3 sleeps on. */
  lemma ListenLosesExample()
    ensures var k := Three(9, InConnect(9), FullListener(), map[5 := Fd, 8 := Queue(9), 9 := Fd]);
      var e := Op(1, Listens(9, true, 2), 2);
      Base(k) && Sleepers(k) && Loses(k, e) && !Sleepers(Step(k, e))
  {
    var m, own := FullListener(), map[5 := Fd, 8 := Queue(9), 9 := Fd];
    FullListenerOk();
    hide Net, Base, Stretch, Sleepers, Step;
    ThreeOk(9, InConnect(9), m, own);
    var k := Three(9, InConnect(9), m, own);
    assert Forgets(m, Listens(9, true, 2), k.calls[3]);
    StepExact(k, Op(1, Listens(9, true, 2), 2));
  }

  /** Socket 5 of a pair has been connected to a name and its other end is closed;
      process 3 waits for a datagram. Process 1 dissolves the name: 3 could return 0,
      and sleeps on. */
  lemma DissolveLosesExample()
    ensures var k := Three(5, InRecvMsg(5), map[5 := Fresh(Dgram).(state := Connected, named := true, eof := true)],
        map[5 := Fd]);
      var e := Op(1, Dissolves(5), 2);
      Base(k) && Sleepers(k) && Loses(k, e) && !Sleepers(Step(k, e))
  {
    var m, own := map[5 := Fresh(Dgram).(state := Connected, named := true, eof := true)], map[5 := Fd];
    forall s | s in m ensures SockOk(m, own, s) {
    }
    ThreeOk(5, InRecvMsg(5), m, own);
    var k := Three(5, InRecvMsg(5), m, own);
    assert Forgets(m, Dissolves(5), k.calls[3]);
    StepExact(k, Op(1, Dissolves(5), 2));
  }
}
