/** Unix sockets: who is connected to whom, who waits to be accepted, and what was
    sent and received. */
module Sockets {
  import opened Machine
  import opened Rings

  const SOCK_BUF: nat := 16384
  const BACKLOG: nat := 32

  datatype Kind = Stream | Dgram
  datatype State = Unconnected | Listening | Connected

  /** A sock_t; `data` is what its ring holds, `msgs` its list of datagrams. A datagram
      socket is `named` while it is connected to a name. */
  datatype Sock = Sock(
    kind: Kind, state: State, peer: nat, data: seq<Byte>, msgs: seq<seq<Byte>>,
    backlog: seq<nat>, maxback: nat, eof: bool, rdShut: bool, wrShut: bool, named: bool)

  type Socks = map<nat, Sock>

  function Fresh(kind: Kind): Sock { Sock(kind, Unconnected, NULL, [], [], [], 0, false, false, false, false) }

  /** Who can get at a socket: a descriptor, a listener's backlog, or only the call
      that is about to free it. */
  datatype Owner = Fd | Queue(l: nat) | Hand

  type Owners = map<nat, Owner>

  function Queued(msgs: seq<seq<Byte>>): nat {
    if msgs == [] then 0 else Queued(msgs[..|msgs| - 1]) + |msgs[|msgs| - 1]|
  }

  // ---- The invariant ----

  /** Links are mutual, between sockets of one kind; a stream whose other end is gone
      or was shut down knows that nothing more comes, and only then. */
  ghost predicate PeerOk(m: Socks, s: nat)
    requires s in m
  {
    var x := m[s];
    && (x.peer != NULL ==>
      x.peer in m && x.peer != s && m[x.peer].peer == s && m[x.peer].kind == x.kind)
    && (x.kind == Stream && x.peer != NULL ==> x.state == Connected)
    && (x.peer != NULL ==> (x.eof <==> m[x.peer].wrShut))
    && (x.kind == Stream && x.peer == NULL ==> (x.eof <==> x.state == Connected))
    && (x.kind == Stream && x.state != Connected ==> x.data == [] && !x.rdShut && !x.wrShut)
    && |x.data| <= SOCK_BUF && Queued(x.msgs) <= SOCK_BUF
  }

  ghost predicate Waiting(m: Socks, own: Owners, l: nat, c: nat) {
    c in m && c in own && own[c] == Queue(l) && m[c].kind == Stream && m[c].state == Connected
  }

  /** Everything in a backlog is a connected stream that nobody else has. */
  ghost predicate BacklogOk(m: Socks, own: Owners, l: nat)
    requires l in m
  {
    var q := m[l].backlog;
    && (forall i :: 0 <= i < |q| ==> Waiting(m, own, l, q[i]))
    && (forall i, j :: 0 <= i < j < |q| ==> q[i] != q[j])
    && (q != [] ==> m[l].state == Listening && m[l].kind == Stream) && |q| <= BACKLOG && m[l].maxback <= BACKLOG
  }

  ghost predicate HomeOk(m: Socks, own: Owners, s: nat) {
    s in own && (own[s].Queue? ==> own[s].l in m && s in m[own[s].l].backlog)
  }

  ghost predicate SockOk(m: Socks, own: Owners, s: nat)
    requires s in m
  {
    PeerOk(m, s) && BacklogOk(m, own, s) && HomeOk(m, own, s)
  }

  ghost predicate NetOk(m: Socks, own: Owners) {
    NULL !in m && own.Keys == m.Keys && forall s {:trigger SockOk(m, own, s)} :: s in m ==> SockOk(m, own, s)
  }

  /** What has gone through one socket: bytes and messages put in and taken out, and
      for a listener, connections made and handed out (or dropped at its close). */
  datatype Log = Log(sent: seq<Byte>, got: seq<Byte>, sentMsgs: seq<seq<Byte>>, gotMsgs: seq<seq<Byte>>, made: seq<nat>,
    out: seq<nat>)

  function NoLog(): Log { Log([], [], [], [], [], []) }

  ghost predicate FlowOk(x: Sock, g: Log) {
    g.got + x.data == g.sent && g.gotMsgs + x.msgs == g.sentMsgs && g.out + x.backlog == g.made
  }

  /** `final` holds, for every stream that ever reported its end, what it had got. */
  ghost predicate LogOk(m: Socks, logs: map<nat, Log>, final: map<nat, seq<Byte>>) {
    && logs.Keys == m.Keys && final.Keys <= m.Keys && (forall s :: s in m ==> FlowOk(m[s], logs[s]))
    && (forall s :: s in m && s in final ==> Over(m[s]) && logs[s].got == logs[s].sent == final[s])
  }

  /** A stream that is drained and will stay so. */
  predicate Over(x: Sock) { x.kind == Stream && x.data == [] && (x.eof || x.rdShut) }

  // ---- One stretch of a call on a stream ----

  datatype RecvOutcome = NotConnected | End | Again | Interrupted | Sleeps | Got(bytes: seq<Byte>)

  function Receiving(x: Sock, size: nat, nonblock: bool, signal: bool, peek: bool): (Sock, RecvOutcome) {
    if x.data == [] then
      (x, if x.state != Connected then NotConnected
          else if x.eof || x.rdShut then End
          else if nonblock then Again
          else if signal then Interrupted else Sleeps)
    else
      var k := Min(size, |x.data|);
      (if peek then x else x.(data := x.data[k..]), Got(x.data[..k]))
  }

  /** The answer of stream_recv: what is there, as much as asked for; without anything,
      why not. */
  ghost predicate RecvSays(x: Sock, size: nat, nonblock: bool, signal: bool, r: RecvOutcome) {
    var open := x.data == [] && x.state == Connected && !x.eof && !x.rdShut;
    && (r.NotConnected? <==> x.data == [] && x.state != Connected)
    && (r.End? <==> x.data == [] && x.state == Connected && (x.eof || x.rdShut))
    && (r.Again? <==> open && nonblock)
    && (r.Interrupted? <==> open && !nonblock && signal)
    && (r.Sleeps? <==> open && !nonblock && !signal)
    && (r.Got? ==> r.bytes <= x.data && |r.bytes| == Min(size, |x.data|))
  }

  lemma ReceivingLaw(x: Sock, size: nat, nonblock: bool, signal: bool, peek: bool)
    ensures var (y, r) := Receiving(x, size, nonblock, signal, peek);
      && y == x.(data := y.data) && RecvSays(x, size, nonblock, signal, r)
      && (if r.Got? && !peek then r.bytes + y.data == x.data else y.data == x.data)
  {
  }

  datatype SendOutcome = SendNotConnected | Broken | SendAgain | SendInterrupted | SendSleeps | Count(n: nat)

  /** The sender `x`, its peer `y` if it has one, bytes done so far: the new peer,
      the new count, and what the call does next. */
  function Sending(x: Sock, y: Sock, src: seq<Byte>, done: nat, nonblock: bool, signal: bool): (Sock, nat, SendOutcome)
    requires done <= |src| && |y.data| <= SOCK_BUF
  {
    if x.state != Connected then (y, done, SendNotConnected)
    else if done == |src| then (y, done, Count(done))
    else if x.wrShut || x.peer == NULL || y.rdShut then (y, done, if done > 0 then Count(done) else Broken)
    else
      var now := done + Min(|src| - done, SOCK_BUF - |y.data|);
      (y.(data := y.data + src[done..now]), now,
       if now == |src| then Count(now)
       else if nonblock then (if now > 0 then Count(now) else SendAgain)
       else if signal then (if now > 0 then Count(now) else SendInterrupted)
       else SendSleeps)
  }

  /** The answer of stream_send from the socket `x` with `now` bytes sent in all; `dead`
      says that nothing can arrive any more. */
  ghost predicate SendSays(
    x: Sock, dead: bool, size: nat, done: nat, now: nat, nonblock: bool, signal: bool, r: SendOutcome)
  {
    var short := x.state == Connected && !dead && now < size;
    && (r.SendNotConnected? <==> x.state != Connected)
    && (r.Broken? <==> x.state == Connected && dead && done == 0 < size)
    && (r.SendAgain? <==> short && nonblock && now == 0)
    && (r.SendInterrupted? <==> short && !nonblock && signal && now == 0)
    && (r.SendSleeps? <==> short && !nonblock && !signal)
    && (r.Count? ==> r.n == now)
  }

  lemma SendingLaw(x: Sock, y: Sock, src: seq<Byte>, done: nat, nonblock: bool, signal: bool)
    requires done <= |src| && |y.data| <= SOCK_BUF && x.peer != NULL
    ensures var (z, now, r) := Sending(x, y, src, done, nonblock, signal);
      var dead := x.wrShut || y.rdShut;
      && SendSays(x, dead, |src|, done, now, nonblock, signal, r) && done <= now <= |src|
      && z == y.(data := y.data + src[done..now])
      && (x.state != Connected || dead ==> now == done)
      && (x.state == Connected && !dead ==> now == |src| || |z.data| == SOCK_BUF)
  {
    assert y.data + src[done..done] == y.data;
  }

  lemma UnsentLaw(x: Sock, done: nat, size: nat, nonblock: bool, signal: bool)
    requires done <= size
    ensures SendSays(x, true, size, done, done, nonblock, signal, Unsent(x, done, size))
  {
  }

  // ---- Changes of one or two sockets ----

  /** A change that touches neither links nor backlogs. */
  predicate Plain(a: Sock, b: Sock) {
    && b.kind == a.kind && b.state == a.state && b.peer == a.peer && b.backlog == a.backlog && b.maxback == a.maxback
    && b.eof == a.eof && b.rdShut == a.rdShut && b.wrShut == a.wrShut
  }

  lemma PlainOk(m: Socks, own: Owners, s: nat, y: Sock)
    requires NetOk(m, own) && s in m && Plain(m[s], y) && |y.data| <= SOCK_BUF && Queued(y.msgs) <= SOCK_BUF
    requires y.kind == Stream && y.state != Connected ==> y.data == []
    ensures NetOk(m[s := y], own)
  {
    var n := m[s := y];
    forall r | r in n ensures SockOk(n, own, r) { assert SockOk(m, own, r); }
  }

  lemma NewOk(m: Socks, own: Owners, s: nat, kind: Kind)
    requires NetOk(m, own) && s !in m && s != NULL
    ensures NetOk(m[s := Fresh(kind)], own[s := Fd])
  {
    var n, o := m[s := Fresh(kind)], own[s := Fd];
    forall r | r in n ensures SockOk(n, o, r) {
      if r != s { assert SockOk(m, own, r); }
    }
  }

  function Paired(m: Socks, a: nat, b: nat, kind: Kind): Socks {
    m[a := Fresh(kind).(state := Connected, peer := b)][b := Fresh(kind).(state := Connected, peer := a)]
  }

  lemma PairOk(m: Socks, own: Owners, a: nat, b: nat, kind: Kind)
    requires NetOk(m, own) && a !in m && b !in m && a != NULL && b != NULL && a != b
    ensures NetOk(Paired(m, a, b, kind), own[a := Fd][b := Fd])
  {
    var n, o := Paired(m, a, b, kind), own[a := Fd][b := Fd];
    forall r | r in n ensures SockOk(n, o, r) {
      if r != a && r != b { assert SockOk(m, own, r); }
    }
  }

  lemma ListenOk(m: Socks, own: Owners, s: nat, max: nat)
    requires NetOk(m, own) && s in m && m[s].kind == Stream && m[s].state != Connected && max <= BACKLOG
    ensures NetOk(m[s := m[s].(state := Listening, maxback := max)], own)
  {
    var n := m[s := m[s].(state := Listening, maxback := max)];
    assert SockOk(m, own, s);
    forall r | r in n ensures SockOk(n, own, r) { assert SockOk(m, own, r); }
  }

  /** What listen makes of the length asked for. */
  function Clamp(backlog: int): nat { if backlog < 1 then 1 else if backlog > BACKLOG then BACKLOG else backlog }

  /** The end of stream_connect: a new server side, connected and queued. */
  function Joined(m: Socks, s: nat, l: nat, srv: nat): Socks
    requires s in m && l in m
  {
    var n := m[srv := Fresh(Stream).(state := Connected, peer := s)][s := m[s].(state := Connected, peer := srv)];
    n[l := n[l].(backlog := n[l].backlog + [srv])]
  }

  lemma JoinOk(m: Socks, own: Owners, s: nat, l: nat, srv: nat)
    requires NetOk(m, own) && s in m && l in m && srv !in m && srv != NULL
    requires m[s].kind == Stream && s != l && m[s].state != Connected && m[s].backlog == []
    requires m[l].kind == Stream && m[l].state == Listening && |m[l].backlog| < m[l].maxback
    ensures NetOk(Joined(m, s, l, srv), own[srv := Queue(l)])
  {
    var n, o := Joined(m, s, l, srv), own[srv := Queue(l)];
    assert SockOk(m, own, s) && SockOk(m, own, l);
    forall r | r in n ensures SockOk(n, o, r) {
      assert r in m ==> SockOk(m, own, r);
      JoinPeer(m, s, l, srv, r);
      JoinBacklog(m, own, s, l, srv, r);
    }
  }

  lemma JoinPeer(m: Socks, s: nat, l: nat, srv: nat, r: nat)
    requires s in m && l in m && srv !in m && srv != NULL && NULL !in m && s != l && m[s].kind == Stream
    requires m[s].state != Connected && PeerOk(m, s) && r in Joined(m, s, l, srv) && (r in m ==> PeerOk(m, r))
    ensures PeerOk(Joined(m, s, l, srv), r)
  {
    assert Queued([]) == 0;
    hide Queued;
  }

  lemma JoinBacklog(m: Socks, own: Owners, s: nat, l: nat, srv: nat, r: nat)
    requires s in m && l in m && srv !in m && s != l && m[s].backlog == [] && r in Joined(m, s, l, srv)
    requires m[s].state != Connected && own.Keys == m.Keys && BacklogOk(m, own, l)
    requires m[l].kind == Stream && m[l].state == Listening && |m[l].backlog| < m[l].maxback
    requires r in m ==> BacklogOk(m, own, r) && HomeOk(m, own, r)
    ensures var n, o := Joined(m, s, l, srv), own[srv := Queue(l)]; BacklogOk(n, o, r) && HomeOk(n, o, r)
  {
    var n, o := Joined(m, s, l, srv), own[srv := Queue(l)];
    forall i | 0 <= i < |n[r].backlog| ensures Waiting(n, o, r, n[r].backlog[i]) {
      if i < |m[l].backlog| && r == l { assert Waiting(m, own, l, m[l].backlog[i]); }
      if r != l && r != srv { assert Waiting(m, own, r, m[r].backlog[i]); }
    }
  }

  /** The socket `s` can be joined to the listener `l` without breaking a link. */
  predicate FreeToJoin(m: Socks, s: nat, l: nat)
    requires s in m
  {
    s != l && m[s].state != Connected && m[s].backlog == []
  }

  /** A datagram socket gets a name to send to, or loses it. */
  function Named(m: Socks, s: nat, named: bool): Socks
    requires s in m
  {
    m[s := m[s].(named := named, state := if named then Connected else Unconnected)]
  }

  lemma NamedOk(m: Socks, own: Owners, logs: map<nat, Log>, final: map<nat, seq<Byte>>, s: nat, named: bool)
    requires NetOk(m, own) && LogOk(m, logs, final) && s in m && m[s].kind == Dgram
    ensures NetOk(Named(m, s, named), own) && LogOk(Named(m, s, named), logs, final)
  {
    hide NetOk, LogOk;
    NamedNet(m, own, s, named);
    NamedFields(m, s, named);
    hide Named;
    LogKept(m, Named(m, s, named), logs, final);
  }

  lemma NamedNet(m: Socks, own: Owners, s: nat, named: bool)
    requires NetOk(m, own) && s in m && m[s].kind == Dgram
    ensures NetOk(Named(m, s, named), own)
  {
    hide SockOk;
    var n := Named(m, s, named);
    NamedFields(m, s, named);
    hide Named;
    forall r | r in n ensures SockOk(n, own, r) {
      assert SockOk(m, own, r);
      NamedSock(m, n, own, s, r);
    }
  }

  /** Nothing but name and state of `s` changed. */
  ghost predicate Renamed(m: Socks, n: Socks, s: nat) {
    n.Keys == m.Keys && forall r :: r in m ==>
      && n[r].kind == m[r].kind && n[r].peer == m[r].peer && n[r].data == m[r].data && n[r].msgs == m[r].msgs
      && n[r].backlog == m[r].backlog && n[r].maxback == m[r].maxback && n[r].eof == m[r].eof
      && n[r].rdShut == m[r].rdShut && n[r].wrShut == m[r].wrShut && (r != s ==> n[r].state == m[r].state)
  }

  lemma NamedFields(m: Socks, s: nat, named: bool)
    requires s in m
    ensures Renamed(m, Named(m, s, named), s)
  {
  }

  lemma NamedSock(m: Socks, n: Socks, own: Owners, s: nat, r: nat)
    requires s in m && r in m && m[s].kind == Dgram && Renamed(m, n, s) && SockOk(m, own, r)
    ensures SockOk(n, own, r)
  {
    forall i | 0 <= i < |n[r].backlog| ensures Waiting(n, own, r, n[r].backlog[i]) {
      assert Waiting(m, own, r, m[r].backlog[i]);
    }
  }

  /** A connect that slept does not look at its own socket again. What it does then
      keeps the links right exactly if the socket is still as it was, or has become
      a listener that nobody is queued on. */
  lemma JoinExact(m: Socks, own: Owners, s: nat, l: nat, srv: nat)
    requires NetOk(m, own) && s in m && l in m && srv !in m && srv != NULL && m[s].kind == Stream
    requires m[l].kind == Stream && m[l].state == Listening && |m[l].backlog| < m[l].maxback
    ensures NetOk(Joined(m, s, l, srv), own[srv := Queue(l)]) <==> FreeToJoin(m, s, l)
  {
    hide NetOk, Joined;
    if FreeToJoin(m, s, l) {
      JoinOk(m, own, s, l, srv);
    } else {
      JoinBad(m, own, s, l, srv);
    }
  }

  lemma JoinBad(m: Socks, own: Owners, s: nat, l: nat, srv: nat)
    requires NetOk(m, own) && s in m && l in m && srv !in m && srv != NULL && m[s].kind == Stream
    requires s == l || m[s].state == Connected || m[s].backlog != []
    ensures !NetOk(Joined(m, s, l, srv), own[srv := Queue(l)])
  {
    var n, o := Joined(m, s, l, srv), own[srv := Queue(l)];
    assert SockOk(m, own, s);
    assert NetOk(n, o) ==> SockOk(n, o, s) && SockOk(n, o, srv);
    var p := m[s].peer;
    assert p != NULL && NetOk(n, o) ==> p in n && p != s && n[p].peer == s && SockOk(n, o, p);
    assert p == NULL && m[s].state == Connected ==> n[s].eof;
    assert s == l || m[s].backlog != [] ==> n[s].backlog != [] && n[s].state == Connected;
  }

  /** Socket 1 is connected to 2 and socket 3 listens: a connect of 1 that slept before
      its other connect went through now joins it to 4, and 2 is left with a peer that
      has another one. */
  lemma JoinTwiceExample()
    ensures var end := Fresh(Stream).(state := Connected);
      var m := map[1 := end.(peer := 2), 2 := end.(peer := 1), 3 := Fresh(Stream).(state := Listening, maxback := 1)];
      var own := map[1 := Fd, 2 := Fd, 3 := Fd];
      && NetOk(m, own) && !NetOk(Joined(m, 1, 3, 4), own[4 := Queue(3)])
      && Joined(m, 1, 3, 4)[2].peer == 1 && Joined(m, 1, 3, 4)[1].peer == 4
  {
    var end := Fresh(Stream).(state := Connected);
    var m := map[1 := end.(peer := 2), 2 := end.(peer := 1), 3 := Fresh(Stream).(state := Listening, maxback := 1)];
    var own := map[1 := Fd, 2 := Fd, 3 := Fd];
    forall r | r in m ensures SockOk(m, own, r) {
    }
    JoinExact(m, own, 1, 3, 4);
  }

  /** The end of sys_accept4: the first of the backlog leaves it. */
  lemma AcceptOk(m: Socks, own: Owners, l: nat, to: Owner)
    requires NetOk(m, own) && l in m && m[l].backlog != [] && !to.Queue?
    ensures var c := m[l].backlog[0];
      && NetOk(m[l := m[l].(backlog := m[l].backlog[1..])], own[c := to])
      && c in m && c != l && m[c].backlog == [] && m[c].kind == Stream && m[c].state == Connected
  {
    var q := m[l].backlog;
    var c := q[0];
    assert SockOk(m, own, l) && Waiting(m, own, l, q[0]);
    assert SockOk(m, own, c);
    var n, o := m[l := m[l].(backlog := q[1..])], own[c := to];
    forall r | r in n ensures SockOk(n, o, r) {
      assert SockOk(m, own, r);
      forall i | 0 <= i < |n[r].backlog| ensures Waiting(n, o, r, n[r].backlog[i]) {
        assert r == l ==> n[r].backlog[i] == q[i + 1] && Waiting(m, own, r, q[i + 1]);
        assert r != l ==> Waiting(m, own, r, m[r].backlog[i]);
      }
      assert r != c && own[r] == Queue(l) ==> r in q[1..];
    }
  }

  /** sock_free of a socket without backlog: its peer learns that nothing more comes. */
  function Freed(m: Socks, s: nat): Socks
    requires s in m
  {
    var p := m[s].peer;
    (if p in m then m[p := m[p].(peer := NULL, eof := true)] else m) - {s}
  }

  lemma FreedOk(m: Socks, own: Owners, s: nat)
    requires NetOk(m, own) && s in m && m[s].backlog == [] && !own[s].Queue?
    ensures NetOk(Freed(m, s), own - {s})
  {
    var n, o := Freed(m, s), own - {s};
    assert SockOk(m, own, s);
    forall r | r in n ensures SockOk(n, o, r) {
      assert SockOk(m, own, r);
      forall i | 0 <= i < |n[r].backlog| ensures Waiting(n, o, r, n[r].backlog[i]) {
        assert Waiting(m, own, r, m[r].backlog[i]);
      }
    }
  }

  /** The sockets `dead` go at once, and their peers learn it. */
  function Closed(m: Socks, dead: set<nat>): Socks {
    map r | r in m && r !in dead :: if m[r].peer in dead then m[r].(peer := NULL, eof := true) else m[r]
  }

  function Elements(q: seq<nat>): set<nat> { set c | c in q }

  lemma FreedIsClosed(m: Socks, own: Owners, s: nat)
    requires NetOk(m, own) && s in m
    ensures Freed(m, s) == Closed(m, {s})
  {
    forall r | r in m && r != s && (m[r].peer == s || m[s].peer == r) ensures Freed(m, s)[r] == Closed(m, {s})[r] {
      assert SockOk(m, own, r) && SockOk(m, own, s);
    }
  }

  /** A listener while its backlog goes: `dead` are gone, `q` is left. */
  function Emptied(m: Socks, s: nat, dead: set<nat>, q: seq<nat>): Socks
    requires s in m
  {
    Closed(m, dead)[s := m[s].(backlog := q)]
  }

  /** The next of the backlog `q` of `s` goes. */
  lemma EmptiedStep(m: Socks, s: nat, q: seq<nat>, i: nat)
    requires s in m && m[s].peer == NULL && NULL !in q && s !in q && i < |q|
    ensures q[i..][0] == q[i] && q[i..][1..] == q[i + 1..]
    ensures var n := Emptied(m, s, Elements(q[..i]), q[i..]);
      Closed(n[s := n[s].(backlog := q[i + 1..])], {q[i]}) == Emptied(m, s, Elements(q[..i + 1]), q[i + 1..])
  {
    var dead, rest := Elements(q[..i]), q[i + 1..];
    assert Elements(q[..i + 1]) == dead + {q[i]} by { assert q[..i + 1] == q[..i] + [q[i]]; }
    assert NULL !in dead && s !in dead;
    hide Elements, Closed;
    EmptiedNext(m, s, dead, rest, q[i]);
    EmptiedCut(m, s, dead, q[i..], rest);
  }

  lemma EmptiedCut(m: Socks, s: nat, dead: set<nat>, q: seq<nat>, rest: seq<nat>)
    requires s in m
    ensures var n := Emptied(m, s, dead, q); n[s := n[s].(backlog := rest)] == Emptied(m, s, dead, rest)
  {
    hide Closed;
  }

  lemma EmptiedNext(m: Socks, s: nat, dead: set<nat>, q: seq<nat>, c: nat)
    requires s in m && m[s].peer == NULL && NULL !in dead && s !in dead && c != NULL && c != s
    ensures Closed(Emptied(m, s, dead, q), {c}) == Emptied(m, s, dead + {c}, q)
  {
    var n, z := Closed(Emptied(m, s, dead, q), {c}), Emptied(m, s, dead + {c}, q);
    assert n.Keys == z.Keys;
    forall r | r in z ensures n[r] == z[r] {
    }
  }

  lemma EmptiedLast(m: Socks, s: nat, dead: set<nat>, q: seq<nat>)
    requires s in m && NULL !in dead && s !in dead && s != NULL
    ensures Closed(Emptied(m, s, dead, q), {s}) == Closed(m, {s} + dead)
  {
    var n, z := Closed(Emptied(m, s, dead, q), {s}), Closed(m, {s} + dead);
    assert n.Keys == z.Keys;
    forall r | r in z ensures n[r] == z[r] {
    }
  }

  /** Before anything of the backlog goes, and what the rest of it is like. */
  lemma EmptiedFirst(m: Socks, own: Owners, s: nat)
    requires NetOk(m, own) && s in m
    ensures Emptied(m, s, {}, m[s].backlog) == m && NULL !in m && s !in m[s].backlog && NULL !in m[s].backlog
    ensures m[s].backlog != [] ==> m[s].peer == NULL
  {
    assert SockOk(m, own, s);
    forall i | 0 <= i < |m[s].backlog| ensures Waiting(m, own, s, m[s].backlog[i]) {
    }
    assert Closed(m, {}) == m;
  }

  /** sock_free of a listener leaves everything right. */
  lemma ClosedOk(m: Socks, own: Owners, s: nat)
    requires NetOk(m, own) && s in m && own[s] == Fd
    ensures NetOk(Closed(m, {s} + Elements(m[s].backlog)), own - ({s} + Elements(m[s].backlog)))
  {
    var dead := {s} + Elements(m[s].backlog);
    var n, o := Closed(m, dead), own - dead;
    assert SockOk(m, own, s);
    forall i | 0 <= i < |m[s].backlog| ensures Waiting(m, own, s, m[s].backlog[i]) {
    }
    forall r | r in n ensures SockOk(n, o, r) {
      ClosedSock(m, own, s, r);
    }
  }

  lemma ClosedSock(m: Socks, own: Owners, s: nat, r: nat)
    requires NetOk(m, own) && s in m && own[s] == Fd && r in Closed(m, {s} + Elements(m[s].backlog))
    ensures SockOk(Closed(m, {s} + Elements(m[s].backlog)), own - ({s} + Elements(m[s].backlog)), r)
  {
    var dead := {s} + Elements(m[s].backlog);
    var n, o := Closed(m, dead), own - dead;
    assert SockOk(m, own, s) && SockOk(m, own, r);
    assert m[r].peer != NULL ==> SockOk(m, own, m[r].peer);
    forall i | 0 <= i < |n[r].backlog| ensures Waiting(n, o, r, n[r].backlog[i]) {
      assert Waiting(m, own, r, m[r].backlog[i]);
    }
    if own[r].Queue? {
      var l := own[r].l;
      assert SockOk(m, own, l);
      assert l in m[s].backlog ==> Waiting(m, own, s, l);
    }
  }

  /** sys_shutdown */
  function ShutDown(m: Socks, s: nat, rd: bool, wr: bool): Socks
    requires s in m
  {
    var n := m[s := m[s].(rdShut := m[s].rdShut || rd, wrShut := m[s].wrShut || wr)];
    if wr && m[s].peer in n && m[s].peer != s then n[m[s].peer := n[m[s].peer].(eof := true)] else n
  }

  /** Shutting down changes flags only. */
  lemma ShutFields(m: Socks, s: nat, rd: bool, wr: bool)
    requires s in m
    ensures var n := ShutDown(m, s, rd, wr); n.Keys == m.Keys && forall r :: r in m ==> Linked(m[r], n[r])
  {
  }

  ghost predicate Linked(a: Sock, b: Sock) {
    b.kind == a.kind && b.state == a.state && b.peer == a.peer && b.backlog == a.backlog && b.maxback == a.maxback
  }

  lemma ShutPeer(m: Socks, s: nat, rd: bool, wr: bool, r: nat)
    requires s in m && r in m && m[s].state == Connected && NULL !in m && PeerOk(m, s) && PeerOk(m, r)
    requires (m[r].peer in m ==> PeerOk(m, m[r].peer)) && (m[s].peer in m ==> PeerOk(m, m[s].peer))
    ensures r in ShutDown(m, s, rd, wr) && PeerOk(ShutDown(m, s, rd, wr), r)
  {
  }

  lemma ShutOk(m: Socks, own: Owners, s: nat, rd: bool, wr: bool)
    requires NetOk(m, own) && s in m && m[s].state == Connected
    ensures NetOk(ShutDown(m, s, rd, wr), own)
  {
    hide ShutDown, PeerOk;
    var n := ShutDown(m, s, rd, wr);
    ShutFields(m, s, rd, wr);
    forall r | r in n ensures SockOk(n, own, r) {
      assert SockOk(m, own, r) && SockOk(m, own, s);
      assert m[r].peer in m ==> SockOk(m, own, m[r].peer);
      assert m[s].peer in m ==> SockOk(m, own, m[s].peer);
      ShutPeer(m, s, rd, wr, r);
      forall i | 0 <= i < |n[r].backlog| ensures Waiting(n, own, r, n[r].backlog[i]) {
        assert Waiting(m, own, r, m[r].backlog[i]);
      }
    }
  }

  // ---- The logs ----

  /** Putting bytes into a stream that is not over. */
  lemma FlowPut(x: Sock, g: Log, b: seq<Byte>)
    requires FlowOk(x, g)
    ensures FlowOk(x.(data := x.data + b), g.(sent := g.sent + b))
  {
    assert g.got + (x.data + b) == (g.got + x.data) + b;
  }

  lemma FlowTake(x: Sock, g: Log, k: nat)
    requires FlowOk(x, g) && k <= |x.data|
    ensures FlowOk(x.(data := x.data[k..]), g.(got := g.got + x.data[..k]))
  {
    assert (g.got + x.data[..k]) + x.data[k..] == g.got + x.data;
  }

  lemma FlowQueue(x: Sock, g: Log, c: nat)
    requires FlowOk(x, g)
    ensures FlowOk(x.(backlog := x.backlog + [c]), g.(made := g.made + [c]))
    ensures x.backlog != [] ==> FlowOk(x.(backlog := x.backlog[1..]), g.(out := g.out + [x.backlog[0]]))
    ensures FlowOk(x.(backlog := []), g.(out := g.made))
  {
    assert g.out + (x.backlog + [c]) == (g.out + x.backlog) + [c];
    if x.backlog != [] { assert (g.out + [x.backlog[0]]) + x.backlog[1..] == g.out + x.backlog; }
    assert g.made + [] == g.made;
  }

  lemma FlowMsg(x: Sock, g: Log, b: seq<Byte>)
    requires FlowOk(x, g)
    ensures FlowOk(x.(msgs := x.msgs + [b]), g.(sentMsgs := g.sentMsgs + [b]))
    ensures x.msgs != [] ==> FlowOk(x.(msgs := x.msgs[1..]), g.(gotMsgs := g.gotMsgs + [x.msgs[0]]))
  {
    assert g.gotMsgs + (x.msgs + [b]) == (g.gotMsgs + x.msgs) + [b];
    if x.msgs != [] { assert (g.gotMsgs + [x.msgs[0]]) + x.msgs[1..] == g.gotMsgs + x.msgs; }
  }

  lemma {:induction false} QueuedFirst(msgs: seq<seq<Byte>>)
    requires msgs != []
    ensures Queued(msgs) == |msgs[0]| + Queued(msgs[1..])
  {
    if |msgs| > 1 {
      var rest := msgs[..|msgs| - 1];
      QueuedFirst(rest);
      assert msgs[1..][..|msgs| - 2] == rest[1..];
    }
  }

  /** Changes other than to what the logs speak of. */
  lemma LogKept(m: Socks, n: Socks, logs: map<nat, Log>, final: map<nat, seq<Byte>>)
    requires LogOk(m, logs, final) && n.Keys == m.Keys
    requires forall s :: s in m ==>
      && n[s].kind == m[s].kind && n[s].data == m[s].data && n[s].msgs == m[s].msgs && n[s].backlog == m[s].backlog
      && (Over(m[s]) ==> Over(n[s]))
    ensures LogOk(n, logs, final)
  {
  }

  /** One socket and its log change. */
  lemma LogOne(m: Socks, logs: map<nat, Log>, final: map<nat, seq<Byte>>, s: nat, x: Sock, g: Log)
    requires LogOk(m, logs, final) && FlowOk(x, g) && (s in final ==> Over(x) && g.got == g.sent == final[s])
    ensures LogOk(m[s := x], logs[s := g], final)
  {
  }

  lemma FlowFresh(kind: Kind)
    ensures FlowOk(Fresh(kind), NoLog())
  {
  }

  // ---- The sockets there are ----

  /** What stream_send says without a peer. */
  function Unsent(x: Sock, done: nat, size: nat): SendOutcome {
    if x.state != Connected then SendNotConnected else if done == size || done > 0 then Count(done) else Broken
  }

  class SocketTable {
    var socks: Socks
    /** Which sockets descriptors refer to, and which wait in a backlog. */
    var own: Owners
    ghost var logs: map<nat, Log>
    ghost var final: map<nat, seq<Byte>>

    /** Links are mutual; a backlog holds connected streams that nobody else has, in
        the order they were made; what was received and what is buffered is what was
        sent; and a stream that reported its end never gets another byte. */
    ghost predicate Valid()
      reads this
    {
      NetOk(socks, own) && LogOk(socks, logs, final)
    }

    constructor ()
      ensures Valid() && socks == map[]
    {
      socks, own, logs, final := map[], map[], map[], map[];
    }

    /** sys_socket */
    method Create(s: nat, kind: Kind)
      requires Valid() && s != NULL && s !in socks
      modifies this
      ensures forall t :: t in final ==> t in old(final) && final[t] == old(final)[t]
      ensures forall t :: t in old(final) && t in socks ==> t in final
      ensures Valid() && socks == old(socks)[s := Fresh(kind)] && own == old(own)[s := Fd]
    {
      hide NetOk;
      NewOk(socks, own, s, kind);
      FlowFresh(kind);
      final := final - {s};
      LogOne(socks, logs, final, s, Fresh(kind), NoLog());
      socks := socks[s := Fresh(kind)];
      own := own[s := Fd];
      logs := logs[s := NoLog()];
    }

    /** sys_socketpair */
    method Pair(a: nat, b: nat, kind: Kind)
      requires Valid() && a != NULL && b != NULL && a != b && a !in socks && b !in socks
      modifies this
      ensures forall t :: t in final ==> t in old(final) && final[t] == old(final)[t]
      ensures forall t :: t in old(final) && t in socks ==> t in final
      ensures Valid() && socks == Paired(old(socks), a, b, kind) && own == old(own)[a := Fd][b := Fd]
    {
      hide NetOk;
      PairOk(socks, own, a, b, kind);
      var x, y := Fresh(kind), Fresh(kind);
      x := x.(peer := b);
      y := y.(peer := a);
      x, y := x.(state := Connected), y.(state := Connected);
      final := final - {a, b};
      LogOne(socks, logs, final, a, x, NoLog());
      LogOne(socks[a := x], logs[a := NoLog()], final, b, y, NoLog());
      socks := socks[a := x][b := y];
      own := own[a := Fd][b := Fd];
      logs := logs[a := NoLog()][b := NoLog()];
    }

    /** sys_listen; `bound` says whether bind was called. */
    method Listen(s: nat, bound: bool, backlog: int) returns (ok: bool)
      requires Valid() && s in socks
      modifies this`socks
      ensures Valid() && (ok <==> old(socks)[s].kind == Stream && bound && old(socks)[s].state != Connected)
      ensures socks == if ok then old(socks)[s := old(socks)[s].(state := Listening, maxback := Clamp(backlog))]
        else old(socks)
    {
      hide NetOk, LogOk;
      if socks[s].kind != Stream || !bound || socks[s].state == Connected { return false; }
      var max := if backlog < 1 then 1 else if backlog > BACKLOG then BACKLOG else backlog;
      assert max == Clamp(backlog);
      ListenOk(socks, own, s, max);
      LogKept(socks, socks[s := socks[s].(state := Listening, maxback := max)], logs, final);
      socks := socks[s := socks[s].(state := Listening, maxback := max)];
      return true;
    }

    /** One stretch of stream_connect past its first two tests. `l` is what the path
        leads to, NULL for nothing. Other calls may have changed the socket while the
        connect slept; then the links are right afterwards exactly if it is still
        free to connect. */
    method ConnectOn(s: nat, l: nat, srv: nat, memory: bool, nonblock: bool, signal: bool) returns (r: ConnectOutcome)
      requires Valid() && s in socks && socks[s].kind == Stream
      requires (l == NULL || l in socks) && srv != NULL && srv !in socks
      modifies this
      ensures r != Made ==> Valid()
      ensures r == Made ==> l in old(socks) && (Valid() <==> FreeToJoin(old(socks), s, l))
      ensures r == Made ==> socks == Joined(old(socks), s, l, srv) && own == old(own)[srv := Queue(l)]
      ensures r == Made <==>
        && l != NULL && old(socks)[l].kind == Stream && old(socks)[l].state == Listening
        && |old(socks)[l].backlog| < old(socks)[l].maxback && memory
      ensures r != Made ==> socks == old(socks) && own == old(own) && r == Hindrance(old(socks), l, nonblock, signal)
      ensures forall t :: t in final ==> t in old(final) && final[t] == old(final)[t]
      ensures forall t :: t in old(final) && t in socks ==> t in final
    {
      hide NetOk, LogOk;
      NullOut(socks, own);
      if l == NULL { return Refused; }
      if socks[l].kind != Stream { return WrongType; }
      if socks[l].state != Listening { return Refused; }
      if |socks[l].backlog| >= socks[l].maxback {
        return if nonblock then ConnectAgain else if signal then ConnectInterrupted else ConnectSleeps;
      }
      if !memory { return NoMemory; }
      LogThere(socks, logs, final, l);
      JoinExact(socks, own, s, l, srv);
      if FreeToJoin(socks, s, l) {
        FreeFacts(socks, own, s);
        JoinLog(socks, logs, final, s, l, srv);
      }
      LogFinal(socks, logs, final);
      ghost var m := socks;
      socks := socks[srv := Fresh(Stream).(state := Connected, peer := s)];
      socks := socks[s := socks[s].(state := Connected, peer := srv)];
      socks := socks[l := socks[l].(backlog := socks[l].backlog + [srv])];
      own := own[srv := Queue(l)];
      logs := logs[srv := NoLog()][l := logs[l].(made := logs[l].made + [srv])];
      final := final - {srv};
      return Made;
    }

    /** connect of a datagram socket to a name, which leads to `t`, NULL for nothing. */
    method ConnectName(s: nat, t: nat) returns (r: ConnectOutcome)
      requires Valid() && s in socks && socks[s].kind == Dgram && (t == NULL || t in socks)
      modifies this`socks
      ensures Valid() && r == if t == NULL then Refused else if old(socks)[t].kind == Dgram then Made else WrongType
      ensures socks == if r == Made then Named(old(socks), s, true) else old(socks)
    {
      hide NetOk, LogOk;
      NullOut(socks, own);
      if t == NULL { return Refused; }
      if socks[t].kind != Dgram { return WrongType; }
      NamedOk(socks, own, logs, final, s, true);
      socks := socks[s := socks[s].(named := true, state := Connected)];
      return Made;
    }

    /** connect of a datagram socket to AF_UNSPEC: the name is forgotten; the other end
        of a pair stays. */
    method Dissolve(s: nat)
      requires Valid() && s in socks && socks[s].kind == Dgram
      modifies this`socks
      ensures Valid() && socks == Named(old(socks), s, false)
    {
      hide NetOk, LogOk;
      NamedOk(socks, own, logs, final, s, false);
      socks := socks[s := socks[s].(named := false, state := Unconnected)];
    }

    /** One stretch of sys_accept4. `installed` says whether the address could be
        stored and a descriptor found; if not, the connection is closed. */
    method Accept(l: nat, nonblock: bool, signal: bool, installed: bool) returns (r: AcceptOutcome)
      requires Valid() && l in socks
      modifies this
      ensures Valid()
      ensures r == NotListening <==> old(socks)[l].state != Listening
      ensures r.Accepted? || r.Lost? <==> old(socks)[l].state == Listening && old(socks)[l].backlog != []
      ensures r.Accepted? || r.Lost? ==> r.c == old(socks)[l].backlog[0] && r.Accepted? == installed
      ensures r.Accepted? ==> r.c in socks && own == old(own)[r.c := Fd]
      ensures r.Accepted? ==> socks == old(socks)[l := old(socks)[l].(backlog := old(socks)[l].backlog[1..])]
      ensures r.Lost? ==>
        && own == old(own) - {r.c}
        && socks == Closed(old(socks)[l := old(socks)[l].(backlog := old(socks)[l].backlog[1..])], {r.c})
      ensures !r.Accepted? && !r.Lost? ==> socks == old(socks) && own == old(own)
      ensures old(socks)[l].state == Listening && old(socks)[l].backlog == [] ==>
        r == if nonblock then AcceptAgain else if signal then AcceptInterrupted else AcceptSleeps
      ensures forall t :: t in final ==> t in old(final) && final[t] == old(final)[t]
      ensures forall t :: t in old(final) && t in socks ==> t in final
    {
      hide NetOk, LogOk;
      if socks[l].state != Listening { return NotListening; }
      if socks[l].backlog == [] {
        return if nonblock then AcceptAgain else if signal then AcceptInterrupted else AcceptSleeps;
      }
      var c := TakeFirst(l, if installed then Fd else Hand);
      if installed { return Accepted(c); }
      FreedIsClosed(socks, own, c);
      FreeOne(c);
      return Lost(c);
    }

    /** The oldest connection leaves a backlog. */
    method TakeFirst(l: nat, to: Owner) returns (c: nat)
      requires Valid() && l in socks && socks[l].backlog != [] && !to.Queue?
      modifies this`socks, this`own, this`logs
      ensures Valid() && l in old(own) && own == old(own)[c := to]
      ensures c == old(socks)[l].backlog[0]
      ensures socks == old(socks)[l := old(socks)[l].(backlog := old(socks)[l].backlog[1..])]
      ensures c in socks && c != l && c in own && socks[c].backlog == []
    {
      hide NetOk, LogOk;
      Sound(socks, own, l);
      c := socks[l].backlog[0];
      AcceptOk(socks, own, l, to);
      LogThere(socks, logs, final, l);
      FlowQueue(socks[l], logs[l], NULL);
      ghost var x := socks[l].(backlog := socks[l].backlog[1..]);
      ghost var g := logs[l].(out := logs[l].out + [c]);
      LogOne(socks, logs, final, l, x, g);
      socks := socks[l := socks[l].(backlog := socks[l].backlog[1..])];
      own := own[c := to];
      logs := logs[l := g];
    }

    /** One stretch of stream_recv. The end is reported only when everything sent has
        been taken out. */
    method Recv(s: nat, size: nat, nonblock: bool, signal: bool, peek: bool) returns (r: RecvOutcome)
      requires Valid() && s in socks && socks[s].kind == Stream
      modifies this`socks, this`logs, this`final
      ensures Valid() && s in logs && s in old(logs)
      ensures (socks[s], r) == Receiving(old(socks)[s], size, nonblock, signal, peek)
      ensures socks == old(socks)[s := socks[s]]
      ensures logs == if r.Got? && !peek then old(logs)[s := old(logs)[s].(got := old(logs)[s].got + r.bytes)]
        else old(logs)
      ensures r == End ==> s in final && logs[s].got == logs[s].sent == final[s]
      ensures forall t :: t in old(final) ==> t in final && final[t] == old(final)[t]
      ensures var x := old(socks)[s];
        && socks == old(socks)[s := x.(data := socks[s].data)] && RecvSays(x, size, nonblock, signal, r)
        && (if r.Got? && !peek then r.bytes + socks[s].data == x.data else socks[s].data == x.data)
    {
      hide NetOk, LogOk, FlowOk, PeerOk, Queued, RecvSays;
      ReceivingLaw(socks[s], size, nonblock, signal, peek);
      LogThere(socks, logs, final, s);
      if |socks[s].data| == 0 {
        if socks[s].state != Connected { return NotConnected; }
        if socks[s].eof || socks[s].rdShut {
          EndLog(socks, logs, final, s);
          final := final[s := logs[s].got];
          return End;
        }
        return if nonblock then Again else if signal then Interrupted else Sleeps;
      }
      var k := if size < |socks[s].data| then size else |socks[s].data|;
      var dst := socks[s].data[..k];
      if !peek { Consume(s, k); }
      return Got(dst);
    }

    /** Bytes leave a stream's buffer. */
    method Consume(s: nat, k: nat)
      requires Valid() && s in socks && socks[s].kind == Stream && 0 <= k <= |socks[s].data| && socks[s].data != []
      modifies this`socks, this`logs
      ensures Valid() && socks == old(socks)[s := old(socks)[s].(data := old(socks)[s].data[k..])]
      ensures s in old(logs)
      ensures logs == old(logs)[s := old(logs)[s].(got := old(logs)[s].got + old(socks)[s].data[..k])]
    {
      hide NetOk, LogOk, FlowOk, PeerOk, Queued;
      LogThere(socks, logs, final, s);
      Buffers(socks, own, s);
      var y := socks[s].(data := socks[s].data[k..]);
      PlainOk(socks, own, s, y);
      FlowTake(socks[s], logs[s], k);
      ghost var g := logs[s].(got := logs[s].got + socks[s].data[..k]);
      LogOne(socks, logs, final, s, y, g);
      socks := socks[s := y];
      logs := logs[s := g];
    }

    /** One stretch of stream_send: the next bytes go into the peer's buffer, as many as
        fit, as long as they can arrive. */
    method Send(s: nat, src: seq<Byte>, done: nat, nonblock: bool, signal: bool) returns (now: nat, r: SendOutcome)
      requires Valid() && s in socks && socks[s].kind == Stream && done <= |src|
      modifies this`socks, this`logs
      ensures Valid() && (old(socks)[s].peer == NULL || old(socks)[s].peer in old(socks))
      ensures var p := old(socks)[s].peer;
        if p == NULL then socks == old(socks) && (now, r) == (done, Unsent(old(socks)[s], done, |src|))
        else p in old(socks) && |old(socks)[p].data| <= SOCK_BUF && p in socks && socks == old(socks)[p := socks[p]]
             && (socks[p], now, r) == Sending(old(socks)[s], old(socks)[p], src, done, nonblock, signal)
      ensures var p := old(socks)[s].peer;
        done <= now <= |src| && (p == NULL ==> logs == old(logs)) && (p != NULL ==>
          p in old(logs) && logs == old(logs)[p := old(logs)[p].(sent := old(logs)[p].sent + src[done..now])])
      ensures var x, p := old(socks)[s], old(socks)[s].peer;
        SendSays(x, x.wrShut || p == NULL || old(socks)[p].rdShut, |src|, done, now, nonblock, signal, r)
      ensures var x, p := old(socks)[s], old(socks)[s].peer;
        if p == NULL then now == done && socks == old(socks)
        else
          && p in socks && socks == old(socks)[p := old(socks)[p].(data := old(socks)[p].data + src[done..now])]
          && (if x.state == Connected && !x.wrShut && !old(socks)[p].rdShut
              then now == |src| || |socks[p].data| == SOCK_BUF else now == done)
    {
      hide NetOk, LogOk, Sending, SendSays, Unsent;
      Sound(socks, own, s);
      UnsentLaw(socks[s], done, |src|, nonblock, signal);
      var p := socks[s].peer;
      if p != NULL {
        Sound(socks, own, p);
        SendingLaw(socks[s], socks[p], src, done, nonblock, signal);
      }
      now, r := SendOn(s, src, done, nonblock, signal);
    }

    method SendOn(s: nat, src: seq<Byte>, done: nat, nonblock: bool, signal: bool) returns (now: nat, r: SendOutcome)
      requires Valid() && s in socks && socks[s].kind == Stream && done <= |src|
      modifies this`socks, this`logs
      ensures Valid()
      ensures var p := old(socks)[s].peer;
        if p == NULL then socks == old(socks) && (now, r) == (done, Unsent(old(socks)[s], done, |src|))
        else p in old(socks) && |old(socks)[p].data| <= SOCK_BUF && p in socks && socks == old(socks)[p := socks[p]]
             && (socks[p], now, r) == Sending(old(socks)[s], old(socks)[p], src, done, nonblock, signal)
      ensures var p := old(socks)[s].peer;
        done <= now <= |src| && (p == NULL ==> logs == old(logs)) && (p != NULL ==>
          p in old(logs) && logs == old(logs)[p := old(logs)[p].(sent := old(logs)[p].sent + src[done..now])])
    {
      hide NetOk, LogOk;
      Sound(socks, own, s);
      now := done;
      if socks[s].state != Connected {
        return now, SendNotConnected;
      }
      var p := socks[s].peer;
      if p != NULL {
        LogThere(socks, logs, final, p);
        Sound(socks, own, p);
        assert logs[p].sent + src[done..done] == logs[p].sent && socks[p].data + src[done..done] == socks[p].data;
      }
      while now < |src|
        invariant done <= now <= |src|
        invariant now > done || (socks == old(socks) && logs == old(logs))
        invariant now > done ==> p != NULL && !old(socks)[s].wrShut && !old(socks)[p].rdShut
        invariant now > done ==> now == done + Min(|src| - done, SOCK_BUF - |old(socks)[p].data|)
        invariant now > done ==> socks == old(socks)[p := old(socks)[p].(data := old(socks)[p].data + src[done..now])]
        invariant now > done ==> logs == old(logs)[p := old(logs)[p].(sent := old(logs)[p].sent + src[done..now])]
        invariant Valid()
        decreases |src| - now, if now == done then 1 else 0
      {
        if socks[s].wrShut || p == NULL || socks[p].rdShut {
          return now, if now > 0 then Count(now) else Broken;
        }
        if |socks[p].data| == SOCK_BUF {
          if nonblock { return now, if now > 0 then Count(now) else SendAgain; }
          if signal { return now, if now > 0 then Count(now) else SendInterrupted; }
          return now, SendSleeps;
        }
        now := Fill(s, p, src, now);
      }
      return now, Count(now);
    }

    /** The inner loop of stream_send: as much as the peer's buffer takes. */
    method Fill(s: nat, p: nat, src: seq<Byte>, done: nat) returns (now: nat)
      requires Valid() && s in socks && socks[s].kind == Stream && socks[s].peer == p != NULL && p in socks
      requires !socks[s].wrShut && !socks[p].rdShut && done <= |src| && |socks[p].data| <= SOCK_BUF && p in logs
      modifies this`socks, this`logs
      ensures Valid() && now == done + Min(|src| - done, SOCK_BUF - |old(socks)[p].data|)
      ensures socks == old(socks)[p := old(socks)[p].(data := old(socks)[p].data + src[done..now])]
      ensures logs == old(logs)[p := old(logs)[p].(sent := old(logs)[p].sent + src[done..now])]
    {
      hide NetOk, LogOk;
      Sound(socks, own, s);
      Sound(socks, own, p);
      LogThere(socks, logs, final, p);
      now := done + Min(|src| - done, SOCK_BUF - |socks[p].data|);
      var y := socks[p].(data := socks[p].data + src[done..now]);
      PlainOk(socks, own, p, y);
      FlowPut(socks[p], logs[p], src[done..now]);
      NotFinal(socks, own, logs, final, s, p);
      LogOne(socks, logs, final, p, y, logs[p].(sent := logs[p].sent + src[done..now]));
      socks := socks[p := y];
      logs := logs[p := logs[p].(sent := logs[p].sent + src[done..now])];
    }

    /** sys_shutdown: 0 for reading, 1 for writing, 2 for both. */
    method Shutdown(s: nat, how: int) returns (ok: bool)
      requires Valid() && s in socks
      modifies this`socks
      ensures Valid() && (ok <==> 0 <= how <= 2 && old(socks)[s].state == Connected)
      ensures socks == if ok then ShutDown(old(socks), s, how != 1, how != 0) else old(socks)
    {
      hide NetOk, LogOk;
      if how < 0 || how > 2 { return false; }
      if socks[s].state != Connected { return false; }
      Sound(socks, own, s);
      NullOut(socks, own);
      ShutOk(socks, own, s, how != 1, how != 0);
      ShutLog(socks, logs, final, s, how != 1, how != 0);
      if how != 1 { socks := socks[s := socks[s].(rdShut := true)]; }
      if how != 0 {
        socks := socks[s := socks[s].(wrShut := true)];
        var p := socks[s].peer;
        if p != NULL { socks := socks[p := socks[p].(eof := true)]; }
      }
      assert socks == ShutDown(old(socks), s, how != 1, how != 0);
      return true;
    }

    /** One stretch of dgram_send. `given` says whether the call has a name; `found` is
        what the name it goes by leads to, NULL for nothing. */
    method SendMsg(s: nat, msg: seq<Byte>, given: bool, found: nat, memory: bool, nonblock: bool, signal: bool)
      returns (r: MsgOutcome)
      requires Valid() && s in socks && socks[s].kind == Dgram && (found == NULL || found in socks)
      modifies this`socks, this`logs
      ensures Valid()
      ensures var t := Target(old(socks), s, given, found);
        && (r == MsgSent <==> |msg| <= SOCK_BUF && t.To? && memory && Fits(old(socks), t.t, msg))
        && (r == MsgSent ==> socks == old(socks)[t.t := old(socks)[t.t].(msgs := old(socks)[t.t].msgs + [msg])])
      ensures r != MsgSent ==> socks == old(socks) && logs == old(logs)
      ensures r != MsgSent ==> r == MsgHindrance(old(socks), s, msg, given, found, nonblock, signal)
      ensures r == TooLong <==> |msg| > SOCK_BUF
      ensures r != TooLong ==> SentTo(old(socks), socks, s, msg, given, found, r)
    {
      hide NetOk, LogOk, Queued, Target, SentTo;
      if |msg| <= SOCK_BUF { TargetLaw(socks, s, msg, given, found, memory, nonblock, signal); }
      if |msg| > SOCK_BUF { return TooLong; }
      var d := Target(socks, s, given, found);
      TargetThere(socks, own, s, given, found);
      if d.Nowhere? { return d.why; }
      var t := d.t;
      if Queued(socks[t].msgs) + |msg| > SOCK_BUF {
        return if nonblock then MsgAgain else if signal then MsgInterrupted else MsgSleeps;
      }
      if !memory { return MsgNoMemory; }
      LogThere(socks, logs, final, t);
      var y := socks[t].(msgs := socks[t].msgs + [msg]);
      QueuedLast(socks[t].msgs, msg);
      Sound(socks, own, t);
      PlainOk(socks, own, t, y);
      FlowMsg(socks[t], logs[t], msg);
      LogOne(socks, logs, final, t, y, logs[t].(sentMsgs := logs[t].sentMsgs + [msg]));
      socks := socks[t := y];
      logs := logs[t := logs[t].(sentMsgs := logs[t].sentMsgs + [msg])];
      return MsgSent;
    }

    /** dgram_recv: one message, cut to size. */
    method RecvMsg(s: nat, size: nat, nonblock: bool, signal: bool, peek: bool) returns (r: TakeOutcome)
      requires Valid() && s in socks && socks[s].kind == Dgram
      modifies this`socks, this`logs
      ensures Valid() && (r.Took? <==> old(socks)[s].msgs != [])
      ensures r.Took? ==> r.bytes == old(socks)[s].msgs[0][..Min(size, |old(socks)[s].msgs[0]|)]
      ensures socks == if r.Took? && !peek then old(socks)[s := old(socks)[s].(msgs := old(socks)[s].msgs[1..])]
        else old(socks)
      ensures r == MsgEnd <==>
        old(socks)[s].msgs == [] && (old(socks)[s].rdShut || (!old(socks)[s].named && old(socks)[s].eof))
      ensures !r.Took? && r != MsgEnd ==>
        r == if nonblock then TakeAgain else if signal then TakeInterrupted else TakeSleeps
    {
      hide NetOk, LogOk, Queued;
      if socks[s].msgs == [] {
        if socks[s].rdShut || (!socks[s].named && socks[s].eof) { return MsgEnd; }
        return if nonblock then TakeAgain else if signal then TakeInterrupted else TakeSleeps;
      }
      var m := socks[s].msgs[0];
      var k := if size < |m| then size else |m|;
      if !peek {
        LogThere(socks, logs, final, s);
        Sound(socks, own, s);
        var y := socks[s].(msgs := socks[s].msgs[1..]);
        QueuedFirst(socks[s].msgs);
        PlainOk(socks, own, s, y);
        FlowMsg(socks[s], logs[s], []);
        LogOne(socks, logs, final, s, y, logs[s].(gotMsgs := logs[s].gotMsgs + [m]));
        socks := socks[s := y];
        logs := logs[s := logs[s].(gotMsgs := logs[s].gotMsgs + [m])];
      }
      return Took(m[..k]);
    }

    /** One call; one that cannot happen in the state is skipped. Whatever it is, a
        stream that has reported its end keeps what it had got as its whole. */
    method Step(e: Event)
      requires Valid()
      modifies this
      ensures Valid() && forall t :: t in old(final) && t in socks ==> t in final && final[t] == old(final)[t]
    {
      hide NetOk, LogOk, Queued, Joined, ShutDown, Freed, Paired, FlowOk, Receiving, Sending;
      match e
      case Creates(s, kind) => if s != NULL && s !in socks { Create(s, kind); }
      case Pairs(a, b, kind) => if a != NULL && b != NULL && a != b && a !in socks && b !in socks { Pair(a, b, kind); }
      case Listens(s, bound, backlog) => if s in socks { var _ := Listen(s, bound, backlog); }
      case Connects(s, l, srv, memory, nonblock, signal) =>
        if s in socks && socks[s].kind == Stream && srv != NULL && srv !in socks
          && (l == NULL || (l in socks && (FreeToJoin(socks, s, l) || socks[l].state != Listening))) {
          var _ := ConnectOn(s, l, srv, memory, nonblock, signal);
        }
      case Accepts(l, nonblock, signal, installed) => if l in socks { var _ := Accept(l, nonblock, signal, installed); }
      case Recvs(s, size, nonblock, signal, peek) =>
        if s in socks && socks[s].kind == Stream {
          var _ := Recv(s, size, nonblock, signal, peek);
        }
      case Sends(s, src, done, nonblock, signal) =>
        if s in socks && socks[s].kind == Stream && done <= |src| {
          var _, _ := Send(s, src, done, nonblock, signal);
        }
      case Shuts(s, how) => if s in socks { var _ := Shutdown(s, how); }
      case Closes(s) => if s in socks && s in own && own[s] == Fd { Free(s); }
      case SendsMsg(s, msg, given, found, memory, nonblock, signal) =>
        if s in socks && socks[s].kind == Dgram && (found == NULL || found in socks) {
          var _ := SendMsg(s, msg, given, found, memory, nonblock, signal);
        }
      case Names(s, t) =>
        if s in socks && socks[s].kind == Dgram && (t == NULL || t in socks) { var _ := ConnectName(s, t); }
      case Dissolves(s) => if s in socks && socks[s].kind == Dgram { Dissolve(s); }
      case RecvsMsg(s, size, nonblock, signal, peek) =>
        if s in socks && socks[s].kind == Dgram { var _ := RecvMsg(s, size, nonblock, signal, peek); }
    }

    /** sock_free of a socket with nothing queued on it. */
    method FreeOne(s: nat)
      requires Valid() && s in socks && socks[s].backlog == [] && s in own && !own[s].Queue?
      modifies this
      ensures Valid() && socks == Freed(old(socks), s) && own == old(own) - {s}
      ensures forall t :: t in final ==> t in old(final) && final[t] == old(final)[t]
      ensures forall t :: t in old(final) && t in socks ==> t in final
    {
      hide NetOk, LogOk;
      Sound(socks, own, s);
      FreedOk(socks, own, s);
      FreedLog(socks, logs, final, s);
      var p := socks[s].peer;
      if p != NULL { socks := socks[p := socks[p].(peer := NULL, eof := true)]; }
      socks := socks - {s};
      own := own - {s};
      logs := logs - {s};
      final := final - {s};
    }

    /** The oldest connection of a listener's backlog is closed. */
    method DropFirst(s: nat) returns (c: nat)
      requires Valid() && s in socks && socks[s].backlog != [] && s in own && !own[s].Queue?
      modifies this
      ensures Valid() && c == old(socks)[s].backlog[0] && c != s && s in socks && s in own && own[s] == old(own)[s]
      ensures socks == Closed(old(socks)[s := old(socks)[s].(backlog := old(socks)[s].backlog[1..])], {c})
      ensures socks.Keys <= old(socks).Keys && socks[s].backlog == old(socks)[s].backlog[1..] && own == old(own) - {c}
      ensures forall t :: t in final ==> t in old(final) && final[t] == old(final)[t]
      ensures forall t :: t in old(final) && t in socks ==> t in final
    {
      hide NetOk, LogOk, Closed;
      c := TakeFirst(s, Hand);
      NoLoop(socks, own, s, c);
      FreedIsClosed(socks, own, c);
      FreeOne(c);
    }

    /** sock_free: the connections that were never accepted go with the listener. */
    method Free(s: nat)
      requires Valid() && s in socks && s in own && !own[s].Queue?
      modifies this
      ensures Valid() && socks == Closed(old(socks), {s} + Elements(old(socks)[s].backlog))
      ensures own == old(own) - ({s} + Elements(old(socks)[s].backlog))
      ensures forall t :: t in final ==> t in old(final) && final[t] == old(final)[t]
      ensures forall t :: t in old(final) && t in socks ==> t in final
    {
      hide NetOk, LogOk, Closed, Emptied;
      EmptiedFirst(socks, own, s);
      var q := socks[s].backlog;
      ghost var m := socks;
      assert Elements(q[..0]) == {} && q[0..] == q;
      var i := 0;
      while i < |q|
        invariant 0 <= i <= |q| && Valid() && s in socks && s in own && !own[s].Queue? && socks[s].backlog == q[i..]
        invariant socks == Emptied(m, s, Elements(q[..i]), q[i..])
        invariant socks.Keys <= m.Keys && own == old(own) - Elements(q[..i])
        invariant forall t :: t in final ==> t in old(final) && final[t] == old(final)[t]
        invariant forall t :: t in old(final) && t in socks ==> t in final
      {
        EmptiedStep(m, s, q, i);
        var _ := DropFirst(s);
        i := i + 1;
      }
      assert q[..i] == q;
      FreedIsClosed(socks, own, s);
      EmptiedLast(m, s, Elements(q), q[i..]);
      FreeOne(s);
    }
  }

  datatype Event =
    | Creates(s: nat, kind: Kind)
    | Pairs(a: nat, b: nat, kind: Kind)
    | Listens(s: nat, bound: bool, backlog: int)
    | Connects(s: nat, l: nat, srv: nat, memory: bool, nonblock: bool, signal: bool)
    | Accepts(l: nat, nonblock: bool, signal: bool, installed: bool)
    | Recvs(s: nat, size: nat, nonblock: bool, signal: bool, peek: bool)
    | Sends(s: nat, src: seq<Byte>, done: nat, nonblock: bool, signal: bool)
    | Shuts(s: nat, how: int)
    | Closes(s: nat)
    | SendsMsg(s: nat, msg: seq<Byte>, given: bool, found: nat, memory: bool, nonblock: bool, signal: bool)
    | Names(s: nat, t: nat)
    | Dissolves(s: nat)
    | RecvsMsg(s: nat, size: nat, nonblock: bool, signal: bool, peek: bool)

  /** Every interleaving of stretches of calls, from no sockets at all. */
  method Run(es: seq<Event>) returns (t: SocketTable)
    ensures fresh(t) && t.Valid()
  {
    hide SocketTable.Valid;
    t := new SocketTable();
    for i := 0 to |es|
      invariant fresh(t) && t.Valid()
    {
      t.Step(es[i]);
    }
  }

  // ---- The ring of a stream socket ----

  /** The copying of stream_recv, on the ring: what Receiving says of its contents. */
  method CopyFrom(ring: ByteRing, ghost x: Sock, size: nat, peek: bool) returns (dst: seq<Byte>)
    requires ring.Valid() && ring.buf.Length == SOCK_BUF && ring.len > 0 && x.data == ring.data
    modifies ring`head, ring`len, ring`data
    ensures ring.Valid() && (x.(data := ring.data), Got(dst)) == Receiving(x, size, false, false, peek)
  {
    var k := if size < ring.len then size else ring.len;
    dst := ring.CopyOut(k);
    if !peek { ring.Drop(k); }
  }

  /** The copying of stream_send, on the ring of the peer. */
  method CopyTo(ring: ByteRing, ghost x: Sock, ghost y: Sock, src: seq<Byte>, done: nat) returns (now: nat)
    requires ring.Valid() && ring.buf.Length == SOCK_BUF && y.data == ring.data && done < |src|
    requires x.state == Connected && !x.wrShut && x.peer != NULL && !y.rdShut
    modifies ring`len, ring`data, ring.buf
    ensures ring.Valid()
    ensures var (z, k, _) := Sending(x, y, src, done, false, false); (y.(data := ring.data), now) == (z, k)
  {
    now := ring.CopyIn(src, done);
  }

  lemma NullOut(m: Socks, own: Owners)
    requires NetOk(m, own)
    ensures NULL !in m
  {
  }

  lemma QueuedLast(msgs: seq<seq<Byte>>, msg: seq<Byte>)
    ensures Queued(msgs + [msg]) == Queued(msgs) + |msg|
  {
    assert (msgs + [msg])[..|msgs|] == msgs;
  }

  /** A stream that reported its end is recorded with what it got, which is all. */
  lemma EndLog(m: Socks, logs: map<nat, Log>, final: map<nat, seq<Byte>>, s: nat)
    requires LogOk(m, logs, final) && s in m && s in logs && Over(m[s])
    ensures logs[s].got == logs[s].sent && LogOk(m, logs, final[s := logs[s].got])
  {
    assert logs[s].got + [] == logs[s].got;
  }

  /** Nothing can be sent to a stream that reported its end. */
  lemma NotFinal(m: Socks, own: Owners, logs: map<nat, Log>, final: map<nat, seq<Byte>>, s: nat, p: nat)
    requires NetOk(m, own) && LogOk(m, logs, final) && s in m && p in m && m[s].peer == p != NULL && !m[s].wrShut
    requires !m[p].rdShut
    ensures p !in final
  {
    assert SockOk(m, own, s) && SockOk(m, own, p);
  }

  lemma ShutLog(m: Socks, logs: map<nat, Log>, final: map<nat, seq<Byte>>, s: nat, rd: bool, wr: bool)
    requires LogOk(m, logs, final) && s in m
    ensures LogOk(ShutDown(m, s, rd, wr), logs, final)
  {
    hide LogOk, ShutDown, Over;
    var n := ShutDown(m, s, rd, wr);
    ShutFields(m, s, rd, wr);
    forall t | t in m ensures n[t].kind == m[t].kind && n[t].data == m[t].data && n[t].msgs == m[t].msgs
      && n[t].backlog == m[t].backlog && (Over(m[t]) ==> Over(n[t])) {
      ShutOne(m, s, rd, wr, t);
    }
    LogKept(m, n, logs, final);
  }

  lemma ShutOne(m: Socks, s: nat, rd: bool, wr: bool, t: nat)
    requires s in m && t in m
    ensures var n := ShutDown(m, s, rd, wr);
      && t in n && n[t].kind == m[t].kind && n[t].data == m[t].data && n[t].msgs == m[t].msgs
      && n[t].backlog == m[t].backlog && (Over(m[t]) ==> Over(n[t]))
  {
  }

  lemma FreedLog(m: Socks, logs: map<nat, Log>, final: map<nat, seq<Byte>>, s: nat)
    requires LogOk(m, logs, final) && s in m
    ensures LogOk(Freed(m, s), logs - {s}, final - {s})
  {
  }

  /** Closing a queued connection leaves the listener's own list alone. */
  lemma NoLoop(m: Socks, own: Owners, l: nat, c: nat)
    requires NetOk(m, own) && l in m && c in m && l != c
    ensures l in Freed(m, c) && Freed(m, c)[l].backlog == m[l].backlog
  {
  }

  lemma FreeFacts(m: Socks, own: Owners, s: nat)
    requires NetOk(m, own) && s in m && m[s].kind == Stream && m[s].state != Connected
    ensures !m[s].eof && !m[s].rdShut && !m[s].wrShut && m[s].data == [] && m[s].peer == NULL
  {
    assert SockOk(m, own, s);
  }

  lemma LogFinal(m: Socks, logs: map<nat, Log>, final: map<nat, seq<Byte>>)
    requires LogOk(m, logs, final)
    ensures final.Keys <= m.Keys
  {
  }

  lemma LogThere(m: Socks, logs: map<nat, Log>, final: map<nat, seq<Byte>>, s: nat)
    requires LogOk(m, logs, final) && s in m
    ensures s in logs && FlowOk(m[s], logs[s]) && (s in final ==> Over(m[s]) && logs[s].got == logs[s].sent == final[s])
  {
  }

  lemma Buffers(m: Socks, own: Owners, s: nat)
    requires NetOk(m, own) && s in m
    ensures |m[s].data| <= SOCK_BUF && Queued(m[s].msgs) <= SOCK_BUF
    ensures m[s].kind == Stream && m[s].state != Connected ==> m[s].data == []
  {
    assert SockOk(m, own, s);
  }

  lemma Sound(m: Socks, own: Owners, s: nat)
    requires NetOk(m, own) && s in m
    ensures s in own && PeerOk(m, s) && s != NULL
    ensures (m[s].state != Listening || m[s].kind == Dgram ==> m[s].backlog == [])
  {
    assert SockOk(m, own, s);
  }

  datatype AcceptOutcome =
    | NotListening | AcceptAgain | AcceptInterrupted | AcceptSleeps | Accepted(c: nat) | Lost(c: nat)

  datatype MsgOutcome =
    | TooLong | NoTarget | MsgWrongType | MsgRefused | MsgNotConnected
    | MsgAgain | MsgInterrupted | MsgSleeps | MsgNoMemory | MsgSent

  /** dgram_target: the other end of a pair, or what the name leads to. */
  datatype Dest = To(t: nat) | Nowhere(why: MsgOutcome)

  function Target(m: Socks, s: nat, given: bool, found: nat): Dest
    requires s in m
  {
    if !given && m[s].peer != NULL then To(m[s].peer)
    else if !given && !m[s].named then Nowhere(if m[s].state == Connected then MsgRefused else MsgNotConnected)
    else if found !in m then Nowhere(NoTarget)
    else if m[found].kind != Dgram then Nowhere(MsgWrongType) else To(found)
  }

  /** Without a name a datagram goes to the other end of the pair; otherwise by the name
      given or connected to, which has to lead to a datagram socket. With neither, it is
      refused if there was another end, and the socket not connected if not. */
  ghost predicate SentTo(m: Socks, n: Socks, s: nat, msg: seq<Byte>, given: bool, found: nat, r: MsgOutcome)
    requires s in m
  {
    var pair := !given && m[s].peer != NULL;
    var t := if pair then m[s].peer else found;
    && (r == MsgRefused <==> !pair && !given && !m[s].named && m[s].state == Connected)
    && (r == MsgNotConnected <==> !pair && !given && !m[s].named && m[s].state != Connected)
    && (r == NoTarget <==> !pair && (given || m[s].named) && found !in m)
    && (r == MsgWrongType <==> !pair && (given || m[s].named) && found in m && m[found].kind != Dgram)
    && (r == MsgSent ==> t in m && n == m[t := m[t].(msgs := m[t].msgs + [msg])])
  }

  lemma TargetLaw(m: Socks, s: nat, msg: seq<Byte>, given: bool, found: nat, memory: bool, nonblock: bool, signal: bool)
    requires s in m && |msg| <= SOCK_BUF
    ensures forall n, r :: SentAs(m, n, s, msg, given, found, memory, nonblock, signal, r) ==>
      SentTo(m, n, s, msg, given, found, r)
  {
    hide Queued;
  }

  /** What SendMsg says through `Target`. */
  ghost predicate SentAs(m: Socks, n: Socks, s: nat, msg: seq<Byte>, given: bool, found: nat, memory: bool,
                         nonblock: bool, signal: bool, r: MsgOutcome)
    requires s in m
  {
    var d := Target(m, s, given, found);
    if r == MsgSent then d.To? && d.t in m && n == m[d.t := m[d.t].(msgs := m[d.t].msgs + [msg])]
    else r == MsgHindrance(m, s, msg, given, found, nonblock, signal)
  }

  lemma TargetThere(m: Socks, own: Owners, s: nat, given: bool, found: nat)
    requires NetOk(m, own) && s in m && m[s].kind == Dgram
    ensures var d := Target(m, s, given, found);
      (d.To? ==> d.t in m && m[d.t].kind == Dgram) && (d.Nowhere? ==> d.why !in {MsgSent, MsgNoMemory, TooLong})
  {
    Sound(m, own, s);
  }

  /** The queue of `t` has room for the datagram. */
  predicate Fits(m: Socks, t: nat, msg: seq<Byte>) { t in m && Queued(m[t].msgs) + |msg| <= SOCK_BUF }

  /** Why a datagram is not sent. */
  function MsgHindrance(
    m: Socks, s: nat, msg: seq<Byte>, given: bool, found: nat, nonblock: bool, signal: bool): MsgOutcome
    requires s in m
  {
    if |msg| > SOCK_BUF then TooLong
    else match Target(m, s, given, found)
      case Nowhere(why) => why
      case To(t) =>
        if Fits(m, t, msg) then MsgNoMemory
        else if nonblock then MsgAgain else if signal then MsgInterrupted else MsgSleeps
  }

  datatype TakeOutcome = MsgEnd | TakeAgain | TakeInterrupted | TakeSleeps | Took(bytes: seq<Byte>)

  /** Why a connect is not made now; it sleeps only while the backlog is full. */
  ghost function Hindrance(m: Socks, l: nat, nonblock: bool, signal: bool): ConnectOutcome {
    if l !in m || (m[l].kind == Stream && m[l].state != Listening) then Refused
    else if m[l].kind != Stream then WrongType
    else if |m[l].backlog| < m[l].maxback then NoMemory
    else if nonblock then ConnectAgain else if signal then ConnectInterrupted else ConnectSleeps
  }

  datatype ConnectOutcome = Made | Refused | WrongType | ConnectAgain | ConnectInterrupted | ConnectSleeps | NoMemory

  lemma JoinLog(m: Socks, logs: map<nat, Log>, final: map<nat, seq<Byte>>, s: nat, l: nat, srv: nat)
    requires LogOk(m, logs, final) && s in m && l in m && srv !in m && s != l && m[s].state != Connected && !m[s].eof
    requires !m[s].rdShut
    ensures LogOk(Joined(m, s, l, srv), logs[srv := NoLog()][l := logs[l].(made := logs[l].made + [srv])],
      final - {srv})
  {
    FlowFresh(Stream);
    FlowQueue(m[l], logs[l], srv);
  }
}
