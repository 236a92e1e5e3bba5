/** Pipes: a ring buffer shared by any number of readers and writers. A process
    in the kernel runs undisturbed until it sleeps, so one call is a sequence of
    stretches; what other processes do happens between the stretches. */
module Pipe {
  import opened Rings

  const PIPE_SIZE: nat := 4096

  /** What a pipe holds, and how many open ends it has. */
  datatype State = State(data: seq<Byte>, readers: nat, writers: nat)

  datatype ReadOutcome = ReadSleeps | EndOfFile | ReadInterrupted | Got(bytes: seq<Byte>)
  datatype WriteOutcome = WriteSleeps | BrokenPipe | WriteInterrupted | Wrote(count: nat)

  /** A write in progress: bytes put in so far, and whether it is past the wait
      for room (only writes of at most PIPE_SIZE bytes wait there). */
  datatype Write = Write(src: seq<Byte>, done: nat, filling: bool)

  /** One stretch of pipe_read, from a check of the buffer to a return or sleep. */
  function Reading(s: State, size: nat, signal: bool): (State, ReadOutcome) {
    if s.data == [] then
      (s, if s.writers == 0 then EndOfFile else if signal then ReadInterrupted else ReadSleeps)
    else
      var k := Min(size, |s.data|);
      (s.(data := s.data[k..]), Got(s.data[..k]))
  }

  /** One stretch of pipe_write. */
  function Writing(s: State, w: Write, signal: bool): (State, Write, WriteOutcome)
    requires w.done <= |w.src| && |s.data| <= PIPE_SIZE
  {
    var n := |w.src|;
    if !w.filling && n <= PIPE_SIZE && PIPE_SIZE - |s.data| < n && s.readers != 0 then
      (s, w, if signal then WriteInterrupted else WriteSleeps)
    else if w.done == n then (s, w.(filling := true), Wrote(n))
    else if s.readers == 0 then
      (s, w.(filling := true), if w.done > 0 then Wrote(w.done) else BrokenPipe)
    else
      var k := Min(n - w.done, PIPE_SIZE - |s.data|);
      var s', w' := s.(data := s.data + w.src[w.done..w.done + k]), Write(w.src, w.done + k, true);
      (s', w', if w'.done == n then Wrote(n)
               else if !signal then WriteSleeps
               else if w'.done > 0 then Wrote(w'.done) else WriteInterrupted)
  }

  /** The pipe_t of the kernel: a ring of bytes and two counts. */
  class PipeBuffer {
    const ring: ByteRing
    var readers: nat
    var writers: nat

    ghost predicate Valid()
      reads this, ring, ring.buf
    {
      ring.Valid() && ring.buf.Length == PIPE_SIZE
    }

    ghost function View(): State
      reads this, ring
    {
      State(ring.data, readers, writers)
    }

    constructor ()
      ensures Valid() && fresh(ring) && fresh(ring.buf) && View() == State([], 1, 1)
    {
      ring := new ByteRing(PIPE_SIZE);
      readers, writers := 1, 1;
    }

    /** pipe_read, one stretch: what is there comes out at the front, as much as asked
        for; an empty pipe has ended exactly if nobody can write to it any more. */
    method Read(size: nat, signal: bool) returns (r: ReadOutcome)
      requires Valid()
      modifies ring`head, ring`len, ring`data
      ensures Valid() && (View(), r) == Reading(old(View()), size, signal)
      ensures r.EndOfFile? <==> old(ring.data) == [] && writers == 0
      ensures r.ReadSleeps? <==> old(ring.data) == [] && writers > 0 && !signal
      ensures r.ReadInterrupted? <==> old(ring.data) == [] && writers > 0 && signal
      ensures !r.Got? ==> ring.data == []
      ensures r.Got? ==> r.bytes + ring.data == old(ring.data) && |r.bytes| == Min(size, |old(ring.data)|)
    {
      if ring.len == 0 {
        return if writers == 0 then EndOfFile else if signal then ReadInterrupted else ReadSleeps;
      }
      var k := if size < ring.len then size else ring.len;
      var dst := ring.CopyOut(k);
      ring.Drop(k);
      return Got(dst);
    }

    /** A short write that does not fit in whole waits for room before it starts. */
    ghost predicate Waits(w: Write)
      reads this, ring
    {
      !w.filling && |w.src| <= PIPE_SIZE && |ring.data| + |w.src| > PIPE_SIZE && readers > 0
    }

    /** pipe_write, one stretch: the next bytes go in at the back, as many as fit, as
        long as someone can read them. */
    method WriteOn(w: Write, signal: bool) returns (w': Write, r: WriteOutcome)
      requires Valid() && w.done <= |w.src|
      modifies ring`len, ring`data, ring.buf
      ensures Valid() && (View(), w', r) == Writing(old(View()), w, signal)
      ensures w'.src == w.src && w.done <= w'.done <= |w.src|
      ensures ring.data == old(ring.data) + w.src[w.done..w'.done]
      ensures old(Waits(w)) || readers == 0 ==> w'.done == w.done
      ensures !old(Waits(w)) && readers > 0 ==> w'.done == |w.src| || |ring.data| == PIPE_SIZE
      ensures old(Waits(w)) <==> !w'.filling
      ensures r.BrokenPipe? <==> readers == 0 && w.done == 0 && w.src != []
      ensures r.WriteSleeps? <==> readers > 0 && !signal && (old(Waits(w)) || w'.done < |w.src|)
      ensures r.WriteInterrupted? <==> readers > 0 && signal && (old(Waits(w)) || (w'.done == 0 && w.src != []))
      ensures r.Wrote? ==> r.count == w'.done
    {
      var size := |w.src|;
      if !w.filling && size <= PIPE_SIZE && PIPE_SIZE - ring.len < size && readers != 0 {
        return w, if signal then WriteInterrupted else WriteSleeps;
      }
      var done := w.done;
      while done < size
        invariant w.done <= done <= size && Valid()
        invariant done == w.done || (readers != 0 && done == w.done + Min(size - w.done, PIPE_SIZE - |old(ring.data)|))
        invariant ring.data == old(ring.data) + w.src[w.done..done]
      {
        if readers == 0 {
          return Write(w.src, done, true), if done > 0 then Wrote(done) else BrokenPipe;
        }
        if ring.len == PIPE_SIZE {
          if signal {
            return Write(w.src, done, true), if done > 0 then Wrote(done) else WriteInterrupted;
          }
          return Write(w.src, done, true), WriteSleeps;
        }
        done := ring.CopyIn(w.src, done);
      }
      return Write(w.src, done, true), Wrote(done);
    }

    /** pipe_release; `gone` says that this was the last end and the pipe is freed. */
    method Release(reader: bool) returns (gone: bool)
      requires Valid() && if reader then readers > 0 else writers > 0
      modifies this`readers, this`writers
      ensures Valid()
      ensures View() == if reader then old(View()).(readers := old(readers) - 1)
        else old(View()).(writers := old(writers) - 1)
      ensures gone <==> old(readers) + old(writers) == 1
      ensures !reader && writers == 0 ==> forall size, signal :: !Reading(View(), size, signal).1.ReadSleeps?
      ensures reader && readers == 0 ==>
        forall w: Write, signal :: w.done <= |w.src| ==> !Writing(View(), w, signal).2.WriteSleeps?
    {
      if reader { readers := readers - 1; } else { writers := writers - 1; }
      return readers == 0 && writers == 0;
    }
  }

  /** Once the last writer is gone, a reader gets everything that is still there, in
      order, and then the end; it never sleeps again. Once the last reader is gone, a
      write that has put in nothing fails, and one that has reports how much. */
  lemma LastEnd(s: State, size: nat, w: Write, signal: bool)
    requires w.done <= |w.src| && |s.data| <= PIPE_SIZE
    ensures s.writers == 0 ==>
      (var (s', r) := Reading(s, size, signal);
       if s.data == [] then r == EndOfFile && s' == s
         else r.Got? && r.bytes + s'.data == s.data && (size > 0 ==> r.bytes != []))
    ensures s.readers == 0 ==>
      (var (s', w', r) := Writing(s, w, signal);
       s' == s && w'.done == w.done && r == if w.done == 0 && w.src != [] then BrokenPipe else Wrote(w.done))
  {
  }

  // ---- Runs: any interleaving of stretches of any number of calls ----

  /** Bytes put in by one stretch of one write call. */
  datatype Piece = Piece(call: nat, bytes: seq<Byte>)

  datatype Call = Call(write: Write, outcome: WriteOutcome)

  /** The pipe, every write call ever made, what each stretch put in, and what
      the readers took out, in order. */
  datatype System = System(pipe: State, calls: seq<Call>, log: seq<Piece>, taken: seq<Byte>)

  datatype Event =
    | StartWrite(src: seq<Byte>)
    | RunWrite(call: nat, signal: bool)
    | RunRead(size: nat, signal: bool)
    | CloseReader
    | CloseWriter
    | OpenReader
    | OpenWriter

  function Flatten(log: seq<Piece>): seq<Byte> {
    if log == [] then [] else Flatten(log[..|log| - 1]) + log[|log| - 1].bytes
  }

  /** The pieces of one call, in order. */
  function PiecesOf(log: seq<Piece>, c: nat): seq<seq<Byte>> {
    if log == [] then []
    else PiecesOf(log[..|log| - 1], c) + if log[|log| - 1].call == c then [log[|log| - 1].bytes] else []
  }

  function Join(pieces: seq<seq<Byte>>): seq<Byte> {
    if pieces == [] then [] else Join(pieces[..|pieces| - 1]) + pieces[|pieces| - 1]
  }

  /** A process may go on with a call that sleeps or has not begun. */
  function Step(y: System, e: Event): System
    requires WellFormed(y)
  {
    match e
    case StartWrite(src) => y.(calls := y.calls + [Call(Write(src, 0, false), WriteSleeps)])
    case RunWrite(c, signal) =>
      if c >= |y.calls| || y.calls[c].outcome != WriteSleeps then y else
      var (p, w, r) := Writing(y.pipe, y.calls[c].write, signal);
      var put := w.src[y.calls[c].write.done..w.done];
      y.(pipe := p, calls := y.calls[c := Call(w, r)], log := if put == [] then y.log else y.log + [Piece(c, put)])
    case RunRead(size, signal) =>
      var (p, r) := Reading(y.pipe, size, signal);
      y.(pipe := p, taken := if r.Got? then y.taken + r.bytes else y.taken)
    case CloseReader => if y.pipe.readers == 0 then y else y.(pipe := y.pipe.(readers := y.pipe.readers - 1))
    case CloseWriter => if y.pipe.writers == 0 then y else y.(pipe := y.pipe.(writers := y.pipe.writers - 1))
    case OpenReader => y.(pipe := y.pipe.(readers := y.pipe.readers + 1))
    case OpenWriter => y.(pipe := y.pipe.(writers := y.pipe.writers + 1))
  }

  predicate WellFormed(y: System) {
    |y.pipe.data| <= PIPE_SIZE && forall c :: 0 <= c < |y.calls| ==> y.calls[c].write.done <= |y.calls[c].write.src|
  }

  /** What one call has put in is a prefix of its bytes; a call of at most
      PIPE_SIZE bytes has put in nothing or, as one piece, everything. */
  ghost predicate CallOk(y: System, c: nat)
    requires c < |y.calls|
  {
    var w, ps := y.calls[c].write, PiecesOf(y.log, c);
    && w.done <= |w.src| && Join(ps) == w.src[..w.done]
    && (|w.src| <= PIPE_SIZE ==> ps == (if w.done == 0 then [] else [w.src]) && (w.done == 0 || w.done == |w.src|))
    && (|w.src| <= PIPE_SIZE && y.calls[c].outcome == WriteSleeps ==> w.done == 0 && !w.filling)
  }

  ghost predicate SystemOk(y: System) {
    && WellFormed(y)
    && y.taken + y.pipe.data == Flatten(y.log)
    && (forall c :: 0 <= c < |y.calls| ==> CallOk(y, c))
    && (forall i :: 0 <= i < |y.log| ==> y.log[i].call < |y.calls|)
  }

  lemma LogAppend(log: seq<Piece>, p: Piece)
    ensures Flatten(log + [p]) == Flatten(log) + p.bytes
    ensures PiecesOf(log + [p], p.call) == PiecesOf(log, p.call) + [p.bytes]
    ensures forall c :: c != p.call ==> PiecesOf(log + [p], c) == PiecesOf(log, c)
  {
    var more := log + [p];
    assert more[..|more| - 1] == log;
  }

  lemma JoinAppend(ps: seq<seq<Byte>>, b: seq<Byte>)
    ensures Join(ps + [b]) == Join(ps) + b
  {
    var more := ps + [b];
    assert more[..|more| - 1] == ps;
  }

  /** What one stretch of a write does: it puts in the next bytes of its source,
      and a short write puts in nothing or everything. */
  lemma WritingFacts(s: State, w: Write, signal: bool)
    requires w.done <= |w.src| && |s.data| <= PIPE_SIZE
    ensures var (s', w', r) := Writing(s, w, signal);
      && w'.src == w.src && w.done <= w'.done <= |w.src|
      && s'.data == s.data + w.src[w.done..w'.done] && |s'.data| <= PIPE_SIZE
      && s'.readers == s.readers && s'.writers == s.writers
      && (|w.src| <= PIPE_SIZE && w.done == 0 && !w.filling ==>
            (w'.done == 0 || w'.done == |w.src|) && (r == WriteSleeps ==> w'.done == 0 && !w'.filling))
  {
  }

  /** One stretch of a write, seen from the call: it extends the prefix it has put
      in, and a short write goes from nothing to everything in one piece. */
  lemma StretchOk(y: System, c: nat, signal: bool)
    requires SystemOk(y) && c < |y.calls| && y.calls[c].outcome == WriteSleeps
    ensures CallOk(Step(y, RunWrite(c, signal)), c)
  {
    hide Writing;
    var w := y.calls[c].write;
    WritingFacts(y.pipe, w, signal);
    var (p, w', r) := Writing(y.pipe, w, signal);
    assert CallOk(y, c);
    PutOk(y.log, c, w.src, w.done, w'.done);
  }

  /** The log after a call put in src[from..upto]. */
  lemma PutOk(log: seq<Piece>, c: nat, src: seq<Byte>, from: nat, upto: nat)
    requires from <= upto <= |src| && Join(PiecesOf(log, c)) == src[..from]
    ensures var put := src[from..upto]; var more := if put == [] then log else log + [Piece(c, put)];
      && Join(PiecesOf(more, c)) == src[..upto]
      && Flatten(more) == Flatten(log) + put
      && (from == 0 && PiecesOf(log, c) == [] && (upto == 0 || upto == |src|) ==>
            PiecesOf(more, c) == if upto == 0 then [] else [src])
      && forall d :: d != c ==> PiecesOf(more, d) == PiecesOf(log, d)
  {
    var put := src[from..upto];
    LogAppend(log, Piece(c, put));
    JoinAppend(PiecesOf(log, c), put);
    assert src[..upto] == src[..from] + put;
    if put == [] {
      assert Flatten(log) + put == Flatten(log);
    } else if from == 0 && upto == |src| {
      assert put == src;
    }
  }

  lemma WriteOk(y: System, c: nat, signal: bool)
    requires SystemOk(y)
    ensures SystemOk(Step(y, RunWrite(c, signal)))
  {
    if c < |y.calls| && y.calls[c].outcome == WriteSleeps {
      StretchOk(y, c, signal);
      WriteFlow(y, c, signal);
      hide Step, CallOk, WellFormed, Flatten;
      var z := Step(y, RunWrite(c, signal));
      forall d | 0 <= d < |z.calls| ensures CallOk(z, d) {
        if d != c { CallSame(y, z, d); }
      }
    }
  }

  /** What a stretch of a write does to pipe, log and the other calls. */
  lemma WriteFlow(y: System, c: nat, signal: bool)
    requires SystemOk(y) && c < |y.calls| && y.calls[c].outcome == WriteSleeps
    ensures var z := Step(y, RunWrite(c, signal));
      && WellFormed(z) && z.taken + z.pipe.data == Flatten(z.log) && |z.calls| == |y.calls|
      && (forall i :: 0 <= i < |z.log| ==> z.log[i].call < |z.calls|)
      && forall d :: 0 <= d < |y.calls| && d != c ==>
        z.calls[d] == y.calls[d] && PiecesOf(z.log, d) == PiecesOf(y.log, d)
  {
    hide Writing, CallOk, Flatten, PiecesOf, Join;
    var w := y.calls[c].write;
    WritingFacts(y.pipe, w, signal);
    var (p, w', r) := Writing(y.pipe, w, signal);
    CallSoFar(y, c);
    PutOk(y.log, c, w.src, w.done, w'.done);
    Assoc(y.taken, y.pipe.data, w.src[w.done..w'.done]);
  }

  lemma CallSoFar(y: System, c: nat)
    requires c < |y.calls| && CallOk(y, c)
    ensures var w := y.calls[c].write; w.done <= |w.src| && Join(PiecesOf(y.log, c)) == w.src[..w.done]
  {
  }

  lemma Assoc(a: seq<Byte>, b: seq<Byte>, c: seq<Byte>)
    ensures a + (b + c) == (a + b) + c
  {
  }

  lemma Cut(a: seq<Byte>, b: seq<Byte>, k: nat)
    requires k <= |b|
    ensures (a + b[..k]) + b[k..] == a + b
  {
  }

  lemma CallSame(y: System, z: System, d: nat)
    requires d < |y.calls| && d < |z.calls| && z.calls[d] == y.calls[d] && PiecesOf(z.log, d) == PiecesOf(y.log, d)
    requires CallOk(y, d)
    ensures CallOk(z, d)
  {
  }

  lemma ReadOk(y: System, size: nat, signal: bool)
    requires SystemOk(y)
    ensures SystemOk(Step(y, RunRead(size, signal)))
  {
    hide CallOk, Flatten, PiecesOf, Join;
    var z := Step(y, RunRead(size, signal));
    if y.pipe.data != [] { Cut(y.taken, y.pipe.data, Min(size, |y.pipe.data|)); }
    forall d | 0 <= d < |z.calls| ensures CallOk(z, d) {
      CallSame(y, z, d);
    }
  }

  lemma {:induction false} NoPieces(log: seq<Piece>, c: nat)
    requires forall i :: 0 <= i < |log| ==> log[i].call != c
    ensures PiecesOf(log, c) == []
  {
    if log != [] { NoPieces(log[..|log| - 1], c); }
  }

  lemma StepOk(y: System, e: Event)
    requires SystemOk(y)
    ensures SystemOk(Step(y, e))
  {
    hide SystemOk, Writing, Reading;
    Formed(y);
    match e {
      case RunWrite(c, signal) => WriteOk(y, c, signal);
      case RunRead(size, signal) => ReadOk(y, size, signal);
      case StartWrite(src) => StartOk(y, src);
      case _ => EndsOk(y, Step(y, e));
    }
  }

  lemma Formed(y: System)
    requires SystemOk(y)
    ensures WellFormed(y)
  {
  }

  lemma StartOk(y: System, src: seq<Byte>)
    requires SystemOk(y)
    ensures SystemOk(Step(y, StartWrite(src)))
  {
    var z := Step(y, StartWrite(src));
    NoPieces(y.log, |y.calls|);
    hide Flatten, PiecesOf, Join;
    forall d | 0 <= d < |z.calls| ensures CallOk(z, d) {
      if d < |y.calls| { CallSame(y, z, d); } else { FirstCall(z, d); }
    }
  }

  lemma FirstCall(z: System, d: nat)
    requires d < |z.calls| && z.calls[d].write.done == 0 && !z.calls[d].write.filling && PiecesOf(z.log, d) == []
    ensures CallOk(z, d)
  {
  }

  /** Opening and closing ends moves no byte. */
  lemma EndsOk(y: System, z: System)
    requires SystemOk(y) && z == y.(pipe := z.pipe) && z.pipe.data == y.pipe.data
    ensures SystemOk(z)
  {
    hide Flatten, PiecesOf, Join, CallOk;
    forall d | 0 <= d < |z.calls| ensures CallOk(z, d) {
      CallSame(y, z, d);
    }
  }

  function Run(y: System, events: seq<Event>): System
    requires SystemOk(y)
    decreases |events|
  {
    if events == [] then y else StepOk(y, events[0]); Run(Step(y, events[0]), events[1..])
  }

  /** Whatever the readers and writers do, bytes come out in the order the writers
      put them in: read so far plus buffered is everything put in. */
  lemma {:induction false} RunOk(y: System, events: seq<Event>)
    requires SystemOk(y)
    ensures SystemOk(Run(y, events))
    decreases |events|
  {
    if events != [] {
      StepOk(y, events[0]);
      RunOk(Step(y, events[0]), events[1..]);
    }
  }

  lemma {:induction false} FlattenSplit(log: seq<Piece>, i: nat)
    requires i < |log|
    ensures Flatten(log) == Flatten(log[..i]) + log[i].bytes + Flatten(log[i + 1..])
    decreases |log|
  {
    hide Flatten, PiecesOf;
    var n := |log| - 1;
    FlattenLast(log);
    if i < n {
      FlattenSplit(log[..n], i);
      assert log[..n][..i] == log[..i] && log[..n][i + 1..] == log[i + 1..n];
      LogAppend(log[i + 1..n], log[n]);
      assert log[i + 1..n] + [log[n]] == log[i + 1..];
      Regroup(Flatten(log[..i]), log[i].bytes, Flatten(log[i + 1..n]), log[n].bytes);
    } else {
      assert log[i + 1..] == [] && (Flatten(log[..i]) + log[i].bytes) + [] == Flatten(log[..i]) + log[i].bytes;
    }
  }

  lemma FlattenLast(log: seq<Piece>)
    ensures log != [] ==> Flatten(log) == Flatten(log[..|log| - 1]) + log[|log| - 1].bytes
    ensures Flatten([]) == []
  {
  }

  lemma Regroup(a: seq<Byte>, b: seq<Byte>, c: seq<Byte>, d: seq<Byte>)
    ensures (a + b + c) + d == a + b + (c + d)
  {
  }

  /** Entry `i` of the log is all that call `c` has put in. */
  predicate OnlyPiece(log: seq<Piece>, i: nat, c: nat, b: seq<Byte>) {
    i < |log| && log[i] == Piece(c, b) && forall j :: 0 <= j < |log| && j != i ==> log[j].call != c
  }

  lemma {:induction false} OnePiece(log: seq<Piece>, c: nat, b: seq<Byte>) returns (i: nat)
    requires PiecesOf(log, c) == [b]
    ensures OnlyPiece(log, i, c, b)
  {
    var n := |log| - 1;
    if log[n].call == c {
      i := n;
      assert PiecesOf(log, c) == PiecesOf(log[..n], c) + [log[n].bytes];
      assert PiecesOf(log[..n], c) == [] && PiecesOf(log, c)[0] == log[n].bytes;
      HasNoPieces(log[..n], c);
    } else {
      i := OnePiece(log[..n], c, b);
    }
  }

  lemma {:induction false} HasNoPieces(log: seq<Piece>, c: nat)
    requires PiecesOf(log, c) == []
    ensures forall i :: 0 <= i < |log| ==> log[i].call != c
  {
    if log != [] { HasNoPieces(log[..|log| - 1], c); }
  }

  /** A write of 1 to PIPE_SIZE bytes is wholly absent from the stream, or in it
      as one contiguous piece: after every run, in every interleaving. */
  lemma Atomic(y: System, events: seq<Event>, c: nat)
    requires SystemOk(y) && c < |Run(y, events).calls| && 0 < |Run(y, events).calls[c].write.src| <= PIPE_SIZE
    ensures var z := Run(y, events); var src := z.calls[c].write.src;
      || (forall i :: 0 <= i < |z.log| ==> z.log[i].call != c)
      || (exists i: nat :: OnlyPiece(z.log, i, c, src)
            && z.taken + z.pipe.data == Flatten(z.log[..i]) + src + Flatten(z.log[i + 1..]))
  {
    RunOk(y, events);
    var z := Run(y, events);
    var w := z.calls[c].write;
    assert CallOk(z, c);
    if w.done == 0 {
      HasNoPieces(z.log, c);
    } else {
      var i := OnePiece(z.log, c, w.src);
      FlattenSplit(z.log, i);
    }
  }

  // ---- The ring under such a run ----

  /** One step on the pipe itself. The books are kept from what the calls report.
      No call opens an end again; the proof does not need that. */
  method Perform(b: PipeBuffer, y: System, e: Event) returns (z: System)
    requires b.Valid() && SystemOk(y) && b.View() == y.pipe
    modifies b, b.ring, b.ring.buf
    ensures b.Valid() && SystemOk(z) && b.View() == z.pipe && z == Step(y, e)
  {
    hide SystemOk, Writing, Reading;
    StepOk(y, e);
    Formed(y);
    z := y;
    match e {
      case StartWrite(src) => z := z.(calls := z.calls + [Call(Write(src, 0, false), WriteSleeps)]);
      case RunWrite(c, signal) =>
        if c < |y.calls| && y.calls[c].outcome == WriteSleeps {
          var was := y.calls[c].write;
          var w, r := b.WriteOn(was, signal);
          z := z.(calls := z.calls[c := Call(w, r)]);
          if was.done < w.done { z := z.(log := z.log + [Piece(c, w.src[was.done..w.done])]); }
        }
      case RunRead(size, signal) =>
        var r := b.Read(size, signal);
        if r.Got? { z := z.(taken := z.taken + r.bytes); }
      case CloseReader => if b.readers > 0 { var _ := b.Release(true); }
      case CloseWriter => if b.writers > 0 { var _ := b.Release(false); }
      case OpenReader => b.readers := b.readers + 1;
      case OpenWriter => b.writers := b.writers + 1;
    }
    z := z.(pipe := Step(y, e).pipe);
  }

  /** A pipe from pipe_create on, whatever its readers and writers do: at the end the
      ring holds, of all that was put in, just what was not yet read. */
  method Serve(events: seq<Event>) returns (b: PipeBuffer, y: System)
    ensures fresh(b) && b.Valid() && SystemOk(y) && b.View() == y.pipe
    ensures y == Run(Started(), events) && y.taken + b.ring.data == Flatten(y.log)
  {
    hide Writing, Reading, Step, CallOk;
    b := new PipeBuffer();
    y := Started();
    StartedOk();
    for i := 0 to |events|
      invariant fresh(b) && fresh(b.ring) && fresh(b.ring.buf) && b.Valid() && SystemOk(y) && b.View() == y.pipe
      invariant Run(Started(), events) == Run(y, events[i..])
    {
      assert events[i..][0] == events[i] && events[i..][1..] == events[i + 1..];
      y := Perform(b, y, events[i]);
    }
  }

  function Started(): System { System(State([], 1, 1), [], [], []) }

  lemma StartedOk()
    ensures SystemOk(Started())
  {
  }
}
