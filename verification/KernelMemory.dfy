/** The memory of the whole kernel: program images are loaded, programs store to their
    pages, address spaces and the kernel heap take frames from one allocator, and all
    of it starts from what pmm_init leaves. */
module KernelMemory {
  import opened Machine
  import opened Pmm
  import opened PageTables
  import opened Vmm
  import opened Spaces
  import opened Mman
  import KernelHeap
  import ExecStack

  // ---- Loading a program ----

  /** A loadable segment of an ELF image. */
  datatype Segment = Segment(va: nat, memsz: nat, writable: bool)

  predicate Loadable(g: Segment) { g.memsz == 0 || (MMAP_MIN <= g.va && g.va + g.memsz <= MMAP_TOP) }

  function LoadFlags(g: Segment): bv12 { if g.writable then 7 else 5 }

  function FirstPage(g: Segment): nat { g.va / PAGE_SIZE }

  function EndPage(g: Segment): nat { (g.va + g.memsz + PAGE_SIZE - 1) / PAGE_SIZE }

  predicate Holds(g: Segment, q: nat) { g.memsz > 0 && FirstPage(g) <= q < EndPage(g) }

  /** Some segment, or some writable one, has bytes on page `q`. */
  predicate Loads(segs: seq<Segment>, q: nat) { exists i :: 0 <= i < |segs| && Holds(segs[i], q) }

  predicate LoadsWritable(segs: seq<Segment>, q: nat) {
    exists i :: 0 <= i < |segs| && Holds(segs[i], q) && segs[i].writable
  }

  /** Where the break starts: behind the last segment. */
  function Top(segs: seq<Segment>, b: nat): nat {
    if segs == [] then b
    else
      var g, t := segs[|segs| - 1], Top(segs[..|segs| - 1], b);
      if g.memsz > 0 && AlignUp(g.va + g.memsz) > t then AlignUp(g.va + g.memsz) else t
  }

  lemma {:induction false} TopIs(segs: seq<Segment>, b: nat)
    requires (forall i :: 0 <= i < |segs| ==> Loadable(segs[i])) && b % PAGE_SIZE == 0 && b <= MMAP_TOP
    ensures b <= Top(segs, b) <= MMAP_TOP && Top(segs, b) % PAGE_SIZE == 0
    ensures forall q: nat :: Loads(segs, q) ==> (q + 1) * PAGE_SIZE <= Top(segs, b)
  {
    if segs != [] {
      var n := |segs| - 1;
      var rest, g := segs[..n], segs[n];
      TopIs(rest, b);
      forall q: nat | Loads(segs, q) ensures (q + 1) * PAGE_SIZE <= Top(segs, b) {
        var i :| 0 <= i < |segs| && Holds(segs[i], q);
        if i < n { assert rest[i] == segs[i] && Loads(rest, q); }
      }
    }
  }

  /** One page of the space before and after the segments were loaded. */
  ghost predicate LoadedPage(d: Word, e: Word, segs: seq<Segment>, q: nat) {
    && (Present(e.lo) <==> Present(d.lo) || Loads(segs, q)) && (Present(d.lo) ==> e.hi == d.hi)
    && (Writable(e.lo) <==> Writable(d.lo) || LoadsWritable(segs, q))
  }

  /** Exactly the pages of the segments have come, writable where a segment is. */
  ghost predicate Loaded(v: World, w: World, s: nat, segs: seq<Segment>)
    requires Parts(v) && Parts(w)
  {
    && (forall t, q: nat {:trigger Flat(w, t, q)} :: t != s ==> Flat(w, t, q) == Flat(v, t, q))
    && forall q: nat {:trigger Flat(w, s, q)} :: LoadedPage(Flat(v, s, q), Flat(w, s, q), segs, q)
  }

  lemma LoadsNext(segs: seq<Segment>, n: nat, q: nat)
    requires n < |segs|
    ensures Loads(segs[..n + 1], q) <==> Loads(segs[..n], q) || Holds(segs[n], q)
    ensures LoadsWritable(segs[..n + 1], q) <==> LoadsWritable(segs[..n], q) || (Holds(segs[n], q) && segs[n].writable)
  {
    var a, b := segs[..n], segs[..n + 1];
    assert b[n] == segs[n] && forall i :: 0 <= i < n ==> a[i] == b[i];
    if Loads(a, q) {
      var i :| 0 <= i < n && Holds(a[i], q);
      assert Holds(b[i], q);
    }
    if LoadsWritable(a, q) {
      var i :| 0 <= i < n && Holds(a[i], q) && a[i].writable;
      assert Holds(b[i], q) && b[i].writable;
    }
  }

  lemma PageNext(d: Word, u: Word, e: Word, v: World, w: World, segs: seq<Segment>, n: nat, q: nat)
    requires n < |segs| && LoadedPage(d, u, segs[..n], q) && (Present(u.lo) || u == ZERO)
    requires if Holds(segs[n], q) then Granted(v, w, u, e, LoadFlags(segs[n])) else e == u
    ensures LoadedPage(d, e, segs[..n + 1], q)
  {
    LoadsNext(segs, n, q);
    hide Loads, LoadsWritable, Holds;
    assert !Writable(0) && Present(7) && Present(5) && Writable(7) && !Writable(5);
  }

  lemma LoadedNext(v: World, u: World, w: World, boot: Frame, s: nat, segs: seq<Segment>, n: nat)
    requires Parts(v) && Inv(u, boot) && Parts(u) && Parts(w) && n < |segs| && segs[n].memsz > 0
    requires Loaded(v, u, s, segs[..n])
    requires Backed(u, w, s, FirstPage(segs[n]), EndPage(segs[n]), LoadFlags(segs[n]))
    ensures Loaded(v, w, s, segs[..n + 1])
  {
    hide Inv, Owned, Placed, Flat, Granted, LoadedPage;
    forall q: nat ensures LoadedPage(Flat(v, s, q), Flat(w, s, q), segs[..n + 1], q) {
      FlatLeaf(u, boot, s, q);
      assert LoadedPage(Flat(v, s, q), Flat(u, s, q), segs[..n], q);
      assert !Holds(segs[n], q) ==> Flat(w, s, q) == Flat(u, s, q);
      PageNext(Flat(v, s, q), Flat(u, s, q), Flat(w, s, q), u, w, segs, n, q);
    }
    forall t, q: nat | t != s ensures Flat(w, t, q) == Flat(v, t, q) {
      assert Flat(u, t, q) == Flat(v, t, q);
    }
  }

  lemma LoadedSkip(v: World, w: World, s: nat, segs: seq<Segment>, n: nat)
    requires Parts(v) && Parts(w) && n < |segs| && segs[n].memsz == 0 && Loaded(v, w, s, segs[..n])
    ensures Loaded(v, w, s, segs[..n + 1])
  {
    hide Owned, Placed, Flat, Loads, LoadsWritable;
    forall q: nat ensures LoadedPage(Flat(v, s, q), Flat(w, s, q), segs[..n + 1], q) {
      LoadsNext(segs, n, q);
      assert LoadedPage(Flat(v, s, q), Flat(w, s, q), segs[..n], q);
    }
  }

  lemma LoadedNone(v: World, s: nat)
    requires Parts(v)
    ensures Loaded(v, v, s, [])
  {
  }

  lemma LoadedFields(v: World, u: World, w: World, s: nat, segs: seq<Segment>)
    requires Parts(v) && Parts(u) && Parts(w) && Loaded(v, u, s, segs) && SameFlat(u, w)
    ensures Loaded(v, w, s, segs)
  {
    hide Owned, Placed, Flat, LoadedPage;
    forall t, q: nat ensures Flat(w, t, q) == Flat(u, t, q) {
    }
  }

  /** The segment loop of load_elf. It fails for a segment outside user memory or when no
      frame is left. */
  method LoadSegments(vm: AddressSpaces, s: nat, segs: seq<Segment>) returns (ok: bool)
    requires vm.Valid() && s in vm.spaces && FieldsOk(vm.spaces[s])
    modifies vm`mem, vm`spaces, vm`node, vm`owner, vm.pmm`usedFrames, vm.pmm`bits, vm.pmm.bitmap
    ensures vm.Valid() && Parts(old(vm.W())) && Parts(vm.W()) && Confined(old(vm.W()), vm.W(), s, 0, 0)
    ensures s in vm.spaces && vm.spaces == old(vm.spaces)[s := vm.spaces[s]]
    ensures ok ==> Loaded(old(vm.W()), vm.W(), s, segs) && forall i :: 0 <= i < |segs| ==> Loadable(segs[i])
    ensures ok ==> var top := Top(segs, old(vm.spaces)[s].brkStart);
      vm.spaces[s] == old(vm.spaces)[s].(brkStart := top, brk := top)
    ensures !ok ==> (exists i :: 0 <= i < |segs| && !Loadable(segs[i])) || NoRun(vm.pmm.bits, 1)
  {
    hide Inv, FrameAllocator.Valid, Owned, Placed, Shape, SameFlat, Confined, Loaded, Top, NoRun, Loadable, FieldsOk;
    ghost var v := vm.W();
    var sp := vm.spaces[s];
    InvParts(v, vm.boot);
    LoadedNone(v, s);
    ConfinedFields(v, s, 0, 0, v.spaces);
    assert segs[..0] == [] && Top([], sp.brkStart) == sp.brkStart by { TopNone(sp.brkStart); }
    var n := 0;
    while n < |segs|
      invariant 0 <= n <= |segs| && vm.Valid() && Parts(vm.W()) && s in vm.spaces
      invariant Confined(v, vm.W(), s, 0, 0) && Loaded(v, vm.W(), s, segs[..n])
      invariant vm.spaces == v.spaces[s := sp.(brkStart := Top(segs[..n], sp.brkStart))]
      invariant forall i :: 0 <= i < n ==> Loadable(segs[i])
    {
      ok := LoadOne(vm, s, segs, n, v);
      if !ok { return; }
      n := n + 1;
    }
    assert segs[..n] == segs;
    ghost var u := vm.W();
    SetFields(vm, s, vm.spaces[s].(brk := vm.spaces[s].brkStart));
    LoadedFields(v, u, vm.W(), s, segs);
    ConfinedFields(u, s, 0, 0, vm.spaces);
    ConfinedTrans(v, u, vm.W(), s, 0, 0);
    return true;
  }

  lemma TopNone(b: nat)
    ensures Top([], b) == b
  {
  }

  lemma TopNext(segs: seq<Segment>, n: nat, b: nat)
    requires n < |segs|
    ensures Top(segs[..n + 1], b) ==
      var g, t := segs[n], Top(segs[..n], b);
      if g.memsz > 0 && AlignUp(g.va + g.memsz) > t then AlignUp(g.va + g.memsz) else t
  {
    assert segs[..n + 1][..n] == segs[..n];
  }

  /** One segment: its pages are allocated and the break starts behind it. */
  method LoadOne(vm: AddressSpaces, s: nat, segs: seq<Segment>, n: nat, ghost v: World) returns (ok: bool)
    requires vm.Valid() && Parts(v) && Parts(vm.W()) && s in vm.spaces && n < |segs|
    requires Confined(v, vm.W(), s, 0, 0) && Loaded(v, vm.W(), s, segs[..n]) && s in v.spaces
    requires vm.spaces == v.spaces[s := v.spaces[s].(brkStart := Top(segs[..n], v.spaces[s].brkStart))]
    modifies vm`mem, vm`spaces, vm`node, vm`owner, vm.pmm`usedFrames, vm.pmm`bits, vm.pmm.bitmap
    ensures vm.Valid() && Parts(vm.W()) && Confined(v, vm.W(), s, 0, 0)
    ensures s in vm.spaces && vm.spaces == v.spaces[s := vm.spaces[s]]
    ensures ok ==> Loadable(segs[n]) && Loaded(v, vm.W(), s, segs[..n + 1])
    ensures ok ==> vm.spaces[s] == v.spaces[s].(brkStart := Top(segs[..n + 1], v.spaces[s].brkStart))
    ensures !ok ==> !Loadable(segs[n]) || NoRun(vm.pmm.bits, 1)
  {
    hide Inv, FrameAllocator.Valid, Owned, Placed, Shape, SameFlat, Confined, Loaded, Top, NoRun, Backed, Keeps;
    hide KeepsBut, Enough, Needed;
    var g := segs[n];
    TopNext(segs, n, v.spaces[s].brkStart);
    if g.memsz == 0 {
      LoadedSkip(v, vm.W(), s, segs, n);
      return true;
    }
    if g.va < MMAP_MIN || g.va + g.memsz > MMAP_TOP { return false; }
    ghost var u := vm.W();
    ghost var stop, lost;
    assert Present(5) && Present(7);
    ok, stop, lost := vm.AllocRange(s, g.va, g.va + g.memsz, LoadFlags(g));
    ghost var w := vm.W();
    InvParts(w, vm.boot);
    if ok { KeepsAll(u, w, s); }
    ConfinedAlloc(u, w, s, 0, 0, lost);
    ConfinedTrans(v, u, w, s, 0, 0);
    if !ok { return; }
    LoadedNext(v, u, w, vm.boot, s, segs, n);
    var top := AlignUp(g.va + g.memsz);
    if top > vm.spaces[s].brkStart {
      SetFields(vm, s, vm.spaces[s].(brkStart := top));
      LoadedFields(v, w, vm.W(), s, segs[..n + 1]);
      ConfinedFields(w, s, 0, 0, vm.spaces);
      ConfinedTrans(v, w, vm.W(), s, 0, 0);
    }
  }

  /** The stack, as if it were one more segment. */
  function Stack(): Segment { Segment(ExecStack.STACK_LOW, ExecStack.STACK_SIZE, true) }

  /** The end of load_image: a new space gets the segments and a stack; on failure it is
      destroyed. */
  method Exec(vm: AddressSpaces, room: bool, segs: seq<Segment>) returns (ok: bool, s: nat)
    requires vm.Valid() && AllFields(vm.spaces)
    modifies vm`mem, vm`spaces, vm`nextSpace, vm`node, vm`owner
    modifies vm.pmm`usedFrames, vm.pmm`bits, vm.pmm`complaints, vm.pmm.bitmap
    ensures vm.Valid() && AllFields(vm.spaces) && vm.pmm.complaints == old(vm.pmm.complaints)
    ensures Sheltered(old(vm.W()), vm.W())
    ensures !ok ==> vm.spaces == old(vm.spaces)
    ensures ok ==> room && forall i :: 0 <= i < |segs| ==> Loadable(segs[i])
    ensures ok ==> s !in old(vm.spaces) && s in vm.spaces && vm.spaces == old(vm.spaces)[s := vm.spaces[s]]
    ensures ok ==> vm.spaces[s].brkStart == vm.spaces[s].brk == Top(segs, 0)
    ensures ok ==> Parts(vm.W()) && forall q: nat ::
      && (Mapped(vm.W(), s, q) <==> Loads(segs + [Stack()], q))
      && (Writable(Flat(vm.W(), s, q).lo) <==> LoadsWritable(segs + [Stack()], q))
  {
    hide Inv, FrameAllocator.Valid, Owned, Placed, Shape, SameFlat, Confined, Loaded, Top, NoRun, Born, Sheltered;
    hide Loads, LoadsWritable, Dropped, AllFields;
    ghost var v := vm.W();
    InvParts(v, vm.boot);
    ShelteredSelf(v);
    ok, s := Create(vm, room);
    if !ok { return; }
    ghost var u := vm.W();
    BornShelters(v, u, s, vm.spaces[s].pml4);
    BornSpaces(v, u, s, vm.spaces[s].pml4);
    FieldsBorn(v, u, s, vm.spaces[s].pml4);
    FieldsThere(vm.spaces, s);
    ok := LoadSegments(vm, s, segs);
    if ok { ok := LoadStack(vm, s, segs, u); }
    ghost var w := vm.W();
    ConfinedShelters(u, w, s, 0, 0);
    ShelteredTrans(v, u, w);
    if ok {
      TopIs(segs, 0);
      FieldsOne(u.spaces, s, vm.spaces[s]);
      EmptyLoaded(v, u, w, s, u.spaces[s].pml4, segs + [Stack()]);
    } else {
      Destroy(vm, s);
      DroppedIs(w, s);
      DropShelters(w, s);
      ShelteredTrans(v, w, vm.W());
      assert vm.spaces == v.spaces;
    }
  }

  /** The first step of build_stack. */
  method LoadStack(vm: AddressSpaces, s: nat, ghost segs: seq<Segment>, ghost v: World) returns (ok: bool)
    requires vm.Valid() && Parts(v) && Parts(vm.W()) && s in vm.spaces
    requires Confined(v, vm.W(), s, 0, 0) && Loaded(v, vm.W(), s, segs)
    modifies vm`mem, vm`node, vm`owner, vm.pmm`usedFrames, vm.pmm`bits, vm.pmm.bitmap
    ensures vm.Valid() && Parts(vm.W()) && Confined(v, vm.W(), s, 0, 0) && vm.spaces == old(vm.spaces)
    ensures ok ==> Loaded(v, vm.W(), s, segs + [Stack()])
    ensures !ok ==> NoRun(vm.pmm.bits, 1)
  {
    hide Inv, FrameAllocator.Valid, Owned, Placed, Shape, Confined, Loaded, NoRun, Backed, Keeps, KeepsBut, Enough;
    hide Needed;
    ghost var u := vm.W();
    ghost var stop, lost;
    assert Present(7);
    ok, stop, lost := vm.AllocRange(s, ExecStack.STACK_LOW, ExecStack.STACK_TOP, 7);
    ghost var w := vm.W();
    InvParts(w, vm.boot);
    if ok {
      KeepsAll(u, w, s);
      ghost var more := segs + [Stack()];
      assert more[..|segs|] == segs && more[..|segs| + 1] == more && more[|segs|] == Stack();
      LoadedNext(v, u, w, vm.boot, s, more, |segs|);
    }
    ConfinedAlloc(u, w, s, 0, 0, lost);
    ConfinedTrans(v, u, w, s, 0, 0);
  }

  lemma BornSpaces(v: World, w: World, s: nat, f: nat)
    requires Born(v, w, s, f)
    ensures s !in v.spaces && s in w.spaces && w.spaces == v.spaces[s := w.spaces[s]]
  {
  }

  lemma FieldsThere(spaces: map<nat, Space>, s: nat)
    requires AllFields(spaces) && s in spaces
    ensures FieldsOk(spaces[s])
  {
  }

  lemma FieldsOne(spaces: map<nat, Space>, s: nat, sp: Space)
    requires AllFields(spaces) && FieldsOk(sp)
    ensures AllFields(spaces[s := sp])
  {
  }

  /** A new space holds what was loaded and nothing else. */
  lemma EmptyLoaded(v: World, u: World, w: World, s: nat, f: nat, segs: seq<Segment>)
    requires Born(v, u, s, f) && Parts(w) && Loaded(u, w, s, segs)
    ensures forall q: nat ::
      && (Mapped(w, s, q) <==> Loads(segs, q)) && (Writable(Flat(w, s, q).lo) <==> LoadsWritable(segs, q))
  {
    hide Loads, LoadsWritable, Owned, Placed;
    forall q: nat ensures (Mapped(w, s, q) <==> Loads(segs, q))
      && (Writable(Flat(w, s, q).lo) <==> LoadsWritable(segs, q))
    {
      assert Flat(u, s, q) == Flat(v, s, q) == ZERO;
      assert LoadedPage(Flat(u, s, q), Flat(w, s, q), segs, q);
      assert !Present(0) && !Writable(0);
    }
  }

  // ---- Stores to mapped pages ----

  /** What a program of space `t` sees in word `j` of its page `q`. */
  ghost function Seen(w: World, t: nat, q: nat, j: nat): Word
    requires Parts(w) && j < 512
  {
    if Flat(w, t, q).hi < |w.mem| then w.mem[Flat(w, t, q).hi][j] else ZERO
  }

  function Stored(mem: seq<Frame>, f: nat, j: nat, x: Word): seq<Frame>
    requires f < |mem| && j < |mem[f]|
  {
    mem[f := mem[f][j := x]]
  }

  /** A store of a word by a program, or one of vmm_copy_to. It reaches that word of that
      page and no other word of any page of any space. */
  method Store(vm: AddressSpaces, s: nat, va: nat, x: Word) returns (ok: bool)
    requires vm.Valid() && s in vm.spaces && va / PAGE_SIZE < USER_PAGES
    modifies vm`mem
    ensures vm.Valid() && Parts(old(vm.W())) && Parts(vm.W()) && Sheltered(old(vm.W()), vm.W())
    ensures SameFlat(old(vm.W()), vm.W()) && (ok <==> Mapped(old(vm.W()), s, va / PAGE_SIZE))
    ensures forall t, q, j: nat :: Mapped(vm.W(), t, q) && j < 512 ==>
      Seen(vm.W(), t, q, j) ==
        if ok && t == s && q == va / PAGE_SIZE && j == va % PAGE_SIZE / 8 then x else Seen(old(vm.W()), t, q, j)
  {
    hide Inv, FrameAllocator.Valid, Owned, Placed, Shape, SameFlat, Sheltered, Flat, Seen, Stored;
    ghost var w := vm.W();
    InvParts(w, vm.boot);
    SameSelf(w);
    ShelteredSelf(w);
    var phys := vm.Translate(s, va);
    if phys == INVALID { return false; }
    var f := phys / PAGE_SIZE;
    StoreOk(w, vm.boot, s, va / PAGE_SIZE, f, va % PAGE_SIZE / 8, x);
    vm.mem := vm.mem[f := vm.mem[f][va % PAGE_SIZE / 8 := x]];
    StoredIs(w.mem, f, va % PAGE_SIZE / 8, x);
    return true;
  }

  lemma StoredIs(mem: seq<Frame>, f: nat, j: nat, x: Word)
    requires f < |mem| && j < |mem[f]|
    ensures Stored(mem, f, j, x) == mem[f := mem[f][j := x]]
  {
  }

  lemma SameSelf(w: World)
    requires Parts(w)
    ensures SameFlat(w, w)
  {
  }

  lemma StoreOk(w: World, boot: Frame, s: nat, p: nat, f: nat, i: nat, x: Word)
    requires Inv(w, boot) && Parts(w) && Present(Flat(w, s, p).lo) && Flat(w, s, p).hi == f && i < 512
    ensures f < |w.mem| && |w.mem[f]| == 512
    ensures var v := w.(mem := Stored(w.mem, f, i, x));
      && Inv(v, boot) && Parts(v) && SameFlat(w, v) && Sheltered(w, v)
      && forall t, q, j: nat :: Mapped(v, t, q) && j < 512 ==>
        Seen(v, t, q, j) == if t == s && q == p && j == i then x else Seen(w, t, q, j)
  {
    FlatLeaf(w, boot, s, p);
    DataThere(w, s, p);
    WriteDataOk(w, boot, s, p, w.mem[f][i := x]);
    var v := w.(mem := Stored(w.mem, f, i, x));
    InvParts(v, boot);
    hide Inv, Shape, Owned, Placed;
    forall t, q, j: nat | Mapped(v, t, q) && j < 512
      ensures Seen(v, t, q, j) == if t == s && q == p && j == i then x else Seen(w, t, q, j)
    {
      assert Flat(v, t, q) == Flat(w, t, q);
      FlatLeaf(w, boot, t, q);
      DataThere(w, t, q);
      OneHome(w, s, p, t, q);
      hide Flat;
    }
  }

  lemma DataThere(w: World, s: nat, p: nat)
    requires Parts(w) && Loc(s, 0, p) in w.node
    ensures var f := w.node[Loc(s, 0, p)];
      f < |w.mem| && |w.mem[f]| == 512 && f in w.owner && w.owner[f] == Node(Loc(s, 0, p))
  {
  }

  /** No frame is two pages. */
  lemma OneHome(w: World, s: nat, p: nat, t: nat, q: nat)
    requires Parts(w) && Loc(s, 0, p) in w.node && Loc(t, 0, q) in w.node
    ensures w.node[Loc(s, 0, p)] == w.node[Loc(t, 0, q)] ==> s == t && p == q
  {
  }

  // ---- The heap and the address spaces together ----

  /** Every page of the heap has the role of one. */
  ghost predicate HeapPages(w: World, pages: set<nat>) { forall f :: f in pages ==> f in w.owner && w.owner[f].Heap? }

  /** Both take their frames from one allocator, and none belongs to both. */
  ghost predicate Sound(vm: AddressSpaces, heap: KernelHeap.Heap)
    reads vm, vm.pmm, vm.pmm.bitmap, heap, heap.pmm, heap.pmm.bitmap
  {
    vm.Valid() && heap.Valid() && heap.pmm == vm.pmm && AllFields(vm.spaces) && HeapPages(vm.W(), heap.pages)
  }

  lemma PagesStay(v: World, w: World, boot: Frame, pages: set<nat>)
    requires Inv(v, boot) && Inv(w, boot) && Sheltered(v, w) && HeapPages(v, pages)
    ensures HeapPages(w, pages) && 0 < |w.bits| <= 0x4_0000 && w.bits[0]
    ensures forall f :: f in pages ==> f < |w.bits| && w.bits[f]
  {
  }

  lemma PagesGrow(v: World, boot: Frame, ps: set<nat>, qs: set<nat>, more: seq<bool>, f: nat, n: nat)
    requires Inv(v, boot) && HeapPages(v, ps) && KernelHeap.ExtendedBy(ps, v.bits, qs, more, f, n)
    ensures f + n <= |v.bits|
    ensures var w := Taken(v, f, n);
      && w == World(v.mem, more, v.node, w.owner, v.spaces)
      && Inv(w, boot) && Sheltered(v, w) && HeapPages(w, qs)
  {
    hide Fill;
    TakenOk(v, boot, f, n);
    InvParts(v, boot);
    hide Inv, Shape, Placed;
    TakenShelters(v, f, n);
    TakenIs(v, f, n);
  }

  /** An operation on address spaces leaves the heap alone. */
  method SpaceStep(vm: AddressSpaces, heap: KernelHeap.Heap, op: Mman.Op)
    requires Sound(vm, heap)
    modifies vm`mem, vm`spaces, vm`nextSpace, vm`node, vm`owner
    modifies vm.pmm`usedFrames, vm.pmm`bits, vm.pmm`complaints, vm.pmm.bitmap
    ensures Sound(vm, heap) && vm.pmm.complaints == old(vm.pmm.complaints) && Sheltered(old(vm.W()), vm.W())
  {
    hide Inv, FrameAllocator.Valid, Sheltered, HeapPages, AllFields, KernelHeap.HeapOk;
    ghost var v := vm.W();
    Mman.Perform(vm, op);
    PagesStay(v, vm.W(), vm.boot, heap.pages);
  }

  method ExecStep(vm: AddressSpaces, heap: KernelHeap.Heap, room: bool, segs: seq<Segment>)
    requires Sound(vm, heap)
    modifies vm`mem, vm`spaces, vm`nextSpace, vm`node, vm`owner
    modifies vm.pmm`usedFrames, vm.pmm`bits, vm.pmm`complaints, vm.pmm.bitmap
    ensures Sound(vm, heap) && vm.pmm.complaints == old(vm.pmm.complaints) && Sheltered(old(vm.W()), vm.W())
  {
    hide Inv, FrameAllocator.Valid, Sheltered, HeapPages, AllFields, KernelHeap.HeapOk, Loads, LoadsWritable, Top;
    ghost var v := vm.W();
    var ok, s := Exec(vm, room, segs);
    PagesStay(v, vm.W(), vm.boot, heap.pages);
  }

  method StoreStep(vm: AddressSpaces, heap: KernelHeap.Heap, s: nat, va: nat, x: Word)
    requires Sound(vm, heap)
    modifies vm`mem
    ensures Sound(vm, heap) && Sheltered(old(vm.W()), vm.W())
  {
    hide Inv, FrameAllocator.Valid, Sheltered, HeapPages, AllFields, KernelHeap.HeapOk, SameFlat, Seen, Owned, Placed;
    ghost var v := vm.W();
    ShelteredSelf(v);
    if s in vm.spaces && va / PAGE_SIZE < USER_PAGES {
      var _ := Store(vm, s, va, x);
      PagesStay(v, vm.W(), vm.boot, heap.pages);
    }
  }

  /** k_malloc: the frames it takes become the heap's. */
  method MallocStep(vm: AddressSpaces, heap: KernelHeap.Heap, size: nat) returns (a: KernelHeap.Answer)
    requires Sound(vm, heap) && size <= WORD - 32
    modifies vm`owner, heap`head, heap`hdr, heap`pages, heap`writes
    modifies vm.pmm`usedFrames, vm.pmm`bits, vm.pmm.bitmap
    ensures Sound(vm, heap) && Sheltered(old(vm.W()), vm.W()) && KernelHeap.Suits(KernelHeap.CallMalloc(size), a)
    ensures var live := old(KernelHeap.Live(heap.hdr));
      KernelHeap.Live(heap.hdr) == if a.Gave? then live[a.block := a.size] else live
  {
    hide Inv, FrameAllocator.Valid, Sheltered, HeapPages, AllFields, KernelHeap.HeapOk, KernelHeap.Live, Fill, Taken;
    hide KernelHeap.Noted, KernelHeap.AllClear, KernelHeap.Fits, KernelHeap.Granted;
    ghost var v, ps := vm.W(), heap.pages;
    ShelteredSelf(v);
    a := KernelHeap.Nothing;
    var p := heap.Malloc(size);
    if p != NULL { a := KernelHeap.Gave(p - KernelHeap.HEADER, heap.hdr[p - KernelHeap.HEADER].size); }
    if heap.pages != ps || vm.pmm.bits != v.bits {
      ghost var f: nat, n: nat :| KernelHeap.ExtendedBy(ps, v.bits, heap.pages, vm.pmm.bits, f, n);
      PagesGrow(v, vm.boot, ps, heap.pages, vm.pmm.bits, f, n);
      vm.owner := Taken(v, f, n).owner;
    }
  }

  /** k_heap_init takes the first page. */
  method StartStep(vm: AddressSpaces, heap: KernelHeap.Heap)
    requires Sound(vm, heap) && heap.hdr == map[] && heap.head == NULL
    modifies vm`owner, heap`head, heap`hdr, heap`pages, heap`writes
    modifies vm.pmm`usedFrames, vm.pmm`bits, vm.pmm.bitmap
    ensures Sound(vm, heap) && Sheltered(old(vm.W()), vm.W()) && KernelHeap.Live(heap.hdr) == map[]
  {
    hide Inv, FrameAllocator.Valid, Sheltered, HeapPages, AllFields, KernelHeap.HeapOk, KernelHeap.Live, Fill, Taken;
    hide LowestRun, NoRun;
    ghost var v, ps := vm.W(), heap.pages;
    ShelteredSelf(v);
    heap.Start();
    if heap.pages != ps || vm.pmm.bits != v.bits {
      ghost var f: nat, n: nat :| KernelHeap.ExtendedBy(ps, v.bits, heap.pages, vm.pmm.bits, f, n);
      PagesGrow(v, vm.boot, ps, heap.pages, vm.pmm.bits, f, n);
      vm.owner := Taken(v, f, n).owner;
    }
  }

  // ---- Every run from boot ----

  datatype Event =
    | OnSpace(op: Mman.Op)
    | Executes(room: bool, segs: seq<Segment>)
    | Stores(s: nat, va: nat, x: Word)
    | OnHeap(call: KernelHeap.Call)

  /** The calls of k_malloc and k_free among the events. */
  function HeapCalls(es: seq<Event>): seq<KernelHeap.Call> {
    if es == [] then []
    else HeapCalls(es[..|es| - 1]) + if es[|es| - 1].OnHeap? then [es[|es| - 1].call] else []
  }

  ghost predicate Answered(calls: seq<KernelHeap.Call>, log: seq<KernelHeap.Answer>, live: map<nat, nat>) {
    && |log| == |calls| && live == KernelHeap.Owed(calls, log)
    && forall i :: 0 <= i < |calls| ==> KernelHeap.Suits(calls[i], log[i])
  }

  lemma AnsweredNext(es: seq<Event>, n: nat, log: seq<KernelHeap.Answer>, live: map<nat, nat>, a: KernelHeap.Answer,
                     now: map<nat, nat>)
    requires n < |es| && es[n].OnHeap? && Answered(HeapCalls(es[..n]), log, live) && KernelHeap.Suits(es[n].call, a)
    requires now == match es[n].call
      case CallMalloc(_) => if a.Gave? then live[a.block := a.size] else live
      case CallFree(b) => live - {b}
    ensures Answered(HeapCalls(es[..n + 1]), log + [a], now)
  {
    var calls := HeapCalls(es[..n + 1]);
    assert es[..n + 1][..n] == es[..n] && calls == HeapCalls(es[..n]) + [es[n].call];
    var i := |calls| - 1;
    assert calls[..i] == HeapCalls(es[..n]) && calls[..i + 1] == calls;
    KernelHeap.OwedNext(calls, log, i, a);
  }

  lemma AnsweredSame(es: seq<Event>, n: nat)
    requires n < |es| && !es[n].OnHeap?
    ensures HeapCalls(es[..n + 1]) == HeapCalls(es[..n])
  {
    assert es[..n + 1][..n] == es[..n];
  }

  lemma AnsweredNone()
    ensures Answered(HeapCalls([]), [], map[])
  {
    KernelHeap.OwedNone();
  }

  method HeapStep(vm: AddressSpaces, heap: KernelHeap.Heap, call: KernelHeap.Call, held: map<nat, nat>)
    returns (a: KernelHeap.Answer)
    requires Sound(vm, heap) && held == KernelHeap.Live(heap.hdr)
    modifies vm`owner, heap`head, heap`hdr, heap`pages, heap`writes
    modifies vm.pmm`usedFrames, vm.pmm`bits, vm.pmm.bitmap
    ensures Sound(vm, heap) && Sheltered(old(vm.W()), vm.W()) && KernelHeap.Suits(call, a)
    ensures KernelHeap.Live(heap.hdr) == match call
      case CallMalloc(_) => if a.Gave? then held[a.block := a.size] else held
      case CallFree(b) => held - {b}
  {
    hide Inv, FrameAllocator.Valid, Sheltered, HeapPages, AllFields, KernelHeap.HeapOk, KernelHeap.Live;
    hide KernelHeap.Noted, KernelHeap.AllClear, KernelHeap.JoinedPrev;
    ShelteredSelf(vm.W());
    a := KernelHeap.Nothing;
    match call
    case CallMalloc(size) => if size <= WORD - 32 { a := MallocStep(vm, heap, size); }
    case CallFree(b) => if b in held { heap.Free(b + KernelHeap.HEADER); }
  }

  /** Every run of programs being loaded and storing to their memory, of operations on
      address spaces, and of k_malloc and k_free, in any order and on one allocator,
      keeps trees, bitmap, roles and heap in agreement, never logs a bad or double
      free, and never hands out or writes to a frame of the kernel. What the heap has
      in use is what it gave out and did not get back. */
  method Run(vm: AddressSpaces, heap: KernelHeap.Heap, es: seq<Event>) returns (log: seq<KernelHeap.Answer>)
    requires Sound(vm, heap) && KernelHeap.Live(heap.hdr) == map[]
    modifies vm`mem, vm`spaces, vm`nextSpace, vm`node, vm`owner, heap`head, heap`hdr, heap`pages, heap`writes
    modifies vm.pmm`usedFrames, vm.pmm`bits, vm.pmm`complaints, vm.pmm.bitmap
    ensures Sound(vm, heap) && vm.pmm.complaints == old(vm.pmm.complaints) && Sheltered(old(vm.W()), vm.W())
    ensures Answered(HeapCalls(es), log, KernelHeap.Live(heap.hdr))
  {
    hide Sound, KernelHeap.Live, Sheltered, Answered, HeapCalls, KernelHeap.Suits;
    ghost var v := vm.W();
    ShelteredSelf(v);
    log := [];
    var held: map<nat, nat> := map[];
    assert es[..0] == [] && Answered(HeapCalls(es[..0]), log, held) by { AnsweredNone(); }
    for n := 0 to |es|
      invariant Sound(vm, heap) && vm.pmm.complaints == old(vm.pmm.complaints) && Sheltered(v, vm.W())
      invariant held == KernelHeap.Live(heap.hdr) && Answered(HeapCalls(es[..n]), log, held)
    {
      ghost var u := vm.W();
      match es[n] {
        case OnSpace(op) => SpaceStep(vm, heap, op); AnsweredSame(es, n);
        case Executes(room, segs) => ExecStep(vm, heap, room, segs); AnsweredSame(es, n);
        case Stores(s, va, x) => StoreStep(vm, heap, s, va, x); AnsweredSame(es, n);
        case OnHeap(call) =>
          var a := HeapStep(vm, heap, call, held);
          ghost var live := held;
          held := match call
            case CallMalloc(_) => if a.Gave? then held[a.block := a.size] else held
            case CallFree(b) => held - {b};
          AnsweredNext(es, n, log, live, a, held);
          log := log + [a];
      }
      ShelteredTrans(v, u, vm.W());
    }
    assert es[..|es|] == es;
  }

  /** The frame `f` is free for the kernel to use: whole, available, and neither in a
      reserved range nor part of the bitmap. */
  ghost predicate Usable(mmap: seq<Region>, reserved: seq<Range>, home: Range, f: nat) {
    Available(mmap, |mmap|, f) && !Reserved(reserved, |reserved|, f) && !Touches(f, home)
  }

  lemma LowReserved(reserved: seq<Range>)
    requires |reserved| > 0 && reserved[0] == Range(0, 0x10_0000)
    ensures Reserved(reserved, |reserved|, 0)
  {
    assert Touches(0, reserved[0]);
  }

  /** From pmm_init on, whatever happens: a frame that a program sees, that is a page
      table or that is part of the heap is one that the firmware calls available and
      that is neither low memory, kernel, module nor bitmap; and what such memory holds
      never changes. */
  method FromInit(mmap: seq<Region>, reserved: seq<Range>, boot: Frame, contents: seq<Frame>, es: seq<Event>)
    returns (ok: bool, home: Range, vm: AddressSpaces?, heap: KernelHeap.Heap?, log: seq<KernelHeap.Answer>)
    requires ReservedOk(reserved) && |reserved| > 0 && reserved[0] == Range(0, 0x10_0000)
    requires |contents| == MAX_FRAMES && forall f :: 0 <= f < |contents| ==> |contents[f]| == 512
    requires |boot| == 512 && forall i :: 0 <= i < 512 ==>
      boot[i].hi < MAX_FRAMES && Available(mmap, |mmap|, boot[i].hi) && Reserved(reserved, |reserved|, boot[i].hi)
    ensures ok <==> Manageable(mmap, reserved)
    ensures ok ==> vm != null && heap != null && Sound(vm, heap) && vm.pmm.complaints == 0
    ensures ok ==> Answered(HeapCalls(es), log, KernelHeap.Live(heap.hdr))
    ensures ok ==> forall f :: f in vm.owner && !vm.owner[f].Boot? ==> Usable(mmap, reserved, home, f)
    ensures ok ==> forall f :: 0 <= f < |vm.mem| && !Usable(mmap, reserved, home, f) ==>
      f in vm.owner && vm.owner[f].Boot? && f < |contents| && vm.mem[f] == contents[f]
  {
    hide Inv, FrameAllocator.Valid, Sheltered, HeapPages, KernelHeap.HeapOk, KernelHeap.Live, Answered;
    hide Available, Reserved, Touches, Overlap, Manageable;
    LowReserved(reserved);
    vm, heap, log := null, null, [];
    var pmm;
    pmm, home := Init(mmap, reserved);
    if Manageable(mmap, reserved) { ManageableSize(mmap, reserved); }
    if pmm.totalFrames == 0 { return false, home, vm, heap, log; }
    pmm.Size();
    ghost var bits := pmm.bits;
    vm := new AddressSpaces(pmm, boot, contents[..pmm.totalFrames]);
    heap := new KernelHeap.Heap(pmm);
    ghost var v := vm.W();
    NoPages(v);
    StartStep(vm, heap);
    ghost var u := vm.W();
    log := Run(vm, heap, es);
    ShelteredTrans(v, u, vm.W());
    InvParts(v, vm.boot);
    InvParts(vm.W(), vm.boot);
    ShelteredBoot(v, vm.W());
    return true, home, vm, heap, log;
  }

  lemma ManageableSize(mmap: seq<Region>, reserved: seq<Range>)
    requires Manageable(mmap, reserved)
    ensures MemoryEnd(mmap, |mmap|) / PAGE_SIZE >= 16
  {
  }

  lemma NoPages(w: World)
    ensures HeapPages(w, {})
  {
  }
}
