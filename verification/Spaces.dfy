/** Creating, tearing down and copying whole address spaces. */
module Spaces {
  import opened Machine
  import opened Pmm
  import opened PageTables
  import opened Vmm

  const MMAP_TOP: nat := 0x7FFF_EFFF_F000

  // ---- The places below a table ----

  function Up(l: Loc, k: nat): Loc
    requires l.level <= k
    decreases k - l.level
  {
    if l.level == k then l else Up(Parent(l), k)
  }

  lemma {:induction false} UpStep(l: Loc, k: nat)
    requires l.level <= k
    ensures Up(l, k).level == k && Up(l, k).space == l.space
    ensures Up(l, k + 1) == Parent(Up(l, k))
    decreases k - l.level
  {
    if l.level < k { UpStep(Parent(l), k); }
  }

  lemma {:induction false} UpIn(w: World, l: Loc, k: nat)
    requires Shape(w) && l in w.node && l.level <= k <= 4
    ensures Up(l, k) in w.node
    decreases k - l.level
  {
    if l.level < k {
      assert Hangs(w, l);
      UpIn(w, Parent(l), k);
    }
  }

  predicate Under(l: Loc, top: Loc) { l.level <= top.level && Up(l, top.level) == top }

  /** Below `top` through one of its first `i` entries. */
  predicate UnderFirst(l: Loc, top: Loc, i: nat) {
    l.level < top.level && Up(l, top.level) == top && Up(l, top.level - 1).prefix < top.prefix * 512 + i
  }

  ghost function Subtree(w: World, top: Loc): set<Loc> { set l | l in w.node && Under(l, top) }

  ghost function Partial(w: World, top: Loc, i: nat): set<Loc> { set l | l in w.node && UnderFirst(l, top, i) }

  lemma UnderChild(l: Loc, top: Loc, i: nat)
    requires top.level > 0 && i < 512
    ensures UnderFirst(l, top, i + 1) <==> UnderFirst(l, top, i) || Under(l, Child(top, i))
    ensures Under(l, Child(top, i)) ==> !UnderFirst(l, top, i)
  {
    if l.level < top.level {
      UpStep(l, top.level - 1);
      ChildParent(top, i);
    }
  }

  lemma PartialStep(w: World, top: Loc, i: nat)
    requires Shape(w) && 0 < top.level <= 4 && i < 512
    ensures Partial(w, top, i + 1) == Partial(w, top, i) + Subtree(w, Child(top, i))
    ensures Partial(w, top, i) !! Subtree(w, Child(top, i))
    ensures Child(top, i) !in w.node ==> Subtree(w, Child(top, i)) == {}
  {
    forall l | l in w.node
      ensures UnderFirst(l, top, i + 1) <==> UnderFirst(l, top, i) || Under(l, Child(top, i))
      ensures Under(l, Child(top, i)) ==> !UnderFirst(l, top, i)
      ensures Under(l, Child(top, i)) ==> Child(top, i) in w.node
    {
      UnderChild(l, top, i);
      if l.level <= top.level - 1 { UpIn(w, l, top.level - 1); }
    }
  }

  lemma PartialStart(w: World, top: Loc)
    requires Shape(w) && 0 < top.level <= 4
    ensures Partial(w, top, 0) == {}
  {
    forall l | l in w.node ensures !UnderFirst(l, top, 0) {
      if l.level < top.level { UpStep(l, top.level - 1); }
    }
  }

  lemma PartialEnd(w: World, top: Loc)
    requires Shape(w) && top in w.node && 0 < top.level <= 4
    ensures Subtree(w, top) == Partial(w, top, 512) + {top} && top !in Partial(w, top, 512)
  {
    forall l | l in w.node ensures Under(l, top) <==> l == top || UnderFirst(l, top, 512) {
      if l.level < top.level { UpStep(l, top.level - 1); }
    }
  }

  lemma WholeSpace(w: World, s: nat)
    requires Shape(w)
    ensures Subtree(w, Loc(s, 4, 0)) == set l | l in w.node && l.space == s
  {
    forall l | l in w.node ensures l.level <= 4 && (Under(l, Loc(s, 4, 0)) <==> l.space == s) {
      assert Hangs(w, l);
      UpIn(w, l, 4);
      assert Hangs(w, Up(l, 4));
      UpStep(l, 4);
    }
  }

  // ---- vmm_destroy_address_space ----

  /** The bitmap while world `w` is being torn down: the frames of the places
      `gone` are free, every other bit is as in `w`. */
  ghost predicate Swept(w: World, bits: seq<bool>, gone: set<Loc>) {
    && |bits| == |w.bits|
    && forall f :: 0 <= f < |bits| ==>
         bits[f] == (w.bits[f] && !(f in w.owner && w.owner[f].Node? && w.owner[f].loc in gone))
  }

  lemma SweptOne(w: World, bits: seq<bool>, gone: set<Loc>, l: Loc)
    requires Owned(w) && Placed(w) && Swept(w, bits, gone) && l in w.node && l !in gone
    ensures w.node[l] < |bits| && bits[w.node[l]]
    ensures Swept(w, bits[w.node[l] := false], gone + {l})
  {
  }

  /** pmm_free_page of the frame at place `l`: never the double-free branch. */
  method FreeOne(vm: AddressSpaces, f: nat, ghost w: World, ghost l: Loc, ghost gone: set<Loc>)
    requires vm.pmm.Valid() && Owned(w) && Placed(w) && l in w.node && f == w.node[l] && l !in gone
    requires Swept(w, vm.pmm.bits, gone)
    modifies vm.pmm`usedFrames, vm.pmm`bits, vm.pmm`complaints, vm.pmm.bitmap
    ensures vm.pmm.Valid() && Swept(w, vm.pmm.bits, gone + {l}) && vm.pmm.complaints == old(vm.pmm.complaints)
  {
    hide FrameAllocator.Valid, Swept;
    SweptOne(w, vm.pmm.bits, gone, l);
    vm.pmm.FreePage(f * PAGE_SIZE);
  }

  lemma TableSlot(w: World, boot: Frame, l: Loc, i: nat)
    requires Inv(w, boot) && l in w.node && 1 <= l.level <= 3 && i < 512
    ensures Parts(w) && Shape(w) && w.node[l] < |w.mem| && |w.mem[w.node[l]]| == 512
    ensures var e := w.mem[w.node[l]][i];
      (Present(e.lo) <==> Child(l, i) in w.node)
      && (Present(e.lo) ==> e.hi == w.node[Child(l, i)] == Masked(e) && (l.level >= 2 ==> !Huge(e.lo)))
  {
    assert SlotOk(w, l, i);
  }

  /** Free all that hangs below a table, then the table itself. The kernel writes
      this as one loop nested in the next; here each level calls the one below. */
  method FreeTable(vm: AddressSpaces, level: nat, t: nat, ghost w: World, ghost l: Loc, ghost gone: set<Loc>)
    requires vm.pmm.Valid() && Inv(w, vm.boot) && vm.mem == w.mem
    requires l in w.node && l.level == level && 1 <= level <= 3 && t == w.node[l]
    requires Swept(w, vm.pmm.bits, gone) && gone !! Subtree(w, l)
    modifies vm.pmm`usedFrames, vm.pmm`bits, vm.pmm`complaints, vm.pmm.bitmap
    ensures vm.pmm.Valid() && Swept(w, vm.pmm.bits, gone + Subtree(w, l)) && vm.pmm.complaints == old(vm.pmm.complaints)
    decreases level
  {
    hide FrameAllocator.Valid, Swept, Inv, Owned, Placed, Shape, Under, UnderFirst, Subtree, Partial;
    TableSlot(w, vm.boot, l, 0);
    PartialStart(w, l);
    PartialEnd(w, l);
    assert gone + {} == gone;
    var i := 0;
    while i < 512
      invariant 0 <= i <= 512 && vm.pmm.Valid() && vm.pmm.complaints == old(vm.pmm.complaints)
      invariant Swept(w, vm.pmm.bits, gone + Partial(w, l, i))
    {
      var e := vm.mem[t][i];
      ghost var c := Child(l, i);
      ghost var before := gone + Partial(w, l, i);
      TableSlot(w, vm.boot, l, i);
      PartialStep(w, l, i);
      Below(w, l, i);
      assert before + Subtree(w, c) == gone + Partial(w, l, i + 1);
      if Present(e.lo) && !(level >= 2 && Huge(e.lo)) {
        if level == 1 {
          LeafAlone(w, c);
          FreeOne(vm, Masked(e), w, c, before);
        } else {
          FreeTable(vm, level - 1, e.hi, w, c, before);
        }
      } else {
        assert before + {} == before;
      }
      i := i + 1;
    }
    assert gone + Partial(w, l, 512) + {l} == gone + Subtree(w, l);
    FreeOne(vm, t, w, l, gone + Partial(w, l, 512));
  }

  lemma Below(w: World, l: Loc, i: nat)
    requires l.level > 0 && i < 512
    ensures Subtree(w, Child(l, i)) <= Subtree(w, l)
  {
    forall m | m in w.node && Under(m, Child(l, i)) ensures Under(m, l) {
      UpStep(m, l.level - 1);
      ChildParent(l, i);
    }
  }

  lemma LeafAlone(w: World, c: Loc)
    requires c.level == 0 && c in w.node
    ensures Subtree(w, c) == {c}
  {
  }

  lemma RootSlot(w: World, boot: Frame, s: nat, i: nat)
    requires Inv(w, boot) && s in w.spaces && i < 512
    ensures Parts(w) && Shape(w) && |boot| == 512 && Loc(s, 4, 0) in w.node && w.spaces[s].pml4 == w.node[Loc(s, 4, 0)]
    ensures w.spaces[s].pml4 < |w.mem| && |w.mem[w.spaces[s].pml4]| == 512
    ensures var e := w.mem[w.spaces[s].pml4][i];
      if i < 256 then
        (Present(e.lo) <==> Child(Loc(s, 4, 0), i) in w.node)
        && (Present(e.lo) ==>
          e.hi == w.node[Child(Loc(s, 4, 0), i)] && e.hi != boot[i].hi && !Huge(e.lo) && Masked(e) == e.hi)
      else e == boot[i]
  {
    if i < 256 {
      assert SlotOk(w, Loc(s, 4, 0), i);
    } else {
      assert EntryAt(w, Loc(s, 4, 0), i) == boot[i];
    }
  }

  lemma UserHalf(w: World, boot: Frame, s: nat, i: nat)
    requires Inv(w, boot) && 256 <= i < 512
    ensures Child(Loc(s, 4, 0), i) !in w.node
  {
    assert Child(Loc(s, 4, 0), i) in w.node ==> Hangs(w, Child(Loc(s, 4, 0), i));
  }

  lemma SweptAll(w: World, bits: seq<bool>, s: nat)
    requires Owned(w) && Placed(w) && Swept(w, bits, set l | l in w.node && l.space == s)
    ensures bits == Dropped(w, s).bits
  {
  }

  /** vmm_destroy_address_space: exactly the frames of this space are freed, each
      once, no kernel-half table among them, and every other space is untouched. */
  method Destroy(vm: AddressSpaces, s: nat)
    requires vm.Valid() && s in vm.spaces
    modifies vm`spaces, vm`node, vm`owner, vm.pmm`usedFrames, vm.pmm`bits, vm.pmm`complaints, vm.pmm.bitmap
    ensures vm.Valid() && Owned(old(vm.W())) && vm.W() == Dropped(old(vm.W()), s)
    ensures vm.pmm.complaints == old(vm.pmm.complaints)
  {
    hide FrameAllocator.Valid, Swept, Inv, Owned, Placed, Shape, Under, UnderFirst, Subtree, Partial, Dropped;
    ghost var w := vm.W();
    ghost var root := Loc(s, 4, 0);
    var t := vm.spaces[s].pml4;
    RootSlot(w, vm.boot, s, 0);
    PartialStart(w, root);
    PartialEnd(w, root);
    WholeSpace(w, s);
    SweptNone(w);
    var i := 0;
    while i < 512
      invariant 0 <= i <= 512 && vm.pmm.Valid() && vm.pmm.complaints == old(vm.pmm.complaints)
      invariant Swept(w, vm.pmm.bits, Partial(w, root, i)) && vm.spaces == w.spaces
    {
      var e := vm.mem[t][i];
      RootSlot(w, vm.boot, s, i);
      PartialStep(w, root, i);
      if i >= 256 { UserHalf(w, vm.boot, s, i); }
      if Present(e.lo) && e.hi != vm.boot[i].hi {
        FreeTable(vm, 3, e.hi, w, Child(root, i), Partial(w, root, i));
      } else {
        assert Partial(w, root, i) + {} == Partial(w, root, i);
      }
      i := i + 1;
    }
    FreeOne(vm, t, w, root, Partial(w, root, 512));
    SweptAll(w, vm.pmm.bits, s);
    DroppedOk(w, vm.boot, s);
    DroppedIs(w, s);
    vm.spaces := vm.spaces - {s};
    vm.node := Dropped(w, s).node;
    vm.owner := Dropped(w, s).owner;
    assert vm.W() == Dropped(w, s) by {
      ghost var d := Dropped(w, s);
      assert d == World(d.mem, d.bits, d.node, d.owner, d.spaces);
    }
  }

  lemma SweptNone(w: World)
    ensures Swept(w, w.bits, {})
  {
  }

  lemma DroppedIs(w: World, s: nat)
    requires Owned(w)
    ensures var v := Dropped(w, s); v.mem == w.mem && v.spaces == w.spaces - {s}
  {
  }

  // ---- vmm_create_address_space ----

  /** A new space: an empty user half over the shared kernel half. `room` is
      whether the heap can hold the address_space_t itself. */
  method Create(vm: AddressSpaces, room: bool) returns (ok: bool, s: nat)
    requires vm.Valid()
    modifies vm`mem, vm`spaces, vm`nextSpace, vm`node, vm`owner, vm.pmm`usedFrames, vm.pmm`bits, vm.pmm.bitmap
    ensures vm.Valid()
    ensures ok <==> room && !NoRun(old(vm.pmm.bits), 1)
    ensures !ok ==> vm.W() == old(vm.W())
    ensures ok ==> s in vm.spaces && Born(old(vm.W()), vm.W(), s, vm.spaces[s].pml4)
    ensures ok ==> vm.spaces[s] == Space(vm.spaces[s].pml4, 0, 0, MMAP_TOP)
    ensures vm.pmm.usedFrames == old(vm.pmm.usedFrames) + if ok then 1 else 0
  {
    hide FrameAllocator.Valid, Inv, Owned, Placed, Shape, Born, SameFlat;
    if !room { return false, 0; }
    ghost var w := vm.W();
    var f;
    ok, f := vm.AllocFrame();
    s := vm.nextSpace;
    if !ok { return; }
    FoundOk(vm.W(), vm.boot, s, f, Space(f, 0, 0, MMAP_TOP));
    vm.nextSpace := vm.nextSpace + 1;
    BootSize(vm.W(), vm.boot);
    vm.mem := vm.mem[f := RootTable(vm.boot)];
    vm.spaces := vm.spaces[s := Space(f, 0, 0, MMAP_TOP)];
    vm.node := vm.node[Loc(s, 4, 0) := f];
    vm.owner := vm.owner[f := Node(Loc(s, 4, 0))];
    BornOk(w, vm.boot, s, f, Space(f, 0, 0, MMAP_TOP));
  }

  lemma BootSize(w: World, boot: Frame)
    requires Inv(w, boot)
    ensures |boot| == 512
  {
  }

  /** `w` is `v` plus the empty space `s`, rooted in a frame that was free. */
  ghost predicate Born(v: World, w: World, s: nat, f: nat) {
    && Owned(v) && Placed(v) && Owned(w) && Placed(w) && |w.mem| == |v.mem|
    && s !in v.spaces && s in w.spaces && w.spaces == v.spaces[s := w.spaces[s]]
    && f !in v.owner && f < |v.mem| && w.owner == v.owner[f := Node(Loc(s, 4, 0))]
    && w.node == v.node[Loc(s, 4, 0) := f]
    && (forall g :: 0 <= g < |v.mem| && g != f ==> w.mem[g] == v.mem[g])
    && SameFlat(v, w)
    && (forall l :: l in v.node ==> l.space != s)
  }

  lemma BornOk(v: World, boot: Frame, s: nat, f: nat, sp: Space)
    requires Inv(v, boot) && s !in v.spaces && f < |v.bits| == |v.mem| && !v.bits[f] && sp.pml4 == f
    ensures var x := Take(v, f, Held, v.mem[f]); |boot| == 512 && Born(v, Found(x, boot, s, f, sp), s, f)
  {
    hide Inv, SameFlat, Owned, Placed, Flat;
    InvParts(v, boot);
    BootSize(v, boot);
    var x := Take(v, f, Held, v.mem[f]);
    TakeOk(v, boot, f, Held, v.mem[f]);
    FoundOk(x, boot, s, f, sp);
    FoundPlaced(x, boot, s, f, sp);
    InvParts(x, boot);
    InvParts(Found(x, boot, s, f, sp), boot);
    SameFlatTrans(v, x, Found(x, boot, s, f, sp));
  }

  // ---- vmm_clone ----

  /** Everything used in `v` is there in `w`, untouched; what is new belongs to
      space `dst`, which `v` did not have. */
  ghost predicate Beside(v: World, w: World, dst: nat) {
    && |w.mem| == |v.mem| && dst !in v.spaces && dst in w.spaces && w.spaces == v.spaces[dst := w.spaces[dst]]
    && (forall l :: l in v.node ==> l.space != dst)
    && (forall f :: f in v.owner ==> f in w.owner && w.owner[f] == v.owner[f])
    && (forall f :: f in v.owner && f < |v.mem| ==> w.mem[f] == v.mem[f])
    && (forall f :: f in w.owner && f !in v.owner ==> InSpace(w.owner[f], dst))
  }

  /** Entry `e` is a faithful copy of entry `d` in a frame that was free in `v`. */
  ghost predicate Copy(v: World, w: World, d: Word, e: Word) {
    if Present(d.lo)
    then e.lo == d.lo && e.hi !in v.owner && e.hi < |w.mem| && d.hi < |v.mem| && w.mem[e.hi] == v.mem[d.hi]
    else e == ZERO
  }

  /** The pages of `src` below `cur` are copied into `dst`, the rest of `dst` is
      empty, and all other spaces are as before. */
  ghost predicate Copied(v: World, w: World, src: nat, dst: nat, cur: nat)
    requires Parts(v) && Parts(w)
  {
    && (forall t, q: nat {:trigger Flat(w, t, q)} :: t != dst ==> Flat(w, t, q) == Flat(v, t, q))
    && (forall q: nat {:trigger Flat(w, dst, q)} ::
          if q < cur then Copy(v, w, Flat(v, src, q), Flat(w, dst, q)) else Flat(w, dst, q) == ZERO)
  }

  function Span(level: nat): nat
    requires level <= 4
  {
    if level == 0 then 1 else if level == 1 then 512 else if level == 2 then 0x4_0000
    else if level == 3 then 0x800_0000 else 0x10_0000_0000
  }

  lemma PrefixSpan(q: nat, k: nat, c: nat)
    requires k <= 3 && c * Span(k) <= q < (c + 1) * Span(k)
    ensures Prefix(q, k) == c
  {
    PrefixTop(q);
    if k == 0 {
    } else if k == 1 {
      assert c * 512 <= q < c * 512 + 512;
    } else if k == 2 {
      assert c * 0x4_0000 <= q < c * 0x4_0000 + 0x4_0000;
    } else {
      assert c * 0x800_0000 <= q < c * 0x800_0000 + 0x800_0000;
    }
  }

  lemma {:induction false} UpPath(s: nat, q: nat, k: nat)
    ensures Up(Loc(s, 0, q), k) == PathLoc(s, q, k)
  {
    if k > 0 {
      UpPath(s, q, k - 1);
      UpStep(Loc(s, 0, q), k - 1);
      PathStep(s, q, k);
    }
  }

  /** Below a missing entry there are no pages. */
  lemma NoPages(w: World, boot: Frame, s: nat, c: Loc)
    requires Inv(w, boot) && Parts(w) && c.space == s && c.level <= 3 && c !in w.node
    ensures forall q: nat :: c.prefix * Span(c.level) <= q < (c.prefix + 1) * Span(c.level) ==>
      !Present(Flat(w, s, q).lo)
  {
    forall q: nat | c.prefix * Span(c.level) <= q < (c.prefix + 1) * Span(c.level) ensures !Present(Flat(w, s, q).lo) {
      FlatLeaf(w, boot, s, q);
      PrefixSpan(q, c.level, c.prefix);
      UpPath(s, q, c.level);
      if Loc(s, 0, q) in w.node { UpIn(w, Loc(s, 0, q), c.level); }
    }
  }

  lemma CopiedSkip(v: World, w: World, src: nat, dst: nat, lo: nat, hi: nat)
    requires Parts(v) && Parts(w) && Copied(v, w, src, dst, lo) && lo <= hi
    requires forall q: nat :: lo <= q < hi ==> !Present(Flat(v, src, q).lo)
    ensures Copied(v, w, src, dst, hi)
  {
    hide Owned, Placed;
  }

  lemma CopiedSame(v: World, w: World, u: World, boot: Frame, src: nat, dst: nat, cur: nat)
    requires Inv(w, boot) && Parts(v) && Parts(w) && Parts(u) && Copied(v, w, src, dst, cur) && SameFlat(w, u)
    requires |u.mem| == |w.mem|
    requires forall f :: f in w.owner && f < |w.mem| && !IsTable(w.owner[f], dst) ==> u.mem[f] == w.mem[f]
    ensures Copied(v, u, src, dst, cur)
  {
    forall q: nat | q < cur ensures Copy(v, u, Flat(v, src, q), Flat(u, dst, q)) {
      assert Copy(v, w, Flat(v, src, q), Flat(w, dst, q)) && Flat(u, dst, q) == Flat(w, dst, q);
      FlatLeaf(w, boot, dst, q);
    }
    forall q: nat ensures q >= cur ==> Flat(u, dst, q) == ZERO {
      assert Flat(u, dst, q) == Flat(w, dst, q);
    }
    forall t, q: nat | t != dst ensures Flat(u, t, q) == Flat(v, t, q) {
      assert Flat(w, t, q) == Flat(v, t, q);
    }
  }

  lemma BesideKeeps(v: World, w: World, u: World, dst: nat)
    requires Owned(v) && Placed(v) && Beside(v, w, dst) && Keeps(w, u, dst)
    ensures Beside(v, u, dst)
  {
    forall f | f in v.owner ensures !InSpace(v.owner[f], dst) {
      if v.owner[f].Node? { assert v.owner[f].loc in v.node; }
    }
  }

  /** After the map, before the memcpy. */
  lemma CopiedMap(v: World, w: World, u: World, boot: Frame, src: nat, dst: nat, p: nat, f: nat, lo: bv12)
    requires Inv(v, boot) && Inv(w, boot) && Parts(v) && Parts(w) && Parts(u) && Beside(v, w, dst)
    requires Copied(v, w, src, dst, p)
    requires f < |w.bits| == |w.mem| && !w.bits[f]
    requires var x := Take(w, f, Held, w.mem[f]);
      Parts(x) && FlatSet(x, u, dst, p, Word(f, lo)) && Grows(Place(x, dst, p, f), u, dst)
    ensures FlatSet(w, u, dst, p, Word(f, lo)) && Keeps(w, u, dst) && Beside(v, u, dst) && f !in w.owner
    ensures f !in v.owner
  {
    assert |w.mem[f]| == 512;
    hide Inv, Owned, Placed, FlatSet, SameFlat, Grows, Copied, Beside, Keeps;
    TakeOk(w, boot, f, Held, w.mem[f]);
    FlatSetAfter(w, Take(w, f, Held, w.mem[f]), u, dst, p, Word(f, lo));
    KeepsNew(w, u, dst, p, f, w.mem[f]);
    BesideKeeps(v, w, u, dst);
    BesideOwner(v, w, dst, f);
  }

  lemma BesideOwner(v: World, w: World, dst: nat, f: nat)
    requires Beside(v, w, dst) && f !in w.owner
    ensures f !in v.owner
  {
  }

  /** The memcpy completes the copy of page `p`. */
  lemma CopiedPage(v: World, w: World, u: World, boot: Frame, src: nat, dst: nat, p: nat, f: nat, d: Word)
    requires Inv(v, boot) && Inv(w, boot) && Inv(u, boot) && Parts(v) && Parts(w) && Parts(u)
    requires Copied(v, w, src, dst, p) && Beside(v, u, dst) && Keeps(w, u, dst) && src != dst
    requires d == Flat(v, src, p) && Present(d.lo) && FlatSet(w, u, dst, p, Word(f, d.lo)) && f !in v.owner
    requires f !in w.owner
    ensures Loc(dst, 0, p) in u.node && u.node[Loc(dst, 0, p)] == f < |u.mem|
    ensures d.hi < |u.mem| && u.mem[d.hi] == v.mem[d.hi] && |u.mem[d.hi]| == 512
    ensures var z := u.(mem := u.mem[f := u.mem[d.hi]]);
      Inv(z, boot) && Parts(z) && Copied(v, z, src, dst, p + 1) && Beside(v, z, dst)
  {
    hide Inv, Owned, Placed, Copied, SameFlat, Keeps, Beside, FlatSet;
    CopiedReady(v, w, u, boot, src, dst, p, f, d);
    var z := u.(mem := u.mem[f := u.mem[d.hi]]);
    WriteDataOk(u, boot, dst, p, u.mem[d.hi]);
    InvParts(z, boot);
    CopiedPageFlat(v, w, u, z, boot, src, dst, p, f, d);
  }

  lemma CopiedReady(v: World, w: World, u: World, boot: Frame, src: nat, dst: nat, p: nat, f: nat, d: Word)
    requires Inv(v, boot) && Inv(u, boot) && Parts(v) && Parts(w) && Parts(u) && Beside(v, u, dst)
    requires d == Flat(v, src, p) && Present(d.lo) && FlatSet(w, u, dst, p, Word(f, d.lo)) && f !in v.owner
    ensures Loc(dst, 0, p) in u.node && u.node[Loc(dst, 0, p)] == f < |u.mem| == |v.mem|
    ensures d.hi < |u.mem| && u.mem[d.hi] == v.mem[d.hi] && |u.mem[d.hi]| == 512
    ensures Beside(v, u.(mem := u.mem[f := u.mem[d.hi]]), dst)
  {
    hide Inv;
    assert Flat(u, dst, p) == Word(f, d.lo);
    FlatLeaf(u, boot, dst, p);
    FlatLeaf(v, boot, src, p);
  }

  lemma CopiedPageFlat(v: World, w: World, u: World, z: World, boot: Frame, src: nat, dst: nat, p: nat, f: nat, d: Word)
    requires Inv(w, boot) && Parts(v) && Parts(w) && Parts(u) && Parts(z)
    requires Copied(v, w, src, dst, p) && Keeps(w, u, dst)
    requires d == Flat(v, src, p) && Present(d.lo) && FlatSet(w, u, dst, p, Word(f, d.lo)) && f !in v.owner
    requires f !in w.owner
    requires f < |u.mem| && d.hi < |u.mem| == |v.mem| && u.mem[d.hi] == v.mem[d.hi]
    requires z == u.(mem := u.mem[f := u.mem[d.hi]]) && SameFlat(u, z)
    ensures Copied(v, z, src, dst, p + 1)
  {
    hide Inv, Flat;
    forall q: nat ensures if q < p + 1 then Copy(v, z, Flat(v, src, q), Flat(z, dst, q)) else Flat(z, dst, q) == ZERO {
      assert Flat(z, dst, q) == Flat(u, dst, q);
      if q != p {
        assert Flat(u, dst, q) == Flat(w, dst, q);
        FlatLeaf(w, boot, dst, q);
      }
    }
    forall t, q: nat | t != dst ensures Flat(z, t, q) == Flat(v, t, q) {
      assert Flat(z, t, q) == Flat(u, t, q) && Flat(u, t, q) == Flat(w, t, q) && Flat(w, t, q) == Flat(v, t, q);
    }
  }

  lemma KeepsReleased(w: World, u: World, dst: nat, f: nat)
    requires Owned(w) && Owned(u) && f < |w.bits| == |w.mem| && !w.bits[f] && Grows(Take(w, f, Held, w.mem[f]), u, dst)
    ensures f in u.owner && u.owner[f].Held? && f < |u.bits| && Keeps(w, Release(u, f), dst)
  {
    KeepsLost(w, u, dst, f, w.mem[f]);
  }

  /** The map failed: giving the frame back leaves the copy where it was. */
  lemma CopiedFail(v: World, w: World, u: World, boot: Frame, src: nat, dst: nat, p: nat, f: nat)
    requires Inv(v, boot) && Inv(w, boot) && Inv(u, boot) && Parts(v) && Parts(w) && Parts(u)
    requires Beside(v, w, dst) && Copied(v, w, src, dst, p) && f < |w.bits| == |w.mem| && !w.bits[f]
    requires var x := Take(w, f, Held, w.mem[f]); Parts(x) && SameFlat(x, u) && Grows(x, u, dst)
    ensures f in u.owner && u.owner[f].Held? && f < |u.bits|
    ensures var z := Release(u, f); Inv(z, boot) && Parts(z) && Beside(v, z, dst) && Copied(v, z, src, dst, p)
  {
    assert |w.mem[f]| == 512;
    hide Inv, Owned, Placed, SameFlat, Grows, Copied, Beside, Keeps;
    TakeOk(w, boot, f, Held, w.mem[f]);
    KeepsReleased(w, u, dst, f);
    var x, z := Take(w, f, Held, w.mem[f]), Release(u, f);
    ReleaseOk(u, boot, f);
    InvParts(z, boot);
    SameFlatTrans(w, x, u);
    SameFlatTrans(w, u, z);
    KeptData(w, z, dst);
    CopiedSame(v, w, z, boot, src, dst, p);
    BesideKeeps(v, w, z, dst);
  }

  lemma KeptData(w: World, z: World, s: nat)
    requires Keeps(w, z, s)
    ensures |z.mem| == |w.mem|
    ensures forall f :: f in w.owner && f < |w.mem| && !IsTable(w.owner[f], s) ==> z.mem[f] == w.mem[f]
  {
  }

  lemma EmptyAt(v: World, w: World, src: nat, dst: nat, p: nat)
    requires Parts(v) && Parts(w) && Beside(v, w, dst) && Copied(v, w, src, dst, p)
    ensures !Present(Flat(w, dst, p).lo) && dst in w.spaces
  {
    hide Owned, Placed;
    assert Flat(w, dst, p) == ZERO;
  }

  /** A new frame for the copy of page `p`, not yet filled. */
  method MapCopy(vm: AddressSpaces, src: nat, dst: nat, p: nat, flags: bv12, ghost v: World) returns (ok: bool, f: nat)
    requires vm.Valid() && Inv(v, vm.boot) && Parts(v) && Parts(vm.W()) && p < USER_PAGES && Present(flags)
    requires Beside(v, vm.W(), dst) && Copied(v, vm.W(), src, dst, p)
    modifies vm`mem, vm`node, vm`owner, vm.pmm`usedFrames, vm.pmm`bits, vm.pmm`complaints, vm.pmm.bitmap
    ensures vm.Valid() && Parts(old(vm.W())) && Parts(vm.W()) && Beside(v, vm.W(), dst)
    ensures vm.pmm.complaints == old(vm.pmm.complaints)
    ensures ok ==> FlatSet(old(vm.W()), vm.W(), dst, p, Word(f, flags)) && Keeps(old(vm.W()), vm.W(), dst)
    ensures ok ==> f !in old(vm.owner) && f !in v.owner
    ensures ok ==> Paid(old(vm.node).Keys, vm.node.Keys, dst, p, old(vm.pmm.usedFrames), vm.pmm.usedFrames)
    ensures !ok ==> Copied(v, vm.W(), src, dst, p)
    ensures !ok ==> Unpaid(old(vm.node).Keys, dst, p, old(vm.pmm.usedFrames), vm.pmm.totalFrames)
  {
    hide Inv, Owned, Placed, Shape, SameFlat, FlatSet, Grows, Copied, Beside, Keeps, Mappable, Flat;
    hide FrameAllocator.Valid, PathHung, PathStuck, Paid, Unpaid;
    hide Take, Place, Release, NoRun, Present, Tables, PathLoc;
    ghost var w := vm.W();
    ghost var k, u := vm.node.Keys, vm.pmm.usedFrames;
    EmptyAt(v, w, src, dst, p);
    PageThere(w, vm.boot, dst, p);
    ok, f := vm.AllocFrame();
    if !ok {
      vm.pmm.Full();
      NothingLeft(k, dst, p, u);
      return;
    }
    FreshMappable(w, vm.boot, dst, p, f, w.mem[f]);
    ok := HangCopy(vm, src, dst, p, f, flags, v, w);
  }

  /** The frame `f`, just taken, becomes page `p` of the copy or is given back. */
  method HangCopy(vm: AddressSpaces, ghost src: nat, dst: nat, p: nat, f: nat, flags: bv12, ghost v: World,
                  ghost w: World) returns (ok: bool)
    requires vm.Valid() && Inv(v, vm.boot) && Inv(w, vm.boot) && Parts(v) && Parts(w) && p < USER_PAGES
    requires Beside(v, w, dst) && Copied(v, w, src, dst, p) && Present(flags) && Loc(dst, 0, p) !in w.node
    requires f < |w.bits| == |w.mem| && !w.bits[f] && vm.W() == Take(w, f, Held, w.mem[f]) && dst in vm.spaces
    requires Mappable(vm.W(), dst, p, f) && vm.pmm.usedFrames > 0
    modifies vm`mem, vm`node, vm`owner, vm.pmm`usedFrames, vm.pmm`bits, vm.pmm`complaints, vm.pmm.bitmap
    ensures vm.Valid() && Parts(vm.W()) && Beside(v, vm.W(), dst) && vm.pmm.complaints == old(vm.pmm.complaints)
    ensures ok ==> FlatSet(w, vm.W(), dst, p, Word(f, flags)) && Keeps(w, vm.W(), dst)
    ensures ok ==> f !in w.owner && f !in v.owner
    ensures ok ==> Paid(w.node.Keys, vm.node.Keys, dst, p, old(vm.pmm.usedFrames) - 1, vm.pmm.usedFrames)
    ensures !ok ==> Copied(v, vm.W(), src, dst, p)
    ensures !ok ==> Unpaid(w.node.Keys, dst, p, old(vm.pmm.usedFrames) - 1, vm.pmm.totalFrames)
  {
    hide Inv, Owned, Placed, Shape, SameFlat, FlatSet, Grows, Copied, Beside, Keeps, Mappable, Flat;
    hide FrameAllocator.Valid, PathHung, PathStuck, Paid, Unpaid;
    hide Place, Release, NoRun, Present, Tables, PathLoc;
    ghost var k, u := w.node.Keys, vm.pmm.usedFrames - 1;
    assert vm.node.Keys == k;
    hide Take;
    InvParts(vm.W(), vm.boot);
    ok := vm.MapPage(dst, p * PAGE_SIZE, f * PAGE_SIZE, flags);
    InvParts(vm.W(), vm.boot);
    if !ok {
      CopiedFail(v, w, vm.W(), vm.boot, src, dst, p, f);
      TooLittle(k, dst, p, u, vm.pmm.totalFrames);
      vm.FreeHeld(f);
      return;
    }
    CopiedMap(v, w, vm.W(), vm.boot, src, dst, p, f, flags);
    PaidNew(k, vm.node.Keys, dst, p, u, vm.pmm.usedFrames);
  }

  method ClonePage(vm: AddressSpaces, src: nat, dst: nat, p: nat, e: Word, ghost v: World) returns (ok: bool)
    requires vm.Valid() && Inv(v, vm.boot) && Parts(v) && Parts(vm.W()) && src != dst && p < USER_PAGES
    requires Beside(v, vm.W(), dst) && Copied(v, vm.W(), src, dst, p) && e == Flat(v, src, p) && Present(e.lo)
    modifies vm`mem, vm`node, vm`owner, vm.pmm`usedFrames, vm.pmm`bits, vm.pmm`complaints, vm.pmm.bitmap
    ensures vm.Valid() && Parts(vm.W()) && Beside(v, vm.W(), dst) && vm.pmm.complaints == old(vm.pmm.complaints)
    ensures Copied(v, vm.W(), src, dst, if ok then p + 1 else p)
    ensures ok ==> Paid(old(vm.node).Keys, vm.node.Keys, dst, p, old(vm.pmm.usedFrames), vm.pmm.usedFrames)
    ensures !ok ==> Unpaid(old(vm.node).Keys, dst, p, old(vm.pmm.usedFrames), vm.pmm.totalFrames)
  {
    hide Inv, Owned, Placed, Shape, SameFlat, FlatSet, Copied, Beside, Keeps, Flat, FrameAllocator.Valid, Paid, Unpaid;
    hide Present, Masked;
    ghost var w := vm.W();
    var f;
    ok, f := MapCopy(vm, src, dst, p, e.lo, v);
    if !ok { return; }
    CopiedPage(v, w, vm.W(), vm.boot, src, dst, p, f, e);
    SmallFrame(vm.W(), e);
    vm.mem := vm.mem[f := vm.mem[Masked(e)]];
  }

  lemma SmallFrame(w: World, e: Word)
    requires Parts(w) && e.hi < |w.mem|
    ensures Masked(e) == e.hi
  {
  }

  ghost function Cursor(l: Loc, i: nat): nat
    requires 0 < l.level <= 4
  {
    (l.prefix * 512 + i) * Span(l.level - 1)
  }

  lemma CursorEnds(l: Loc)
    requires 0 < l.level <= 4
    ensures Cursor(l, 0) == l.prefix * Span(l.level) && Cursor(l, 512) == (l.prefix + 1) * Span(l.level)
  {
    assert l.level == 1 || l.level == 2 || l.level == 3 || l.level == 4;
  }

  /** Slot `i` of a table of `v` still reads the same while `w` grows beside it. */
  lemma SameSlot(v: World, w: World, boot: Frame, dst: nat, l: Loc, i: nat)
    requires Inv(v, boot) && Beside(v, w, dst) && l in v.node && 1 <= l.level <= 3 && i < 512
    ensures v.node[l] < |w.mem| && |w.mem[v.node[l]]| == 512 && Parts(v)
    ensures var e := w.mem[v.node[l]][i];
      (Present(e.lo) <==> Child(l, i) in v.node) && (Present(e.lo) && l.level >= 2 ==>
        e.hi == v.node[Child(l, i)] && !Huge(e.lo) && Masked(e) == e.hi)
      && (l.level == 1 ==> e == Flat(v, l.space, Child(l, i).prefix))
  {
    TableSlot(v, boot, l, i);
  }

  /** The pages of `src` below `at` have been copied; nothing else changed. */
  ghost predicate Copying(v: World, w: World, src: nat, dst: nat, at: nat) {
    Parts(v) && Parts(w) && Beside(v, w, dst) && Copied(v, w, src, dst, at)
  }

  /** The places in space `t` that copies of the pages of `s` below `n` need. */
  ghost function Copies(v: World, s: nat, t: nat, n: nat): set<Loc>
    requires Parts(v)
  {
    if n == 0 then {}
      else Copies(v, s, t, n - 1) + if Present(Flat(v, s, n - 1).lo) then Tables(t, n - 1) + {Loc(t, 0, n - 1)} else {}
  }

  /** The copies below `at` are there, and each place took a frame. */
  ghost predicate Billed(k: set<Loc>, now: set<Loc>, v: World, src: nat, dst: nat, at: nat, used: nat, frames: nat)
    requires Parts(v)
  {
    now == k + Copies(v, src, dst, at) && frames + |k| == used + |now|
  }

  /** There are not enough frames for all copies. */
  ghost predicate Overdrawn(k: set<Loc>, v: World, src: nat, dst: nat, used: nat, total: nat)
    requires Parts(v)
  {
    total + |k| < used + |k + Copies(v, src, dst, USER_PAGES)|
  }

  lemma {:induction false} CopiesGrow(v: World, s: nat, t: nat, a: nat, b: nat)
    requires Parts(v) && a <= b
    ensures Copies(v, s, t, a) <= Copies(v, s, t, b)
    ensures (forall q: nat :: a <= q < b ==> !Present(Flat(v, s, q).lo)) ==> Copies(v, s, t, a) == Copies(v, s, t, b)
    decreases b - a
  {
    hide Owned, Placed, Shape, Flat, Tables;
    if a < b { CopiesGrow(v, s, t, a, b - 1); }
  }

  lemma BilledSkip(k: set<Loc>, now: set<Loc>, v: World, src: nat, dst: nat, at: nat, to: nat, used: nat, frames: nat)
    requires Parts(v) && Billed(k, now, v, src, dst, at, used, frames) && at <= to
    requires forall q: nat :: at <= q < to ==> !Present(Flat(v, src, q).lo)
    ensures Billed(k, now, v, src, dst, to, used, frames)
  {
    hide Copies, Owned, Placed, Flat;
    CopiesGrow(v, src, dst, at, to);
  }

  lemma BilledNext(k: set<Loc>, a: set<Loc>, b: set<Loc>, v: World, src: nat, dst: nat, p: nat, used: nat, n: nat,
                   m: nat)
    requires Parts(v) && Billed(k, a, v, src, dst, p, used, n) && Paid(a, b, dst, p, n, m)
    requires Present(Flat(v, src, p).lo)
    ensures Billed(k, b, v, src, dst, p + 1, used, m)
  {
    hide Owned, Placed, Flat, Tables;
  }

  lemma BilledShort(k: set<Loc>, a: set<Loc>, v: World, src: nat, dst: nat, p: nat, used: nat, n: nat, total: nat)
    requires Parts(v) && Billed(k, a, v, src, dst, p, used, n) && Unpaid(a, dst, p, n, total)
    requires Present(Flat(v, src, p).lo) && p < USER_PAGES
    ensures Overdrawn(k, v, src, dst, used, total)
  {
    hide Owned, Placed, Flat, Tables;
    CopiesGrow(v, src, dst, p + 1, USER_PAGES);
    assert a + Tables(dst, p) + {Loc(dst, 0, p)} == k + Copies(v, src, dst, p + 1);
    SubsetCount(a + Tables(dst, p) + {Loc(dst, 0, p)}, k + Copies(v, src, dst, USER_PAGES));
  }

  lemma BilledNone(k: set<Loc>, v: World, src: nat, dst: nat, used: nat)
    requires Parts(v)
    ensures Billed(k, k, v, src, dst, 0, used, used)
  {
  }

  lemma {:induction false} CopiesIn(v: World, s: nat, t: nat, n: nat)
    requires Parts(v)
    ensures forall l :: l in Copies(v, s, t, n) ==> l.space == t && l.level < 4
  {
    hide Owned, Placed, Flat;
    if n > 0 { CopiesIn(v, s, t, n - 1); }
  }

  function Moved(l: Loc, t: nat): Loc { Loc(t, l.level, l.prefix) }

  lemma {:induction false} CopiesMoved(v: World, s: nat, a: nat, b: nat, n: nat)
    requires Parts(v)
    ensures forall l :: l in Copies(v, s, a, n) ==> Moved(l, b) in Copies(v, s, b, n)
  {
    hide Owned, Placed, Flat;
    if n > 0 { CopiesMoved(v, s, a, b, n - 1); }
  }

  /** A set of places and what it becomes in another space have the same size. */
  lemma {:induction false} MovedCount(x: set<Loc>, y: set<Loc>, a: nat, b: nat)
    requires (forall l :: l in x ==> l.space == a && Moved(l, b) in y)
    ensures |x| <= |y|
  {
    if x != {} {
      var l :| l in x;
      forall m | m in x - {l} ensures Moved(m, b) in y - {Moved(l, b)} {
        assert m.level != l.level || m.prefix != l.prefix;
      }
      MovedCount(x - {l}, y - {Moved(l, b)}, a, b);
    }
  }

  /** The copy needs as many frames as the source has pages and tables above them. */
  lemma CopiesCount(v: World, s: nat, a: nat, b: nat, n: nat)
    requires Parts(v)
    ensures |Copies(v, s, a, n)| == |Copies(v, s, b, n)|
  {
    hide Copies, Owned, Placed, Flat;
    CopiesIn(v, s, a, n);
    CopiesIn(v, s, b, n);
    CopiesMoved(v, s, a, b, n);
    CopiesMoved(v, s, b, a, n);
    MovedCount(Copies(v, s, a, n), Copies(v, s, b, n), a, b);
    MovedCount(Copies(v, s, b, n), Copies(v, s, a, n), b, a);
  }

  /** The frames that a clone of `s` takes: a root, and one for every page and every
      table above a page. */
  ghost function CloneCost(v: World, s: nat): nat
    requires Parts(v)
  {
    1 + |Copies(v, s, s, USER_PAGES)|
  }

  /** All places of the copy are new. */
  lemma CopiesNew(v: World, w: World, src: nat, dst: nat, f: nat)
    requires Born(v, w, dst, f)
    ensures Parts(v) && |w.node.Keys + Copies(v, src, dst, USER_PAGES)| == |w.node.Keys| + CloneCost(v, src) - 1
  {
    BornRoot(v, w, dst, f);
    hide Born, Copies, Owned, Placed;
    var k, q := w.node.Keys, Copies(v, src, dst, USER_PAGES);
    CopiesIn(v, src, dst, USER_PAGES);
    CountApart(k, q, dst);
    CopiesCount(v, src, src, dst, USER_PAGES);
  }

  lemma CountApart(k: set<Loc>, q: set<Loc>, s: nat)
    requires forall l :: l in k && l.space == s ==> l.level == 4
    requires forall l :: l in q ==> l.space == s && l.level < 4
    ensures |k + q| == |k| + |q|
  {
    assert q - k == q;
    UnionCount(k, q);
  }

  lemma BornRoot(v: World, w: World, s: nat, f: nat)
    requires Born(v, w, s, f)
    ensures Parts(v) && forall l :: l in w.node.Keys && l.space == s ==> l.level == 4
  {
  }

  /** Copy the pages below one table of the source, in ascending order. Again
      each level calls the one below where the kernel nests the loops. */
  method CloneTable(vm: AddressSpaces, level: nat, prefix: nat, t: nat, src: nat, dst: nat, ghost v: World,
                    ghost k: set<Loc>, ghost u: nat)
    returns (ok: bool, ghost at: nat)
    requires vm.Valid() && Inv(v, vm.boot) && src != dst && 1 <= level <= 3
    requires Loc(src, level, prefix) in v.node && t == v.node[Loc(src, level, prefix)]
    requires (prefix + 1) * Span(level) <= USER_PAGES && Copying(v, vm.W(), src, dst, prefix * Span(level))
    requires Billed(k, vm.node.Keys, v, src, dst, prefix * Span(level), u, vm.pmm.usedFrames)
    modifies vm`mem, vm`node, vm`owner, vm.pmm`usedFrames, vm.pmm`bits, vm.pmm`complaints, vm.pmm.bitmap
    ensures vm.Valid() && vm.pmm.complaints == old(vm.pmm.complaints)
    ensures Copying(v, vm.W(), src, dst, at) && (ok ==> at == (prefix + 1) * Span(level))
    ensures if ok then Billed(k, vm.node.Keys, v, src, dst, at, u, vm.pmm.usedFrames)
      else Overdrawn(k, v, src, dst, u, vm.pmm.totalFrames)
    decreases level
  {
    ghost var l := Loc(src, level, prefix);
    hide Inv, Owned, Placed, Shape, Copied, Beside, Flat, FrameAllocator.Valid, Span, Cursor, Billed, Overdrawn, Paid;
    hide Unpaid;
    CursorEnds(l);
    var i := 0;
    while i < 512
      invariant 0 <= i <= 512 && vm.Valid() && Parts(vm.W()) && Beside(v, vm.W(), dst)
      invariant vm.pmm.complaints == old(vm.pmm.complaints) && Copied(v, vm.W(), src, dst, Cursor(l, i))
      invariant Billed(k, vm.node.Keys, v, src, dst, Cursor(l, i), u, vm.pmm.usedFrames)
    {
      SameSlot(v, vm.W(), vm.boot, dst, l, i);
      ChildCursor(l, i);
      var e := vm.mem[t][i];
      if !Present(e.lo) || (level >= 2 && Huge(e.lo)) {
        NoPages(v, vm.boot, src, Child(l, i));
        CopiedSkip(v, vm.W(), src, dst, Cursor(l, i), Cursor(l, i + 1));
        BilledSkip(k, vm.node.Keys, v, src, dst, Cursor(l, i), Cursor(l, i + 1), u, vm.pmm.usedFrames);
      } else if level == 1 {
        ghost var k1, u1 := vm.node.Keys, vm.pmm.usedFrames;
        ok := ClonePage(vm, src, dst, prefix * 512 + i, e, v);
        if !ok {
          BilledShort(k, k1, v, src, dst, Cursor(l, i), u, u1, vm.pmm.totalFrames);
          return false, Cursor(l, i);
        }
        BilledNext(k, k1, vm.node.Keys, v, src, dst, Cursor(l, i), u, u1, vm.pmm.usedFrames);
      } else {
        ok, at := CloneTable(vm, level - 1, prefix * 512 + i, Masked(e), src, dst, v, k, u);
        if !ok { return; }
      }
      i := i + 1;
    }
    return true, Cursor(l, 512);
  }

  lemma ChildCursor(l: Loc, i: nat)
    requires 0 < l.level <= 4 && i < 512
    ensures var c := Child(l, i);
      c.prefix * Span(c.level) == Cursor(l, i) && (c.prefix + 1) * Span(c.level) == Cursor(l, i + 1)
    ensures Cursor(l, i) <= Cursor(l, i + 1) <= (l.prefix + 1) * Span(l.level)
    ensures l.level == 1 ==> Cursor(l, i) == Child(l, i).prefix && Cursor(l, i + 1) == Child(l, i).prefix + 1
  {
    assert l.level == 1 || l.level == 2 || l.level == 3 || l.level == 4;
  }

  lemma BornBeside(v: World, w: World, s: nat, f: nat, src: nat)
    requires Born(v, w, s, f)
    ensures Parts(v) && Parts(w) && Beside(v, w, s) && Copied(v, w, src, s, 0)
  {
    forall q: nat ensures Flat(w, s, q) == ZERO {
      assert Flat(w, s, q) == Flat(v, s, q);
    }
  }

  lemma BesideFields(v: World, w: World, boot: Frame, dst: nat, sp: Space, src: nat)
    requires Inv(w, boot) && Parts(v) && Parts(w) && Beside(v, w, dst) && Copied(v, w, src, dst, 0)
    requires sp.pml4 == w.spaces[dst].pml4
    ensures var u := w.(spaces := w.spaces[dst := sp]);
      Inv(u, boot) && Parts(u) && Beside(v, u, dst) && Copied(v, u, src, dst, 0) && u.spaces[dst] == sp
  {
    var u := w.(spaces := w.spaces[dst := sp]);
    hide Inv, Owned, Placed, Shape, SameFlat, Copied;
    SpaceFieldsOk(w, boot, dst, sp);
    InvParts(u, boot);
    CopiedSame(v, w, u, boot, src, dst, 0);
  }

  /** Everything in use is as it was: same frames, same roles, same contents. */
  ghost predicate Undone(v: World, w: World) {
    && w.bits == v.bits && w.node == v.node && w.owner == v.owner && w.spaces == v.spaces && |w.mem| == |v.mem|
    && forall f :: f in v.owner && f < |v.mem| ==> w.mem[f] == v.mem[f]
  }

  lemma BesideApart(v: World, w: World, dst: nat)
    requires Placed(v) && Beside(v, w, dst)
    ensures forall f :: f in v.owner ==> !InSpace(v.owner[f], dst)
    ensures forall f :: f in w.owner ==> (f in v.owner <==> !InSpace(w.owner[f], dst))
  {
    forall f | f in v.owner ensures !InSpace(v.owner[f], dst) {
      if v.owner[f].Node? { assert v.owner[f].loc in v.node; }
    }
  }

  lemma BesideNodes(v: World, w: World, dst: nat)
    requires Placed(v) && Placed(w) && Beside(v, w, dst)
    requires forall f :: f in w.owner ==> (f in v.owner <==> !InSpace(w.owner[f], dst))
    ensures forall l :: l in v.node <==> l in w.node && l.space != dst
    ensures forall l :: l in v.node ==> w.node[l] == v.node[l]
  {
    forall l ensures l in v.node ==> l in w.node && l.space != dst && w.node[l] == v.node[l] {
      if l in v.node { assert w.owner[v.node[l]] == Node(l); }
    }
    forall l | l in w.node && l.space != dst ensures l in v.node {
      assert w.owner[w.node[l]] == Node(l);
      assert v.owner[w.node[l]] == Node(l);
    }
  }

  /** Tearing the half-made copy down leaves everything as it was. */
  lemma CloneUndone(v: World, w: World, dst: nat)
    requires Owned(v) && Placed(v) && Owned(w) && Placed(w) && Beside(v, w, dst)
    ensures Undone(v, Dropped(w, dst))
  {
    BesideApart(v, w, dst);
    BesideNodes(v, w, dst);
    hide Placed, Beside;
    BesideDropped(v, w, dst);
    UndoneNodes(v, w, dst);
    UndoneBits(v, w, dst);
    hide Dropped, Owned;
  }

  lemma UndoneNodes(v: World, w: World, dst: nat)
    requires Owned(w)
    requires forall l :: l in v.node <==> l in w.node && l.space != dst
    requires forall l :: l in v.node ==> l in w.node && w.node[l] == v.node[l]
    ensures Dropped(w, dst).node == v.node
  {
  }

  lemma UndoneBits(v: World, w: World, dst: nat)
    requires Owned(v) && Owned(w) && |v.mem| == |w.mem|
    requires forall f :: f in v.owner ==> f in w.owner
    requires forall f :: f in w.owner ==> (f in v.owner <==> !InSpace(w.owner[f], dst))
    ensures Dropped(w, dst).bits == v.bits
  {
  }

  lemma BesideDropped(v: World, w: World, dst: nat)
    requires Owned(w) && Beside(v, w, dst)
    requires forall f :: f in w.owner ==> (f in v.owner <==> !InSpace(w.owner[f], dst))
    ensures Dropped(w, dst).owner == v.owner && Dropped(w, dst).spaces == v.spaces && |w.mem| == |v.mem|
    ensures forall f :: f in v.owner && f < |v.mem| ==> w.mem[f] == v.mem[f]
  {
  }

  /** The new space, with nothing in it yet but the fields of the old one. */
  method CloneRoot(vm: AddressSpaces, src: nat, room: bool) returns (ok: bool, dst: nat)
    requires vm.Valid() && src in vm.spaces
    modifies vm`mem, vm`spaces, vm`nextSpace, vm`node, vm`owner, vm.pmm`usedFrames, vm.pmm`bits, vm.pmm.bitmap
    ensures vm.Valid() && Parts(old(vm.W())) && Parts(vm.W())
    ensures !ok ==> vm.W() == old(vm.W()) && (room ==> old(vm.pmm.usedFrames) == vm.pmm.totalFrames)
    ensures ok ==> room && vm.pmm.usedFrames == old(vm.pmm.usedFrames) + 1
    ensures ok ==> Beside(old(vm.W()), vm.W(), dst) && Copied(old(vm.W()), vm.W(), src, dst, 0)
    ensures ok ==> dst in vm.spaces && vm.spaces[dst] == old(vm.spaces)[src].(pml4 := vm.spaces[dst].pml4)
    ensures ok ==> src in vm.spaces && vm.spaces[src] == old(vm.spaces)[src]
    ensures ok ==>
      |vm.node.Keys + Copies(old(vm.W()), src, dst, USER_PAGES)| == |vm.node.Keys| + CloneCost(old(vm.W()), src) - 1
  {
    hide Inv, Owned, Placed, Shape, Copied, Beside, Born, Flat, FrameAllocator.Valid, Copies, CloneCost, SameFlat;
    ghost var v := vm.W();
    InvParts(v, vm.boot);
    ok, dst := Create(vm, room);
    if !ok {
      if room { vm.pmm.Full(); }
      return;
    }
    CopiesNew(v, vm.W(), src, dst, vm.spaces[dst].pml4);
    BornBeside(v, vm.W(), dst, vm.spaces[dst].pml4, src);
    BornKeeps(v, vm.W(), dst, vm.spaces[dst].pml4, src);
    var a := vm.spaces[src];
    var b := Space(vm.spaces[dst].pml4, a.brkStart, a.brk, a.mmapHint);
    BesideFields(v, vm.W(), vm.boot, dst, b, src);
    vm.spaces := vm.spaces[dst := b];
  }

  lemma BornKeeps(v: World, w: World, s: nat, f: nat, t: nat)
    requires Born(v, w, s, f) && t in v.spaces
    ensures t != s && t in w.spaces && w.spaces[t] == v.spaces[t]
  {
  }


  /** vmm_clone. On success the new space has the same pages, the same flag bits
      and equal contents in frames that were free, and the source and all other
      spaces are as before; on failure everything taken is free again. */
  method Clone(vm: AddressSpaces, src: nat, room: bool) returns (ok: bool, dst: nat)
    requires vm.Valid() && src in vm.spaces
    modifies vm`mem, vm`spaces, vm`nextSpace, vm`node, vm`owner
    modifies vm.pmm`usedFrames, vm.pmm`bits, vm.pmm`complaints, vm.pmm.bitmap
    ensures vm.Valid() && vm.pmm.complaints == old(vm.pmm.complaints)
    ensures ok ==> Parts(old(vm.W())) && Parts(vm.W()) && Beside(old(vm.W()), vm.W(), dst)
    ensures ok ==> Copied(old(vm.W()), vm.W(), src, dst, USER_PAGES)
    ensures ok ==> var a, b := old(vm.spaces[src]), vm.spaces[dst]; b == a.(pml4 := b.pml4)
    ensures !ok ==> Undone(old(vm.W()), vm.W())
    ensures Parts(old(vm.W()))
    ensures (ok <==> room && old(vm.pmm.usedFrames) + CloneCost(old(vm.W()), src) <= vm.pmm.totalFrames)
  {
    hide Inv, Owned, Placed, Shape, Copied, Beside, Born, Undone, Flat, FrameAllocator.Valid, Cursor, Dropped, Billed;
    hide Overdrawn, Copies;
    ghost var v := vm.W();
    InvParts(v, vm.boot);
    ok, dst := CloneRoot(vm, src, room);
    if !ok {
      UndoneSame(v);
      return;
    }
    ghost var k, u := vm.node.Keys, vm.pmm.usedFrames;
    BilledNone(k, v, src, dst, u);
    BesideSpaces(v, vm.W(), dst);
    ok := CloneHalf(vm, src, dst, v, k, u);
    BesideSpaces(v, vm.W(), dst);
    if !ok {
      OverdrawnCost(k, v, src, dst, u, vm.pmm.totalFrames);
      InvParts(vm.W(), vm.boot);
      CloneUndone(v, vm.W(), dst);
      Destroy(vm, dst);
      return;
    }
    vm.pmm.Bound();
    BilledAll(k, vm.node.Keys, v, src, dst, u, vm.pmm.usedFrames);
  }

  lemma RootOwned(w: World, boot: Frame, s: nat)
    requires Inv(w, boot) && s in w.spaces
    ensures w.spaces[s].pml4 in w.owner && w.spaces[s].pml4 < |w.mem|
  {
    assert Loc(s, 4, 0) in w.node;
  }

  /** The loop over the user half of the root. */
  method CloneHalf(vm: AddressSpaces, src: nat, dst: nat, ghost v: World, ghost k: set<Loc>, ghost u: nat)
    returns (ok: bool)
    requires vm.Valid() && Inv(v, vm.boot) && Parts(v) && Parts(vm.W()) && src in v.spaces && src != dst
    requires src in vm.spaces && vm.spaces[src] == v.spaces[src]
    requires Beside(v, vm.W(), dst) && dst in vm.spaces && Copied(v, vm.W(), src, dst, 0)
    requires Billed(k, vm.node.Keys, v, src, dst, 0, u, vm.pmm.usedFrames)
    modifies vm`mem, vm`node, vm`owner, vm.pmm`usedFrames, vm.pmm`bits, vm.pmm`complaints, vm.pmm.bitmap
    ensures vm.Valid() && Parts(vm.W()) && Beside(v, vm.W(), dst) && vm.pmm.complaints == old(vm.pmm.complaints)
    ensures vm.spaces == old(vm.spaces)
    ensures ok ==> Copied(v, vm.W(), src, dst, USER_PAGES)
    ensures ok ==> Billed(k, vm.node.Keys, v, src, dst, USER_PAGES, u, vm.pmm.usedFrames)
    ensures !ok ==> Overdrawn(k, v, src, dst, u, vm.pmm.totalFrames)
  {
    hide Inv, Owned, Placed, Shape, Copied, Beside, Flat, FrameAllocator.Valid, Cursor, Billed, Overdrawn, Copies;
    ghost var root := Loc(src, 4, 0);
    HalfCursor(root);
    RootOwned(v, vm.boot, src);
    CursorEnds(root);
    var t := vm.spaces[src].pml4;
    var i := 0;
    while i < 256
      invariant 0 <= i <= 256 && vm.Valid() && Parts(vm.W()) && Beside(v, vm.W(), dst) && vm.spaces == old(vm.spaces)
      invariant vm.pmm.complaints == old(vm.pmm.complaints) && Copied(v, vm.W(), src, dst, Cursor(root, i))
      invariant Billed(k, vm.node.Keys, v, src, dst, Cursor(root, i), u, vm.pmm.usedFrames)
    {
      RootBound(root, i);
      RootSlot(v, vm.boot, src, i);
      SameRoot(v, vm.W(), dst, t);
      ChildCursor(root, i);
      var e := vm.mem[t][i];
      if !Present(e.lo) {
        NoPages(v, vm.boot, src, Child(root, i));
        CopiedSkip(v, vm.W(), src, dst, Cursor(root, i), Cursor(root, i + 1));
        BilledSkip(k, vm.node.Keys, v, src, dst, Cursor(root, i), Cursor(root, i + 1), u, vm.pmm.usedFrames);
      } else {
        ghost var at;
        ok, at := CloneTable(vm, 3, i, Masked(e), src, dst, v, k, u);
        if !ok { return; }
      }
      i := i + 1;
    }
    ok := true;
  }

  lemma OverdrawnCost(k: set<Loc>, v: World, src: nat, dst: nat, used: nat, total: nat)
    requires Parts(v) && Overdrawn(k, v, src, dst, used, total)
    requires |k + Copies(v, src, dst, USER_PAGES)| == |k| + CloneCost(v, src) - 1
    ensures total < used + CloneCost(v, src) - 1
  {
  }

  lemma BilledAll(k: set<Loc>, now: set<Loc>, v: World, src: nat, dst: nat, used: nat, frames: nat)
    requires Parts(v) && Billed(k, now, v, src, dst, USER_PAGES, used, frames)
    requires |k + Copies(v, src, dst, USER_PAGES)| == |k| + CloneCost(v, src) - 1
    ensures frames == used + CloneCost(v, src) - 1
  {
  }

  lemma RootBound(l: Loc, i: nat)
    requires l.level == 4 && l.prefix == 0 && i < 256
    ensures Cursor(l, i) <= Cursor(l, i + 1) <= USER_PAGES && Cursor(l, 0) == 0
  {
  }

  lemma UndoneSame(v: World)
    ensures Undone(v, v)
  {
  }

  lemma BesideSpaces(v: World, w: World, dst: nat)
    requires Beside(v, w, dst)
    ensures dst in w.spaces && dst !in v.spaces
    ensures forall s :: s in v.spaces ==> s in w.spaces && w.spaces[s] == v.spaces[s]
  {
  }

  lemma SameRoot(v: World, w: World, dst: nat, t: nat)
    requires Parts(v) && Beside(v, w, dst) && t < |v.mem| && t in v.owner
    ensures t < |w.mem| && w.mem[t] == v.mem[t]
  {
  }

  lemma HalfCursor(root: Loc)
    requires root.level == 4 && root.prefix == 0
    ensures Cursor(root, 256) == USER_PAGES
  {
  }
}
