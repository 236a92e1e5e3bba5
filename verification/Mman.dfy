/** brk, mmap and munmap on top of the address spaces, and runs of all memory
    operations. */
module Mman {
  import opened Machine
  import opened Pmm
  import opened PageTables
  import opened Vmm
  import opened Spaces

  const MMAP_MIN: nat := 0x1_0000
  const USER_RW: bv12 := 7

  /** What every operation keeps about the break and the hint of a space. */
  predicate FieldsOk(sp: Space) {
    && sp.mmapHint % PAGE_SIZE == 0 && sp.mmapHint <= MMAP_TOP
    && sp.brkStart % PAGE_SIZE == 0 && sp.brkStart <= sp.brk <= MMAP_TOP
  }

  ghost predicate Mapped(w: World, s: nat, q: nat)
    requires Parts(w)
  {
    Present(Flat(w, s, q).lo)
  }

  ghost predicate GapAt(w: World, s: nat, a: nat, len: nat)
    requires Parts(w)
  {
    forall q: nat :: a / PAGE_SIZE <= q < (a + len) / PAGE_SIZE ==> !Mapped(w, s, q)
  }

  /** A page-aligned unmapped range of `len` bytes in [low, top). */
  ghost predicate Candidate(w: World, s: nat, low: nat, top: nat, len: nat, a: nat)
    requires Parts(w)
  {
    a % PAGE_SIZE == 0 && low <= a && a + len <= top && GapAt(w, s, a, len)
  }

  method SetFields(vm: AddressSpaces, s: nat, sp: Space)
    requires vm.Valid() && s in vm.spaces && sp.pml4 == vm.spaces[s].pml4
    modifies vm`spaces
    ensures vm.Valid() && vm.W() == old(vm.W()).(spaces := old(vm.spaces)[s := sp])
    ensures Parts(old(vm.W())) && Parts(vm.W()) && SameFlat(old(vm.W()), vm.W())
  {
    hide Inv, Owned, Placed, Shape, SameFlat, FrameAllocator.Valid;
    InvParts(vm.W(), vm.boot);
    SpaceFieldsOk(vm.W(), vm.boot, s, sp);
    vm.spaces := vm.spaces[s := sp];
    InvParts(vm.W(), vm.boot);
  }

  /** The inner scan of find_free: down from `top`, stopping below the first
      mapped page, or at `lo`. */
  method ScanDown(vm: AddressSpaces, s: nat, lo: nat, top: nat) returns (p: nat)
    requires vm.Valid() && s in vm.spaces && lo <= top <= USER_END && lo % PAGE_SIZE == 0 && top % PAGE_SIZE == 0
    ensures Parts(vm.W()) && lo <= p <= top && p % PAGE_SIZE == 0
    ensures forall q: nat :: p / PAGE_SIZE <= q < top / PAGE_SIZE ==> !Mapped(vm.W(), s, q)
    ensures p > lo ==> p >= PAGE_SIZE && Mapped(vm.W(), s, (p - PAGE_SIZE) / PAGE_SIZE)
  {
    hide Inv, Owned, Placed, Shape, Flat, FrameAllocator.Valid;
    InvParts(vm.W(), vm.boot);
    p := top;
    while p > lo
      invariant lo <= p <= top && p % PAGE_SIZE == 0
      invariant forall q: nat :: p / PAGE_SIZE <= q < top / PAGE_SIZE ==> !Mapped(vm.W(), s, q)
    {
      var phys := vm.Translate(s, p - PAGE_SIZE);
      if phys != INVALID { return; }
      p := p - PAGE_SIZE;
    }
  }

  /** A mapped page at `m` in the window rules out every range that ends above it. */
  lemma SkipOk(w: World, s: nat, low: nat, top: nat, len: nat, m: nat, a: nat)
    requires Parts(w) && m % PAGE_SIZE == 0 && top - len <= m && len % PAGE_SIZE == 0 && Mapped(w, s, m / PAGE_SIZE)
    requires Candidate(w, s, low, top, len, a)
    ensures a + len <= m
  {
    hide Owned, Placed, Flat;
  }

  /** find_free: the highest unmapped range of `len` bytes below the hint and at
      or above brk_start, and 0 exactly when there is none (a range at address 0
      itself, possible only while brk_start is 0, reads the same). */
  method FindFree(vm: AddressSpaces, s: nat, len: nat) returns (va: nat)
    requires vm.Valid() && s in vm.spaces && FieldsOk(vm.spaces[s]) && len > 0 && len % PAGE_SIZE == 0
    modifies vm`spaces
    ensures vm.Valid() && Parts(old(vm.W())) && Parts(vm.W()) && SameFlat(old(vm.W()), vm.W())
    ensures var sp := old(vm.spaces[s]);
      if exists a: nat :: Candidate(old(vm.W()), s, sp.brkStart, sp.mmapHint, len, a)
      then Candidate(old(vm.W()), s, sp.brkStart, sp.mmapHint, len, va)
           && (forall a: nat :: Candidate(old(vm.W()), s, sp.brkStart, sp.mmapHint, len, a) ==> a <= va)
           && vm.W() == old(vm.W()).(spaces := old(vm.spaces)[s := sp.(mmapHint := va)])
      else va == 0 && vm.W() == old(vm.W())
  {
    hide Inv, Owned, Placed, Shape, SameFlat, FrameAllocator.Valid, Mapped;
    ghost var w := vm.W();
    InvParts(w, vm.boot);
    NoStep(w, vm.boot, s);
    var sp := vm.spaces[s];
    var top := sp.mmapHint;
    while top >= sp.brkStart + len
      invariant top % PAGE_SIZE == 0 && top <= sp.mmapHint && vm.Valid() && vm.W() == w && Parts(w)
      invariant forall a: nat :: Candidate(w, s, sp.brkStart, sp.mmapHint, len, a) ==> a + len <= top
      decreases top
    {
      var lo := top - len;
      var p := ScanDown(vm, s, lo, top);
      if p == lo {
        assert Candidate(w, s, sp.brkStart, sp.mmapHint, len, lo);
        SetFields(vm, s, sp.(mmapHint := lo));
        return lo;
      }
      forall a: nat | Candidate(w, s, sp.brkStart, sp.mmapHint, len, a) ensures a + len <= p - PAGE_SIZE {
        assert Candidate(w, s, sp.brkStart, top, len, a);
        SkipOk(w, s, sp.brkStart, top, len, p - PAGE_SIZE, a);
      }
      top := p - PAGE_SIZE;
    }
    return 0;
  }

  /** Allocating part of a free range and then freeing the whole range restores
      the page map. */
  lemma AllocUndone(v: World, u: World, z: World, boot: Frame, s: nat, lo: nat, stop: nat, hi: nat, flags: bv12)
    requires Inv(v, boot) && Parts(v) && Parts(u) && Parts(z) && Present(flags) && stop <= hi
    requires Backed(v, u, s, lo, stop, flags) && FreedFlat(u, z, s, lo, hi)
    requires forall q: nat :: lo <= q < hi ==> !Mapped(v, s, q)
    ensures SameFlat(v, z)
  {
    hide Inv, Owned, Placed;
    forall t, q: nat ensures Flat(z, t, q) == Flat(v, t, q) {
      FlatLeaf(v, boot, t, q);
      assert t == s && lo <= q < hi ==> !Mapped(v, s, q);
      if t == s && lo <= q < stop {
        assert Granted(v, u, Flat(v, s, q), Flat(u, s, q), flags);
      } else {
        assert Flat(u, t, q) == Flat(v, t, q);
      }
    }
  }

  /** Between `v` and `w` only space `s` was worked on, and only its pages [lo, hi) went:
      every other frame in use keeps its role, and its contents unless it is a table of
      `s`; what is new belongs to `s` or is placed nowhere. */
  ghost predicate Confined(v: World, w: World, s: nat, lo: nat, hi: nat) {
    && |w.mem| == |v.mem|
    && (forall f :: f in v.owner && !LeafIn(v.owner[f], s, lo, hi) ==> f in w.owner && w.owner[f] == v.owner[f])
    && (forall f ::
      f in v.owner && f < |v.mem| && !LeafIn(v.owner[f], s, lo, hi) && !IsTable(v.owner[f], s) ==> w.mem[f] == v.mem[f])
    && (forall f ::
      f in w.owner ==> (f in v.owner && w.owner[f] == v.owner[f]) || InSpace(w.owner[f], s) || w.owner[f].Held?)
  }

  lemma ConfinedFields(w: World, s: nat, lo: nat, hi: nat, spaces: map<nat, Space>)
    ensures Confined(w, w.(spaces := spaces), s, lo, hi)
  {
  }

  lemma ConfinedAlloc(v: World, w: World, s: nat, lo: nat, hi: nat, lost: set<nat>)
    requires KeepsBut(v, w, s, lost)
    ensures Confined(v, w, s, lo, hi)
  {
  }

  lemma ConfinedFree(v: World, w: World, s: nat, lo: nat, hi: nat)
    requires Parts(v) && Parts(w) && Freed(v, w, s, lo, hi)
    ensures Confined(v, w, s, lo, hi)
  {
  }

  lemma ConfinedTrans(v: World, u: World, w: World, s: nat, lo: nat, hi: nat)
    requires Confined(v, u, s, lo, hi) && Confined(u, w, s, lo, hi)
    ensures Confined(v, w, s, lo, hi)
  {
  }

  /** A range that had no pages has none to lose. */
  lemma ConfinedEmpty(v: World, w: World, boot: Frame, s: nat, lo: nat, hi: nat, a: nat, b: nat)
    requires Inv(v, boot) && Parts(v) && Confined(v, w, s, lo, hi)
    requires forall q: nat :: lo <= q < hi ==> !Present(Flat(v, s, q).lo)
    ensures Confined(v, w, s, a, b)
  {
    forall f | f in v.owner ensures !LeafIn(v.owner[f], s, lo, hi) {
      if LeafIn(v.owner[f], s, lo, hi) { PageThere(v, boot, s, v.owner[f].loc.prefix); }
    }
  }

  /** The break can move from page `o` to page `n`: down, or up over unmapped pages
      if there is a frame for each of them and for each table they lack. */
  ghost predicate CanBreak(w: World, s: nat, o: nat, n: nat, used: nat, total: nat)
    requires Parts(w)
  {
    || n <= o
    || ((forall q: nat :: o <= q < n ==> !Present(Flat(w, s, q).lo)) && Enough(w.node.Keys, s, o, n, used, total))
  }

  /** sys_brk. A failed call leaves the page map and the break as they were. */
  method Brk(vm: AddressSpaces, s: nat, want: nat) returns (r: nat, ghost ok: bool)
    requires vm.Valid() && s in vm.spaces && FieldsOk(vm.spaces[s])
    modifies vm`mem, vm`spaces, vm`node, vm`owner
    modifies vm.pmm`usedFrames, vm.pmm`bits, vm.pmm`complaints, vm.pmm.bitmap
    ensures vm.Valid() && Parts(old(vm.W())) && Parts(vm.W()) && vm.pmm.complaints == old(vm.pmm.complaints)
    ensures !ok ==> r == old(vm.spaces[s].brk) && vm.spaces == old(vm.spaces) && SameFlat(old(vm.W()), vm.W())
    ensures ok ==> r == want <= MMAP_TOP && old(vm.spaces[s].brkStart) <= want
    ensures ok ==> vm.spaces == old(vm.spaces)[s := old(vm.spaces[s]).(brk := want)]
    ensures ok ==> var o, n := AlignUp(old(vm.spaces[s].brk)) / PAGE_SIZE, AlignUp(want) / PAGE_SIZE;
      if o < n then Backed(old(vm.W()), vm.W(), s, o, n, 7) else FreedFlat(old(vm.W()), vm.W(), s, n, o)
    ensures old(vm.spaces[s].brkStart) <= want <= MMAP_TOP ==>
      (ok <==> CanBreak(old(vm.W()), s, AlignUp(old(vm.spaces[s].brk)) / PAGE_SIZE, AlignUp(want) / PAGE_SIZE,
        old(vm.pmm.usedFrames), vm.pmm.totalFrames))
    ensures Confined(old(vm.W()), vm.W(), s, AlignUp(want) / PAGE_SIZE, AlignUp(old(vm.spaces[s].brk)) / PAGE_SIZE)
  {
    hide Enough, Needed, Returned, Confined;
    hide Inv, Owned, Placed, Shape, SameFlat, FrameAllocator.Valid, Backed, FreedFlat, FreedFrames, Freed, Keeps;
    hide KeepsBut;
    ghost var w := vm.W();
    InvParts(w, vm.boot);
    NoStep(w, vm.boot, s);
    var sp := vm.spaces[s];
    ghost var lo, hi := AlignUp(want) / PAGE_SIZE, AlignUp(sp.brk) / PAGE_SIZE;
    ConfinedFields(w, s, lo, hi, w.spaces);
    if want < sp.brkStart || want > MMAP_TOP { return sp.brk, false; }
    var oldp, newp := AlignUp(sp.brk), AlignUp(want);
    if newp > oldp {
      var free := vm.RangeIsFree(s, oldp, newp);
      if !free { return sp.brk, false; }
      var got;
      ghost var stop, lost;
      got, stop, lost := vm.AllocRange(s, oldp, newp, USER_RW);
      ghost var u := vm.W();
      InvParts(u, vm.boot);
      if !got {
        vm.FreeRange(s, oldp, newp);
        InvParts(vm.W(), vm.boot);
        FreedParts(u, vm.W(), s, oldp / PAGE_SIZE, newp / PAGE_SIZE);
        AllocUndone(w, u, vm.W(), vm.boot, s, oldp / PAGE_SIZE, stop, newp / PAGE_SIZE, USER_RW);
        AllocFreeConfined(w, u, vm.W(), vm.boot, s, hi, lo, lost, lo, hi);
        return sp.brk, false;
      }
      KeepsAll(w, u, s);
      ConfinedAlloc(w, u, s, lo, hi, {});
      ConfinedFields(u, s, lo, hi, u.spaces[s := sp.(brk := want)]);
      ConfinedTrans(w, u, u.(spaces := u.spaces[s := sp.(brk := want)]), s, lo, hi);
      SetFields(vm, s, sp.(brk := want));
      BackedFields(w, u, vm.W(), s, oldp / PAGE_SIZE, newp / PAGE_SIZE, USER_RW);
    } else {
      FreedNone(w, vm.boot, s, newp / PAGE_SIZE, newp / PAGE_SIZE);
      if newp < oldp {
        vm.FreeRange(s, newp, oldp);
        InvParts(vm.W(), vm.boot);
      }
      ghost var u := vm.W();
      FreedParts(w, u, s, newp / PAGE_SIZE, oldp / PAGE_SIZE);
      ConfinedFree(w, u, s, lo, hi);
      ConfinedFields(u, s, lo, hi, u.spaces[s := sp.(brk := want)]);
      ConfinedTrans(w, u, u.(spaces := u.spaces[s := sp.(brk := want)]), s, lo, hi);
      SetFields(vm, s, sp.(brk := want));
      FreedFields(w, u, vm.W(), s, newp / PAGE_SIZE, oldp / PAGE_SIZE);
    }
    return want, true;
  }

  /** Part of a range was allocated and the range freed again. */
  lemma AllocFreeConfined(v: World, u: World, w: World, boot: Frame, s: nat, lo: nat, hi: nat, lost: set<nat>, a: nat,
                          b: nat)
    requires Inv(v, boot) && Parts(v) && Parts(u) && Parts(w) && KeepsBut(v, u, s, lost) && Freed(u, w, s, lo, hi)
    requires forall q: nat :: lo <= q < hi ==> !Present(Flat(v, s, q).lo)
    ensures Confined(v, w, s, a, b)
  {
    hide Inv, Owned, Placed, Confined, KeepsBut, Freed, Flat;
    ConfinedAlloc(v, u, s, lo, hi, lost);
    ConfinedFree(u, w, s, lo, hi);
    ConfinedTrans(v, u, w, s, lo, hi);
    ConfinedEmpty(v, w, boot, s, lo, hi, a, b);
  }

  lemma FreedParts(v: World, w: World, s: nat, lo: nat, hi: nat)
    requires Parts(v) && Parts(w) && Freed(v, w, s, lo, hi)
    ensures FreedFlat(v, w, s, lo, hi) && w.spaces == v.spaces
  {
  }

  lemma BackedFields(v: World, u: World, w: World, s: nat, lo: nat, hi: nat, flags: bv12)
    requires Parts(v) && Parts(u) && Parts(w) && Backed(v, u, s, lo, hi, flags) && SameFlat(u, w) && w.mem == u.mem
    ensures Backed(v, w, s, lo, hi, flags)
  {
    hide Owned, Placed, Flat;
    forall q: nat | lo <= q < hi ensures Granted(v, w, Flat(v, s, q), Flat(w, s, q), flags) {
      assert Flat(w, s, q) == Flat(u, s, q);
    }
    forall t, q: nat | !(t == s && lo <= q < hi) ensures Flat(w, t, q) == Flat(v, t, q) {
      assert Flat(w, t, q) == Flat(u, t, q);
    }
  }

  lemma FreedFields(v: World, u: World, w: World, s: nat, lo: nat, hi: nat)
    requires Parts(v) && Parts(u) && Parts(w) && FreedFlat(v, u, s, lo, hi) && SameFlat(u, w)
    ensures FreedFlat(v, w, s, lo, hi)
  {
    hide Owned, Placed, Flat;
    forall t, q: nat ensures Flat(w, t, q) ==
      if t == s && lo <= q < hi && Present(Flat(v, t, q).lo) then ZERO else Flat(v, t, q)
    {
      assert Flat(w, t, q) == Flat(u, t, q);
    }
  }

  const EBADF: int := 9
  const ENOMEM: int := 12
  const EEXIST: int := 17
  const EINVAL: int := 22

  function ProtFlags(prot: bv64): (flags: bv12)
    ensures Present(flags)
  {
    PRESENT | (if prot != 0 then USER else 0) | (if prot & 2 != 0 then WRITE else 0)
  }

  /** The pages [lo, hi) of `s` are present, writable exactly with PROT_WRITE, open to user
      mode exactly with any protection at all, and have no other flag. */
  ghost predicate Protected(w: World, s: nat, lo: nat, hi: nat, prot: bv64)
    requires Parts(w)
  {
    forall q: nat {:trigger Flat(w, s, q)} :: lo <= q < hi ==>
      var e := Flat(w, s, q).lo;
      e & 1 == 1 && (e & 2 == 2 <==> prot & 2 == 2) && (e & 4 == 4 <==> prot != 0) && e & !7 == 0
  }

  lemma ProtectedOk(v: World, w: World, s: nat, lo: nat, hi: nat, prot: bv64)
    requires Parts(v) && Parts(w) && Remapped(v, w, s, lo, hi, ProtFlags(prot))
    ensures Protected(w, s, lo, hi, prot)
  {
    hide Owned, Placed, Flat;
    var f := ProtFlags(prot);
    assert f & 1 == 1 && (f & 2 == 2 <==> prot & 2 == 2) && (f & 4 == 4 <==> prot != 0) && f & !7 == 0;
  }

  /** user_range: with 64-bit addresses, a sum that wraps ends below its start. */
  predicate UserRange(addr: nat, len: nat) {
    addr % PAGE_SIZE == 0 && len != 0 && addr + len <= USER_END
  }

  /** The pages [lo, hi) of `s` are new zeroed pages, every other page is as before. */
  ghost predicate Remapped(v: World, w: World, s: nat, lo: nat, hi: nat, flags: bv12)
    requires Parts(v) && Parts(w)
  {
    && (forall t, q: nat {:trigger Flat(w, t, q)} :: !(t == s && lo <= q < hi) ==> Flat(w, t, q) == Flat(v, t, q))
    && (forall q: nat {:trigger Flat(w, s, q)} :: lo <= q < hi ==>
          var e := Flat(w, s, q); e.lo == flags && e.hi < |w.mem| && w.mem[e.hi] == Zeros())
  }

  lemma RemappedOk(v: World, u: World, w: World, boot: Frame, s: nat, lo: nat, hi: nat, flags: bv12)
    requires Inv(u, boot) && Parts(v) && Parts(u) && Parts(w)
    requires FreedFlat(v, u, s, lo, hi) && Backed(u, w, s, lo, hi, flags)
    ensures Remapped(v, w, s, lo, hi, flags)
  {
    hide Inv, Owned, Placed;
    forall q: nat | lo <= q < hi
      ensures var e := Flat(w, s, q); e.lo == flags && e.hi < |w.mem| && w.mem[e.hi] == Zeros()
    {
      assert Granted(u, w, Flat(u, s, q), Flat(w, s, q), flags);
      assert Flat(u, s, q) == ZERO || !Present(Flat(u, s, q).lo);
    }
    forall t, q: nat | !(t == s && lo <= q < hi) ensures Flat(w, t, q) == Flat(v, t, q) {
      assert Flat(u, t, q) == Flat(v, t, q);
    }
  }

  lemma FreedTwice(v: World, u: World, x: World, z: World, boot: Frame, s: nat, lo: nat, stop: nat, hi: nat,
                   flags: bv12)
    requires Inv(u, boot) && Parts(v) && Parts(u) && Parts(x) && Parts(z) && Present(flags) && stop <= hi
    requires FreedFlat(v, u, s, lo, hi) && Backed(u, x, s, lo, stop, flags) && FreedFlat(x, z, s, lo, hi)
    ensures FreedFlat(v, z, s, lo, hi)
  {
    hide Inv;
    forall q: nat | lo <= q < hi ensures !Mapped(u, s, q) {
      assert Flat(u, s, q) == ZERO || Flat(u, s, q) == Flat(v, s, q);
    }
    AllocUndone(u, x, z, boot, s, lo, stop, hi, flags);
    FreedFields(v, u, z, s, lo, hi);
  }

  /** A free range counts as freed already. */
  lemma FreedFree(v: World, w: World, s: nat, lo: nat, hi: nat)
    requires Parts(v) && Parts(w) && SameFlat(v, w) && forall q: nat :: lo <= q < hi ==> !Mapped(v, s, q)
    ensures FreedFlat(v, w, s, lo, hi)
  {
    hide Owned, Placed, Flat;
    forall t, q: nat ensures Flat(w, t, q) ==
      if t == s && lo <= q < hi && Present(Flat(v, t, q).lo) then ZERO else Flat(v, t, q)
    {
      assert t == s && lo <= q < hi ==> !Mapped(v, s, q);
      assert Flat(w, t, q) == Flat(v, t, q);
    }
  }

  /** The common tail of sys_mmap: back a range just made free, or leave it free. */
  method FillRange(vm: AddressSpaces, s: nat, va: nat, size: nat, flags: bv12, ghost v: World) returns (ok: bool)
    requires vm.Valid() && s in vm.spaces && Parts(v) && Parts(vm.W()) && UserRange(va, size) && size % PAGE_SIZE == 0
    requires Present(flags) && FreedFlat(v, vm.W(), s, va / PAGE_SIZE, (va + size) / PAGE_SIZE)
    modifies vm`mem, vm`node, vm`owner, vm.pmm`usedFrames, vm.pmm`bits, vm.pmm`complaints, vm.pmm.bitmap
    ensures vm.Valid() && Parts(vm.W()) && vm.pmm.complaints == old(vm.pmm.complaints)
    ensures ok ==> Remapped(v, vm.W(), s, va / PAGE_SIZE, (va + size) / PAGE_SIZE, flags)
    ensures !ok ==> FreedFlat(v, vm.W(), s, va / PAGE_SIZE, (va + size) / PAGE_SIZE)
    ensures ok <==>
      Enough(old(vm.node).Keys, s, va / PAGE_SIZE, (va + size) / PAGE_SIZE, old(vm.pmm.usedFrames), vm.pmm.totalFrames)
    ensures Confined(old(vm.W()), vm.W(), s, va / PAGE_SIZE, (va + size) / PAGE_SIZE)
  {
    hide Enough, Needed, Returned, Confined;
    hide Inv, Owned, Placed, Shape, SameFlat, FrameAllocator.Valid, Backed, FreedFlat, FreedFrames, Freed, Keeps;
    hide KeepsBut, Remapped;
    ghost var u := vm.W();
    ghost var stop, lost;
    ok, stop, lost := vm.AllocRange(s, va, va + size, flags);
    ghost var x := vm.W();
    InvParts(x, vm.boot);
    if ok {
      KeepsAll(u, x, s);
      ConfinedAlloc(u, x, s, va / PAGE_SIZE, (va + size) / PAGE_SIZE, {});
      RemappedOk(v, u, x, vm.boot, s, va / PAGE_SIZE, stop, flags);
    } else {
      vm.FreeRange(s, va, va + size);
      InvParts(vm.W(), vm.boot);
      ConfinedAlloc(u, x, s, va / PAGE_SIZE, (va + size) / PAGE_SIZE, lost);
      ConfinedFree(x, vm.W(), s, va / PAGE_SIZE, (va + size) / PAGE_SIZE);
      ConfinedTrans(u, x, vm.W(), s, va / PAGE_SIZE, (va + size) / PAGE_SIZE);
      FreedParts(x, vm.W(), s, va / PAGE_SIZE, (va + size) / PAGE_SIZE);
      FreedTwice(v, u, x, vm.W(), vm.boot, s, va / PAGE_SIZE, stop, (va + size) / PAGE_SIZE, flags);
    }
  }

  /** The MAP_FIXED branch of sys_mmap: make the range free, unless it must not
      replace anything. */
  method ClearFixed(vm: AddressSpaces, s: nat, va: nat, size: nat, noreplace: bool) returns (r: int)
    requires vm.Valid() && s in vm.spaces && size % PAGE_SIZE == 0
    modifies vm`mem, vm`node, vm`owner, vm.pmm`usedFrames, vm.pmm`bits, vm.pmm`complaints, vm.pmm.bitmap
    ensures vm.Valid() && Parts(old(vm.W())) && Parts(vm.W()) && vm.pmm.complaints == old(vm.pmm.complaints)
    ensures r == if !UserRange(va, size) || va < MMAP_MIN then -EINVAL
      else if noreplace && !GapAt(old(vm.W()), s, va, size) then -EEXIST else 0
    ensures r != 0 ==> vm.W() == old(vm.W())
    ensures r == 0 ==> vm.spaces == old(vm.spaces)
    ensures r == 0 ==> Returned(old(vm.node).Keys, vm.node.Keys, s, va / PAGE_SIZE, (va + size) / PAGE_SIZE,
      old(vm.pmm.usedFrames), vm.pmm.usedFrames)
    ensures r == 0 ==> FreedFlat(old(vm.W()), vm.W(), s, va / PAGE_SIZE, (va + size) / PAGE_SIZE)
    ensures Confined(old(vm.W()), vm.W(), s, va / PAGE_SIZE, (va + size) / PAGE_SIZE)
  {
    hide Inv, Owned, Placed, Shape, SameFlat, FrameAllocator.Valid, FreedFlat, FreedFrames, Freed, Returned, Confined;
    ghost var v := vm.W();
    ConfinedFields(v, s, va / PAGE_SIZE, (va + size) / PAGE_SIZE, v.spaces);
    InvParts(v, vm.boot);
    NoStep(v, vm.boot, s);
    ReturnedNone(vm.node.Keys, s, va / PAGE_SIZE, (va + size) / PAGE_SIZE, vm.pmm.usedFrames);
    if !UserRange(va, size) || va < MMAP_MIN { return -EINVAL; }
    assert (va + size + PAGE_SIZE - 1) / PAGE_SIZE == (va + size) / PAGE_SIZE;
    var free := vm.RangeIsFree(s, va, va + size);
    MappedIs(v, s);
    if !free {
      if noreplace { return -EEXIST; }
      vm.FreeRange(s, va, va + size);
      InvParts(vm.W(), vm.boot);
      ConfinedFree(v, vm.W(), s, va / PAGE_SIZE, (va + size) / PAGE_SIZE);
      FreedParts(v, vm.W(), s, va / PAGE_SIZE, (va + size) / PAGE_SIZE);
    } else {
      FreedFree(v, v, s, va / PAGE_SIZE, (va + size) / PAGE_SIZE);
    }
    return 0;
  }

  /** sys_mmap (anonymous): the pages of the returned range are new zeroed pages
      and nothing else is touched; without MAP_FIXED it is the highest free range. */
  method Mmap(vm: AddressSpaces, s: nat, addr: nat, len: int, prot: bv64, fixed: bool, noreplace: bool,
              anonymous: bool, off: nat) returns (r: int)
    requires vm.Valid() && s in vm.spaces && FieldsOk(vm.spaces[s]) && len < 0x8000_0000_0000_0000
    modifies vm`mem, vm`spaces, vm`node, vm`owner
    modifies vm.pmm`usedFrames, vm.pmm`bits, vm.pmm`complaints, vm.pmm.bitmap
    ensures vm.Valid() && Parts(old(vm.W())) && Parts(vm.W()) && vm.pmm.complaints == old(vm.pmm.complaints)
    ensures s in vm.spaces && FieldsOk(vm.spaces[s])
    ensures vm.spaces == old(vm.spaces)[s := old(vm.spaces[s]).(mmapHint := vm.spaces[s].mmapHint)]
    ensures len <= 0 || off % PAGE_SIZE != 0 ==> r == -EINVAL && vm.W() == old(vm.W())
    ensures len > 0 && off % PAGE_SIZE == 0 && !anonymous ==> r == -EBADF && vm.W() == old(vm.W())
    ensures len > 0 && off % PAGE_SIZE == 0 && anonymous ==>
      if fixed || noreplace
      then MmapFixed(old(vm.W()), vm.W(), s, addr, AlignUp(len), ProtFlags(prot), noreplace, r)
      else MmapAny(old(vm.W()), vm.W(), s, AlignUp(len), ProtFlags(prot), r)
    ensures len > 0 && off % PAGE_SIZE == 0 && anonymous ==>
      if fixed || noreplace
      then r == addr ==> Affords(old(vm.W()), s, addr, AlignUp(len), old(vm.pmm.usedFrames), vm.pmm.totalFrames)
      else r >= 0 ==> Affords(old(vm.W()), s, r, AlignUp(len), old(vm.pmm.usedFrames), vm.pmm.totalFrames)
    ensures r >= 0 ==> Protected(vm.W(), s, r / PAGE_SIZE, (r + AlignUp(len)) / PAGE_SIZE, prot)
    ensures r >= 0 ==> len > 0 && r % PAGE_SIZE == 0 && r + AlignUp(len) <= USER_END
    ensures r == -EINVAL <==>
      || len <= 0 || off % PAGE_SIZE != 0
      || (anonymous && (fixed || noreplace)
          && (addr % PAGE_SIZE != 0 || addr < MMAP_MIN || addr + AlignUp(len) > USER_END))
    ensures r == -ENOMEM ==>
      if fixed || noreplace then !Affords(old(vm.W()), s, addr, AlignUp(len), old(vm.pmm.usedFrames),
        vm.pmm.totalFrames)
      else Crowded(old(vm.W()), s, AlignUp(len), old(vm.pmm.usedFrames), vm.pmm.totalFrames)
    ensures Confined(old(vm.W()), vm.W(), s, addr / PAGE_SIZE,
      if len > 0 && (fixed || noreplace) then (addr + AlignUp(len)) / PAGE_SIZE else 0)
  {
    hide Affords, Confined, Crowded, MmapFixed, MmapAny, ProtFlags, Protected, Remapped;
    hide Inv, Owned, Placed, Shape, FrameAllocator.Valid;
    ghost var v := vm.W();
    InvParts(v, vm.boot);
    ghost var hi := if len > 0 && (fixed || noreplace) then (addr + AlignUp(len)) / PAGE_SIZE else 0;
    ConfinedFields(v, s, addr / PAGE_SIZE, hi, v.spaces);
    if len <= 0 || off % PAGE_SIZE != 0 { return -EINVAL; }
    if !anonymous { return -EBADF; }
    var size := AlignUp(len);
    if fixed || noreplace {
      r := PlaceFixed(vm, s, addr, size, ProtFlags(prot), noreplace);
      FixedRange(v, vm.W(), s, addr, size, ProtFlags(prot), noreplace, r);
    } else {
      r := PlaceAnywhere(vm, s, size, ProtFlags(prot), addr / PAGE_SIZE);
      AnyRange(v, vm.W(), s, size, ProtFlags(prot), r);
    }
    if r >= 0 { ProtectedOk(v, vm.W(), s, r / PAGE_SIZE, (r + size) / PAGE_SIZE, prot); }
  }

  method PlaceFixed(vm: AddressSpaces, s: nat, addr: nat, size: nat, flags: bv12, noreplace: bool) returns (r: int)
    requires vm.Valid() && s in vm.spaces && size % PAGE_SIZE == 0 && Present(flags)
    modifies vm`mem, vm`node, vm`owner, vm.pmm`usedFrames, vm.pmm`bits, vm.pmm`complaints, vm.pmm.bitmap
    ensures vm.Valid() && Parts(old(vm.W())) && Parts(vm.W()) && vm.pmm.complaints == old(vm.pmm.complaints)
    ensures MmapFixed(old(vm.W()), vm.W(), s, addr, size, flags, noreplace, r)
    ensures r == addr ==> Affords(old(vm.W()), s, addr, size, old(vm.pmm.usedFrames), vm.pmm.totalFrames)
    ensures r == -ENOMEM ==> !Affords(old(vm.W()), s, addr, size, old(vm.pmm.usedFrames), vm.pmm.totalFrames)
    ensures Confined(old(vm.W()), vm.W(), s, addr / PAGE_SIZE, (addr + size) / PAGE_SIZE)
  {
    hide Affords, Returned, Confined, Enough;
    hide Inv, Owned, Placed, Shape, SameFlat, FrameAllocator.Valid, FreedFlat, FreedFrames, Freed, Mapped, Remapped;
    hide GapAt;
    ghost var v := vm.W();
    InvParts(v, vm.boot);
    r := ClearFixed(vm, s, addr, size, noreplace);
    if r < 0 { return; }
    ghost var u := vm.W();
    SameAffords(v, u, s, addr, size, old(vm.pmm.usedFrames), vm.pmm.usedFrames, vm.pmm.totalFrames);
    var ok := FillRange(vm, s, addr, size, flags, v);
    ConfinedTrans(v, u, vm.W(), s, addr / PAGE_SIZE, (addr + size) / PAGE_SIZE);
    r := if ok then addr else -ENOMEM;
  }

  ghost predicate MmapFixed(v: World, w: World, s: nat, va: nat, size: nat, flags: bv12, noreplace: bool, r: int)
    requires Parts(v) && Parts(w)
  {
    if !UserRange(va, size) || va < MMAP_MIN then r == -EINVAL && w == v
    else if noreplace && !GapAt(v, s, va, size) then r == -EEXIST && w == v
    else if r == va then w.spaces == v.spaces && Remapped(v, w, s, va / PAGE_SIZE, (va + size) / PAGE_SIZE, flags)
    else r == -ENOMEM && w.spaces == v.spaces && FreedFlat(v, w, s, va / PAGE_SIZE, (va + size) / PAGE_SIZE)
  }

  lemma FixedRange(v: World, w: World, s: nat, va: nat, size: nat, flags: bv12, noreplace: bool, r: int)
    requires Parts(v) && Parts(w) && MmapFixed(v, w, s, va, size, flags, noreplace, r) && size > 0
    ensures r == -EINVAL <==> va % PAGE_SIZE != 0 || va < MMAP_MIN || va + size > USER_END
    ensures r >= 0 ==>
      r == va && r % PAGE_SIZE == 0 && r + size <= USER_END
      && Remapped(v, w, s, r / PAGE_SIZE, (r + size) / PAGE_SIZE, flags)
  {
    hide Remapped, FreedFlat, GapAt, Owned, Placed;
  }

  lemma AnyRange(v: World, w: World, s: nat, size: nat, flags: bv12, r: int)
    requires Parts(v) && Parts(w) && s in v.spaces && s in w.spaces && MmapAny(v, w, s, size, flags, r)
    requires FieldsOk(v.spaces[s])
    ensures r != -EINVAL
    ensures r >= 0 ==>
      r % PAGE_SIZE == 0 && r + size <= USER_END && Remapped(v, w, s, r / PAGE_SIZE, (r + size) / PAGE_SIZE, flags)
  {
    hide Remapped, GapAt, Owned, Placed, SameFlat;
  }

  ghost predicate MmapAny(v: World, w: World, s: nat, size: nat, flags: bv12, r: int)
    requires Parts(v) && Parts(w) && s in v.spaces && s in w.spaces
  {
    var lo, hi := v.spaces[s].brkStart, v.spaces[s].mmapHint;
    if r >= 0 then
      && w.spaces[s].mmapHint == r
      && Candidate(v, s, lo, hi, size, r)
      && (forall a: nat :: Candidate(v, s, lo, hi, size, a) ==> a <= r)
      && Remapped(v, w, s, r / PAGE_SIZE, (r + size) / PAGE_SIZE, flags)
    else
      && r == -ENOMEM && SameFlat(v, w)
      && (if exists a: nat :: Candidate(v, s, lo, hi, size, a) then Highest(v, s, size, w.spaces[s].mmapHint)
          else w.spaces[s].mmapHint == hi)
  }

  /** No range of the size is free below the hint, but perhaps one at 0. */
  ghost predicate NoCandidate(v: World, s: nat, size: nat)
    requires Parts(v) && s in v.spaces
  {
    forall a: nat :: Candidate(v, s, v.spaces[s].brkStart, v.spaces[s].mmapHint, size, a) ==> a == 0
  }

  /** There is a frame for every page of the range that is not mapped and for every
      table they lack. */
  ghost predicate Affords(w: World, s: nat, va: nat, size: nat, used: nat, total: nat) {
    Enough(w.node.Keys, s, va / PAGE_SIZE, (va + size) / PAGE_SIZE, used, total)
  }

  /** No range is free, or the highest one that is cannot be paid. */
  ghost predicate Crowded(w: World, s: nat, size: nat, used: nat, total: nat)
    requires Parts(w) && s in w.spaces
  {
    NoCandidate(w, s, size) || exists a: nat :: Highest(w, s, size, a) && !Affords(w, s, a, size, used, total)
  }

  ghost predicate Highest(w: World, s: nat, size: nat, a: nat)
    requires Parts(w) && s in w.spaces
  {
    var lo, hi := w.spaces[s].brkStart, w.spaces[s].mmapHint;
    Candidate(w, s, lo, hi, size, a) && forall b: nat :: Candidate(w, s, lo, hi, size, b) ==> b <= a
  }

  lemma SameAffords(v: World, w: World, s: nat, va: nat, size: nat, used: nat, now: nat, total: nat)
    requires Returned(v.node.Keys, w.node.Keys, s, va / PAGE_SIZE, (va + size) / PAGE_SIZE, used, now)
    ensures Affords(v, s, va, size, used, total) <==>
      Enough(w.node.Keys, s, va / PAGE_SIZE, (va + size) / PAGE_SIZE, now, total)
  {
    hide Enough, Returned;
    ReturnedEnough(v.node.Keys, w.node.Keys, s, va / PAGE_SIZE, (va + size) / PAGE_SIZE, used, now, total);
  }

  method PlaceAnywhere(vm: AddressSpaces, s: nat, size: nat, flags: bv12, ghost lo: nat) returns (r: int)
    requires vm.Valid() && s in vm.spaces && FieldsOk(vm.spaces[s]) && size % PAGE_SIZE == 0 && size > 0
    requires Present(flags)
    modifies vm`mem, vm`spaces, vm`node, vm`owner
    modifies vm.pmm`usedFrames, vm.pmm`bits, vm.pmm`complaints, vm.pmm.bitmap
    ensures vm.Valid() && Parts(old(vm.W())) && Parts(vm.W()) && vm.pmm.complaints == old(vm.pmm.complaints)
    ensures s in vm.spaces && FieldsOk(vm.spaces[s])
    ensures vm.spaces == old(vm.spaces)[s := old(vm.spaces[s]).(mmapHint := vm.spaces[s].mmapHint)]
    ensures MmapAny(old(vm.W()), vm.W(), s, size, flags, r)
    ensures r >= 0 ==> Affords(old(vm.W()), s, r, size, old(vm.pmm.usedFrames), vm.pmm.totalFrames)
    ensures r < 0 ==> Crowded(old(vm.W()), s, size, old(vm.pmm.usedFrames), vm.pmm.totalFrames)
    ensures Confined(old(vm.W()), vm.W(), s, lo, 0)
  {
    hide Enough, Needed, Confined;
    hide Inv, Owned, Placed, Shape, SameFlat, FrameAllocator.Valid, FreedFlat, FreedFrames, Freed, Mapped, Remapped;
    ghost var v := vm.W();
    InvParts(v, vm.boot);
    NoStep(v, vm.boot, s);
    var va := FindFree(vm, s, size);
    ghost var u := vm.W();
    ConfinedFields(v, s, lo, 0, u.spaces);
    if va == 0 { return -ENOMEM; }
    FreedFree(v, vm.W(), s, va / PAGE_SIZE, (va + size) / PAGE_SIZE);
    var ok := FillRange(vm, s, va, size, flags, v);
    FoundConfined(v, u, vm.W(), vm.boot, s, va, size, lo);
    if !ok {
      FreedWasFree(v, vm.W(), s, va / PAGE_SIZE, (va + size) / PAGE_SIZE);
      assert Highest(v, s, size, va) && !Affords(v, s, va, size, old(vm.pmm.usedFrames), vm.pmm.totalFrames);
      return -ENOMEM;
    }
    return va;
  }

  lemma FoundConfined(v: World, u: World, w: World, boot: Frame, s: nat, va: nat, size: nat, lo: nat)
    requires Inv(v, boot) && Parts(v) && u == v.(spaces := u.spaces) && GapAt(v, s, va, size)
    requires Confined(u, w, s, va / PAGE_SIZE, (va + size) / PAGE_SIZE)
    ensures Confined(v, w, s, lo, 0)
  {
    hide Inv, Owned, Placed, Confined, Flat;
    MappedIs(v, s);
    ConfinedFields(v, s, va / PAGE_SIZE, (va + size) / PAGE_SIZE, u.spaces);
    ConfinedTrans(v, u, w, s, va / PAGE_SIZE, (va + size) / PAGE_SIZE);
    ConfinedEmpty(v, w, boot, s, va / PAGE_SIZE, (va + size) / PAGE_SIZE, lo, 0);
  }

  lemma MappedIs(w: World, s: nat)
    requires Parts(w)
    ensures forall q: nat :: Mapped(w, s, q) == Present(Flat(w, s, q).lo)
  {
  }

  lemma FreedWasFree(v: World, w: World, s: nat, lo: nat, hi: nat)
    requires Parts(v) && Parts(w) && FreedFlat(v, w, s, lo, hi) && forall q: nat :: lo <= q < hi ==> !Mapped(v, s, q)
    ensures SameFlat(v, w)
  {
    hide Owned, Placed, Flat;
    forall t, q: nat ensures Flat(w, t, q) == Flat(v, t, q) {
      assert t == s && lo <= q < hi ==> !Mapped(v, s, q);
    }
  }

  /** sys_munmap */
  method Munmap(vm: AddressSpaces, s: nat, addr: nat, len: int) returns (r: int)
    requires vm.Valid() && s in vm.spaces && FieldsOk(vm.spaces[s]) && len < 0x8000_0000_0000_0000
    modifies vm`mem, vm`spaces, vm`node, vm`owner
    modifies vm.pmm`usedFrames, vm.pmm`bits, vm.pmm`complaints, vm.pmm.bitmap
    ensures vm.Valid() && Parts(old(vm.W())) && Parts(vm.W()) && vm.pmm.complaints == old(vm.pmm.complaints)
    ensures r == if len > 0 && addr % PAGE_SIZE == 0 && addr + AlignUp(len) <= USER_END then 0 else -EINVAL
    ensures r != 0 ==> vm.W() == old(vm.W())
    ensures r == 0 ==> FreedFlat(old(vm.W()), vm.W(), s, addr / PAGE_SIZE, (addr + AlignUp(len)) / PAGE_SIZE)
    ensures r == 0 ==> var end, hint := addr + AlignUp(len), old(vm.spaces[s].mmapHint);
      vm.spaces == old(vm.spaces)[s := old(vm.spaces[s]).(mmapHint :=
        if end > hint && addr < MMAP_TOP then (if end < MMAP_TOP then end else MMAP_TOP) else hint)]
    ensures Confined(old(vm.W()), vm.W(), s, addr / PAGE_SIZE, if len > 0 then (addr + AlignUp(len)) / PAGE_SIZE else 0)
  {
    hide Inv, Owned, Placed, Shape, SameFlat, FrameAllocator.Valid, FreedFlat, FreedFrames, Freed, Confined;
    ghost var v := vm.W();
    ghost var lo, hi := addr / PAGE_SIZE, if len > 0 then (addr + AlignUp(len)) / PAGE_SIZE else 0;
    ConfinedFields(v, s, lo, hi, v.spaces);
    InvParts(v, vm.boot);
    if len <= 0 { return -EINVAL; }
    var size := AlignUp(len);
    if !UserRange(addr, size) { return -EINVAL; }
    var end := addr + size;
    vm.FreeRange(s, addr, end);
    ghost var u := vm.W();
    InvParts(u, vm.boot);
    FreedParts(v, u, s, addr / PAGE_SIZE, end / PAGE_SIZE);
    ConfinedFree(v, u, s, lo, hi);
    var sp := vm.spaces[s];
    if end > sp.mmapHint && addr < MMAP_TOP {
      SetFields(vm, s, sp.(mmapHint := if end < MMAP_TOP then end else MMAP_TOP));
      FreedFields(v, u, vm.W(), s, addr / PAGE_SIZE, end / PAGE_SIZE);
      ConfinedFields(u, s, lo, hi, vm.spaces);
      ConfinedTrans(v, u, vm.W(), s, lo, hi);
    }
    return 0;
  }

  // ---- Runs ----

  ghost function Taken(w: World, f: nat, n: nat): World
    requires f + n <= |w.bits|
  {
    w.(bits := Fill(w.bits, f, n, true), owner := map g: nat | g < |w.bits| && (f <= g < f + n || g in w.owner) ::
         if f <= g < f + n then Heap else w.owner[g])
  }

  lemma TakenOk(w: World, boot: Frame, f: nat, n: nat)
    requires Inv(w, boot) && RunFree(w.bits, f, n)
    ensures Inv(Taken(w, f, n), boot)
  {
    var v := Taken(w, f, n);
    InvParts(w, boot);
    TakenPlaced(w, f, n);
    SameTreesOk(w, v, boot);
  }

  lemma TakenPlaced(w: World, f: nat, n: nat)
    requires Owned(w) && Placed(w) && RunFree(w.bits, f, n)
    ensures Owned(Taken(w, f, n)) && Placed(Taken(w, f, n)) && SameTrees(w, Taken(w, f, n))
    ensures forall g :: g in w.owner ==> g in Taken(w, f, n).owner && Taken(w, f, n).owner[g] == w.owner[g]
  {
  }

  /** The kernel heap takes a run of frames for itself. */
  method GrowHeap(vm: AddressSpaces, n: nat) returns (page: nat)
    requires vm.Valid()
    modifies vm`owner, vm.pmm`usedFrames, vm.pmm`bits, vm.pmm.bitmap
    ensures vm.Valid()
    ensures page == INVALID ==> vm.W() == old(vm.W())
    ensures page != INVALID ==> RunFree(old(vm.pmm.bits), page / PAGE_SIZE, n)
    ensures page != INVALID ==> vm.W() == Taken(old(vm.W()), page / PAGE_SIZE, n)
  {
    hide Inv, FrameAllocator.Valid, Taken, Owned, Placed, Shape;
    ghost var w := vm.W();
    ZeroUsed(w, vm.boot);
    page := vm.pmm.AllocPages(n);
    if page == INVALID { return; }
    TakenOk(w, vm.boot, page / PAGE_SIZE, n);
    TakenIs(w, page / PAGE_SIZE, n);
    vm.owner := Taken(w, page / PAGE_SIZE, n).owner;
  }

  lemma TakenIs(w: World, f: nat, n: nat)
    requires f + n <= |w.bits|
    ensures Taken(w, f, n) == World(w.mem, Fill(w.bits, f, n, true), w.node, Taken(w, f, n).owner, w.spaces)
  {
  }

  datatype Op =
    | OpCreate(room: bool)
    | OpDestroy(s: nat)
    | OpClone(s: nat, room: bool)
    | OpBrk(s: nat, want: nat)
    | OpMmap(s: nat, addr: nat, len: int, prot: bv64, fixed: bool, noreplace: bool, off: nat)
    | OpMunmap(s: nat, addr: nat, len: int)
    | OpAlloc(s: nat, start: nat, end: nat, flags: bv12)
    | OpFree(s: nat, start: nat, end: nat)
    | OpHeap(pages: nat)

  ghost predicate AllFields(spaces: map<nat, Space>) {
    forall s :: s in spaces ==> FieldsOk(spaces[s])
  }

  lemma FieldsBeside(v: World, w: World, dst: nat, src: nat)
    requires Beside(v, w, dst) && AllFields(v.spaces) && src in v.spaces
    requires dst in w.spaces && w.spaces[dst] == v.spaces[src].(pml4 := w.spaces[dst].pml4)
    ensures AllFields(w.spaces)
  {
  }

  lemma FieldsBorn(v: World, w: World, s: nat, f: nat)
    requires Born(v, w, s, f) && AllFields(v.spaces) && w.spaces[s] == Space(f, 0, 0, MMAP_TOP)
    ensures AllFields(w.spaces)
  {
  }

  /** The kernel's own frames, its image, tables, modules and heap, keep their role and
      are not written to. */
  ghost predicate Sheltered(v: World, w: World) {
    |w.mem| == |v.mem| && forall f :: f in v.owner && f < |v.mem| && (v.owner[f].Boot? || v.owner[f].Heap?) ==>
      f in w.owner && w.owner[f] == v.owner[f] && w.mem[f] == v.mem[f]
  }

  lemma ShelteredSelf(v: World)
    ensures Sheltered(v, v)
  {
  }

  lemma ShelteredTrans(v: World, u: World, w: World)
    requires Sheltered(v, u) && Sheltered(u, w)
    ensures Sheltered(v, w)
  {
  }

  lemma ConfinedShelters(v: World, w: World, s: nat, lo: nat, hi: nat)
    requires Confined(v, w, s, lo, hi)
    ensures Sheltered(v, w)
  {
  }

  lemma BornShelters(v: World, w: World, s: nat, f: nat)
    requires Born(v, w, s, f)
    ensures Sheltered(v, w)
  {
  }

  lemma CloneShelters(v: World, w: World, dst: nat)
    requires Beside(v, w, dst) || Undone(v, w)
    ensures Sheltered(v, w)
  {
  }

  lemma DropShelters(v: World, s: nat)
    requires Owned(v)
    ensures Sheltered(v, Dropped(v, s))
  {
  }

  lemma TakenShelters(v: World, f: nat, n: nat)
    requires Owned(v) && RunFree(v.bits, f, n)
    ensures Sheltered(v, Taken(v, f, n))
  {
  }

  /** One operation; calls that no process could make do nothing. */
  method Perform(vm: AddressSpaces, op: Op)
    requires vm.Valid() && AllFields(vm.spaces)
    modifies vm`mem, vm`spaces, vm`nextSpace, vm`node, vm`owner
    modifies vm.pmm`usedFrames, vm.pmm`bits, vm.pmm`complaints, vm.pmm.bitmap
    ensures vm.Valid() && AllFields(vm.spaces) && vm.pmm.complaints == old(vm.pmm.complaints)
    ensures Sheltered(old(vm.W()), vm.W())
  {
    hide Inv, Owned, Placed, Shape, SameFlat, FrameAllocator.Valid, Born, Beside, Copied, Dropped, Undone, Freed;
    hide FreedFlat;
    hide Backed, Keeps, KeepsBut, MmapFixed, MmapAny, Taken, FreedFrames, Sheltered, Confined;
    hide Enough, Needed, CloneCost, Returned, RunFree, CanBreak, Affords, Crowded;
    ghost var v := vm.W();
    InvParts(v, vm.boot);
    ShelteredSelf(v);
    match op {
      case OpCreate(room) =>
        var ok, s := Create(vm, room);
        if ok {
          FieldsBorn(v, vm.W(), s, vm.spaces[s].pml4);
          BornShelters(v, vm.W(), s, vm.spaces[s].pml4);
        }
      case OpDestroy(s) =>
        if s in vm.spaces {
          DroppedIs(v, s);
          Destroy(vm, s);
          DropShelters(v, s);
        }
      case OpClone(s, room) =>
        if s in vm.spaces {
          var ok, dst := Clone(vm, s, room);
          CloneShelters(v, vm.W(), dst);
          if ok {
            BesideSpaces(v, vm.W(), dst);
            FieldsBeside(v, vm.W(), dst, s);
          } else {
            UndoneSpaces(v, vm.W());
          }
        }
      case OpHeap(pages) =>
        var page := GrowHeap(vm, pages);
        if page != INVALID { TakenShelters(v, page / PAGE_SIZE, pages); }
      case _ => PerformInside(vm, op);
    }
  }

  /** An operation on the pages of one space. */
  method PerformInside(vm: AddressSpaces, op: Op)
    requires vm.Valid() && AllFields(vm.spaces)
    requires op.OpBrk? || op.OpMmap? || op.OpMunmap? || op.OpAlloc? || op.OpFree?
    modifies vm`mem, vm`spaces, vm`node, vm`owner
    modifies vm.pmm`usedFrames, vm.pmm`bits, vm.pmm`complaints, vm.pmm.bitmap
    ensures vm.Valid() && AllFields(vm.spaces) && vm.pmm.complaints == old(vm.pmm.complaints)
    ensures Sheltered(old(vm.W()), vm.W())
  {
    hide Inv, Owned, Placed, Shape, SameFlat, FrameAllocator.Valid, Freed, FreedFlat;
    hide Backed, Keeps, KeepsBut, MmapFixed, MmapAny, FreedFrames, Sheltered, Confined;
    hide Enough, Needed, Returned, CanBreak, Affords, Crowded;
    ghost var v := vm.W();
    InvParts(v, vm.boot);
    ShelteredSelf(v);
    match op {
      case OpBrk(s, want) =>
        if s in vm.spaces {
          var r;
          ghost var ok;
          r, ok := Brk(vm, s, want);
          ConfinedShelters(v, vm.W(), s, AlignUp(want) / PAGE_SIZE, AlignUp(v.spaces[s].brk) / PAGE_SIZE);
        }
      case OpMmap(s, addr, len, prot, fixed, noreplace, off) =>
        if s in vm.spaces && len < 0x8000_0000_0000_0000 {
          var r := Mmap(vm, s, addr, len, prot, fixed, noreplace, true, off);
          ghost var hi := if len > 0 && (fixed || noreplace) then (addr + AlignUp(len)) / PAGE_SIZE else 0;
          ConfinedShelters(v, vm.W(), s, addr / PAGE_SIZE, hi);
        }
      case OpMunmap(s, addr, len) =>
        if s in vm.spaces && len < 0x8000_0000_0000_0000 {
          var r := Munmap(vm, s, addr, len);
          ConfinedShelters(v, vm.W(), s, addr / PAGE_SIZE, if len > 0 then (addr + AlignUp(len)) / PAGE_SIZE else 0);
        }
      case OpAlloc(s, start, end, flags) =>
        if s in vm.spaces && end <= USER_END && Present(flags) {
          var ok;
          ghost var stop, lost;
          ok, stop, lost := vm.AllocRange(s, start, end, flags);
          if ok { KeepsAll(v, vm.W(), s); }
          ConfinedAlloc(v, vm.W(), s, 0, 0, lost);
          ConfinedShelters(v, vm.W(), s, 0, 0);
        }
      case OpFree(s, start, end) =>
        if s in vm.spaces && end <= USER_END {
          vm.FreeRange(s, start, end);
          InvParts(vm.W(), vm.boot);
          FreedParts(v, vm.W(), s, start / PAGE_SIZE, (end + PAGE_SIZE - 1) / PAGE_SIZE);
          ConfinedFree(v, vm.W(), s, start / PAGE_SIZE, (end + PAGE_SIZE - 1) / PAGE_SIZE);
          ConfinedShelters(v, vm.W(), s, start / PAGE_SIZE, (end + PAGE_SIZE - 1) / PAGE_SIZE);
        }
    }
  }

  lemma UndoneSpaces(v: World, w: World)
    requires Undone(v, w)
    ensures w.spaces == v.spaces
  {
  }

  /** Every run of memory operations keeps the trees, the bitmap and the roles of
      the frames in agreement, never logs a bad or double free, and never hands out
      or writes to a frame of the kernel. */
  method Run(vm: AddressSpaces, ops: seq<Op>)
    requires vm.Valid() && AllFields(vm.spaces)
    modifies vm`mem, vm`spaces, vm`nextSpace, vm`node, vm`owner
    modifies vm.pmm`usedFrames, vm.pmm`bits, vm.pmm`complaints, vm.pmm.bitmap
    ensures vm.Valid() && AllFields(vm.spaces) && vm.pmm.complaints == old(vm.pmm.complaints)
    ensures Sheltered(old(vm.W()), vm.W())
  {
    hide *;
    ghost var v := vm.W();
    ShelteredSelf(v);
    for i := 0 to |ops|
      invariant vm.Valid() && AllFields(vm.spaces) && vm.pmm.complaints == old(vm.pmm.complaints)
      invariant Sheltered(v, vm.W())
    {
      ghost var u := vm.W();
      Perform(vm, ops[i]);
      ShelteredTrans(v, u, vm.W());
    }
  }

  /** From boot on: a frame that boot left in use, as it is part of the kernel, of a
      module, of low memory or of the bitmap, is never handed out or written to. */
  method RunFromBoot(pmm: FrameAllocator, boot: Frame, mem: seq<Frame>, ops: seq<Op>) returns (vm: AddressSpaces)
    requires pmm.Valid() && 0 < pmm.totalFrames <= MAX_FRAMES && pmm.bits[0]
    requires |mem| == pmm.totalFrames && forall f :: 0 <= f < |mem| ==> |mem[f]| == 512
    requires |boot| == 512 && forall i :: 0 <= i < 512 ==> boot[i].hi < |mem| && pmm.bits[boot[i].hi]
    modifies pmm`usedFrames, pmm`bits, pmm`complaints, pmm.bitmap
    ensures vm.Valid() && vm.pmm == pmm && pmm.complaints == old(pmm.complaints)
    ensures |pmm.bits| == |old(pmm.bits)| == |vm.mem| == |mem|
    ensures forall f :: 0 <= f < |mem| && old(pmm.bits)[f] ==>
      pmm.bits[f] && f in vm.owner && vm.owner[f].Boot? && vm.mem[f] == mem[f]
  {
    hide Inv, FrameAllocator.Valid, Sheltered;
    vm := new AddressSpaces(pmm, boot, mem);
    ghost var v := vm.W();
    InvParts(v, vm.boot);
    Run(vm, ops);
    InvParts(vm.W(), vm.boot);
    ShelteredBoot(v, vm.W());
  }

  lemma ShelteredBoot(v: World, w: World)
    requires Parts(v) && Parts(w) && Sheltered(v, w)
    ensures |w.bits| == |w.mem| == |v.mem| == |v.bits|
    ensures forall f :: f in v.owner && v.owner[f].Boot? ==>
      f < |w.bits| && w.bits[f] && f in w.owner && w.owner[f].Boot? && w.mem[f] == v.mem[f]
  {
  }
}
