/** Four-level page tables held in physical frames. Tables and user data share
    one store, so every step must say which frame it touches and what that
    frame is for. `World` is that store together with a ghost role for every
    used frame; the lemmas are the atomic steps from which vmm.c is built. */
module PageTables {

  /** A 64-bit word, cut at bit 12: as a table entry, `hi` is the frame number
      and `lo` the flag bits. */
  datatype Word = Word(hi: nat, lo: bv12)

  type Frame = seq<Word>

  const ZERO: Word := Word(0, 0)
  const PRESENT: bv12 := 1
  const WRITE: bv12 := 2
  const USER: bv12 := 4
  const HUGE: bv12 := 128
  /** User pages: the lower half of the 48-bit space. */
  const USER_PAGES: nat := 0x8_0000_0000
  /** Frames below the end of the direct map (1 GiB). */
  const MAX_FRAMES: nat := 0x4_0000

  predicate Present(flags: bv12) { flags & PRESENT != 0 }
  predicate Writable(flags: bv12) { flags & WRITE != 0 }
  predicate User(flags: bv12) { flags & USER != 0 }
  predicate Huge(flags: bv12) { flags & HUGE != 0 }

  /** A place in a tree: level 4 is the root, levels 3 to 1 the lower tables,
      level 0 the data page itself; `prefix` is the page number's high part. */
  datatype Loc = Loc(space: nat, level: nat, prefix: nat)

  function Child(l: Loc, i: nat): Loc
    requires l.level > 0
  {
    Loc(l.space, l.level - 1, l.prefix * 512 + i)
  }

  function Parent(l: Loc): Loc { Loc(l.space, l.level + 1, l.prefix / 512) }

  /** The high part of page `p` that names its table at `level`. */
  function Prefix(p: nat, level: nat): nat {
    if level == 0 then p else Prefix(p, level - 1) / 512
  }

  function PathLoc(s: nat, p: nat, level: nat): Loc { Loc(s, level, Prefix(p, level)) }

  predicate LocOk(l: Loc) {
    l.level <= 4 && (l.level == 4 ==> l.prefix == 0) && (l.level == 3 ==> l.prefix < 256)
  }

  /** Entries of a level that belong to the user half. */
  function Width(level: nat): nat { if level == 4 then 256 else 512 }

  /** What a used frame is for: a place in one tree, the kernel image and its
      boot tables, the kernel heap, or allocated but placed nowhere. */
  datatype Role = Node(loc: Loc) | Boot | Heap | Held

  datatype Space = Space(pml4: nat, brkStart: nat, brk: nat, mmapHint: nat)

  datatype World = World(mem: seq<Frame>, bits: seq<bool>, node: map<Loc, nat>, owner: map<nat, Role>,
                         spaces: map<nat, Space>)

  // ---- The invariant ----

  ghost predicate Owned(w: World) {
    && |w.bits| == |w.mem| <= MAX_FRAMES
    && (forall f :: 0 <= f < |w.mem| ==> |w.mem[f]| == 512)
    && (forall f :: 0 <= f < |w.bits| ==> (w.bits[f] <==> f in w.owner))
    && (forall f :: f in w.owner ==> f < |w.bits|)
  }

  /** Places and frames correspond one to one: no frame has two roles. */
  ghost predicate Placed(w: World) {
    && (forall l :: l in w.node ==> w.node[l] in w.owner && w.owner[w.node[l]] == Node(l))
    && (forall f :: f in w.owner && w.owner[f].Node? ==> w.owner[f].loc in w.node && w.node[w.owner[f].loc] == f)
  }

  ghost predicate Hangs(w: World, l: Loc) {
    LocOk(l) && (l.level < 4 ==> Parent(l) in w.node)
  }

  ghost predicate Shape(w: World) {
    forall l {:trigger Hangs(w, l)} :: l in w.node ==> Hangs(w, l)
  }

  predicate IsSlot(w: World, l: Loc, i: nat) {
    l in w.node && 1 <= l.level <= 4 && i < Width(l.level)
  }

  function EntryAt(w: World, l: Loc, i: nat): Word
    requires Owned(w) && Placed(w) && l in w.node && i < 512
  {
    w.mem[w.node[l]][i]
  }

  /** The entry says exactly whether, and in which frame, the child place is. */
  ghost predicate SlotOk(w: World, l: Loc, i: nat)
    requires Owned(w) && Placed(w) && IsSlot(w, l, i)
  {
    var e := EntryAt(w, l, i);
    && (Present(e.lo) <==> Child(l, i) in w.node)
    && (if Present(e.lo) then e.hi == w.node[Child(l, i)] && (l.level >= 2 ==> !Huge(e.lo)) else e == ZERO)
  }

  ghost predicate Slots(w: World)
    requires Owned(w) && Placed(w)
  {
    forall l, i: nat {:trigger SlotOk(w, l, i)} :: IsSlot(w, l, i) ==> SlotOk(w, l, i)
  }

  /** Each space has one root. */
  ghost predicate Roots(w: World) {
    && (forall s :: s in w.spaces <==> Loc(s, 4, 0) in w.node)
    && (forall s :: s in w.spaces ==> w.spaces[s].pml4 == w.node[Loc(s, 4, 0)])
  }

  /** The kernel half of every root is the boot table's. */
  ghost predicate KernelHalf(w: World, boot: Frame)
    requires Owned(w) && Placed(w) && |boot| == 512
  {
    forall l, i :: l in w.node && l.level == 4 && 256 <= i < 512 ==> EntryAt(w, l, i) == boot[i]
  }

  /** What the boot table names, and frame 0, is the kernel's. */
  ghost predicate BootFrames(w: World, boot: Frame)
    requires |boot| == 512
  {
    && (forall i :: 0 <= i < 512 ==> boot[i].hi in w.owner && w.owner[boot[i].hi].Boot?)
    && 0 in w.owner && w.owner[0].Boot?
  }

  ghost predicate Rooted(w: World, boot: Frame)
    requires Owned(w) && Placed(w)
  {
    |boot| == 512 && Roots(w) && KernelHalf(w, boot) && BootFrames(w, boot)
  }

  /** The entry that leads to table `l` lets user mode through. */
  ghost predicate Reached(w: World, l: Loc)
    requires Owned(w) && Placed(w)
  {
    l.level < 4 ==> Parent(l) in w.node && User(EntryAt(w, Parent(l), l.prefix % 512).lo)
  }

  ghost predicate OpenAt(w: World, l: Loc, i: nat)
    requires Owned(w) && Placed(w) && IsSlot(w, l, i)
  {
    var flags := EntryAt(w, l, i).lo;
    (l.level >= 2 && Present(flags) ==> Writable(flags)) && (User(flags) ==> Reached(w, l))
  }

  /** Table entries forbid nothing that the leaf entries below them allow. */
  ghost predicate Open(w: World)
    requires Owned(w) && Placed(w)
  {
    forall l, i: nat {:trigger OpenAt(w, l, i)} :: IsSlot(w, l, i) ==> OpenAt(w, l, i)
  }

  ghost predicate Inv(w: World, boot: Frame) {
    Owned(w) && Placed(w) && Shape(w) && Slots(w) && Open(w) && Rooted(w, boot)
  }

  // ---- The flat map that the trees stand for ----

  /** The leaf entry of page `p` in space `s`; 0 where no table exists. */
  ghost function Flat(w: World, s: nat, p: nat): Word
    requires Owned(w) && Placed(w)
  {
    if Loc(s, 1, p / 512) in w.node then EntryAt(w, Loc(s, 1, p / 512), p % 512) else ZERO
  }

  ghost predicate SameFlat(v: World, w: World)
    requires Owned(v) && Placed(v) && Owned(w) && Placed(w)
  {
    forall s, p: nat :: Flat(w, s, p) == Flat(v, s, p)
  }

  /** Only the page `p` of `s` changed, to entry `e`. */
  ghost predicate FlatSet(v: World, w: World, s: nat, p: nat, e: Word)
    requires Owned(v) && Placed(v) && Owned(w) && Placed(w)
  {
    forall t, q: nat :: Flat(w, t, q) == if t == s && q == p then e else Flat(v, t, q)
  }

  lemma PathStep(s: nat, p: nat, level: nat)
    requires 0 < level
    ensures Child(PathLoc(s, p, level), Prefix(p, level - 1) % 512) == PathLoc(s, p, level - 1)
    ensures Parent(PathLoc(s, p, level - 1)) == PathLoc(s, p, level)
  {
  }

  lemma ChildInjective(l: Loc, i: nat, m: Loc, j: nat)
    requires l.level > 0 && m.level > 0 && i < 512 && j < 512 && Child(l, i) == Child(m, j)
    ensures l == m && i == j
  {
  }

  lemma ChildParent(l: Loc, i: nat)
    requires l.level > 0 && i < 512
    ensures Parent(Child(l, i)) == l && Child(l, i).prefix % 512 == i
  {
  }

  lemma PrefixTop(p: nat)
    ensures p < USER_PAGES ==> Prefix(p, 3) < 256 && Prefix(p, 4) == 0
    ensures Prefix(p, 1) == p / 512 && Prefix(p, 2) == p / 0x4_0000 && Prefix(p, 3) == p / 0x800_0000
  {
    assert Prefix(p, 1) == p / 512;
    assert Prefix(p, 2) == p / 512 / 512;
    assert Prefix(p, 3) == p / 512 / 512 / 512;
    assert Prefix(p, 4) == p / 512 / 512 / 512 / 512;
  }

  // ---- Atomic steps: each returns the next world, the lemma beside it says
  // ---- that the invariant holds and what happened to the flat map.

  /** Same trees, and the same contents in every frame that belongs to one. */
  ghost predicate SameTrees(v: World, w: World) {
    && w.node == v.node && w.spaces == v.spaces && |w.mem| == |v.mem|
    && forall l :: l in v.node && v.node[l] < |v.mem| ==> w.mem[v.node[l]] == v.mem[v.node[l]]
  }

  /** Tables with the same entries are as open. */
  lemma OpenSame(v: World, w: World)
    requires Owned(v) && Placed(v) && Shape(w) && Owned(w) && Placed(w) && Open(v)
    requires forall l :: l in w.node ==> l in v.node
    requires forall l, i: nat {:trigger EntryAt(w, l, i)} :: l in w.node && l.level > 0 && i < 512 ==>
      EntryAt(w, l, i) == EntryAt(v, l, i)
    ensures Open(w)
  {
    hide Owned, Placed, EntryAt;
    forall l, i: nat | IsSlot(w, l, i) ensures OpenAt(w, l, i) {
      assert IsSlot(v, l, i) && OpenAt(v, l, i) && Hangs(w, l);
    }
  }

  lemma SameTreesOk(v: World, w: World, boot: Frame)
    requires Inv(v, boot) && SameTrees(v, w) && Owned(w) && Placed(w)
    requires forall f :: f in v.owner && v.owner[f].Boot? ==> f in w.owner && w.owner[f].Boot?
    ensures Inv(w, boot) && SameFlat(v, w)
  {
    forall l, i: nat | IsSlot(w, l, i) ensures SlotOk(w, l, i) {
      assert IsSlot(v, l, i) && SlotOk(v, l, i);
    }
    forall l | l in w.node ensures Hangs(w, l) {
      assert Hangs(v, l);
    }
    forall l, i | l in w.node && l.level == 4 && 256 <= i < 512 ensures EntryAt(w, l, i) == boot[i] {
      assert EntryAt(v, l, i) == boot[i];
    }
    OpenSame(v, w);
  }

  /** A free frame becomes used, with the given role and contents. */
  function Take(w: World, f: nat, role: Role, data: Frame): World
    requires f < |w.mem| && f < |w.bits|
  {
    w.(mem := w.mem[f := data], bits := w.bits[f := true], owner := w.owner[f := role])
  }

  lemma TakeOk(w: World, boot: Frame, f: nat, role: Role, data: Frame)
    requires Inv(w, boot) && f < |w.bits| && !w.bits[f] && !role.Node? && |data| == 512
    ensures Inv(Take(w, f, role, data), boot) && SameFlat(w, Take(w, f, role, data))
  {
    SameTreesOk(w, Take(w, f, role, data), boot);
  }

  /** A frame placed in no tree is given new contents. */
  lemma FillOk(w: World, boot: Frame, f: nat, data: Frame)
    requires Inv(w, boot) && f in w.owner && !w.owner[f].Node? && |data| == 512
    ensures Inv(w.(mem := w.mem[f := data]), boot) && SameFlat(w, w.(mem := w.mem[f := data]))
  {
    SameTreesOk(w, w.(mem := w.mem[f := data]), boot);
  }

  /** A used frame placed nowhere becomes free. */
  function Release(w: World, f: nat): World
    requires f < |w.bits|
  {
    w.(bits := w.bits[f := false], owner := w.owner - {f})
  }

  lemma ReleaseOk(w: World, boot: Frame, f: nat)
    requires Inv(w, boot) && f in w.owner && w.owner[f].Held?
    ensures Inv(Release(w, f), boot) && SameFlat(w, Release(w, f))
  {
    SameTreesOk(w, Release(w, f), boot);
  }

  function SetEntry(w: World, l: Loc, i: nat, e: Word): World
    requires Owned(w) && Placed(w) && l in w.node && i < 512
  {
    w.(mem := w.mem[w.node[l] := w.mem[w.node[l]][i := e]])
  }

  /** Hang a held frame below a table: a lower table (all zero) or a data page. */
  function Link(w: World, l: Loc, i: nat, f: nat, flags: bv12): World
    requires Owned(w) && Placed(w) && l in w.node && l.level > 0 && i < 512
  {
    var c := Child(l, i);
    SetEntry(w, l, i, Word(f, flags)).(node := w.node[c := f], owner := w.owner[f := Node(c)])
  }

  predicate Linkable(w: World, l: Loc, i: nat, f: nat, flags: bv12) {
    && IsSlot(w, l, i) && Child(l, i) !in w.node
    && f in w.owner && w.owner[f].Held? && f < |w.mem| && |w.mem[f]| == 512
    && Present(flags)
    && (l.level >= 2 ==> !Huge(flags) && forall j :: 0 <= j < 512 ==> w.mem[f][j] == ZERO)
  }

  lemma LinkPlaced(w: World, l: Loc, i: nat, f: nat, flags: bv12)
    requires Owned(w) && Placed(w) && Shape(w) && Linkable(w, l, i, f, flags)
    ensures var v := Link(w, l, i, f, flags); Owned(v) && Placed(v) && Shape(v)
  {
    var v := Link(w, l, i, f, flags);
    assert v.node == w.node[Child(l, i) := f];
    LinkOwned(w, l, i, f, flags);
    hide Owned, Placed, Link;
    ChildParent(l, i);
    assert Hangs(w, l);
    forall m | m in v.node ensures Hangs(v, m) {
      if m != Child(l, i) { assert Hangs(w, m); }
    }
  }

  lemma LinkOwned(w: World, l: Loc, i: nat, f: nat, flags: bv12)
    requires Owned(w) && Placed(w) && Linkable(w, l, i, f, flags)
    ensures var v := Link(w, l, i, f, flags); Owned(v) && Placed(v)
  {
  }

  /** What the tables hold afterwards. */
  lemma LinkEntry(w: World, l: Loc, i: nat, f: nat, flags: bv12, m: Loc, j: nat)
    requires Owned(w) && Placed(w) && Linkable(w, l, i, f, flags) && j < 512
    requires var v := Link(w, l, i, f, flags); Owned(v) && Placed(v) && m in v.node
    ensures m != Child(l, i) ==> m in w.node
    ensures EntryAt(Link(w, l, i, f, flags), m, j) ==
      if m == l && j == i then Word(f, flags) else if m == Child(l, i) then w.mem[f][j] else EntryAt(w, m, j)
  {
    if m in w.node && m != l { assert w.node[m] != w.node[l]; }
    assert w.node[l] != f;
  }

  lemma LinkNode(w: World, l: Loc, i: nat, f: nat, flags: bv12)
    requires Owned(w) && Placed(w) && l in w.node && l.level > 0 && i < 512
    ensures var v := Link(w, l, i, f, flags); v.node == w.node[Child(l, i) := f] && v.spaces == w.spaces
  {
  }

  lemma LinkSlot(w: World, l: Loc, i: nat, f: nat, flags: bv12, m: Loc, j: nat)
    requires Owned(w) && Placed(w) && Shape(w) && Slots(w) && Linkable(w, l, i, f, flags)
    requires var v := Link(w, l, i, f, flags); Owned(v) && Placed(v) && IsSlot(v, m, j)
    ensures SlotOk(Link(w, l, i, f, flags), m, j)
  {
    hide Owned, Placed, EntryAt, Link, Shape, Slots;
    LinkEntry(w, l, i, f, flags, m, j);
    LinkNode(w, l, i, f, flags);
    if m == Child(l, i) {
      ChildParent(m, j);
      NoOrphan(w, Child(m, j));
    } else {
      SlotThere(w, m, j);
      if Child(m, j) == Child(l, i) { ChildInjective(l, i, m, j); }
    }
  }

  lemma NoOrphan(w: World, l: Loc)
    requires Shape(w)
    ensures l in w.node && l.level < 4 ==> Parent(l) in w.node
  {
    assert l in w.node ==> Hangs(w, l);
  }

  lemma SlotThere(w: World, m: Loc, j: nat)
    requires Owned(w) && Placed(w) && Slots(w) && IsSlot(w, m, j)
    ensures SlotOk(w, m, j)
  {
  }

  lemma LinkSlots(w: World, l: Loc, i: nat, f: nat, flags: bv12)
    requires Owned(w) && Placed(w) && Shape(w) && Slots(w) && Linkable(w, l, i, f, flags)
    requires var v := Link(w, l, i, f, flags); Owned(v) && Placed(v)
    ensures Slots(Link(w, l, i, f, flags))
  {
    hide Owned, Placed, Shape, SlotOk, Link;
    var v := Link(w, l, i, f, flags);
    hide Linkable;
    forall m, j: nat | IsSlot(v, m, j) ensures SlotOk(v, m, j) { LinkSlot(w, l, i, f, flags, m, j); }
  }

  lemma LinkRooted(w: World, boot: Frame, l: Loc, i: nat, f: nat, flags: bv12)
    requires Owned(w) && Placed(w) && Rooted(w, boot) && Linkable(w, l, i, f, flags)
    requires var v := Link(w, l, i, f, flags); Owned(v) && Placed(v)
    ensures Rooted(Link(w, l, i, f, flags), boot)
  {
    var v := Link(w, l, i, f, flags);
    assert v.owner == w.owner[f := Node(Child(l, i))];
    LinkNode(w, l, i, f, flags);
    hide Owned, Placed, EntryAt, Link;
    forall m, j | m in v.node && m.level == 4 && 256 <= j < 512 ensures EntryAt(v, m, j) == boot[j] {
      LinkEntry(w, l, i, f, flags, m, j);
      assert EntryAt(w, m, j) == boot[j];
    }
  }

  lemma LinkOpenAt(w: World, l: Loc, i: nat, f: nat, flags: bv12, m: Loc, j: nat)
    requires Owned(w) && Placed(w) && Shape(w) && Open(w) && Linkable(w, l, i, f, flags)
    requires (l.level >= 2 ==> Writable(flags)) && (User(flags) ==> Reached(w, l))
    requires var v := Link(w, l, i, f, flags); Owned(v) && Placed(v) && IsSlot(v, m, j)
    ensures OpenAt(Link(w, l, i, f, flags), m, j)
  {
    hide Owned, Placed, EntryAt, Link, Shape, Open, Present, Writable;
    var v := Link(w, l, i, f, flags);
    LinkEntry(w, l, i, f, flags, m, j);
    LinkNode(w, l, i, f, flags);
    ChildParent(l, i);
    if m == Child(l, i) {
      ZeroFlags();
    } else {
      if m != l || j != i { OpenThere(w, m, j); }
      hide User;
      NoOrphan(w, m);
      var up, k := Parent(m), m.prefix % 512;
      if m.level < 4 && up in w.node {
        LinkEntry(w, l, i, f, flags, up, k);
        assert Child(up, k) == m;
      }
    }
  }

  lemma ZeroFlags()
    ensures !Present(ZERO.lo) && !User(ZERO.lo)
  {
  }

  lemma OpenThere(w: World, l: Loc, i: nat)
    requires Owned(w) && Placed(w) && Open(w) && IsSlot(w, l, i)
    ensures OpenAt(w, l, i)
  {
  }

  lemma LinkOpen(w: World, l: Loc, i: nat, f: nat, flags: bv12)
    requires Owned(w) && Placed(w) && Shape(w) && Open(w) && Linkable(w, l, i, f, flags)
    requires (l.level >= 2 ==> Writable(flags)) && (User(flags) ==> Reached(w, l))
    requires var v := Link(w, l, i, f, flags); Owned(v) && Placed(v)
    ensures Open(Link(w, l, i, f, flags))
  {
    hide Owned, Placed, Shape, OpenAt, Link, Reached;
    var v := Link(w, l, i, f, flags);
    hide Linkable;
    forall m, j: nat | IsSlot(v, m, j) ensures OpenAt(v, m, j) { LinkOpenAt(w, l, i, f, flags, m, j); }
  }

  lemma LinkOk(w: World, boot: Frame, l: Loc, i: nat, f: nat, flags: bv12)
    requires Inv(w, boot) && Linkable(w, l, i, f, flags)
    requires (l.level >= 2 ==> Writable(flags)) && (User(flags) ==> Reached(w, l))
    ensures Inv(Link(w, l, i, f, flags), boot)
  {
    hide Owned, Placed, Shape, Slots, Rooted, Link, Linkable, Open, Reached;
    LinkPlaced(w, l, i, f, flags);
    LinkOpen(w, l, i, f, flags);
    LinkSlots(w, l, i, f, flags);
    LinkRooted(w, boot, l, i, f, flags);
  }

  /** Hanging a table changes no leaf entry; hanging a page sets exactly its own. */
  lemma LinkFlat(w: World, l: Loc, i: nat, f: nat, flags: bv12)
    requires Owned(w) && Placed(w) && Shape(w) && Linkable(w, l, i, f, flags)
    requires var v := Link(w, l, i, f, flags); Owned(v) && Placed(v)
    ensures var v := Link(w, l, i, f, flags);
      if l.level == 1 then FlatSet(w, v, l.space, Child(l, i).prefix, Word(f, flags)) else SameFlat(w, v)
  {
    var v := Link(w, l, i, f, flags);
    LinkNode(w, l, i, f, flags);
    hide Owned, Placed, Shape, EntryAt, Link;
    forall t, q: nat
      ensures Flat(v, t, q) == if l.level == 1 && t == l.space && q == Child(l, i).prefix
                               then Word(f, flags) else Flat(w, t, q)
    {
      var m := Loc(t, 1, q / 512);
      if m in v.node { LinkEntry(w, l, i, f, flags, m, q % 512); }
    }
  }

  lemma SetEntryOthers(w: World, l: Loc, i: nat, e: Word)
    requires Owned(w) && Placed(w) && l in w.node && i < 512
    ensures var v := SetEntry(w, l, i, e); Owned(v) && Placed(v)
    ensures var v := SetEntry(w, l, i, e);
      forall m, j :: m in w.node && 0 <= j < 512 ==> EntryAt(v, m, j) == if m == l && j == i then e
        else EntryAt(w, m, j)
  {
    var v := SetEntry(w, l, i, e);
    forall m, j | m in w.node && 0 <= j < 512
      ensures EntryAt(v, m, j) == if m == l && j == i then e else EntryAt(w, m, j)
    {
      if m != l { assert w.node[m] != w.node[l]; }
    }
  }

  ghost predicate Opener(w: World, l: Loc, i: nat, flags: bv12)
    requires Owned(w) && Placed(w) && IsSlot(w, l, i)
  {
    && (l.level >= 2 && Present(flags) ==> Writable(flags)) && (User(flags) ==> Reached(w, l))
    && (l.level >= 2 ==> User(EntryAt(w, l, i).lo) ==> User(flags))
  }

  lemma SetEntryOpen(w: World, l: Loc, i: nat, e: Word)
    requires Owned(w) && Placed(w) && Shape(w) && Open(w) && IsSlot(w, l, i) && Opener(w, l, i, e.lo)
    ensures var v := SetEntry(w, l, i, e); Owned(v) && Placed(v) && Open(v)
  {
    var v := SetEntry(w, l, i, e);
    assert v.node == w.node;
    SetEntryOthers(w, l, i, e);
    hide Owned, Placed, EntryAt, SetEntry, Present, Writable, User;
    forall m, j: nat | IsSlot(v, m, j) ensures OpenAt(v, m, j) {
      assert IsSlot(w, m, j) && OpenAt(w, m, j) && Hangs(w, m);
    }
  }

  /** Rewrite the flags of a present entry. */
  lemma ReflagOk(w: World, boot: Frame, l: Loc, i: nat, flags: bv12)
    requires Inv(w, boot) && IsSlot(w, l, i) && Child(l, i) in w.node
    requires Present(flags) && (l.level >= 2 ==> !Huge(flags)) && Opener(w, l, i, flags)
    ensures var e := Word(w.node[Child(l, i)], flags); var v := SetEntry(w, l, i, e);
      Inv(v, boot) && if l.level == 1 then FlatSet(w, v, l.space, Child(l, i).prefix, e) else SameFlat(w, v)
  {
    var e := Word(w.node[Child(l, i)], flags);
    var v := SetEntry(w, l, i, e);
    SetEntryOthers(w, l, i, e);
    forall m, j: nat | IsSlot(v, m, j) ensures SlotOk(v, m, j) {
      assert IsSlot(w, m, j) && SlotOk(w, m, j);
    }
    forall m | m in v.node ensures Hangs(v, m) {
      assert Hangs(w, m);
    }
    SetEntryOpen(w, l, i, e);
    SetEntryFlat(w, l, i, e);
  }

  lemma SetEntryFlat(w: World, l: Loc, i: nat, e: Word)
    requires Owned(w) && Placed(w) && l in w.node && i < 512 && l.level > 0
    requires Owned(SetEntry(w, l, i, e)) && Placed(SetEntry(w, l, i, e))
    ensures var v := SetEntry(w, l, i, e);
      if l.level == 1 then FlatSet(w, v, l.space, Child(l, i).prefix, e) else SameFlat(w, v)
  {
    var v := SetEntry(w, l, i, e);
    SetEntryOthers(w, l, i, e);
    forall t, q: nat
      ensures Flat(v, t, q) == if l.level == 1 && t == l.space && q == Child(l, i).prefix then e else Flat(w, t, q)
    {
      var m := Loc(t, 1, q / 512);
    }
  }

  /** Take a data page out of its tree and free its frame. */
  function Unmap(w: World, s: nat, p: nat): World
    requires Owned(w) && Placed(w) && Loc(s, 1, p / 512) in w.node && Loc(s, 0, p) in w.node
  {
    var c := Loc(s, 0, p);
    var f := w.node[c];
    SetEntry(w, Loc(s, 1, p / 512), p % 512, ZERO)
      .(node := w.node - {c}, owner := w.owner - {f}, bits := w.bits[f := false])
  }

  lemma UnmapPlaced(w: World, s: nat, p: nat)
    requires Owned(w) && Placed(w) && Loc(s, 0, p) in w.node && Loc(s, 1, p / 512) in w.node
    ensures Owned(Unmap(w, s, p)) && Placed(Unmap(w, s, p))
  {
  }

  lemma UnmapSlots(w: World, s: nat, p: nat)
    requires Owned(w) && Placed(w) && Slots(w) && Loc(s, 0, p) in w.node && Loc(s, 1, p / 512) in w.node
    requires var v := Unmap(w, s, p); Owned(v) && Placed(v)
    ensures Slots(Unmap(w, s, p))
  {
    var l, c := Loc(s, 1, p / 512), Loc(s, 0, p);
    var v := Unmap(w, s, p);
    SetEntryOthers(w, l, p % 512, ZERO);
    assert Child(l, p % 512) == c;
    forall m, j: nat | IsSlot(v, m, j) ensures SlotOk(v, m, j) {
      assert IsSlot(w, m, j) && SlotOk(w, m, j);
      if Child(m, j) == c { ChildInjective(l, p % 512, m, j); }
    }
  }

  lemma UnmapFlat(w: World, s: nat, p: nat)
    requires Owned(w) && Placed(w) && Loc(s, 0, p) in w.node && Loc(s, 1, p / 512) in w.node
    requires var v := Unmap(w, s, p); Owned(v) && Placed(v)
    ensures FlatSet(w, Unmap(w, s, p), s, p, ZERO)
  {
    var l := Loc(s, 1, p / 512);
    var v, u := Unmap(w, s, p), SetEntry(w, l, p % 512, ZERO);
    SetEntryFlat(w, l, p % 512, ZERO);
    forall t, q: nat ensures Flat(v, t, q) == Flat(u, t, q) {
    }
  }

  lemma UnmapOk(w: World, boot: Frame, s: nat, p: nat)
    requires Inv(w, boot) && Loc(s, 0, p) in w.node && Loc(s, 1, p / 512) in w.node
    ensures Inv(Unmap(w, s, p), boot) && FlatSet(w, Unmap(w, s, p), s, p, ZERO)
  {
    hide Slots, FlatSet, Owned, Placed, Shape, Rooted, Unmap, Open;
    UnmapPlaced(w, s, p);
    UnmapOpen(w, s, p);
    UnmapSlots(w, s, p);
    UnmapFlat(w, s, p);
    UnmapShape(w, s, p);
    UnmapRooted(w, boot, s, p);
  }

  lemma UnmapOpen(w: World, s: nat, p: nat)
    requires Owned(w) && Placed(w) && Shape(w) && Open(w) && Loc(s, 0, p) in w.node && Loc(s, 1, p / 512) in w.node
    requires var v := Unmap(w, s, p); Owned(v) && Placed(v)
    ensures Open(Unmap(w, s, p))
  {
    var l := Loc(s, 1, p / 512);
    var u, v := SetEntry(w, l, p % 512, ZERO), Unmap(w, s, p);
    ZeroFlags();
    SetEntryOpen(w, l, p % 512, ZERO);
    UnmapShape(w, s, p);
    forall m, j: nat | m in v.node && m.level > 0 && j < 512 ensures EntryAt(v, m, j) == EntryAt(u, m, j) {}
    OpenSame(u, v);
  }

  lemma UnmapShape(w: World, s: nat, p: nat)
    requires Owned(w) && Placed(w) && Shape(w) && Loc(s, 0, p) in w.node && Loc(s, 1, p / 512) in w.node
    ensures Shape(Unmap(w, s, p))
  {
    var v := Unmap(w, s, p);
    forall m | m in v.node ensures Hangs(v, m) {
      assert Hangs(w, m);
    }
  }

  lemma UnmapRooted(w: World, boot: Frame, s: nat, p: nat)
    requires Owned(w) && Placed(w) && Rooted(w, boot) && Loc(s, 0, p) in w.node && Loc(s, 1, p / 512) in w.node
    requires var v := Unmap(w, s, p); Owned(v) && Placed(v)
    ensures Rooted(Unmap(w, s, p), boot)
  {
    var v := Unmap(w, s, p);
    forall m, j | m in v.node && m.level == 4 && 256 <= j < 512 ensures EntryAt(v, m, j) == boot[j] {
      assert EntryAt(w, m, j) == boot[j];
    }
  }

  // ---- Whole spaces ----

  /** Every place hangs, level by level, below the root of its space. */
  lemma {:induction false} RootAbove(w: World, l: Loc)
    requires Shape(w) && l in w.node
    ensures Loc(l.space, 4, 0) in w.node
    decreases 4 - l.level
  {
    assert Hangs(w, l);
    if l.level < 4 { RootAbove(w, Parent(l)); }
  }

  function RootTable(boot: Frame): Frame
    requires |boot| == 512
  {
    seq(512, i requires 0 <= i < 512 => if i < 256 then ZERO else boot[i])
  }

  /** A held frame becomes the root of a new space with an empty user half. */
  function Found(w: World, boot: Frame, s: nat, f: nat, sp: Space): World
    requires f < |w.mem| && |boot| == 512
  {
    w.(mem := w.mem[f := RootTable(boot)], node := w.node[Loc(s, 4, 0) := f],
       owner := w.owner[f := Node(Loc(s, 4, 0))], spaces := w.spaces[s := sp])
  }

  lemma FoundPlaced(w: World, boot: Frame, s: nat, f: nat, sp: Space)
    requires Inv(w, boot) && s !in w.spaces && f in w.owner && w.owner[f].Held?
    ensures var v := Found(w, boot, s, f, sp); Owned(v) && Placed(v)
    ensures forall l :: l in w.node ==> l.space != s
  {
    forall l | l in w.node ensures l.space != s {
      RootAbove(w, l);
    }
  }

  lemma FoundSlots(w: World, boot: Frame, s: nat, f: nat, sp: Space)
    requires Inv(w, boot) && s !in w.spaces && f in w.owner && w.owner[f].Held?
    ensures var v := Found(w, boot, s, f, sp); Owned(v) && Placed(v) && Slots(v) && SameFlat(w, v)
  {
    var v := Found(w, boot, s, f, sp);
    FoundPlaced(w, boot, s, f, sp);
    forall l, i: nat | IsSlot(v, l, i) ensures SlotOk(v, l, i) {
      if l == Loc(s, 4, 0) {
        assert EntryAt(v, l, i) == ZERO && Child(l, i) !in w.node;
      } else {
        assert IsSlot(w, l, i) && SlotOk(w, l, i);
      }
    }
  }

  lemma FoundOpen(w: World, boot: Frame, s: nat, f: nat, sp: Space)
    requires Inv(w, boot) && s !in w.spaces && f in w.owner && w.owner[f].Held?
    ensures var v := Found(w, boot, s, f, sp); Owned(v) && Placed(v) && Open(v)
  {
    var v := Found(w, boot, s, f, sp);
    FoundPlaced(w, boot, s, f, sp);
    FoundEntries(w, boot, s, f, sp);
    ZeroFlags();
    hide Owned, Placed, EntryAt, Found, Slots, Rooted, Present, User, Writable;
    forall l, i: nat | IsSlot(v, l, i) ensures OpenAt(v, l, i) {
      if l != Loc(s, 4, 0) {
        assert IsSlot(w, l, i) && OpenAt(w, l, i) && Hangs(w, l);
      }
    }
  }

  lemma FoundEntries(w: World, boot: Frame, s: nat, f: nat, sp: Space)
    requires Owned(w) && Placed(w) && |boot| == 512 && f in w.owner && w.owner[f].Held? && Loc(s, 4, 0) !in w.node
    requires var v := Found(w, boot, s, f, sp); Owned(v) && Placed(v)
    ensures var v := Found(w, boot, s, f, sp);
      && v.node.Keys == w.node.Keys + {Loc(s, 4, 0)}
      && (forall l, i: nat {:trigger EntryAt(v, l, i)} :: l in w.node && i < 512 ==>
            EntryAt(v, l, i) == EntryAt(w, l, i))
      && forall i: nat {:trigger EntryAt(v, Loc(s, 4, 0), i)} :: i < 256 ==> EntryAt(v, Loc(s, 4, 0), i) == ZERO
  {
  }

  lemma FoundOk(w: World, boot: Frame, s: nat, f: nat, sp: Space)
    requires Inv(w, boot) && s !in w.spaces && f in w.owner && w.owner[f].Held? && sp.pml4 == f
    ensures Inv(Found(w, boot, s, f, sp), boot) && SameFlat(w, Found(w, boot, s, f, sp))
  {
    assert f < |w.mem| && |boot| == 512;
    hide Owned, Placed, Slots, Rooted, Found, SameFlat, Open;
    FoundOpen(w, boot, s, f, sp);
    FoundSlots(w, boot, s, f, sp);
    FoundShape(w, boot, s, f, sp);
    FoundRooted(w, boot, s, f, sp);
  }

  lemma FoundShape(w: World, boot: Frame, s: nat, f: nat, sp: Space)
    requires Shape(w) && f < |w.mem| && |boot| == 512
    ensures Shape(Found(w, boot, s, f, sp))
  {
    var v := Found(w, boot, s, f, sp);
    forall l | l in v.node ensures Hangs(v, l) {
      if l != Loc(s, 4, 0) { assert Hangs(w, l); }
    }
  }

  lemma FoundRooted(w: World, boot: Frame, s: nat, f: nat, sp: Space)
    requires Owned(w) && Placed(w) && Rooted(w, boot) && s !in w.spaces && f in w.owner && w.owner[f].Held?
    requires sp.pml4 == f && f < |w.mem|
    requires var v := Found(w, boot, s, f, sp); Owned(v) && Placed(v)
    ensures Rooted(Found(w, boot, s, f, sp), boot)
  {
    hide Owned, Placed, KernelHalf, BootFrames, Roots, Found;
    FoundRoots(w, boot, s, f, sp);
    FoundHalf(w, boot, s, f, sp);
    FoundBoot(w, boot, s, f, sp);
  }

  lemma FoundRoots(w: World, boot: Frame, s: nat, f: nat, sp: Space)
    requires Roots(w) && s !in w.spaces && sp.pml4 == f && f < |w.mem| && |boot| == 512
    ensures Roots(Found(w, boot, s, f, sp))
  {
  }

  lemma FoundHalf(w: World, boot: Frame, s: nat, f: nat, sp: Space)
    requires Owned(w) && Placed(w) && |boot| == 512 && KernelHalf(w, boot) && f in w.owner && w.owner[f].Held?
    requires f < |w.mem|
    requires var v := Found(w, boot, s, f, sp); Owned(v) && Placed(v)
    ensures KernelHalf(Found(w, boot, s, f, sp), boot)
  {
    var v := Found(w, boot, s, f, sp);
    forall l, i | l in v.node && l.level == 4 && 256 <= i < 512 ensures EntryAt(v, l, i) == boot[i] {
      if l != Loc(s, 4, 0) { assert EntryAt(w, l, i) == boot[i]; }
    }
  }

  lemma FoundBoot(w: World, boot: Frame, s: nat, f: nat, sp: Space)
    requires |boot| == 512 && BootFrames(w, boot) && f in w.owner && w.owner[f].Held? && f < |w.mem|
    ensures BootFrames(Found(w, boot, s, f, sp), boot)
  {
  }

  predicate InSpace(r: Role, s: nat) { r.Node? && r.loc.space == s }

  /** Space `s` is gone: none of its places remain and its frames are free. */
  ghost function Dropped(w: World, s: nat): World
    requires Owned(w)
  {
    w.(bits := seq(|w.bits|, f requires 0 <= f < |w.bits| => w.bits[f] && !(f in w.owner && InSpace(w.owner[f], s))),
       node := map l | l in w.node && l.space != s :: w.node[l],
       owner := map f | f in w.owner && !InSpace(w.owner[f], s) :: w.owner[f],
       spaces := w.spaces - {s})
  }

  lemma DroppedPlaced(w: World, s: nat)
    requires Owned(w) && Placed(w)
    ensures var v := Dropped(w, s);
      Owned(v) && Placed(v) && forall l :: l in v.node <==> l in w.node && l.space != s
    ensures var v := Dropped(w, s); forall l, i: nat :: l in v.node && i < 512 ==> EntryAt(v, l, i) == EntryAt(w, l, i)
    ensures forall t, p: nat :: t != s ==> Flat(Dropped(w, s), t, p) == Flat(w, t, p)
  {
  }

  lemma DroppedOk(w: World, boot: Frame, s: nat)
    requires Inv(w, boot)
    ensures Inv(Dropped(w, s), boot)
    ensures forall t, p: nat :: t != s ==> Flat(Dropped(w, s), t, p) == Flat(w, t, p)
  {
    hide Flat, Owned, Placed, Slots, Rooted, Dropped, Open;
    DroppedPlaced(w, s);
    DroppedSlots(w, s);
    OpenSame(w, Dropped(w, s));
    DroppedRooted(w, boot, s);
  }

  lemma DroppedSlots(w: World, s: nat)
    requires Owned(w) && Placed(w) && Shape(w) && Slots(w)
    ensures Owned(Dropped(w, s)) && Placed(Dropped(w, s)) && Shape(Dropped(w, s)) && Slots(Dropped(w, s))
  {
    var v := Dropped(w, s);
    DroppedPlaced(w, s);
    hide Owned, Placed, Flat;
    forall l | l in v.node ensures Hangs(v, l) { assert Hangs(w, l); }
    forall l, i: nat | IsSlot(v, l, i) ensures SlotOk(v, l, i) {
      assert IsSlot(w, l, i) && SlotOk(w, l, i);
    }
  }

  lemma DroppedRooted(w: World, boot: Frame, s: nat)
    requires Owned(w) && Placed(w) && Rooted(w, boot)
    ensures Owned(Dropped(w, s)) && Placed(Dropped(w, s)) && Rooted(Dropped(w, s), boot)
  {
    DroppedPlaced(w, s);
    DroppedHas(w, s);
    hide Owned, Placed, Flat, Dropped, EntryAt, Roots, BootFrames;
    DroppedRoots(w, Dropped(w, s), s);
    DroppedBoot(w, Dropped(w, s), boot);
  }

  lemma DroppedRoots(w: World, v: World, s: nat)
    requires Roots(w) && v.spaces == w.spaces - {s} && forall l :: l in v.node <==> l in w.node && l.space != s
    requires forall l :: l in w.node && l.space != s ==> l in v.node && v.node[l] == w.node[l]
    ensures Roots(v)
  {
  }

  lemma DroppedBoot(w: World, v: World, boot: Frame)
    requires |boot| == 512 && BootFrames(w, boot)
    requires forall f :: f in w.owner && !w.owner[f].Node? ==> f in v.owner && v.owner[f] == w.owner[f]
    ensures BootFrames(v, boot)
  {
  }

  lemma DroppedHas(w: World, s: nat)
    requires Owned(w)
    ensures var v := Dropped(w, s);
      && v.spaces == w.spaces - {s}
      && (forall l :: l in w.node && l.space != s ==> l in v.node && v.node[l] == w.node[l])
      && forall f :: f in w.owner && !w.owner[f].Node? ==> f in v.owner && v.owner[f] == w.owner[f]
  {
  }

  // ---- What a caller keeps across a call that adds tables to space `s` ----

  predicate IsTable(r: Role, s: nat) { InSpace(r, s) && r.loc.level >= 1 }

  /** `w` has everything `v` had, plus lower tables of `s`; the contents of all
      frames other than tables of `s` are the same. */
  ghost predicate Grows(v: World, w: World, s: nat) {
    && w.spaces == v.spaces && |w.mem| == |v.mem|
    && (forall l :: l in v.node ==> l in w.node && w.node[l] == v.node[l])
    && (forall l :: l in w.node && l !in v.node ==> l.space == s && 1 <= l.level <= 3)
    && (forall f :: f in v.owner ==> f in w.owner && w.owner[f] == v.owner[f])
    && (forall f :: f in w.owner && f !in v.owner ==> IsTable(w.owner[f], s))
    && (forall f :: f in v.owner && f < |v.mem| && !IsTable(v.owner[f], s) ==> w.mem[f] == v.mem[f])
  }

  lemma GrowsTrans(u: World, v: World, w: World, s: nat)
    requires Grows(u, v, s) && Grows(v, w, s)
    ensures Grows(u, w, s)
  {
  }

  /** The view in which frame `f` already is page `p` of `s`. */
  function Place(w: World, s: nat, p: nat, f: nat): World {
    w.(node := w.node[Loc(s, 0, p) := f], owner := w.owner[f := Node(Loc(s, 0, p))])
  }

  /** A leaf entry is present exactly when its page has a frame, that very one. */
  lemma FlatLeaf(w: World, boot: Frame, s: nat, p: nat)
    requires Inv(w, boot)
    ensures Present(Flat(w, s, p).lo) <==> Loc(s, 0, p) in w.node
    ensures Present(Flat(w, s, p).lo) ==> Flat(w, s, p).hi == w.node[Loc(s, 0, p)] && Loc(s, 1, p / 512) in w.node
    ensures !Present(Flat(w, s, p).lo) ==> Flat(w, s, p) == ZERO
  {
    var t := Loc(s, 1, p / 512);
    assert Child(t, p % 512) == Loc(s, 0, p) && Parent(Loc(s, 0, p)) == t;
    if t in w.node {
      assert SlotOk(w, t, p % 512);
    } else {
      assert Loc(s, 0, p) in w.node ==> Hangs(w, Loc(s, 0, p));
    }
  }

  /** No frame has two roles: a frame that translation reaches is reached from
      one page of one space only, and is no table of any tree. */
  lemma OneRole(w: World, boot: Frame, s: nat, p: nat, t: nat, q: nat)
    requires Inv(w, boot) && Present(Flat(w, s, p).lo)
    ensures Present(Flat(w, t, q).lo) && Flat(w, t, q).hi == Flat(w, s, p).hi ==> s == t && p == q
    ensures forall l :: l in w.node && l.level >= 1 ==> w.node[l] != Flat(w, s, p).hi
    ensures var f := Flat(w, s, p).hi; f in w.owner && f < |w.bits| && w.bits[f] && f != 0
  {
    FlatLeaf(w, boot, s, p);
    FlatLeaf(w, boot, t, q);
  }

  // ---- Ranges of pages ----

  predicate LeafIn(r: Role, s: nat, lo: nat, hi: nat) {
    r.Node? && r.loc.space == s && r.loc.level == 0 && lo <= r.loc.prefix < hi
  }

  /** The pages [lo, hi) of `s` are unmapped, every other page is as before. */
  ghost predicate FreedFlat(v: World, w: World, s: nat, lo: nat, hi: nat)
    requires Owned(v) && Placed(v) && Owned(w) && Placed(w)
  {
    forall t, q: nat {:trigger Flat(w, t, q)} :: Flat(w, t, q) ==
      if t == s && lo <= q < hi && Present(Flat(v, t, q).lo) then ZERO else Flat(v, t, q)
  }

  /** Exactly the frames of the pages [lo, hi) of `s` are given back. */
  ghost predicate FreedFrames(v: World, w: World, s: nat, lo: nat, hi: nat) {
    && w.spaces == v.spaces && |w.mem| == |v.mem|
    && (forall f :: f in w.owner <==> f in v.owner && !LeafIn(v.owner[f], s, lo, hi))
    && (forall f :: f in w.owner ==> w.owner[f] == v.owner[f])
    && (forall f :: f in w.owner && f < |v.mem| && !IsTable(v.owner[f], s) ==> w.mem[f] == v.mem[f])
  }

  ghost predicate Freed(v: World, w: World, s: nat, lo: nat, hi: nat)
    requires Owned(v) && Placed(v) && Owned(w) && Placed(w)
  {
    FreedFlat(v, w, s, lo, hi) && FreedFrames(v, w, s, lo, hi)
  }

  lemma FreedNone(w: World, boot: Frame, s: nat, lo: nat, hi: nat)
    requires Inv(w, boot) && hi <= lo
    ensures Freed(w, w, s, lo, hi)
  {
  }

  lemma FreedSkip(v: World, w: World, boot: Frame, s: nat, lo: nat, hi: nat)
    requires Inv(v, boot) && Inv(w, boot) && Freed(v, w, s, lo, hi) && lo <= hi && Loc(s, 0, hi) !in w.node
    ensures Freed(v, w, s, lo, hi + 1)
  {
    FlatLeaf(v, boot, s, hi);
    FlatLeaf(w, boot, s, hi);
    assert Flat(w, s, hi) == Flat(v, s, hi);
  }

  lemma FreedStep(v: World, w: World, boot: Frame, s: nat, lo: nat, hi: nat)
    requires Inv(v, boot) && Inv(w, boot) && Freed(v, w, s, lo, hi) && lo <= hi
    requires Loc(s, 0, hi) in w.node && Loc(s, 1, hi / 512) in w.node
    ensures Inv(Unmap(w, s, hi), boot) && Freed(v, Unmap(w, s, hi), s, lo, hi + 1)
  {
    hide Inv, FlatSet, FreedFlat, FreedFrames;
    UnmapOk(w, boot, s, hi);
    InvParts(v, boot);
    InvParts(w, boot);
    InvParts(Unmap(w, s, hi), boot);
    hide Owned, Placed, Shape;
    FreedStepFrames(v, w, s, lo, hi);
    FlatLeaf(w, boot, s, hi);
    FreedStepFlat(v, w, Unmap(w, s, hi), s, lo, hi);
  }

  lemma FreedStepFlat(v: World, w: World, u: World, s: nat, lo: nat, hi: nat)
    requires Owned(v) && Placed(v) && Owned(w) && Placed(w) && Owned(u) && Placed(u) && lo <= hi
    requires FreedFlat(v, w, s, lo, hi) && FlatSet(w, u, s, hi, ZERO) && Present(Flat(w, s, hi).lo)
    ensures FreedFlat(v, u, s, lo, hi + 1)
  {
    hide Owned, Placed, Flat;
    forall t, q: nat ensures Flat(u, t, q) ==
      if t == s && lo <= q < hi + 1 && Present(Flat(v, t, q).lo) then ZERO else Flat(v, t, q)
    {
      assert Flat(w, t, q) == if t == s && lo <= q < hi && Present(Flat(v, t, q).lo) then ZERO else Flat(v, t, q);
    }
  }

  lemma FreedStepFrames(v: World, w: World, s: nat, lo: nat, hi: nat)
    requires Owned(w) && Placed(w) && FreedFrames(v, w, s, lo, hi) && lo <= hi
    requires Loc(s, 0, hi) in w.node && Loc(s, 1, hi / 512) in w.node
    ensures FreedFrames(v, Unmap(w, s, hi), s, lo, hi + 1)
  {
    var f, t := w.node[Loc(s, 0, hi)], w.node[Loc(s, 1, hi / 512)];
    assert w.owner[f] == Node(Loc(s, 0, hi));
    assert w.owner[t] == Node(Loc(s, 1, hi / 512));
    hide Owned, Placed;
  }

  /** Entry `e` of `w` is what vmm_alloc_range makes of entry `d` of `v`: an
      old page keeps its frame, a new page gets a fresh zeroed one. */
  ghost predicate Granted(v: World, w: World, d: Word, e: Word, flags: bv12) {
    if Present(d.lo) then e == if Writable(flags) then Word(d.hi, flags) else d
    else e.lo == flags && e.hi !in v.owner && e.hi < |w.mem| && w.mem[e.hi] == seq(512, _ => ZERO)
  }

  /** Nothing `v` used is lost, moved or overwritten in `w`, except that tables
      of `s` may have new entries; what is new belongs to `s`. */
  ghost predicate Keeps(v: World, w: World, s: nat) {
    && w.spaces == v.spaces && |w.mem| == |v.mem|
    && (forall f :: f in v.owner ==> f in w.owner && w.owner[f] == v.owner[f])
    && (forall f :: f in w.owner && f !in v.owner ==> InSpace(w.owner[f], s))
    && (forall f :: f in v.owner && f < |v.mem| && !IsTable(v.owner[f], s) ==> w.mem[f] == v.mem[f])
  }

  lemma KeepsTrans(u: World, v: World, w: World, s: nat)
    requires Keeps(u, v, s) && Keeps(v, w, s)
    ensures Keeps(u, w, s)
  {
  }

  /** Rewriting the entry of a page that has frame `f` already. */
  lemma KeepsOld(v: World, w: World, s: nat, p: nat, f: nat)
    requires Owned(v) && Placed(v) && Loc(s, 0, p) in v.node && v.node[Loc(s, 0, p)] == f
    requires Grows(Place(v, s, p, f), w, s)
    ensures Keeps(v, w, s)
  {
    assert v.owner[f] == Node(Loc(s, 0, p));
    assert Place(v, s, p, f) == v;
  }

  /** Taking a free frame and mapping it. */
  lemma KeepsNew(v: World, w: World, s: nat, p: nat, f: nat, data: Frame)
    requires Owned(v) && f < |v.bits| && !v.bits[f] && Grows(Place(Take(v, f, Held, data), s, p, f), w, s)
    ensures Keeps(v, w, s) && w.mem[f] == data && f !in v.owner
  {
    hide Place, Take, Owned;
    PlacedTake(v, s, p, f, data);
    KeepsPlaced(v, Place(Take(v, f, Held, data), s, p, f), w, s, p, f);
  }

  lemma KeepsPlaced(v: World, u: World, w: World, s: nat, p: nat, f: nat)
    requires Grows(u, w, s) && u.owner == v.owner[f := Node(Loc(s, 0, p))] && u.spaces == v.spaces && f < |u.mem|
    requires |u.mem| == |v.mem| && f !in v.owner && forall g :: 0 <= g < |v.mem| && g != f ==> u.mem[g] == v.mem[g]
    ensures Keeps(v, w, s) && w.mem[f] == u.mem[f]
  {
    assert f in u.owner && !IsTable(u.owner[f], s);
  }

  lemma PlacedTake(v: World, s: nat, p: nat, f: nat, data: Frame)
    requires Owned(v) && f < |v.bits| && !v.bits[f]
    ensures var u := Place(Take(v, f, Held, data), s, p, f);
      && f !in v.owner && u.owner == v.owner[f := Node(Loc(s, 0, p))] && u.spaces == v.spaces
      && |u.mem| == |v.mem| && f < |u.mem| && u.mem[f] == data
      && forall g :: 0 <= g < |v.mem| && g != f ==> u.mem[g] == v.mem[g]
  {
  }

  /** Taking a free frame that then finds no place. */
  lemma KeepsLost(v: World, w: World, s: nat, f: nat, data: Frame)
    requires Owned(v) && f < |v.bits| && !v.bits[f] && Grows(Take(v, f, Held, data), w, s)
    ensures f !in v.owner && f in w.owner && w.owner[f].Held?
    ensures forall g :: g in v.owner ==> g in w.owner && w.owner[g] == v.owner[g]
    ensures forall g :: g in w.owner && g !in v.owner && g != f ==> InSpace(w.owner[g], s)
    ensures forall g :: g in v.owner && !IsTable(v.owner[g], s) ==> w.mem[g] == v.mem[g]
    ensures w.spaces == v.spaces && |w.mem| == |v.mem|
  {
  }

  /** The pages [lo, hi) of `s` are allocated, every other page is as before. */
  ghost predicate Backed(v: World, w: World, s: nat, lo: nat, hi: nat, flags: bv12)
    requires Owned(v) && Placed(v) && Owned(w) && Placed(w)
  {
    && (forall t, q: nat {:trigger Flat(w, t, q)} :: !(t == s && lo <= q < hi) ==> Flat(w, t, q) == Flat(v, t, q))
    && (forall q: nat {:trigger Flat(w, s, q)} :: lo <= q < hi ==> Granted(v, w, Flat(v, s, q), Flat(w, s, q), flags))
  }

  lemma BackedNone(w: World, boot: Frame, s: nat, lo: nat, hi: nat, flags: bv12)
    requires Inv(w, boot) && hi <= lo
    ensures Backed(w, w, s, lo, hi, flags) && Keeps(w, w, s)
  {
  }

  lemma BackedNext(v: World, w: World, u: World, boot: Frame, s: nat, lo: nat, hi: nat, flags: bv12, e: Word)
    requires Inv(v, boot) && Inv(w, boot) && Inv(u, boot) && Present(flags) && lo <= hi
    requires Backed(v, w, s, lo, hi, flags) && Keeps(w, u, s)
    requires FlatSet(w, u, s, hi, e) && Granted(v, u, Flat(v, s, hi), e, flags)
    ensures Backed(v, u, s, lo, hi + 1, flags)
  {
    hide Inv, Flat, Keeps, Granted, Owned, Placed;
    InvParts(v, boot);
    InvParts(w, boot);
    InvParts(u, boot);
    forall q: nat | lo <= q < hi + 1 ensures Granted(v, u, Flat(v, s, q), Flat(u, s, q), flags) {
      if q < hi {
        assert Granted(v, w, Flat(v, s, q), Flat(w, s, q), flags) && Flat(u, s, q) == Flat(w, s, q);
        GrantedKeeps(v, w, u, boot, s, q, flags);
      }
    }
    forall t, q: nat | !(t == s && lo <= q < hi + 1) ensures Flat(u, t, q) == Flat(v, t, q) {
      assert Flat(w, t, q) == Flat(v, t, q);
    }
  }

  /** A page that was granted stays as it was while more is taken. */
  lemma GrantedKeeps(v: World, w: World, u: World, boot: Frame, s: nat, q: nat, flags: bv12)
    requires Inv(w, boot) && Owned(v) && Placed(v) && Owned(w) && Placed(w) && Keeps(w, u, s) && Present(flags)
    requires Granted(v, w, Flat(v, s, q), Flat(w, s, q), flags)
    ensures Granted(v, u, Flat(v, s, q), Flat(w, s, q), flags)
  {
    FlatLeaf(w, boot, s, q);
    hide Inv;
  }

  lemma InvParts(w: World, boot: Frame)
    requires Inv(w, boot)
    ensures Owned(w) && Placed(w) && Shape(w)
  {
  }

  /** A data page is given new contents. */
  lemma WriteDataOk(w: World, boot: Frame, s: nat, p: nat, data: Frame)
    requires Inv(w, boot) && Loc(s, 0, p) in w.node && |data| == 512
    ensures var v := w.(mem := w.mem[w.node[Loc(s, 0, p)] := data]); Inv(v, boot) && SameFlat(w, v)
  {
    var v := w.(mem := w.mem[w.node[Loc(s, 0, p)] := data]);
    DataPlaced(w, s, p, data);
    hide Owned, Placed;
    forall l, i: nat | l in v.node && l.level > 0 && i < 512 ensures EntryAt(v, l, i) == EntryAt(w, l, i) {
      DataEntry(w, s, p, data, l, i);
    }
    hide EntryAt;
    forall l, i: nat | IsSlot(v, l, i) ensures SlotOk(v, l, i) {
      assert IsSlot(w, l, i) && SlotOk(w, l, i);
    }
    forall l | l in v.node ensures Hangs(v, l) {
      assert Hangs(w, l);
    }
    forall l, i | l in v.node && l.level == 4 && 256 <= i < 512 ensures EntryAt(v, l, i) == boot[i] {
      assert EntryAt(w, l, i) == boot[i];
    }
    OpenSame(w, v);
  }

  lemma DataPlaced(w: World, s: nat, p: nat, data: Frame)
    requires Owned(w) && Placed(w) && Loc(s, 0, p) in w.node && |data| == 512
    ensures var v := w.(mem := w.mem[w.node[Loc(s, 0, p)] := data]); Owned(v) && Placed(v)
  {
  }

  /** A data page is no table. */
  lemma DataEntry(w: World, s: nat, p: nat, data: Frame, l: Loc, i: nat)
    requires Owned(w) && Placed(w) && Loc(s, 0, p) in w.node && |data| == 512 && l in w.node && l.level > 0 && i < 512
    requires var v := w.(mem := w.mem[w.node[Loc(s, 0, p)] := data]); Owned(v) && Placed(v)
    ensures EntryAt(w.(mem := w.mem[w.node[Loc(s, 0, p)] := data]), l, i) == EntryAt(w, l, i)
  {
    assert w.owner[w.node[l]] == Node(l) && w.owner[w.node[Loc(s, 0, p)]] == Node(Loc(s, 0, p));
  }

  lemma FieldsPlaced(w: World, s: nat, sp: Space)
    requires Owned(w) && Placed(w)
    ensures var v := w.(spaces := w.spaces[s := sp]);
      Owned(v) && Placed(v) && forall l, i: nat :: l in w.node && i < 512 ==> EntryAt(v, l, i) == EntryAt(w, l, i)
  {
  }

  /** The break and the mmap hint of a space are no concern of the trees. */
  lemma SpaceFieldsOk(w: World, boot: Frame, s: nat, sp: Space)
    requires Inv(w, boot) && s in w.spaces && sp.pml4 == w.spaces[s].pml4
    ensures var v := w.(spaces := w.spaces[s := sp]); Inv(v, boot) && SameFlat(w, v)
  {
    hide Owned, Placed, EntryAt, Slots, Open;
    var v := w.(spaces := w.spaces[s := sp]);
    FieldsPlaced(w, s, sp);
    forall l | l in v.node ensures Hangs(v, l) {
      assert Hangs(w, l);
    }
    SlotsSame(w, v);
    OpenSame(w, v);
    forall l, i | l in v.node && l.level == 4 && 256 <= i < 512 ensures EntryAt(v, l, i) == boot[i] {
      assert EntryAt(w, l, i) == boot[i];
    }
  }

  lemma SlotsSame(v: World, w: World)
    requires Owned(v) && Placed(v) && Owned(w) && Placed(w) && Slots(v) && w.node == v.node
    requires forall l, i: nat {:trigger EntryAt(w, l, i)} :: l in w.node && l.level > 0 && i < 512 ==>
      EntryAt(w, l, i) == EntryAt(v, l, i)
    ensures Slots(w)
  {
    hide Owned, Placed, EntryAt;
    forall l, i: nat | IsSlot(w, l, i) ensures SlotOk(w, l, i) {
      assert IsSlot(v, l, i) && SlotOk(v, l, i);
    }
  }
}
