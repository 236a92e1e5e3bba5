/** The address-space operations of the kernel, on physical memory that holds
    page tables and user data side by side. */
module Vmm {
  import opened Machine
  import opened Pmm
  import opened PageTables

  const ADDR_FRAMES: nat := 0x100_0000_0000

  function Zeros(): Frame { seq(512, _ => ZERO) }

  /** `e & ADDR_MASK`, as a frame number. */
  function Masked(e: Word): nat { e.hi % ADDR_FRAMES }

  lemma {:induction false} PathDown(w: World, s: nat, p: nat, level: nat)
    requires Shape(w) && 1 <= level <= 4 && p < USER_PAGES
    ensures PathLoc(s, p, 1) in w.node ==> PathLoc(s, p, level) in w.node
  {
    if level > 1 {
      PathDown(w, s, p, level - 1);
      assert PathLoc(s, p, level - 1) in w.node ==> Hangs(w, PathLoc(s, p, level - 1));
      PathStep(s, p, level);
    }
  }

  /** One step of the walk: the entry leads on exactly when the tree does. */
  lemma WalkStep(w: World, boot: Frame, s: nat, p: nat, level: nat)
    requires Inv(w, boot) && p < USER_PAGES && 2 <= level <= 4 && PathLoc(s, p, level) in w.node
    ensures var t := w.node[PathLoc(s, p, level)]; t < |w.mem| && |w.mem[t]| == 512
    ensures var e := w.mem[w.node[PathLoc(s, p, level)]][Prefix(p, level - 1) % 512];
      if Present(e.lo) && !Huge(e.lo)
      then PathLoc(s, p, level - 1) in w.node && w.node[PathLoc(s, p, level - 1)] == Masked(e)
      else Loc(s, 1, p / 512) !in w.node
  {
    var i := Prefix(p, level - 1) % 512;
    PrefixTop(p);
    PathStep(s, p, level);
    PathDown(w, s, p, level - 1);
    assert IsSlot(w, PathLoc(s, p, level), i);
    assert SlotOk(w, PathLoc(s, p, level), i);
  }

  /** What the walk reads, from memory and a table frame alone. */
  function WalkEntry(mem: seq<Frame>, t: nat, p: nat, level: nat): Word
    decreases level
  {
    if t >= |mem| || |mem[t]| != 512 || level == 0 then ZERO
    else if level == 1 then mem[t][p % 512]
    else
      var e := mem[t][Prefix(p, level - 1) % 512];
      if !Present(e.lo) || Huge(e.lo) then ZERO else WalkEntry(mem, Masked(e), p, level - 1)
  }

  /** The four-level tree refines the flat map: walking the tables in memory from
      the root of `s` reads exactly the flat entry, for every page. */
  lemma {:induction false} WalkIsFlat(w: World, boot: Frame, s: nat, p: nat, level: nat)
    requires Inv(w, boot) && Parts(w) && p < USER_PAGES && 1 <= level <= 4 && PathLoc(s, p, level) in w.node
    ensures WalkEntry(w.mem, w.node[PathLoc(s, p, level)], p, level) == Flat(w, s, p)
  {
    PrefixTop(p);
    if level > 1 {
      WalkStep(w, boot, s, p, level);
      var e := w.mem[w.node[PathLoc(s, p, level)]][Prefix(p, level - 1) % 512];
      if Present(e.lo) && !Huge(e.lo) { WalkIsFlat(w, boot, s, p, level - 1); }
    }
  }

  /** What the processor lets user mode, or a store, do to page `p`: every entry on the
      way to it has to allow it. */
  function Allows(mem: seq<Frame>, t: nat, p: nat, level: nat, user: bool, store: bool): bool
    decreases level
  {
    t < |mem| && |mem[t]| == 512 && level > 0 &&
    var e := mem[t][Prefix(p, level - 1) % 512];
    && Present(e.lo) && (user ==> User(e.lo)) && (store ==> Writable(e.lo))
    && (level == 1 || (!Huge(e.lo) && Allows(mem, Masked(e), p, level - 1, user, store)))
  }

  /** A user page can be reached from user mode: so say the entries of all levels. */
  lemma {:induction false} UserUp(w: World, boot: Frame, s: nat, p: nat, level: nat)
    requires Inv(w, boot) && Parts(w) && p < USER_PAGES && 1 <= level <= 4 && User(Flat(w, s, p).lo)
    ensures PathLoc(s, p, level) in w.node && User(EntryAt(w, PathLoc(s, p, level), Prefix(p, level - 1) % 512).lo)
  {
    PrefixTop(p);
    var l, i := PathLoc(s, p, level), Prefix(p, level - 1) % 512;
    if level > 1 {
      UserUp(w, boot, s, p, level - 1);
      var m, j := PathLoc(s, p, level - 1), Prefix(p, level - 2) % 512;
      assert IsSlot(w, m, j) && OpenAt(w, m, j);
      PathStep(s, p, level);
    } else {
      ZeroFlags();
    }
  }

  /** The leaf entry alone decides: the upper levels forbid nothing that it allows. */
  lemma {:induction false} LeafDecides(w: World, boot: Frame, s: nat, p: nat, level: nat, user: bool, store: bool)
    requires Inv(w, boot) && Parts(w) && p < USER_PAGES && 1 <= level <= 4 && PathLoc(s, p, level) in w.node
    ensures Allows(w.mem, w.node[PathLoc(s, p, level)], p, level, user, store) <==>
      var e := Flat(w, s, p); Present(e.lo) && (user ==> User(e.lo)) && (store ==> Writable(e.lo))
  {
    hide Inv, Owned, Placed, Present, User, Writable, Huge, Flat;
    if level > 1 {
      AccessStep(w, boot, s, p, level);
      var e := w.mem[w.node[PathLoc(s, p, level)]][Prefix(p, level - 1) % 512];
      if Present(e.lo) { LeafDecides(w, boot, s, p, level - 1, user, store); }
    } else {
      AccessLeaf(w, boot, s, p);
    }
  }

  lemma AccessStep(w: World, boot: Frame, s: nat, p: nat, level: nat)
    requires Inv(w, boot) && Parts(w) && p < USER_PAGES && 2 <= level <= 4 && PathLoc(s, p, level) in w.node
    ensures var t := w.node[PathLoc(s, p, level)]; t < |w.mem| && |w.mem[t]| == 512
    ensures var e := w.mem[w.node[PathLoc(s, p, level)]][Prefix(p, level - 1) % 512];
      if Present(e.lo)
      then
        && PathLoc(s, p, level - 1) in w.node && w.node[PathLoc(s, p, level - 1)] == Masked(e)
        && !Huge(e.lo) && Writable(e.lo) && (User(Flat(w, s, p).lo) ==> User(e.lo))
      else !Present(Flat(w, s, p).lo)
  {
    var l, i := PathLoc(s, p, level), Prefix(p, level - 1) % 512;
    if User(Flat(w, s, p).lo) { UserUp(w, boot, s, p, level); }
    PrefixTop(p);
    WalkStep(w, boot, s, p, level);
    ZeroFlags();
    assert IsSlot(w, l, i) && OpenAt(w, l, i) && SlotOk(w, l, i);
    hide Present, User, Writable, Huge;
  }

  lemma AccessLeaf(w: World, boot: Frame, s: nat, p: nat)
    requires Inv(w, boot) && Parts(w) && p < USER_PAGES && PathLoc(s, p, 1) in w.node
    ensures var t := w.node[PathLoc(s, p, 1)]; t < |w.mem| && |w.mem[t]| == 512 && w.mem[t][p % 512] == Flat(w, s, p)
    ensures Prefix(p, 0) == p
  {
    PrefixTop(p);
  }

  /** The page of `s` may take frame `f`: its own already, or one placed nowhere. */
  ghost predicate Mappable(w: World, s: nat, p: nat, f: nat) {
    if Loc(s, 0, p) in w.node then w.node[Loc(s, 0, p)] == f else f in w.owner && w.owner[f].Held?
  }

  /** Or'ing PAGE_USER into a table entry. */
  lemma UserTable(w: World, boot: Frame, l: Loc, i: nat, flags: bv12)
    requires Inv(w, boot) && IsSlot(w, l, i) && l.level >= 2 && Child(l, i) in w.node
    requires Present(flags) && !Huge(flags) && EntryAt(w, l, i).lo == flags && Reached(w, l)
    ensures var v := SetEntry(w, l, i, Word(w.node[Child(l, i)], flags | USER));
      Inv(v, boot) && SameFlat(w, v) && Grows(w, v, l.space) && Reached(v, Child(l, i))
  {
    assert OpenAt(w, l, i);
    OrUser(flags);
    hide Present, Writable, User, Huge;
    ReflagOk(w, boot, l, i, flags | USER);
    ChildParent(l, i);
  }

  lemma OrUser(flags: bv12)
    ensures User(flags | USER) && (Present(flags) ==> Present(flags | USER))
    ensures (Writable(flags) ==> Writable(flags | USER)) && (!Huge(flags) ==> !Huge(flags | USER))
  {
  }

  /** What a new table's entry says. */
  function TableFlags(wantUser: bool): (flags: bv12)
    ensures Present(flags) && !Huge(flags) && Writable(flags) && (User(flags) <==> wantUser)
  {
    PRESENT | WRITE | if wantUser then USER else 0
  }

  /** Hanging a fresh zeroed table. */
  lemma NewTable(w: World, boot: Frame, l: Loc, i: nat, f: nat, flags: bv12)
    requires Inv(w, boot) && IsSlot(w, l, i) && l.level >= 2 && Child(l, i) !in w.node
    requires f < |w.bits| && !w.bits[f] && Present(flags) && !Huge(flags)
    requires Writable(flags) && (User(flags) ==> Reached(w, l))
    ensures var u := Take(w, f, Held, Zeros()); Inv(u, boot)
    ensures var v := Link(Take(w, f, Held, Zeros()), l, i, f, flags);
      Inv(v, boot) && SameFlat(w, v) && Grows(w, v, l.space) && (User(flags) ==> Reached(v, Child(l, i)))
  {
    hide Present, Writable, User, Huge, Reached, Inv, Take, Link, SameFlat, Grows, Linkable;
    InvParts(w, boot);
    var u := Take(w, f, Held, Zeros());
    TakeOk(w, boot, f, Held, Zeros());
    InvParts(u, boot);
    hide Owned, Placed, Shape;
    TakeReached(w, l, i, f, flags);
    LinkOk(u, boot, l, i, f, flags);
    InvParts(Link(u, l, i, f, flags), boot);
    LinkReached(u, l, i, f, flags);
    LinkFlat(u, l, i, f, flags);
    SameTwice(w, u, Link(u, l, i, f, flags));
    NewTableGrows(w, l, i, f, flags);
  }

  lemma SameTwice(u: World, v: World, w: World)
    requires Parts(u) && Parts(v) && Parts(w) && SameFlat(u, v) && SameFlat(v, w)
    ensures SameFlat(u, w)
  {
    hide Owned, Placed;
  }

  lemma TakeReached(w: World, l: Loc, i: nat, f: nat, flags: bv12)
    requires f < |w.bits| && f < |w.mem| && Parts(w) && Parts(Take(w, f, Held, Zeros())) && IsSlot(w, l, i)
    requires Child(l, i) !in w.node && !w.bits[f] && Present(flags) && !Huge(flags) && l.level >= 2
    ensures var u := Take(w, f, Held, Zeros());
      l in u.node && Linkable(u, l, i, f, flags) && (Reached(w, l) ==> Reached(u, l))
  {
    hide User, Present, Huge;
  }

  lemma LinkReached(w: World, l: Loc, i: nat, f: nat, flags: bv12)
    requires Parts(w) && Linkable(w, l, i, f, flags) && Parts(Link(w, l, i, f, flags))
    ensures User(flags) ==> Reached(Link(w, l, i, f, flags), Child(l, i))
  {
    hide User, Present, Huge;
    ChildParent(l, i);
  }

  lemma NewTableGrows(w: World, l: Loc, i: nat, f: nat, flags: bv12)
    requires Owned(w) && Placed(w) && IsSlot(w, l, i) && l.level >= 2 && Child(l, i) !in w.node
    requires f < |w.bits| && !w.bits[f]
    requires var u := Take(w, f, Held, Zeros()); Owned(u) && Placed(u)
    ensures Grows(w, Link(Take(w, f, Held, Zeros()), l, i, f, flags), l.space)
  {
    var v := Link(Take(w, f, Held, Zeros()), l, i, f, flags);
    hide Owned, Placed, Link, Take;
    LinkedFields(w, l, i, f, flags);
    GrowsLinked(w, v, l, Child(l, i), f);
  }

  lemma LinkedFields(w: World, l: Loc, i: nat, f: nat, flags: bv12)
    requires Owned(w) && Placed(w) && IsSlot(w, l, i) && l.level >= 2 && f < |w.bits| && !w.bits[f]
    requires var u := Take(w, f, Held, Zeros()); Owned(u) && Placed(u)
    ensures f !in w.owner && w.node[l] in w.owner && w.owner[w.node[l]] == Node(l)
    ensures var v := Link(Take(w, f, Held, Zeros()), l, i, f, flags);
      && v.node == w.node[Child(l, i) := f] && v.owner == w.owner[f := Node(Child(l, i))] && v.spaces == w.spaces
      && |v.mem| == |w.mem| && forall g :: 0 <= g < |w.mem| && g != f && g != w.node[l] ==> v.mem[g] == w.mem[g]
  {
  }

  lemma GrowsLinked(w: World, v: World, l: Loc, c: Loc, f: nat)
    requires l in w.node && w.node[l] in w.owner && w.owner[w.node[l]] == Node(l) && f !in w.owner && c !in w.node
    requires v.node == w.node[c := f] && v.owner == w.owner[f := Node(c)] && v.spaces == w.spaces
    requires |v.mem| == |w.mem| && forall g :: 0 <= g < |w.mem| && g != f && g != w.node[l] ==> v.mem[g] == w.mem[g]
    requires c.space == l.space && 1 <= c.level <= 3 && l.level >= 1
    ensures Grows(w, v, l.space)
  {
  }

  /** Writing the leaf entry of a page whose leaf table exists. */
  ghost function WithLeaf(w: World, s: nat, p: nat, f: nat, flags: bv12): World
    requires Owned(w) && Placed(w) && Loc(s, 1, p / 512) in w.node
  {
    Place(SetEntry(w, Loc(s, 1, p / 512), p % 512, Word(f, flags)), s, p, f)
  }

  lemma LeafGrows(w: World, s: nat, p: nat, f: nat, flags: bv12)
    requires Owned(w) && Placed(w) && Loc(s, 1, p / 512) in w.node && Mappable(w, s, p, f)
    ensures Grows(Place(w, s, p, f), WithLeaf(w, s, p, f, flags), s)
  {
  }

  lemma LeafSet(w: World, boot: Frame, s: nat, p: nat, f: nat, flags: bv12)
    requires Inv(w, boot) && Loc(s, 1, p / 512) in w.node && Present(flags) && Mappable(w, s, p, f)
    requires User(flags) ==> Reached(w, Loc(s, 1, p / 512))
    ensures var v := WithLeaf(w, s, p, f, flags);
      Inv(v, boot) && FlatSet(w, v, s, p, Word(f, flags)) && Grows(Place(w, s, p, f), v, s)
  {
    hide Inv, Grows, SameFlat, FlatSet;
    InvParts(w, boot);
    hide Shape;
    var l, v := Loc(s, 1, p / 512), WithLeaf(w, s, p, f, flags);
    assert Child(l, p % 512) == Loc(s, 0, p);
    LeafGrows(w, s, p, f, flags);
    if Loc(s, 0, p) in w.node {
      ReflagOk(w, boot, l, p % 512, flags);
      assert w.owner[f] == Node(Loc(s, 0, p));
      assert v == SetEntry(w, l, p % 512, Word(f, flags));
    } else {
      LinkOk(w, boot, l, p % 512, f, flags);
      InvParts(v, boot);
      LinkFlat(w, l, p % 512, f, flags);
    }
  }

  lemma RootIs(w: World, boot: Frame, s: nat)
    requires Inv(w, boot) && s in w.spaces
    ensures Loc(s, 4, 0) in w.node && w.spaces[s].pml4 == w.node[Loc(s, 4, 0)]
  {
  }

  lemma RootReached(w: World, s: nat)
    requires Parts(w)
    ensures Reached(w, Loc(s, 4, 0))
  {
  }

  lemma SlotIs(w: World, boot: Frame, l: Loc, i: nat)
    requires Inv(w, boot) && IsSlot(w, l, i)
    ensures w.node[l] < |w.mem| && |w.mem[w.node[l]]| == 512 && Owned(w) && Placed(w) && SlotOk(w, l, i)
  {
  }

  lemma NoStep(w: World, boot: Frame, s: nat)
    requires Inv(w, boot)
    ensures SameFlat(w, w) && Grows(w, w, s)
  {
    InvParts(w, boot);
  }

  lemma StillMappable(u: World, v: World, s: nat, p: nat, f: nat)
    requires Grows(u, v, s) && Mappable(u, s, p, f)
    ensures Mappable(v, s, p, f)
  {
  }

  lemma Steps(u: World, v: World, w: World, boot: Frame, s: nat)
    requires Inv(u, boot) && Inv(v, boot) && Inv(w, boot)
    requires SameFlat(u, v) && Grows(u, v, s) && SameFlat(v, w) && Grows(v, w, s)
    ensures SameFlat(u, w) && Grows(u, w, s)
  {
    hide Inv, Grows;
    InvParts(u, boot);
    InvParts(v, boot);
    InvParts(w, boot);
    hide Owned, Placed;
    GrowsTrans(u, v, w, s);
  }

  lemma PlaceGrows(u: World, v: World, w: World, s: nat, p: nat, f: nat)
    requires Owned(u) && Placed(u) && Grows(u, v, s) && Mappable(u, s, p, f) && Grows(Place(v, s, p, f), w, s)
    ensures Grows(Place(u, s, p, f), w, s)
  {
    PlaceBoth(u, v, s, p, f);
    hide Grows;
    GrowsTrans(Place(u, s, p, f), Place(v, s, p, f), w, s);
  }

  lemma PlaceBoth(u: World, v: World, s: nat, p: nat, f: nat)
    requires Owned(u) && Placed(u) && Grows(u, v, s) && Mappable(u, s, p, f)
    ensures Grows(Place(u, s, p, f), Place(v, s, p, f), s)
  {
    hide Owned, Placed, Mappable;
    NoTable(u, s, p, f);
    OwnersBoth(u, v, s, p, f);
  }

  lemma NoTable(u: World, s: nat, p: nat, f: nat)
    requires Owned(u) && Placed(u) && Mappable(u, s, p, f)
    ensures f in u.owner && !IsTable(u.owner[f], s)
  {
  }

  lemma OwnersBoth(u: World, v: World, s: nat, p: nat, f: nat)
    requires Grows(u, v, s) && f in u.owner && !IsTable(u.owner[f], s)
    ensures var a, b := Place(u, s, p, f), Place(v, s, p, f);
      && (forall g :: g in a.owner ==> g in b.owner && b.owner[g] == a.owner[g])
      && (forall g :: g in b.owner && g !in a.owner ==> IsTable(b.owner[g], s))
      && (forall g :: g in a.owner && g < |a.mem| && !IsTable(a.owner[g], s) ==> b.mem[g] == a.mem[g])
  {
  }

  lemma LastStep(u: World, v: World, w: World, boot: Frame, s: nat, p: nat, e: Word)
    requires Inv(u, boot) && Inv(v, boot) && Inv(w, boot)
    requires SameFlat(u, v) && Grows(u, v, s) && Mappable(u, s, p, e.hi)
    requires FlatSet(v, w, s, p, e) && Grows(Place(v, s, p, e.hi), w, s)
    ensures FlatSet(u, w, s, p, e) && Grows(Place(u, s, p, e.hi), w, s)
  {
    hide Inv, Grows;
    InvParts(u, boot);
    InvParts(v, boot);
    InvParts(w, boot);
    hide Owned, Placed;
    PlaceGrows(u, v, w, s, p, e.hi);
  }

  ghost predicate Parts(w: World) { Owned(w) && Placed(w) }

  lemma LeafIs(w: World, boot: Frame, s: nat, p: nat)
    requires Inv(w, boot)
    ensures Loc(s, 0, p) in w.node ==> Loc(s, 1, p / 512) in w.node
    ensures Loc(s, 1, p / 512) in w.node ==> var t := w.node[Loc(s, 1, p / 512)];
      t < |w.mem| && |w.mem[t]| == 512 && (Present(w.mem[t][p % 512].lo) <==> Loc(s, 0, p) in w.node)
  {
    FlatLeaf(w, boot, s, p);
  }

  lemma ZeroUsed(w: World, boot: Frame)
    requires Inv(w, boot)
    ensures |w.bits| > 0 && w.bits[0]
  {
  }

  lemma LeafEntry(w: World, boot: Frame, s: nat, p: nat)
    requires Inv(w, boot) && Parts(w)
    ensures if Loc(s, 1, p / 512) in w.node
      then var t := w.node[Loc(s, 1, p / 512)]; t < |w.mem| && |w.mem[t]| == 512 && w.mem[t][p % 512] == Flat(w, s, p)
      else !Present(Flat(w, s, p).lo)
    ensures Present(Flat(w, s, p).lo) ==> Flat(w, s, p).hi > 0 && Masked(Flat(w, s, p)) == Flat(w, s, p).hi
  {
    FlatLeaf(w, boot, s, p);
  }

  lemma LeafFrame(w: World, boot: Frame, s: nat, p: nat)
    requires Inv(w, boot) && Loc(s, 0, p) in w.node && Loc(s, 1, p / 512) in w.node
    ensures var t := w.node[Loc(s, 1, p / 512)];
      t < |w.mem| && |w.mem[t]| == 512 && Masked(w.mem[t][p % 512]) == w.node[Loc(s, 0, p)]
    ensures var f := w.node[Loc(s, 0, p)]; f < |w.bits| && w.bits[f]
  {
    FlatLeaf(w, boot, s, p);
  }

  /** Keeps, except that the frames `lost` are used and placed nowhere. */
  ghost predicate KeepsBut(v: World, w: World, s: nat, lost: set<nat>) {
    && w.spaces == v.spaces && |w.mem| == |v.mem|
    && (forall f :: f in v.owner ==> f in w.owner && w.owner[f] == v.owner[f])
    && (forall f :: f in w.owner && f !in v.owner ==> if f in lost then w.owner[f].Held? else InSpace(w.owner[f], s))
    && (forall f :: f in v.owner && f < |v.mem| && !IsTable(v.owner[f], s) ==> w.mem[f] == v.mem[f])
    && (forall f :: f in lost ==> f in w.owner && f !in v.owner)
  }

  lemma KeepsAll(v: World, w: World, s: nat)
    requires Keeps(v, w, s)
    ensures KeepsBut(v, w, s, {})
  {
  }

  lemma FreshMappable(v: World, boot: Frame, s: nat, p: nat, f: nat, data: Frame)
    requires Inv(v, boot) && Parts(v) && !Present(Flat(v, s, p).lo) && f < |v.mem| && f < |v.bits|
    ensures Mappable(Take(v, f, Held, data), s, p, f)
  {
    FlatLeaf(v, boot, s, p);
  }

  lemma OldMappable(v: World, boot: Frame, s: nat, p: nat)
    requires Inv(v, boot) && Parts(v) && Present(Flat(v, s, p).lo)
    ensures Mappable(v, s, p, Flat(v, s, p).hi)
  {
    FlatLeaf(v, boot, s, p);
  }

  lemma FlatSetAfter(v: World, x: World, u: World, s: nat, p: nat, e: Word)
    requires Parts(v) && Parts(x) && Parts(u) && SameFlat(v, x) && FlatSet(x, u, s, p, e)
    ensures FlatSet(v, u, s, p, e)
  {
    hide Owned, Placed, Flat;
  }

  lemma BackedSame(w: World, v: World, u: World, boot: Frame, s: nat, lo: nat, hi: nat, flags: bv12)
    requires Inv(v, boot) && Parts(w) && Parts(v) && Parts(u) && Present(flags)
    requires Backed(w, v, s, lo, hi, flags) && SameFlat(v, u) && |u.mem| == |v.mem|
    requires forall g :: g in v.owner && g < |v.mem| && !IsTable(v.owner[g], s) ==> u.mem[g] == v.mem[g]
    ensures Backed(w, u, s, lo, hi, flags)
  {
    forall q: nat | lo <= q < hi ensures Granted(w, u, Flat(w, s, q), Flat(u, s, q), flags) {
      assert Granted(w, v, Flat(w, s, q), Flat(v, s, q), flags) && Flat(u, s, q) == Flat(v, s, q);
      FlatLeaf(v, boot, s, q);
    }
    forall t, q: nat | !(t == s && lo <= q < hi) ensures Flat(u, t, q) == Flat(w, t, q) {
      assert Flat(v, t, q) == Flat(w, t, q);
    }
  }

  /** One page of vmm_alloc_range: a new frame was mapped. */
  lemma NewFrame(w: World, v: World, u: World, boot: Frame, s: nat, lo: nat, p: nat, flags: bv12, f: nat)
    requires Inv(w, boot) && Inv(v, boot) && Inv(u, boot) && Parts(w) && Parts(v) && Parts(u) && Present(flags)
    requires lo <= p
    requires Backed(w, v, s, lo, p, flags) && Keeps(w, v, s) && !Present(Flat(v, s, p).lo)
    requires f < |v.bits| == |v.mem| && !v.bits[f]
    requires var x := Take(v, f, Held, Zeros());
      Parts(x) && FlatSet(x, u, s, p, Word(f, flags)) && Grows(Place(x, s, p, f), u, s)
    ensures Backed(w, u, s, lo, p + 1, flags) && Keeps(w, u, s)
  {
    hide Inv, Owned, Placed, FlatSet, SameFlat, Grows;
    TakeOk(v, boot, f, Held, Zeros());
    FlatSetAfter(v, Take(v, f, Held, Zeros()), u, s, p, Word(f, flags));
    KeepsNew(v, u, s, p, f, Zeros());
    KeepsTrans(w, v, u, s);
    assert Flat(v, s, p) == Flat(w, s, p);
    BackedNext(w, v, u, boot, s, lo, p, flags, Word(f, flags));
  }

  /** ... its frame was found but its table was not: the frame is lost. */
  lemma LostFrame(w: World, v: World, u: World, boot: Frame, s: nat, lo: nat, p: nat, flags: bv12, f: nat)
    requires Inv(w, boot) && Inv(v, boot) && Inv(u, boot) && Parts(w) && Parts(v) && Parts(u) && Present(flags)
    requires Backed(w, v, s, lo, p, flags) && Keeps(w, v, s)
    requires f < |v.bits| == |v.mem| && !v.bits[f]
    requires var x := Take(v, f, Held, Zeros()); Parts(x) && SameFlat(x, u) && Grows(x, u, s)
    ensures Backed(w, u, s, lo, p, flags) && KeepsBut(w, u, s, {f})
  {
    hide Inv, Owned, Placed, SameFlat, Grows, Backed;
    TakeOk(v, boot, f, Held, Zeros());
    KeepsLost(v, u, s, f, Zeros());
    SameFlatTrans(v, Take(v, f, Held, Zeros()), u);
    BackedSame(w, v, u, boot, s, lo, p, flags);
  }

  lemma SameFlatTrans(v: World, x: World, u: World)
    requires Parts(v) && Parts(x) && Parts(u) && SameFlat(v, x) && SameFlat(x, u)
    ensures SameFlat(v, u)
  {
    hide Owned, Placed, Flat;
  }

  /** ... the page was there already and its flags were rewritten. */
  lemma Reflagged(w: World, v: World, u: World, boot: Frame, s: nat, lo: nat, p: nat, flags: bv12)
    requires Inv(w, boot) && Inv(v, boot) && Inv(u, boot) && Parts(w) && Parts(v) && Parts(u) && Present(flags)
    requires lo <= p
    requires Backed(w, v, s, lo, p, flags) && Keeps(w, v, s) && Present(Flat(v, s, p).lo) && Writable(flags)
    requires var f := Flat(v, s, p).hi; FlatSet(v, u, s, p, Word(f, flags)) && Grows(Place(v, s, p, f), u, s)
    ensures Backed(w, u, s, lo, p + 1, flags) && Keeps(w, u, s)
  {
    hide Inv, Owned, Placed, FlatSet, SameFlat, Grows;
    var f := Flat(v, s, p).hi;
    FlatLeaf(v, boot, s, p);
    KeepsOld(v, u, s, p, f);
    KeepsTrans(w, v, u, s);
    assert Flat(v, s, p) == Flat(w, s, p);
    BackedNext(w, v, u, boot, s, lo, p, flags, Word(f, flags));
  }

  /** ... the page was there already and stays as it is. */
  lemma OldFrame(w: World, v: World, boot: Frame, s: nat, lo: nat, p: nat, flags: bv12)
    requires Parts(w) && Parts(v) && lo <= p && Backed(w, v, s, lo, p, flags)
    requires Present(Flat(v, s, p).lo) && !Writable(flags)
    ensures Backed(w, v, s, lo, p + 1, flags)
  {
    hide Owned, Placed;
    assert Flat(v, s, p) == Flat(w, s, p);
  }

  // ---- How many frames a range takes ----

  /** The tables below the root on the way to page `p`. */
  ghost function Tables(s: nat, p: nat): set<Loc> { {PathLoc(s, p, 3), PathLoc(s, p, 2), PathLoc(s, p, 1)} }

  /** Everything that the pages [lo, hi) of `s` need a frame for, tables and pages. */
  ghost function Places(s: nat, lo: nat, hi: nat): set<Loc> {
    if hi <= lo then {} else Places(s, lo, hi - 1) + Tables(s, hi - 1) + {Loc(s, 0, hi - 1)}
  }

  /** The frames that the pages [lo, hi) of `s` take beyond what is there. */
  ghost function Needed(have: set<Loc>, s: nat, lo: nat, hi: nat): nat { |Places(s, lo, hi) - have| }

  /** One more place, and one more frame if it was missing. */
  ghost predicate Hung(a: set<Loc>, b: set<Loc>, x: Loc, used: nat, now: nat) {
    b == a + {x} && now == used + if x in a then 0 else 1
  }

  ghost predicate PathHung(a: set<Loc>, b: set<Loc>, s: nat, p: nat, used: nat, now: nat) {
    b == a + Tables(s, p) + {Loc(s, 0, p)} && now + |a| == used + |a + Tables(s, p)|
  }

  ghost predicate PathStuck(a: set<Loc>, s: nat, p: nat, used: nat, total: nat) {
    total + |a| < used + |a + Tables(s, p)|
  }

  /** Page `p` is there with its tables, and took as many frames as it adds places. */
  ghost predicate Paid(a: set<Loc>, b: set<Loc>, s: nat, p: nat, used: nat, now: nat) {
    b == a + Tables(s, p) + {Loc(s, 0, p)} && now + |a| == used + |b|
  }

  ghost predicate Unpaid(a: set<Loc>, s: nat, p: nat, used: nat, total: nat) {
    total + |a| < used + |a + Tables(s, p) + {Loc(s, 0, p)}|
  }

  ghost predicate Spent(a: set<Loc>, b: set<Loc>, s: nat, lo: nat, p: nat, used: nat, now: nat) {
    b == a + Places(s, lo, p) && now == used + Needed(a, s, lo, p)
  }

  lemma AddOne(a: set<Loc>, x: Loc)
    ensures |a + {x}| == |a| + if x in a then 0 else 1
  {
    if x in a { assert a + {x} == a; }
  }

  lemma {:induction false} SubsetCount(a: set<Loc>, b: set<Loc>)
    requires a <= b
    ensures |a| <= |b| && (a != b ==> |a| < |b|)
  {
    if a != b {
      var x :| x in b && x !in a;
      SubsetCount(a, b - {x});
    }
  }

  lemma {:induction false} UnionCount(a: set<Loc>, b: set<Loc>)
    ensures |a + b| == |a| + |b - a|
    decreases |b|
  {
    if b == {} {
      assert a + b == a && b - a == {};
    } else {
      var x :| x in b;
      var c := b - {x};
      UnionCount(a, c);
      assert a + b == (a + c) + {x};
      AddOne(a + c, x);
      if x in a {
        assert b - a == c - a;
      } else {
        assert b - a == (c - a) + {x};
        AddOne(c - a, x);
      }
    }
  }

  lemma HungThere(a: set<Loc>, x: Loc, used: nat)
    requires x in a
    ensures Hung(a, a, x, used, used)
  {
    assert a + {x} == a;
  }

  lemma HungMore(a: set<Loc>, b: set<Loc>, x: Loc, used: nat, now: nat)
    requires Hung(a, b, x, used, now)
    ensures a <= b && used <= now <= used + 1
  {
  }

  lemma HungNew(w: World, x: Loc, f: nat, used: nat)
    requires x !in w.node
    ensures Hung(w.node.Keys, w.node[x := f].Keys, x, used, used + 1)
  {
  }

  /** Three tables hung one below the other, then the page. */
  lemma PathDone(a: set<Loc>, b: set<Loc>, c: set<Loc>, d: set<Loc>, e: set<Loc>, s: nat, p: nat, used: nat, n: nat,
                 m: nat, now: nat)
    requires Hung(a, b, PathLoc(s, p, 3), used, n) && Hung(b, c, PathLoc(s, p, 2), n, m)
    requires Hung(c, d, PathLoc(s, p, 1), m, now)
    requires e == d + {Loc(s, 0, p)}
    ensures PathHung(a, e, s, p, used, now)
  {
    hide PathLoc;
    AddOne(a, PathLoc(s, p, 3));
    AddOne(b, PathLoc(s, p, 2));
    AddOne(c, PathLoc(s, p, 1));
    assert d == a + Tables(s, p);
  }

  /** The first table is missing, or the second, or the third, and no frame is left. */
  lemma StuckFirst(a: set<Loc>, s: nat, p: nat, used: nat)
    requires PathLoc(s, p, 3) !in a
    ensures PathStuck(a, s, p, used, used)
  {
    SubsetCount(a, a + Tables(s, p));
  }

  lemma StuckSecond(a: set<Loc>, b: set<Loc>, s: nat, p: nat, used: nat, now: nat)
    requires Hung(a, b, PathLoc(s, p, 3), used, now) && PathLoc(s, p, 2) !in b
    ensures PathStuck(a, s, p, used, now)
  {
    AddOne(a, PathLoc(s, p, 3));
    SubsetCount(b, a + Tables(s, p));
  }

  lemma StuckThird(a: set<Loc>, b: set<Loc>, c: set<Loc>, s: nat, p: nat, used: nat, n: nat, now: nat)
    requires Hung(a, b, PathLoc(s, p, 3), used, n) && Hung(b, c, PathLoc(s, p, 2), n, now) && PathLoc(s, p, 1) !in c
    ensures PathStuck(a, s, p, used, now)
  {
    AddOne(a, PathLoc(s, p, 3));
    AddOne(b, PathLoc(s, p, 2));
    SubsetCount(c, a + Tables(s, p));
  }

  lemma {:induction false} PathThere(w: World, s: nat, p: nat)
    requires Shape(w) && Loc(s, 0, p) in w.node
    ensures Tables(s, p) <= w.node.Keys
  {
    assert PathLoc(s, p, 0) == Loc(s, 0, p);
    assert Hangs(w, PathLoc(s, p, 0));
    PathStep(s, p, 1);
    assert Hangs(w, PathLoc(s, p, 1));
    PathStep(s, p, 2);
    assert Hangs(w, PathLoc(s, p, 2));
    PathStep(s, p, 3);
  }

  lemma Hole(w: World, s: nat, p: nat, level: nat)
    requires Shape(w) && 1 <= level <= 3 && PathLoc(s, p, level) !in w.node
    ensures Loc(s, 0, p) !in w.node
  {
    if Loc(s, 0, p) in w.node { PathThere(w, s, p); }
  }

  lemma PageThere(w: World, boot: Frame, s: nat, p: nat)
    requires Inv(w, boot) && Parts(w)
    ensures Present(Flat(w, s, p).lo) <==> Loc(s, 0, p) in w.node
  {
    FlatLeaf(w, boot, s, p);
  }

  lemma PaidNew(a: set<Loc>, b: set<Loc>, s: nat, p: nat, used: nat, now: nat)
    requires Loc(s, 0, p) !in a && PathHung(a, b, s, p, used + 1, now)
    ensures Paid(a, b, s, p, used, now)
  {
    AddOne(a + Tables(s, p), Loc(s, 0, p));
  }

  lemma PaidOld(w: World, b: set<Loc>, s: nat, p: nat, used: nat, now: nat)
    requires Shape(w) && Loc(s, 0, p) in w.node
    requires (PathHung(w.node.Keys, b, s, p, used, now) || (b == w.node.Keys && now == used))
    ensures Paid(w.node.Keys, b, s, p, used, now)
  {
    var a := w.node.Keys;
    PathThere(w, s, p);
    hide Tables;
    assert a + Tables(s, p) == a && a + {Loc(s, 0, p)} == a;
  }

  lemma NothingLeft(a: set<Loc>, s: nat, p: nat, used: nat)
    requires Loc(s, 0, p) !in a
    ensures Unpaid(a, s, p, used, used)
  {
    SubsetCount(a, a + Tables(s, p) + {Loc(s, 0, p)});
  }

  lemma TooLittle(a: set<Loc>, s: nat, p: nat, used: nat, total: nat)
    requires Loc(s, 0, p) !in a && PathStuck(a, s, p, used + 1, total)
    ensures Unpaid(a, s, p, used, total)
  {
    AddOne(a + Tables(s, p), Loc(s, 0, p));
  }

  lemma PlacesNext(a: set<Loc>, s: nat, lo: nat, p: nat)
    requires lo <= p
    ensures a + Places(s, lo, p + 1) == a + Places(s, lo, p) + Tables(s, p) + {Loc(s, 0, p)}
    ensures |a + Places(s, lo, p)| == |a| + Needed(a, s, lo, p)
    ensures |a + Places(s, lo, p + 1)| == |a| + Needed(a, s, lo, p + 1)
  {
    hide Tables;
    UnionCount(a, Places(s, lo, p));
    UnionCount(a, Places(s, lo, p + 1));
  }

  lemma SpentNext(a: set<Loc>, b: set<Loc>, c: set<Loc>, s: nat, lo: nat, p: nat, used: nat, n: nat, now: nat)
    requires lo <= p && Spent(a, b, s, lo, p, used, n) && Paid(b, c, s, p, n, now)
    ensures Spent(a, c, s, lo, p + 1, used, now)
  {
    hide Tables, Places, Needed;
    PlacesNext(a, s, lo, p);
  }

  /** The first page that cannot be paid makes the whole range too long. */
  lemma SpentShort(a: set<Loc>, b: set<Loc>, s: nat, lo: nat, p: nat, hi: nat, used: nat, n: nat, total: nat)
    requires lo <= p < hi && Spent(a, b, s, lo, p, used, n) && Unpaid(b, s, p, n, total)
    ensures total < used + Needed(a, s, lo, p + 1) <= used + Needed(a, s, lo, hi)
  {
    hide Tables, Places, Needed;
    PlacesNext(a, s, lo, p);
    NeededGrows(a, s, lo, p + 1, hi);
  }

  lemma {:induction false} NeededGrows(have: set<Loc>, s: nat, lo: nat, p: nat, q: nat)
    requires lo <= p <= q
    ensures Needed(have, s, lo, p) <= Needed(have, s, lo, q)
    decreases q
  {
    if p < q {
      NeededGrows(have, s, lo, p, q - 1);
      SubsetCount(Places(s, lo, q - 1) - have, Places(s, lo, q) - have);
    }
  }

  ghost predicate Enough(have: set<Loc>, s: nat, lo: nat, hi: nat, used: nat, total: nat) {
    used + Needed(have, s, lo, hi) <= total
  }

  /** Pages of the range went from `a`, giving back a frame each. */
  ghost predicate Returned(a: set<Loc>, b: set<Loc>, s: nat, lo: nat, hi: nat, used: nat, now: nat) {
    b <= a && now + |a| == used + |b| && a - b <= Places(s, lo, hi)
  }

  lemma ReturnedNone(a: set<Loc>, s: nat, lo: nat, hi: nat, used: nat)
    ensures Returned(a, a, s, lo, hi, used, used)
  {
  }

  lemma ReturnedNext(a: set<Loc>, b: set<Loc>, s: nat, lo: nat, p: nat, used: nat, now: nat)
    requires Returned(a, b, s, lo, p, used, now) && lo <= p
    ensures Returned(a, b, s, lo, p + 1, used, now)
    ensures Loc(s, 0, p) in b && now > 0 ==> Returned(a, b - {Loc(s, 0, p)}, s, lo, p + 1, used, now - 1)
  {
  }

  /** Freeing a range does not change whether it can be allocated. */
  lemma ReturnedEnough(a: set<Loc>, b: set<Loc>, s: nat, lo: nat, hi: nat, used: nat, now: nat, total: nat)
    requires Returned(a, b, s, lo, hi, used, now)
    ensures Enough(b, s, lo, hi, now, total) <==> Enough(a, s, lo, hi, used, total)
  {
    var q := Places(s, lo, hi);
    hide Places;
    assert a + q == b + q;
    UnionCount(a, q);
    UnionCount(b, q);
  }

  lemma SpentIs(a: set<Loc>, b: set<Loc>, s: nat, lo: nat, p: nat, used: nat, now: nat)
    requires Spent(a, b, s, lo, p, used, now)
    ensures now == used + Needed(a, s, lo, p)
  {
  }

  lemma NeededEmpty(a: set<Loc>, s: nat, lo: nat, p: nat, hi: nat)
    requires lo <= p && hi <= p && (p <= hi || p == lo)
    ensures Needed(a, s, lo, hi) == Needed(a, s, lo, p)
  {
  }

  lemma SpentNone(a: set<Loc>, s: nat, lo: nat, used: nat)
    ensures Spent(a, a, s, lo, lo, used, used)
  {
    assert Places(s, lo, lo) - a == {};
  }

  class AddressSpaces {
    const pmm: FrameAllocator
    const boot: Frame
    var mem: seq<Frame>
    var spaces: map<nat, Space>
    var nextSpace: nat
    ghost var node: map<Loc, nat>
    ghost var owner: map<nat, Role>

    ghost function W(): World
      reads this, pmm
    {
      World(mem, pmm.bits, node, owner, spaces)
    }

    ghost predicate Valid()
      reads this, pmm, pmm.bitmap
    {
      pmm.Valid() && Inv(W(), boot) && forall s :: s in spaces ==> s < nextSpace
    }

    /** After boot: every used frame is the kernel's, and no space exists. */
    constructor (pmm: FrameAllocator, boot: Frame, mem: seq<Frame>)
      requires pmm.Valid() && 0 < pmm.totalFrames <= MAX_FRAMES && pmm.bits[0]
      requires |mem| == pmm.totalFrames && forall f :: 0 <= f < |mem| ==> |mem[f]| == 512
      requires |boot| == 512 && forall i :: 0 <= i < 512 ==> boot[i].hi < |mem| && pmm.bits[boot[i].hi]
      ensures Valid() && this.pmm == pmm && spaces == map[] && this.mem == mem && this.boot == boot
      ensures forall f :: 0 <= f < |mem| ==> (f in owner <==> pmm.bits[f]) && (f in owner ==> owner[f].Boot?)
    {
      this.pmm := pmm;
      this.boot := boot;
      this.mem := mem;
      spaces := map[];
      nextSpace := 0;
      node := map[];
      owner := map f: nat | 0 <= f < |mem| && pmm.bits[f] :: Boot;
    }

    method AllocFrame() returns (ok: bool, f: nat)
      requires Valid()
      modifies this`owner, pmm`usedFrames, pmm`bits, pmm.bitmap
      ensures Valid()
      ensures ok <==> !NoRun(old(pmm.bits), 1)
      ensures ok ==> f < |old(pmm.bits)| == |old(mem)| && !old(pmm.bits)[f] && W() == Take(old(W()), f, Held, mem[f])
      ensures !ok ==> W() == old(W())
      ensures pmm.usedFrames == old(pmm.usedFrames) + if ok then 1 else 0
    {
      hide Inv, SameFlat, FrameAllocator.Valid;
      ghost var w := W();
      InvParts(w, boot);
      ZeroUsed(w, boot);
      pmm.Size();
      var page := pmm.AllocPage();
      if page == INVALID { return false, 0; }
      f := page / PAGE_SIZE;
      owner := owner[f := Held];
      assert mem[f := mem[f]] == mem;
      TakeOk(w, boot, f, Held, mem[f]);
      ok := true;
    }

    method AllocZeroed() returns (ok: bool, f: nat)
      requires Valid()
      modifies this`owner, this`mem, pmm`usedFrames, pmm`bits, pmm.bitmap
      ensures Valid()
      ensures ok <==> !NoRun(old(pmm.bits), 1)
      ensures ok ==> f < |old(pmm.bits)| == |old(mem)| && !old(pmm.bits)[f] && W() == Take(old(W()), f, Held, Zeros())
      ensures !ok ==> W() == old(W())
      ensures pmm.usedFrames == old(pmm.usedFrames) + if ok then 1 else 0
    {
      ok, f := AllocFrame();
      if !ok { return; }
      FillOk(W(), boot, f, Zeros());
      mem := mem[f := Zeros()];
    }

    /** Give back a frame that is placed nowhere. */
    method FreeHeld(f: nat)
      requires Valid() && f in owner && owner[f].Held?
      modifies this`owner, pmm`usedFrames, pmm`bits, pmm`complaints, pmm.bitmap
      ensures Valid() && W() == Release(old(W()), f) && pmm.complaints == old(pmm.complaints)
      ensures pmm.usedFrames + 1 == old(pmm.usedFrames)
    {
      hide Inv, SameFlat, FrameAllocator.Valid;
      InvParts(W(), boot);
      assert pmm.bits[f] && f < |pmm.bits|;
      hide Owned, Placed, Shape;
      ReleaseOk(W(), boot, f);
      pmm.FreePage(f * PAGE_SIZE);
      owner := owner - {f};
    }

    /** pte: walk the three upper levels to the leaf table of page `p`. */
    method LeafTable(s: nat, p: nat) returns (found: bool, t: nat)
      requires Valid() && s in spaces && p < USER_PAGES
      ensures found <==> Loc(s, 1, p / 512) in node
      ensures found ==> t == node[Loc(s, 1, p / 512)]
    {
      hide Inv, Owned, Placed, Shape, FrameAllocator.Valid;
      PrefixTop(p);
      RootIs(W(), boot, s);
      t := spaces[s].pml4;
      var level := 4;
      while level > 1
        invariant 1 <= level <= 4 && PathLoc(s, p, level) in node && t == node[PathLoc(s, p, level)]
      {
        WalkStep(W(), boot, s, p, level);
        var e := mem[t][Prefix(p, level - 1) % 512];
        if !Present(e.lo) || Huge(e.lo) { return false, 0; }
        t := Masked(e);
        level := level - 1;
      }
      return true, t;
    }

    /** vmm_translate reads exactly the flat map. */
    method Translate(s: nat, va: nat) returns (phys: nat)
      requires Valid() && s in spaces && va / PAGE_SIZE < USER_PAGES
      ensures var e := Flat(W(), s, va / PAGE_SIZE);
        if Present(e.lo) then phys == e.hi * PAGE_SIZE + va % PAGE_SIZE && phys >= PAGE_SIZE else phys == INVALID
    {
      hide Inv, Owned, Placed, Shape, Flat, FrameAllocator.Valid;
      var p := va / PAGE_SIZE;
      InvParts(W(), boot);
      LeafEntry(W(), boot, s, p);
      var found, t := LeafTable(s, p);
      if !found || !Present(mem[t][p % 512].lo) { return INVALID; }
      return Masked(mem[t][p % 512]) * PAGE_SIZE + va % PAGE_SIZE;
    }

    /** One level of vmm_map_page: the table below slot `i`, made if missing. */
    method NextTable(ghost l: Loc, t: nat, i: nat, wantUser: bool) returns (ok: bool, child: nat)
      requires Valid() && IsSlot(W(), l, i) && l.level >= 2 && t == node[l] && (wantUser ==> Reached(W(), l))
      modifies this`mem, this`node, this`owner, pmm`usedFrames, pmm`bits, pmm.bitmap
      ensures Valid() && SameFlat(old(W()), W()) && Grows(old(W()), W(), l.space)
      ensures ok ==> Child(l, i) in node && child == node[Child(l, i)] && (wantUser ==> Reached(W(), Child(l, i)))
      ensures !ok ==> W() == old(W()) && NoRun(pmm.bits, 1) && Child(l, i) !in node
      ensures !ok ==> pmm.usedFrames == old(pmm.usedFrames)
      ensures ok ==> Hung(old(node).Keys, node.Keys, Child(l, i), old(pmm.usedFrames), pmm.usedFrames)
    {
      hide Inv, Grows, SameFlat, FrameAllocator.Valid, Owned, Placed, Shape, Hung, Present, Huge, TableFlags, NoRun;
      hide Reached;
      ghost var w := W();
      SlotIs(w, boot, l, i);
      var e := mem[t][i];
      if Present(e.lo) {
        if wantUser {
          mem := mem[t := mem[t][i := Word(e.hi, e.lo | USER)]];
          UserTable(w, boot, l, i, e.lo);
        }
        NoStep(w, boot, l.space);
        HungThere(node.Keys, Child(l, i), pmm.usedFrames);
        return true, e.hi;
      }
      ok, child := MakeTable(l, t, i, wantUser);
    }

    /** A table for the slot `i`, which has none. */
    method MakeTable(ghost l: Loc, t: nat, i: nat, wantUser: bool) returns (ok: bool, child: nat)
      requires Valid() && IsSlot(W(), l, i) && l.level >= 2 && t == node[l] && Child(l, i) !in node
      requires wantUser ==> Reached(W(), l)
      modifies this`mem, this`node, this`owner, pmm`usedFrames, pmm`bits, pmm.bitmap
      ensures Valid() && SameFlat(old(W()), W()) && Grows(old(W()), W(), l.space)
      ensures ok ==> Child(l, i) in node && child == node[Child(l, i)] && (wantUser ==> Reached(W(), Child(l, i)))
      ensures !ok ==> W() == old(W()) && NoRun(pmm.bits, 1) && Child(l, i) !in node
      ensures !ok ==> pmm.usedFrames == old(pmm.usedFrames)
      ensures ok ==> Hung(old(node).Keys, node.Keys, Child(l, i), old(pmm.usedFrames), pmm.usedFrames)
    {
      hide Inv, Grows, SameFlat, FrameAllocator.Valid, Owned, Placed, Shape, Hung, Present, Huge, TableFlags, NoRun;
      hide Reached;
      hide Zeros;
      ghost var w := W();
      SlotIs(w, boot, l, i);
      ok, child := AllocZeroed();
      if !ok {
        NoStep(w, boot, l.space);
        return;
      }
      var flags := TableFlags(wantUser);
      NewTable(w, boot, l, i, child, flags);
      mem := mem[t := mem[t][i := Word(child, flags)]];
      node := node[Child(l, i) := child];
      owner := owner[child := Node(Child(l, i))];
      HungNew(w, Child(l, i), child, old(pmm.usedFrames));
    }

    /** The last step of vmm_map_page: write the leaf entry. */
    method PutLeaf(s: nat, p: nat, t: nat, f: nat, flags: bv12)
      requires Valid() && Loc(s, 1, p / 512) in node && t == node[Loc(s, 1, p / 512)]
      requires Present(flags) && Mappable(W(), s, p, f) && (User(flags) ==> Reached(W(), Loc(s, 1, p / 512)))
      modifies this`mem, this`node, this`owner
      ensures Valid() && FlatSet(old(W()), W(), s, p, Word(f, flags)) && Grows(Place(old(W()), s, p, f), W(), s)
      ensures node.Keys == old(node).Keys + {Loc(s, 0, p)}
    {
      hide Inv, Grows, FlatSet, FrameAllocator.Valid, Shape;
      LeafIs(W(), boot, s, p);
      LeafSet(W(), boot, s, p, f, flags);
      InvParts(W(), boot);
      hide Owned, Placed;
      mem := mem[t := mem[t][p % 512 := Word(f, flags)]];
      node := node[Loc(s, 0, p) := f];
      owner := owner[f := Node(Loc(s, 0, p))];
    }

    /** vmm_map_page: on success exactly the entry of this page changes, on
        failure at any level none does. */
    method MapPage(s: nat, va: nat, phys: nat, flags: bv12) returns (ok: bool)
      requires Valid() && s in spaces && va / PAGE_SIZE < USER_PAGES
      requires phys % PAGE_SIZE == 0 && Present(flags) && Mappable(W(), s, va / PAGE_SIZE, phys / PAGE_SIZE)
      modifies this`mem, this`node, this`owner, pmm`usedFrames, pmm`bits, pmm.bitmap
      ensures Valid()
      ensures ok ==> FlatSet(old(W()), W(), s, va / PAGE_SIZE, Word(phys / PAGE_SIZE, flags))
      ensures ok ==> Grows(Place(old(W()), s, va / PAGE_SIZE, phys / PAGE_SIZE), W(), s)
      ensures !ok ==> SameFlat(old(W()), W()) && Grows(old(W()), W(), s) && NoRun(pmm.bits, 1)
      ensures ok ==> PathHung(old(node).Keys, node.Keys, s, va / PAGE_SIZE, old(pmm.usedFrames), pmm.usedFrames)
      ensures !ok ==> PathStuck(old(node).Keys, s, va / PAGE_SIZE, old(pmm.usedFrames), pmm.totalFrames)
      ensures !ok ==> Loc(s, 0, va / PAGE_SIZE) !in old(node)
    {
      hide Inv, Grows, SameFlat, FlatSet, FrameAllocator.Valid, Shape, Owned, Placed, Hung, PathHung, PathStuck;
      hide Mappable, Reached;
      ghost var w := W();
      var p := va / PAGE_SIZE;
      PrefixTop(p);
      RootIs(w, boot, s);
      var t := spaces[s].pml4;
      var wantUser := flags & USER != 0;
      InvParts(w, boot);
      RootReached(w, s);
      ghost var k, u := node.Keys, pmm.usedFrames;
      PathStep(s, p, 4);
      PathStep(s, p, 3);
      PathStep(s, p, 2);
      ok, t := NextTable(Loc(s, 4, 0), t, Prefix(p, 3) % 512, wantUser);
      if !ok {
        pmm.Full();
        Hole(w, s, p, 3);
        StuckFirst(k, s, p, u);
        return;
      }
      ghost var k3, u3 := node.Keys, pmm.usedFrames;
      HungMore(k, k3, PathLoc(s, p, 3), u, u3);
      ghost var w3 := W();
      ok, t := NextTable(PathLoc(s, p, 3), t, Prefix(p, 2) % 512, wantUser);
      Steps(w, w3, W(), boot, s);
      if !ok {
        pmm.Full();
        Hole(w, s, p, 2);
        StuckSecond(k, k3, s, p, u, u3);
        return;
      }
      ghost var k2, u2 := node.Keys, pmm.usedFrames;
      HungMore(k3, k2, PathLoc(s, p, 2), u3, u2);
      ghost var w2 := W();
      ok, t := NextTable(PathLoc(s, p, 2), t, Prefix(p, 1) % 512, wantUser);
      Steps(w, w2, W(), boot, s);
      if !ok {
        pmm.Full();
        Hole(w, s, p, 1);
        StuckThird(k, k3, k2, s, p, u, u3, u2);
        return;
      }
      ghost var k1, u1 := node.Keys, pmm.usedFrames;
      HungMore(k2, k1, PathLoc(s, p, 1), u2, u1);
      ghost var w1 := W();
      StillMappable(w, w1, s, p, phys / PAGE_SIZE);
      PutLeaf(s, p, t, phys / PAGE_SIZE, flags);
      LastStep(w, w1, W(), boot, s, p, Word(phys / PAGE_SIZE, flags));
      PathDone(k, k3, k2, k1, node.Keys, s, p, u, u3, u2, u1);
    }

    /** Free the frame behind a present leaf entry and clear the entry. */
    method UnmapPage(s: nat, p: nat, t: nat)
      requires Valid() && Loc(s, 0, p) in node && Loc(s, 1, p / 512) in node && t == node[Loc(s, 1, p / 512)]
      modifies this`mem, this`node, this`owner, pmm`usedFrames, pmm`bits, pmm`complaints, pmm.bitmap
      ensures Valid() && W() == Unmap(old(W()), s, p) && pmm.complaints == old(pmm.complaints)
      ensures pmm.usedFrames + 1 == old(pmm.usedFrames)
      ensures node.Keys == old(node).Keys - {Loc(s, 0, p)} && spaces == old(spaces)
    {
      hide Inv, FlatSet, FrameAllocator.Valid, Owned, Placed, Shape;
      InvParts(W(), boot);
      UnmapOk(W(), boot, s, p);
      LeafFrame(W(), boot, s, p);
      var f := Masked(mem[t][p % 512]);
      pmm.FreePage(f * PAGE_SIZE);
      mem := mem[t := mem[t][p % 512 := ZERO]];
      node := node - {Loc(s, 0, p)};
      owner := owner - {f};
    }

    /** One page of vmm_free_range. */
    method FreeOne(s: nat, p: nat, ghost w: World, ghost lo: nat, ghost k: set<Loc>, ghost u: nat)
      requires Valid() && s in spaces && p < USER_PAGES && lo <= p && Inv(w, boot) && Parts(w) && Parts(W())
      requires Freed(w, W(), s, lo, p) && Returned(k, node.Keys, s, lo, p, u, pmm.usedFrames)
      modifies this`mem, this`node, this`owner, pmm`usedFrames, pmm`bits, pmm`complaints, pmm.bitmap
      ensures Valid() && Parts(W()) && pmm.complaints == old(pmm.complaints)
      ensures Freed(w, W(), s, lo, p + 1) && Returned(k, node.Keys, s, lo, p + 1, u, pmm.usedFrames)
    {
      hide Inv, Freed, FrameAllocator.Valid, Owned, Placed, Shape, Returned, Unmap, Present;
      ReturnedNext(k, node.Keys, s, lo, p, u, pmm.usedFrames);
      var found, t := LeafTable(s, p);
      LeafIs(W(), boot, s, p);
      if found && Present(mem[t][p % 512].lo) {
        FreedStep(w, W(), boot, s, lo, p);
        UnmapPage(s, p, t);
        InvParts(W(), boot);
      } else {
        FreedSkip(w, W(), boot, s, lo, p);
      }
    }

    /** vmm_free_range: the pages that [start, end) touches are unmapped, their
        frames freed once each, and nothing else changes. */
    method FreeRange(s: nat, start: nat, end: nat)
      requires Valid() && s in spaces && end <= USER_PAGES * PAGE_SIZE
      modifies this`mem, this`node, this`owner, pmm`usedFrames, pmm`bits, pmm`complaints, pmm.bitmap
      ensures Valid() && pmm.complaints == old(pmm.complaints)
      ensures Freed(old(W()), W(), s, start / PAGE_SIZE, (end + PAGE_SIZE - 1) / PAGE_SIZE)
      ensures Returned(old(node).Keys, node.Keys, s, start / PAGE_SIZE, (end + PAGE_SIZE - 1) / PAGE_SIZE,
        old(pmm.usedFrames), pmm.usedFrames)
    {
      hide Inv, Freed, FrameAllocator.Valid, Owned, Placed, Shape, Returned;
      ghost var w := W();
      ghost var k, u := node.Keys, pmm.usedFrames;
      InvParts(w, boot);
      ghost var lo, hi := start / PAGE_SIZE, (end + PAGE_SIZE - 1) / PAGE_SIZE;
      var p := start / PAGE_SIZE;
      FreedNone(w, boot, s, p, p);
      ReturnedNone(k, s, p, p, u);
      while p * PAGE_SIZE < end
        invariant lo <= p && (p <= hi || (p == lo && W() == w && pmm.usedFrames == u))
        invariant Valid() && spaces == old(spaces) && pmm.complaints == old(pmm.complaints)
        invariant Inv(w, boot) && Parts(w) && Parts(W()) && Freed(w, W(), s, lo, p)
        invariant Returned(k, node.Keys, s, lo, p, u, pmm.usedFrames)
      {
        FreeOne(s, p, w, lo, k, u);
        p := p + 1;
      }
      if p > hi {
        FreedNone(w, boot, s, lo, hi);
        ReturnedNone(k, s, lo, hi, u);
      }
    }

    /** vmm_range_is_free */
    method RangeIsFree(s: nat, start: nat, end: nat) returns (free: bool)
      requires Valid() && s in spaces && end <= USER_PAGES * PAGE_SIZE
      ensures Parts(W())
      ensures free <==> forall q: nat :: start / PAGE_SIZE <= q < (end + PAGE_SIZE - 1) / PAGE_SIZE ==>
        !Present(Flat(W(), s, q).lo)
    {
      hide Inv, Flat, FrameAllocator.Valid;
      InvParts(W(), boot);
      var p := start / PAGE_SIZE;
      while p * PAGE_SIZE < end
        invariant start / PAGE_SIZE <= p
        invariant forall q: nat :: start / PAGE_SIZE <= q < p ==> !Present(Flat(W(), s, q).lo)
        decreases end - p * PAGE_SIZE
      {
        var phys := Translate(s, p * PAGE_SIZE);
        if phys != INVALID { return false; }
        p := p + 1;
      }
      return true;
    }

    /** A frame just taken is mapped, or lost. `v` is the world before it was taken. */
    method PlaceNew(s: nat, p: nat, f: nat, flags: bv12, ghost v: World, ghost w: World, ghost lo: nat, ghost u: nat)
      returns (ok: bool, ghost lost: set<nat>)
      requires Valid() && s in spaces && p < USER_PAGES && Present(flags) && lo <= p
      requires Inv(w, boot) && Parts(w) && Inv(v, boot) && Parts(v) && Backed(w, v, s, lo, p, flags) && Keeps(w, v, s)
      requires !Present(Flat(v, s, p).lo) && Loc(s, 0, p) !in v.node && f < |v.bits| == |v.mem| && !v.bits[f]
      requires W() == Take(v, f, Held, Zeros()) && pmm.usedFrames == u + 1
      modifies this`mem, this`node, this`owner, pmm`usedFrames, pmm`bits, pmm.bitmap
      ensures Valid() && Parts(W())
      ensures ok ==> lost == {} && Backed(w, W(), s, lo, p + 1, flags) && Keeps(w, W(), s)
      ensures ok ==> Paid(v.node.Keys, node.Keys, s, p, u, pmm.usedFrames)
      ensures !ok ==> lost == {f} && Backed(w, W(), s, lo, p, flags) && KeepsBut(w, W(), s, lost) && NoRun(pmm.bits, 1)
      ensures !ok ==> Unpaid(v.node.Keys, s, p, u, pmm.totalFrames)
    {
      hide Inv, Backed, Keeps, KeepsBut, FrameAllocator.Valid, FlatSet, SameFlat, Grows, Granted, Owned, Placed, Shape;
      hide Flat, Mappable, Paid, Unpaid, PathHung, PathStuck, Place, Zeros, NoRun, Present, Tables, PathLoc;
      FreshMappable(v, boot, s, p, f, Zeros());
      InvParts(W(), boot);
      ok := MapPage(s, p * PAGE_SIZE, f * PAGE_SIZE, flags);
      InvParts(W(), boot);
      if ok {
        NewFrame(w, v, W(), boot, s, lo, p, flags, f);
        PaidNew(v.node.Keys, node.Keys, s, p, u, pmm.usedFrames);
        return true, {};
      }
      LostFrame(w, v, W(), boot, s, lo, p, flags, f);
      TooLittle(v.node.Keys, s, p, u, pmm.totalFrames);
      return false, {f};
    }

    /** One page of vmm_alloc_range: a missing one, */
    method NewPage(s: nat, p: nat, flags: bv12, ghost w: World, ghost lo: nat) returns (ok: bool, ghost lost: set<nat>)
      requires Valid() && s in spaces && p < USER_PAGES && Present(flags) && lo <= p
      requires Inv(w, boot) && Parts(w) && Parts(W()) && Backed(w, W(), s, lo, p, flags) && Keeps(w, W(), s)
      requires !Present(Flat(W(), s, p).lo) && Loc(s, 0, p) !in node
      modifies this`mem, this`node, this`owner, pmm`usedFrames, pmm`bits, pmm.bitmap
      ensures Valid() && Parts(W())
      ensures ok ==> lost == {} && Backed(w, W(), s, lo, p + 1, flags) && Keeps(w, W(), s)
      ensures !ok ==> |lost| <= 1 && Backed(w, W(), s, lo, p, flags) && KeepsBut(w, W(), s, lost) && NoRun(pmm.bits, 1)
      ensures ok ==> Paid(old(node).Keys, node.Keys, s, p, old(pmm.usedFrames), pmm.usedFrames)
      ensures !ok ==> Unpaid(old(node).Keys, s, p, old(pmm.usedFrames), pmm.totalFrames)
      ensures !ok ==> (lost == {} <==> old(pmm.usedFrames) == pmm.totalFrames)
    {
      hide Inv, Backed, Keeps, KeepsBut, FrameAllocator.Valid, FlatSet, SameFlat, Grows, Granted, Owned, Placed, Shape;
      hide Flat, Mappable, Paid, Unpaid, Take, Zeros, NoRun, Present;
      ghost var v, u := W(), pmm.usedFrames;
      var got, f := AllocZeroed();
      if !got {
        KeepsAll(w, v, s);
        pmm.Full();
        NothingLeft(v.node.Keys, s, p, u);
        return false, {};
      }
      pmm.Bound();
      ok, lost := PlaceNew(s, p, f, flags, v, w, lo, u);
    }

    /** or one that is there: its tables are too, so mapping it again cannot fail. */
    method OldPage(s: nat, p: nat, phys: nat, flags: bv12, ghost w: World, ghost lo: nat)
      requires Valid() && s in spaces && p < USER_PAGES && Present(flags) && lo <= p
      requires Inv(w, boot) && Parts(w) && Parts(W()) && Backed(w, W(), s, lo, p, flags) && Keeps(w, W(), s)
      requires Present(Flat(W(), s, p).lo) && phys == Flat(W(), s, p).hi * PAGE_SIZE && Loc(s, 0, p) in node
      modifies this`mem, this`node, this`owner, pmm`usedFrames, pmm`bits, pmm.bitmap
      ensures Valid() && Parts(W()) && Backed(w, W(), s, lo, p + 1, flags) && Keeps(w, W(), s)
      ensures Paid(old(node).Keys, node.Keys, s, p, old(pmm.usedFrames), pmm.usedFrames)
    {
      hide Inv, Backed, Keeps, KeepsBut, FrameAllocator.Valid, FlatSet, SameFlat, Grows, Granted, Owned, Placed, Shape;
      hide Flat, Mappable, Paid, Unpaid, PathHung, PathStuck;
      ghost var v := W();
      InvParts(v, boot);
      if !Writable(flags) {
        OldFrame(w, v, boot, s, lo, p, flags);
        PaidOld(v, node.Keys, s, p, pmm.usedFrames, pmm.usedFrames);
        return;
      }
      OldMappable(v, boot, s, p);
      var ok := MapPage(s, p * PAGE_SIZE, phys, flags);
      InvParts(W(), boot);
      Reflagged(w, v, W(), boot, s, lo, p, flags);
      PaidOld(v, node.Keys, s, p, old(pmm.usedFrames), pmm.usedFrames);
    }

    method BackPage(s: nat, p: nat, flags: bv12, ghost w: World, ghost lo: nat) returns (ok: bool, ghost lost: set<nat>)
      requires Valid() && s in spaces && p < USER_PAGES && Present(flags) && lo <= p
      requires Inv(w, boot) && Parts(w) && Parts(W()) && Backed(w, W(), s, lo, p, flags) && Keeps(w, W(), s)
      modifies this`mem, this`node, this`owner, pmm`usedFrames, pmm`bits, pmm.bitmap
      ensures Valid() && Parts(W())
      ensures ok ==> lost == {} && Backed(w, W(), s, lo, p + 1, flags) && Keeps(w, W(), s)
      ensures !ok ==> |lost| <= 1 && Backed(w, W(), s, lo, p, flags) && KeepsBut(w, W(), s, lost) && NoRun(pmm.bits, 1)
      ensures ok ==> Paid(old(node).Keys, node.Keys, s, p, old(pmm.usedFrames), pmm.usedFrames)
      ensures !ok ==> Unpaid(old(node).Keys, s, p, old(pmm.usedFrames), pmm.totalFrames)
      ensures !ok ==> (lost == {} <==> old(pmm.usedFrames) == pmm.totalFrames)
    {
      hide Inv, Backed, Keeps, KeepsBut, FrameAllocator.Valid, FlatSet, SameFlat, Grows, Granted, Owned, Placed, Shape;
      hide Flat, Mappable, Paid, Unpaid, PathHung, PathStuck;
      PageThere(W(), boot, s, p);
      var phys := Translate(s, p * PAGE_SIZE);
      if phys == INVALID {
        ok, lost := NewPage(s, p, flags, w, lo);
      } else {
        OldPage(s, p, phys, flags, w, lo);
        ok, lost := true, {};
      }
    }

    /** vmm_alloc_range succeeds exactly when there is a frame for every page and
        table of the range that is missing. Otherwise the pages before `stop` are
        allocated, and a frame is lost exactly if one was still free then: it was
        taken for the page `stop`, whose table could not be made. */
    method AllocRange(s: nat, start: nat, end: nat, flags: bv12)
      returns (ok: bool, ghost stop: nat, ghost lost: set<nat>)
      requires Valid() && s in spaces && end <= USER_PAGES * PAGE_SIZE && Present(flags)
      modifies this`mem, this`node, this`owner, pmm`usedFrames, pmm`bits, pmm.bitmap
      ensures Valid() && spaces == old(spaces)
      ensures ok ==> stop == (end + PAGE_SIZE - 1) / PAGE_SIZE && lost == {} && Keeps(old(W()), W(), s)
      ensures !ok ==> start / PAGE_SIZE <= stop && stop * PAGE_SIZE < end && NoRun(pmm.bits, 1)
      ensures !ok ==> |lost| <= 1 && KeepsBut(old(W()), W(), s, lost)
      ensures Backed(old(W()), W(), s, start / PAGE_SIZE, stop, flags)
      ensures ok <==> Enough(old(node).Keys, s, start / PAGE_SIZE, (end + PAGE_SIZE - 1) / PAGE_SIZE,
        old(pmm.usedFrames), pmm.totalFrames)
      ensures !ok ==> Enough(old(node).Keys, s, start / PAGE_SIZE, stop, old(pmm.usedFrames), pmm.totalFrames)
      ensures !ok ==> !Enough(old(node).Keys, s, start / PAGE_SIZE, stop + 1, old(pmm.usedFrames), pmm.totalFrames)
      ensures !ok ==>
        (lost == {} <==> old(pmm.usedFrames) + Needed(old(node).Keys, s, start / PAGE_SIZE, stop) == pmm.totalFrames)
    {
      hide Inv, Backed, Keeps, KeepsBut, FrameAllocator.Valid, FlatSet, SameFlat, Grows, Granted, Owned, Placed, Shape;
      hide Flat, Mappable, Paid, Unpaid, Spent, Needed;
      ghost var w := W();
      ghost var k, u := node.Keys, pmm.usedFrames;
      InvParts(w, boot);
      ghost var lo, hi := start / PAGE_SIZE, (end + PAGE_SIZE - 1) / PAGE_SIZE;
      var p := start / PAGE_SIZE;
      lost := {};
      BackedNone(w, boot, s, p, p, flags);
      SpentNone(k, s, lo, u);
      while p * PAGE_SIZE < end
        invariant lo <= p && (p <= hi || (p == lo && W() == w))
        invariant Valid() && spaces == old(spaces)
        invariant Inv(w, boot) && Parts(w) && Parts(W()) && Backed(w, W(), s, lo, p, flags) && Keeps(w, W(), s)
        invariant Spent(k, node.Keys, s, lo, p, u, pmm.usedFrames)
      {
        ghost var k1, u1 := node.Keys, pmm.usedFrames;
        pmm.Bound();
        SpentIs(k, k1, s, lo, p, u, u1);
        ok, lost := BackPage(s, p, flags, w, lo);
        if !ok {
          pmm.Full();
          SpentShort(k, k1, s, lo, p, hi, u, u1, pmm.totalFrames);
          return false, p, lost;
        }
        SpentNext(k, k1, node.Keys, s, lo, p, u, u1, pmm.usedFrames);
        p := p + 1;
      }
      if p > hi { BackedNone(w, boot, s, lo, hi, flags); }
      pmm.Bound();
      SpentIs(k, node.Keys, s, lo, p, u, pmm.usedFrames);
      NeededEmpty(k, s, lo, p, hi);
      return true, hi, {};
    }
  }

  /** The first page of a space that has only its root needs four frames. */
  lemma FirstPage(have: set<Loc>, s: nat)
    requires forall l :: l in have && l.space == s ==> l.level == 4
    ensures Needed(have, s, 0, 0) == 0 && Needed(have, s, 0, 1) == 4
  {
    PrefixTop(0);
    var a, b, c, d := Loc(s, 3, 0), Loc(s, 2, 0), Loc(s, 1, 0), Loc(s, 0, 0);
    assert PathLoc(s, 0, 3) == a && PathLoc(s, 0, 2) == b && PathLoc(s, 0, 1) == c;
    assert Places(s, 0, 1) - have == {a, b, c, d};
  }

  /** With one frame left, allocating that page fails and loses the frame. */
  method LosesFrame(vm: AddressSpaces, s: nat, flags: bv12) returns (ok: bool, ghost lost: set<nat>)
    requires vm.Valid() && s in vm.spaces && Present(flags) && vm.pmm.usedFrames + 1 == vm.pmm.totalFrames
    requires forall l :: l in vm.node && l.space == s ==> l.level == 4
    modifies vm`mem, vm`node, vm`owner, vm.pmm`usedFrames, vm.pmm`bits, vm.pmm.bitmap
    ensures !ok && |lost| == 1 && (forall f :: f in lost ==> f in vm.owner && vm.owner[f].Held? && f !in old(vm.owner))
    ensures vm.pmm.usedFrames == vm.pmm.totalFrames
  {
    hide Inv, FrameAllocator.Valid, Needed, Backed, Keeps, Owned, Placed, Shape;
    ghost var stop;
    FirstPage(vm.node.Keys, s);
    ok, stop, lost := vm.AllocRange(s, 0, PAGE_SIZE, flags);
    vm.pmm.Full();
  }
}
