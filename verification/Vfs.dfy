/** The namespace operations of one file system without mount points, and the open
    files and working directories that keep inodes beyond their last name. */
module Vfs {
  import opened Machine
  import opened Dentries
  import opened Inodes

  datatype Errno =
    | OK | ENOENT | ENOTDIR | EISDIR | EEXIST | EINVAL | EPERM | ENOTEMPTY | ENAMETOOLONG | ENOMEM | EBADF | EMFILE

  /** The entry of `dir` under `name`. */
  ghost predicate IsChild(t: Dents, ino: Inos, dir: nat, name: string, d: nat) {
    && dir in ino && ino[dir].kind == Dir && ino[dir].ptr in t && d in t[ino[dir].ptr].children
    && d in t && t[d].name == name
  }

  ghost predicate NoChild(t: Dents, ino: Inos, dir: nat, name: string) {
    forall d :: !IsChild(t, ino, dir, name, d)
  }

  ghost predicate At(t: Dents, d: nat, k: nat) {
    d in t && t[d].parent in t && k < |t[t[d].parent].children| && t[t[d].parent].children[k] == d
  }

  /** `u` is `t` without the entry `d`. */
  ghost predicate RemovedFrom(t: Dents, u: Dents, d: nat) {
    exists k: nat :: At(t, d, k) && u == Removed(t, d, k)
  }

  /** `u` is `t` with `src` moved to the end of the list of `np`, renamed. */
  ghost predicate MovedTo(t: Dents, u: Dents, src: nat, np: nat, name: string, next: nat) {
    np in t && exists k: nat :: At(t, src, k) && u == Moved(t, src, k, np, name, next)
  }

  class Namespace {
    var dent: Dents
    var ino: Inos
    /** The number the next entry gets. */
    var next: nat
    var opens: Opens
    const root: nat
    ghost var depth: map<nat, nat>

    ghost predicate Named()
      reads this`dent, this`ino, this`next, this`depth
    {
      TreeOk(dent, root, depth, next) && NamedOk(dent, ino) && RootOk(dent, ino, root)
    }

    /** Between two statements of a call that holds the file `hand`. */
    ghost predicate Settled(hand: nat)
      reads this
    {
      Named() && HeldOk(ino, opens) && OpensOk(opens, hand)
    }

    /** The entries form a tree with agreeing links and distinct names, a directory
        has one entry, link counts count names, reference counts count holders, and
        an inode is there exactly as long as it has a name or a holder. */
    ghost predicate Valid()
      reads this
    {
      Settled(NULL)
    }

    /** An empty file system, `files` open files at most and `procs` processes. */
    constructor (rootDentry: nat, rootInode: nat, files: nat, slots: nat, procs: nat)
      requires rootDentry != NULL && rootInode != NULL && files > 0
      ensures Valid() && root == rootDentry && dent == map[rootDentry := Dentry("/", rootInode, NULL, [], 0)]
      ensures next == 2
    {
      root := rootDentry;
      dent := map[rootDentry := Dentry("/", rootInode, NULL, [], 0)];
      ino := map[rootInode := Inode(Dir, 1, 0, rootDentry)];
      next := 2;
      opens := Opens(seq(files, _ => NULL), seq(files, _ => 0), seq(slots, _ => NULL), seq(procs, _ => NULL));
      depth := map[rootDentry := 0];
      new;
      BootNamed(dent, ino, depth, rootDentry, rootInode);
      BootHeld(ino, opens, files, slots, procs);
    }

    /** vfs_child: the entry of a directory under a name, NULL if there is none. */
    method Child(dir: nat, name: string) returns (d: nat)
      requires Named() && dir in ino
      ensures d == NULL <==> NoChild(dent, ino, dir, name)
      ensures d != NULL ==> IsChild(dent, ino, dir, name, d)
    {
      hide NamedOk;
      if ino[dir].kind != Dir || ino[dir].ptr == NULL { return NULL; }
      var p := ino[dir].ptr;
      assert p in dent by { PtrThere(dent, ino, dir); }
      var cs := dent[p].children;
      assert KidsOk(dent, p, cs, next);
      var i := 0;
      while i < |cs|
        invariant 0 <= i <= |cs| && forall j :: 0 <= j < i ==> cs[j] in dent && dent[cs[j]].name != name
      {
        assert Kid(dent, p, cs[i], next);
        if dent[cs[i]].name == name {
          assert IsChild(dent, ino, dir, name, cs[i]);
          return cs[i];
        }
        i := i + 1;
      }
      return NULL;
    }

    /** Where an entry stands in the list of its parent: the loop of detach. */
    method Position(d: nat) returns (k: nat)
      requires Named() && d in dent && d != root
      ensures At(dent, d, k) && dent[d].parent != d
    {
      hide NamedOk;
      assert Up(dent, root, depth, d);
      var cs := dent[dent[d].parent].children;
      k := 0;
      while cs[k] != d
        invariant 0 <= k < |cs| && d in cs[k..]
        decreases |cs| - k
      {
        assert cs[k..] == [cs[k]] + cs[k + 1..];
        k := k + 1;
      }
      KidNotSelf(dent, root, depth, next, dent[d].parent, d);
    }

    /** drop: a name goes, and with the last name of an unused inode the inode. */
    method Drop(d: nat)
      requires Valid() && d in dent && d != root && dent[d].children == []
      modifies this`dent, this`ino, this`depth
      ensures Valid() && RemovedFrom(old(dent), dent, d) && depth == old(depth) - {d}
      ensures old(dent[d].inode) in old(ino) && old(ino)[old(dent[d].inode)].nlink > 0
      ensures ino == Dropped(old(ino), old(dent[d].inode))
    {
      var k := Position(d);
      hide TreeOk, NamedOk, HeldOk, OpensOk, RootOk, RemoveAt, Dropped;
      RemoveOk(dent, root, depth, next, d, k);
      DropNamed(dent, ino, d, k);
      var n := dent[d].inode;
      HeldDrop(ino, opens, n);
      RootDrop(dent, ino, root, d, k);
      Detach(d, k);
      dent := dent - {d};
      depth := depth - {d};
      DropInode(n);
      assert At(old(dent), d, k) && dent == Removed(old(dent), d, k);
    }

    /** detach: out of the list of its parent. */
    method Detach(d: nat, k: nat)
      requires At(dent, d, k)
      modifies this`dent
      ensures dent == Detached(old(dent), d, k)
    {
      var p := dent[d].parent;
      dent := dent[p := dent[p].(children := RemoveAt(dent[p].children, k))];
    }

    /** The inode's part of drop. */
    method DropInode(n: nat)
      requires n in ino && ino[n].nlink > 0
      modifies this`ino
      ensures ino == Dropped(old(ino), n)
    {
      if ino[n].kind == Dir { ino := ino[n := ino[n].(ptr := NULL)]; }
      ino := ino[n := ino[n].(nlink := ino[n].nlink - 1)];
      if ino[n].nlink == 0 && ino[n].refs == 0 { ino := ino - {n}; }
      assert ino == Dropped(old(ino), n);
    }

    /** vfs_add_child of a new entry `d`. */
    method AddChild(p: nat, d: nat, x: Dentry)
      requires p in dent && d !in dent && TreeOk(dent, root, depth, next) && d != NULL
      requires x.children == [] && GoodName(x.name) && |x.name| <= NAME_MAX && x.parent == p && x.num == next
      requires forall c :: c in dent[p].children ==> c in dent && dent[c].name != x.name
      modifies this`dent, this`next, this`depth
      ensures TreeOk(dent, root, depth, next) && next == old(next) + 1 && dent == Added(old(dent), p, d, x)
    {
      hide TreeOk;
      AddOk(dent, root, depth, next, p, d, x);
      depth := depth[d := depth[p] + 1];
      dent := dent[d := x];
      next := next + 1;
      dent := dent[p := dent[p].(children := dent[p].children + [d])];
      assert dent == Added(old(dent), p, d, x);
    }

    /** vfs_create, with the addresses of the new inode and entry. */
    method Create(dir: nat, name: string, kind: Kind, i: nat, d: nat, memory: bool) returns (r: Errno)
      requires Valid() && dir in ino && GoodName(name) && i != NULL && i !in ino && d != NULL && d !in dent
      modifies this`dent, this`ino, this`next, this`depth
      ensures Valid()
      ensures r == OK ==> next == old(next) + 1
      ensures r == OK ==> ino == old(ino)[i := Inode(kind, 1, 0, if kind == Dir then d else NULL)]
      ensures r == OK ==> NoChild(old(dent), old(ino), dir, name) && memory && |name| <= NAME_MAX
      ensures r == OK ==> old(ino)[dir].kind == Dir
      ensures r == OK ==>
        old(ino)[dir].ptr in old(dent)
      ensures r == OK ==> SeenAdded(old(dent), old(ino), dent, ino, d, dir, name)
      ensures r == OK ==>
        dent == Added(old(dent), old(ino)[dir].ptr, d, Dentry(name, i, old(ino)[dir].ptr, [], old(next)))
      ensures r != OK ==> dent == old(dent) && ino == old(ino) && next == old(next)
      ensures r == ENOTDIR <==> old(ino)[dir].kind != Dir
      ensures r == EEXIST ==> !NoChild(old(dent), old(ino), dir, name)
      ensures r == ENOENT ==> old(ino)[dir].kind == Dir && old(ino)[dir].ptr == NULL
      ensures r == OK <== old(ino)[dir].kind == Dir && old(ino)[dir].ptr != NULL && |name| <= NAME_MAX
        && NoChild(old(dent), old(ino), dir, name) && memory
    {
      hide TreeOk, NamedOk, HeldOk, OpensOk, NoChild, SeenAdded;
      if ino[dir].kind != Dir { return ENOTDIR; }
      if |name| > NAME_MAX { return ENAMETOOLONG; }
      var c := Child(dir, name);
      if c != NULL { return EEXIST; }
      if ino[dir].ptr == NULL { return ENOENT; }
      if !memory { return ENOMEM; }
      PtrThere(dent, ino, dir);
      var p := ino[dir].ptr;
      NoneNamed(dent, ino, root, depth, next, dir, name);
      var n := Inode(kind, 1, 0, if kind == Dir then d else NULL);
      CreateNamed(dent, ino, p, d, Dentry(name, i, p, [], next), n);
      HeldCreate(ino, opens, i, n);
      ino := ino[i := n];
      AddChild(p, d, Dentry(name, i, p, [], next));
      AddedSeen(old(dent), old(ino), root, old(depth), old(next), dent, ino, depth, next, p, d, dent[d]);
      return OK;
    }

    /** vfs_link */
    method Link(dir: nat, name: string, target: nat, d: nat, memory: bool) returns (r: Errno)
      requires Valid() && dir in ino && target in ino && GoodName(name) && d != NULL && d !in dent
      modifies this`dent, this`ino, this`next, this`depth
      ensures Valid()
      ensures r == OK ==> next == old(next) + 1
      ensures r == OK ==> ino == old(ino)[target := old(ino)[target].(nlink := old(ino)[target].nlink + 1)]
      ensures r == OK ==> NoChild(old(dent), old(ino), dir, name) && memory && |name| <= NAME_MAX
      ensures r == OK ==> old(ino)[dir].kind == Dir && old(ino)[target].kind != Dir
      ensures r == OK ==>
        old(ino)[dir].ptr in old(dent)
      ensures r == OK ==> SeenAdded(old(dent), old(ino), dent, ino, d, dir, name)
      ensures r == OK ==>
        dent == Added(old(dent), old(ino)[dir].ptr, d, Dentry(name, target, old(ino)[dir].ptr, [], old(next)))
      ensures r != OK ==> dent == old(dent) && ino == old(ino) && next == old(next)
      ensures r == EPERM <==> old(ino)[target].kind == Dir
      ensures r == EEXIST ==> !NoChild(old(dent), old(ino), dir, name)
      ensures r == OK <== old(ino)[target].kind != Dir && old(ino)[dir].kind == Dir && old(ino)[dir].ptr != NULL
        && NoChild(old(dent), old(ino), dir, name) && |name| <= NAME_MAX && memory
    {
      hide TreeOk, NamedOk, HeldOk, OpensOk, NoChild, SeenAdded;
      if ino[target].kind == Dir { return EPERM; }
      if ino[dir].kind != Dir { return ENOTDIR; }
      if ino[dir].ptr == NULL { return ENOENT; }
      var c := Child(dir, name);
      if c != NULL { return EEXIST; }
      if |name| > NAME_MAX { return ENAMETOOLONG; }
      if !memory { return ENOMEM; }
      PtrThere(dent, ino, dir);
      var p := ino[dir].ptr;
      NoneNamed(dent, ino, root, depth, next, dir, name);
      LinkNamed(dent, ino, p, d, Dentry(name, target, p, [], next));
      HeldLink(ino, opens, target);
      AddChild(p, d, Dentry(name, target, p, [], next));
      ino := ino[target := ino[target].(nlink := ino[target].nlink + 1)];
      AddedSeen(old(dent), old(ino), root, old(depth), old(next), dent, ino, depth, next, p, d, dent[d]);
      return OK;
    }

    /** vfs_unlink */
    method Unlink(dir: nat, name: string) returns (r: Errno)
      requires Valid() && dir in ino
      modifies this`dent, this`ino, this`depth
      ensures Valid()
      ensures r == OK ==> exists d ::
        && IsChild(old(dent), old(ino), dir, name, d) && Gone(old(dent), old(ino), dent, ino, d)
        && old(ino)[old(dent)[d].inode].kind != Dir && SeenRemoved(old(dent), old(ino), dent, ino, d)
      ensures r != OK ==> dent == old(dent) && ino == old(ino)
      ensures r == ENOENT || r == ENOTDIR <==> NoChild(old(dent), old(ino), dir, name)
      ensures r == ENOTDIR <==> old(ino)[dir].kind != Dir
      ensures r == EISDIR <==> exists d :: IsChild(old(dent), old(ino), dir, name, d) && OfDir(old(dent), old(ino), d)
      ensures r in {OK, ENOENT, ENOTDIR, EISDIR}
    {
      hide TreeOk, NamedOk, HeldOk, OpensOk, NoChild, RemovedFrom, SeenRemoved;
      var d := Child(dir, name);
      if d == NULL {
        NoneThere(dent, ino, dir, name);
        return if ino[dir].kind == Dir then ENOENT else ENOTDIR;
      }
      SomeThere(dent, ino, dir, name, d);
      OnlyChild(dent, ino, root, depth, next, dir, name, d);
      EntryFacts(dent, ino, root, depth, next, dir, name, d);
      if ino[dent[d].inode].kind == Dir { return EISDIR; }
      Drop(d);
      assert Gone(old(dent), old(ino), dent, ino, d);
      RemovedSeen(old(dent), old(ino), root, old(depth), next, dent, ino, depth, d);
      return OK;
    }

    /** The ancestor loop of vfs_rename: is `a` the entry `src` or beneath it? */
    method IsUnder(a: nat, src: nat) returns (under: bool)
      requires Named() && a in dent
      ensures under <==> Below(dent, root, depth, next, a, src)
    {
      hide TreeOk, NamedOk;
      var x := a;
      UpFacts(dent, root, depth, next, x);
      while x != NULL
        invariant x != NULL ==> x in dent && x in depth
        invariant x != NULL ==> (Below(dent, root, depth, next, a, src) <==> Below(dent, root, depth, next, x, src))
        invariant x == NULL ==> !Below(dent, root, depth, next, a, src)
        decreases if x != NULL && x in depth then depth[x] + 1 else 0
      {
        if x == src { return true; }
        UpFacts(dent, root, depth, next, x);
        x := dent[x].parent;
        if x != NULL { UpFacts(dent, root, depth, next, x); }
      }
      return false;
    }

    /** detach, strcpy of the new name, vfs_add_child: an entry moves. */
    method Move(src: nat, np: nat, name: string)
      requires Valid() && src in dent && src != root && np in dent && !Below(dent, root, depth, next, np, src)
      requires dent[np].inode in ino && ino[dent[np].inode].kind == Dir && GoodName(name) && |name| <= NAME_MAX
      requires forall c :: c in dent[np].children && c != src ==> c in dent && dent[c].name != name
      modifies this`dent, this`next, this`depth
      ensures Valid() && MovedTo(old(dent), dent, src, np, name, old(next)) && next == old(next) + 1
    {
      hide TreeOk, NamedOk, HeldOk, OpensOk, RootOk, RemoveAt, Below, Depths, Moved, MovedTo;
      var k := Position(src);
      MoveOk(dent, root, depth, next, src, k, np, name);
      NotSelf(dent, root, depth, next, np, src);
      MoveNamed(dent, ino, src, k, np, name, next);
      depth := Depths(dent, root, depth, next, src, np);
      Detach(src, k);
      dent := dent[src := dent[src].(name := name, num := next, parent := np)];
      next := next + 1;
      dent := dent[np := dent[np].(children := dent[np].children + [src])];
      MovedSteps(old(dent), src, k, np, name, old(next));
      RootMove(old(dent), dent, ino, root, src, k, np, name, old(next));
    }

    /** vfs_rename: replaces what the new name stood for, unless it may not. A
        directory never moves beneath itself. */
    method Rename(odir: nat, oname: string, ndir: nat, nname: string, noreplace: bool) returns (r: Errno)
      requires Valid() && odir in ino && ndir in ino && GoodName(nname)
      modifies this`dent, this`ino, this`next, this`depth
      ensures Valid()
      ensures r == OK ==> exists src ::
        && IsChild(old(dent), old(ino), odir, oname, src)
        && RenameDone(old(dent), old(ino), old(next), dent, ino, next, src, ndir, nname)
        && (next == old(next) || SeenMoved(old(dent), old(ino), dent, ino, src, ndir, nname))
      ensures r != OK ==> dent == old(dent) && ino == old(ino) && next == old(next)
      ensures r == EINVAL <==>
        |nname| <= NAME_MAX && Loops(old(dent), old(ino), root, old(depth), old(next), odir, oname, ndir)
      ensures r == OK <==>
        && CanHold(old(ino), ndir, nname)
        && !Loops(old(dent), old(ino), root, old(depth), old(next), odir, oname, ndir)
        && MayRename(old(dent), old(ino), odir, oname, ndir, nname, noreplace)
      ensures r == EEXIST ==> noreplace && !NoChild(old(dent), old(ino), ndir, nname)
    {
      hide TreeOk, NamedOk, HeldOk, OpensOk, NoChild, RemovedFrom, Below, MovedTo, Dropped, Loops, Loop, Renamed;
      hide MayRename, Replaceable, SeenMoved;
      var src := Child(odir, oname);
      LoopsIs(dent, ino, root, depth, next, odir, oname, ndir, src);
      NullOut(dent, root, depth, next);
      LoopIs(dent, ino, root, depth, next, ino[ndir].ptr, src);
      if src == NULL {
        NoSource(dent, ino, odir, oname, ndir, nname, noreplace);
        return ENOENT;
      }
      EntryFacts(dent, ino, root, depth, next, odir, oname, src);
      if ino[ndir].kind != Dir { return ENOTDIR; }
      if ino[ndir].ptr == NULL { return ENOENT; }
      if |nname| > NAME_MAX { return ENAMETOOLONG; }
      var np := ino[ndir].ptr;
      PtrThere(dent, ino, ndir);
      if ino[dent[src].inode].kind == Dir {
        var into := IsUnder(np, src);
        if into { return EINVAL; }
      } else {
        PlainNotAbove(dent, ino, root, depth, next, src, np);
      }
      var dst := Child(ndir, nname);
      MayIs(dent, ino, root, depth, next, odir, oname, src, ndir, nname, dst, noreplace);
      if dst != NULL {
        SomeThere(dent, ino, ndir, nname, dst);
        if noreplace { return EEXIST; }
        EntryFacts(dent, ino, root, depth, next, ndir, nname, dst);
        CanReplace(dent, ino, src, dst);
        if dent[dst].inode == dent[src].inode { return OK; }
        if ino[dent[src].inode].kind == Dir && ino[dent[dst].inode].kind != Dir { return ENOTDIR; }
        if ino[dent[src].inode].kind != Dir && ino[dent[dst].inode].kind == Dir { return EISDIR; }
        if ino[dent[dst].inode].kind == Dir && dent[dst].children != [] { return ENOTEMPTY; }
      }
      Replace(src, ndir, nname, dst);
      RenamedSeen(old(dent), old(ino), root, old(depth), old(next), dent, ino, depth, src, ndir, nname);
      return OK;
    }

    /** The end of vfs_rename, past all checks. */
    method Replace(src: nat, ndir: nat, nname: string, dst: nat)
      requires Valid() && src in dent && src != root && ndir in ino && ino[ndir].kind == Dir && ino[ndir].ptr in dent
      requires dent[ino[ndir].ptr].inode == ndir
      requires GoodName(nname) && |nname| <= NAME_MAX && !Below(dent, root, depth, next, ino[ndir].ptr, src)
      requires dst == NULL ==> NoChild(dent, ino, ndir, nname)
      requires dst != NULL ==> IsChild(dent, ino, ndir, nname, dst) && dent[dst].children == []
      requires dst != NULL ==> dst != root && dent[dst].inode != dent[src].inode
      modifies this`dent, this`ino, this`next, this`depth
      ensures Valid() && Renamed(old(dent), old(ino), dent, ino, src, ndir, nname, old(next)) && next == old(next) + 1
    {
      hide TreeOk, NamedOk, HeldOk, OpensOk, NoChild, RemovedFrom, Below, MovedTo, Dropped;
      ghost var t, j, h := dent, ino, depth;
      var np := ino[ndir].ptr;
      if dst != NULL {
        Drop(dst);
        AfterDrop(t, j, root, h, next, dent, dst, src, ndir, nname);
        assert !Below(dent, root, depth, next, np, src) by {
          if Below(dent, root, depth, next, np, src) { BelowRemoved(t, root, h, next, dent, depth, np, src); }
        }
        KeptDir(j, t[dst].inode, ndir);
        assert Replaced(t, j, dent, ino, dst, src, ndir, nname);
        ChildrenThere(dent, root, depth, next, np);
      } else {
        NoneNamed(dent, ino, root, depth, next, ndir, nname);
      }
      Move(src, np, nname);
    }

    // ---- Open files and working directories ----

    /** vfs_iput: the last reference to an inode without a name ends it. */
    method Iput(i: nat)
      requires i in ino && ino[i].refs > 0
      modifies this`ino
      ensures ino == Put(old(ino), i)
    {
      ino := ino[i := ino[i].(refs := ino[i].refs - 1)];
      if ino[i].refs == 0 && ino[i].nlink == 0 { ino := ino - {i}; }
      assert ino == Put(old(ino), i);
    }

    /** file_alloc: a new open file of the inode `i`, held by the caller. */
    method FileAlloc(i: nat, f: nat)
      requires Valid() && i in ino && 0 < f < |opens.files| && opens.files[f] == NULL
      modifies this`ino, this`opens
      ensures Settled(f) && opens == old(opens).(files := old(opens).files[f := i], counts := old(opens).counts[f := 1])
      ensures ino == old(ino)[i := old(ino)[i].(refs := old(ino)[i].refs + 1)]
    {
      hide TreeOk, NamedOk, HeldOk;
      AllocHeld(dent, ino, opens, f, i);
      opens := opens.(files := opens.files[f := i], counts := opens.counts[f := 1]);
      ino := ino[i := ino[i].(refs := ino[i].refs + 1)];
    }

    /** file_get */
    method FileGet(f: nat)
      requires Valid() && 0 < f < |opens.files| && opens.files[f] != NULL
      modifies this`opens
      ensures Settled(f) && opens == old(opens).(counts := old(opens).counts[f := old(opens).counts[f] + 1])
    {
      hide TreeOk, NamedOk, HeldOk;
      opens := opens.(counts := opens.counts[f := opens.counts[f] + 1]);
      SameHeld(ino, old(opens), opens);
    }

    /** file_put: the last reference to an open file gives up its inode. */
    method FilePut(f: nat)
      requires Settled(f) && f < |opens.files|
      modifies this`ino, this`opens
      ensures Valid() && opens.slots == old(opens.slots) && opens.cwds == old(opens.cwds)
      ensures |opens.files| == |old(opens.files)|
      ensures f == NULL ==> ino == old(ino) && opens == old(opens)
      ensures f != NULL ==> old(opens.files)[f] in old(ino) && old(ino)[old(opens.files)[f]].refs > 0
      ensures f != NULL && f in opens.slots ==> ino == old(ino) && opens.files == old(opens.files)
      ensures f != NULL && f !in opens.slots ==> ino == Put(old(ino), old(opens.files)[f])
      ensures f != NULL && f !in opens.slots ==> opens.files == old(opens.files)[f := NULL]
    {
      hide TreeOk, NamedOk, HeldOk, RootOk;
      if f == NULL { return; }
      InHand(opens, f);
      HandHeld(dent, ino, opens, f);
      opens := opens.(counts := opens.counts[f := opens.counts[f] - 1]);
      SameHeld(ino, old(opens), opens);
      if opens.counts[f] == 0 {
        var i := opens.files[f];
        FreeHeld(dent, ino, old(opens), opens, f, i);
        RootStays(dent, ino, Put(ino, i), root);
        Iput(i);
        opens := opens.(files := opens.files[f := NULL]);
      }
    }

    /** fd_install: the lowest free slot of the process, whose slots start at `base`,
        from `min` on; the file is put when there is none. */
    method Install(f: nat, base: nat, min: nat, limit: nat) returns (r: Errno, k: nat)
      requires Settled(f) && 0 < f < |opens.files| && base + limit <= |opens.slots|
      modifies this`ino, this`opens
      ensures Valid() && (r == OK || r == EMFILE) && |opens.files| == |old(opens.files)|
      ensures opens.cwds == old(opens.cwds)
      ensures r == OK ==> min <= k < limit && opens.slots == old(opens.slots)[base + k := f]
      ensures r == OK ==> old(opens.slots)[base + k] == NULL
      ensures r == OK ==> ino == old(ino) && opens.files == old(opens.files)
      ensures r == OK ==> forall j :: base + min <= j < base + k ==> old(opens.slots)[j] != NULL
      ensures r == EMFILE ==> opens.slots == old(opens.slots)
      ensures r == EMFILE ==> forall j :: base + min <= j < base + limit ==> opens.slots[j] != NULL
    {
      hide TreeOk, NamedOk, HeldOk;
      k := min;
      while k < limit
        invariant min <= k && (k <= limit || k == min) && opens == old(opens) && ino == old(ino)
        invariant forall j :: base + min <= j < base + k ==> opens.slots[j] != NULL
      {
        if opens.slots[base + k] == NULL {
          opens := opens.(slots := opens.slots[base + k := f]);
          Installed(old(opens), base + k, f);
          SameHeld(ino, old(opens), opens);
          return OK, k;
        }
        k := k + 1;
      }
      FilePut(f);
      return EMFILE, k;
    }

    /** Opening an inode: file_alloc, then fd_install. */
    method Open(i: nat, f: nat, base: nat, limit: nat) returns (r: Errno, k: nat)
      requires Valid() && i in ino && 0 < f < |opens.files| && opens.files[f] == NULL && base + limit <= |opens.slots|
      modifies this`ino, this`opens
      ensures Valid() && (r == OK || r == EMFILE)
      ensures r == OK ==> k < limit && opens.slots == old(opens.slots)[base + k := f]
      ensures r == OK ==> |opens.files| == |old(opens.files)| && opens.files[f] == i
      ensures r == OK ==> ino == old(ino)[i := old(ino)[i].(refs := old(ino)[i].refs + 1)]
      ensures r == EMFILE <==> forall j :: base <= j < base + limit ==> old(opens.slots)[j] != NULL
    {
      FileAlloc(i, f);
      hide TreeOk, NamedOk, HeldOk, OpensOk;
      r, k := Install(f, base, 0, limit);
    }

    /** sys_close */
    method Close(k: nat) returns (r: Errno)
      requires Valid() && k < |opens.slots|
      modifies this`ino, this`opens
      ensures Valid() && (r == EBADF <==> old(opens.slots)[k] == NULL) && (r == OK || r == EBADF)
      ensures opens.slots == old(opens.slots)[k := NULL] && opens.cwds == old(opens.cwds)
      ensures |opens.files| == |old(opens.files)|
      ensures old(opens.slots)[k] < |old(opens.files)|
      ensures (r == OK ==>
        old(opens.files)[old(opens.slots)[k]] in old(ino) && old(ino)[old(opens.files)[old(opens.slots)[k]]].refs > 0)
      ensures r != OK || old(opens.slots)[k] in opens.slots ==> ino == old(ino) && opens.files == old(opens.files)
      ensures r == OK && old(opens.slots)[k] !in opens.slots ==>
        ino == Put(old(ino), old(opens.files)[old(opens.slots)[k]])
      ensures r == OK && old(opens.slots)[k] !in opens.slots ==>
        opens.files == old(opens.files)[old(opens.slots)[k] := NULL]
    {
      hide TreeOk, NamedOk, HeldOk;
      var f := opens.slots[k];
      if f == NULL { return EBADF; }
      ghost var o := opens;
      opens := opens.(slots := opens.slots[k := NULL]);
      Cleared(o, k);
      SameHeld(ino, o, opens);
      FilePut(f);
      return OK;
    }

    /** sys_dup3: slot `to` comes to mean the file of slot `from`. The old file of
        `to` is put first; it cannot be the one in `from`'s hand alone. */
    method Dup3(from: nat, to: nat) returns (r: Errno)
      requires Valid() && from < |opens.slots| && to < |opens.slots|
      modifies this`ino, this`opens
      ensures Valid() && (r == EBADF <==> old(opens.slots)[from] == NULL)
      ensures (r == EINVAL <==> from == to && old(opens.slots)[from] != NULL) && (r == OK || r == EBADF || r == EINVAL)
      ensures r == OK ==> opens.slots == old(opens.slots)[to := old(opens.slots)[from]] && opens.cwds == old(opens.cwds)
      ensures r != OK ==> opens == old(opens) && ino == old(ino)
      ensures r == OK && (old(opens.slots)[to] == NULL || old(opens.slots)[to] in opens.slots) ==>
        ino == old(ino) && opens.files == old(opens.files)
      ensures r == OK && old(opens.slots)[to] != NULL && old(opens.slots)[to] !in opens.slots ==>
        Released(old(ino), ino, old(opens.files), opens.files, old(opens.slots)[to])
    {
      hide Namespace.Settled;
      var f := opens.slots[from];
      if f == NULL { return EBADF; }
      if from == to { return EINVAL; }
      var _ := Close(to);
      StillOpen(old(opens.slots), from, to);
      Share(from, to);
      return OK;
    }

    /** An empty slot comes to mean the file of another. */
    method Share(from: nat, to: nat)
      requires Valid() && from < |opens.slots| && to < |opens.slots| && opens.slots[from] != NULL
      requires opens.slots[to] == NULL
      modifies this`opens
      ensures Valid() && opens.slots == old(opens.slots)[to := old(opens.slots)[from]]
      ensures opens.files == old(opens.files) && opens.cwds == old(opens.cwds)
    {
      hide TreeOk, NamedOk, HeldOk, OpensOk;
      var f := opens.slots[from];
      FileThere(opens, from);
      FileGet(f);
      ghost var o := opens;
      opens := opens.(slots := opens.slots[to := f]);
      Installed(o, to, f);
      SameHeld(ino, o, opens);
    }

    /** process_fork: the `n` slots from `to` on, empty so far, get the files of the
        slots from `from` on. */
    method CopySlots(from: nat, to: nat, n: nat)
      requires Valid() && from + n <= |opens.slots| && to + n <= |opens.slots| && (from + n <= to || to + n <= from)
      requires forall k :: to <= k < to + n ==> opens.slots[k] == NULL
      modifies this`ino, this`opens
      ensures Valid() && |opens.slots| == |old(opens.slots)| && ino == old(ino) && opens.files == old(opens.files)
      ensures opens.cwds == old(opens.cwds)
      ensures forall k :: to <= k < to + n ==> opens.slots[k] == old(opens.slots)[k - to + from]
      ensures forall k :: 0 <= k < |opens.slots| && !(to <= k < to + n) ==> opens.slots[k] == old(opens.slots)[k]
    {
      hide Namespace.Settled;
      var i := 0;
      while i < n
        invariant 0 <= i <= n && Valid() && |opens.slots| == |old(opens.slots)| && ino == old(ino)
        invariant opens.files == old(opens.files) && opens.cwds == old(opens.cwds)
        invariant forall k :: to <= k < to + i ==> opens.slots[k] == old(opens.slots)[k - to + from]
        invariant forall k :: 0 <= k < |opens.slots| && !(to <= k < to + i) ==> opens.slots[k] == old(opens.slots)[k]
      {
        if opens.slots[from + i] != NULL { var _ := Dup3(from + i, to + i); }
        i := i + 1;
      }
    }

    /** scheduler_exit: the `n` slots from `from` on are closed. */
    method CloseAll(from: nat, n: nat)
      requires Valid() && from + n <= |opens.slots|
      modifies this`ino, this`opens
      ensures Valid() && |opens.slots| == |old(opens.slots)| && opens.cwds == old(opens.cwds)
      ensures forall k :: 0 <= k < |opens.slots| ==>
        opens.slots[k] == if from <= k < from + n then NULL else old(opens.slots)[k]
    {
      hide Namespace.Settled;
      var i := 0;
      while i < n
        invariant 0 <= i <= n && Valid() && |opens.slots| == |old(opens.slots)| && opens.cwds == old(opens.cwds)
        invariant forall k :: 0 <= k < |opens.slots| ==>
          opens.slots[k] == if from <= k < from + i then NULL else old(opens.slots)[k]
      {
        var _ := Close(from + i);
        i := i + 1;
      }
    }

    /** sys_chdir, and what fork and exit do to a working directory: `to` may be
        NULL, for a process that has none. */
    method Chdir(p: nat, to: nat)
      requires Valid() && p < |opens.cwds| && (to == NULL || to in ino)
      modifies this`ino, this`opens
      ensures Valid() && opens == old(opens).(cwds := old(opens.cwds)[p := to])
      ensures var j, from := Taken(old(ino), to), old(opens.cwds)[p];
        if from == NULL then ino == j else from in j && j[from].refs > 0 && ino == Put(j, from)
    {
      hide TreeOk, NamedOk, HeldOk;
      NoNull(dent, ino);
      ghost var o, j := opens, ino;
      if to != NULL { ino := ino[to := ino[to].(refs := ino[to].refs + 1)]; }
      var from := opens.cwds[p];
      opens := opens.(cwds := opens.cwds[p := to]);
      ChdirHeld(dent, j, ino, o, opens, p, to);
      if from != NULL { Iput(from); }
      RootStays(dent, j, ino, root);
    }

    /** One system call; one that names things that are not there is skipped. Entries
        that it does not name stay as they are, and numbers are never used again. */
    method Step(e: Event)
      requires Valid()
      modifies this
      ensures Valid() && Spared(old(dent), old(ino), e, dent) && Progress(old(dent), old(next), dent, next)
    {
      hide Namespace.Settled, Spared, Progress, Added, Gone, RenameDone, NoChild, Loops, MayRename, CanHold, OfDir;
      SameKept(dent, ino, e, next);
      match e
      case Creates(dir, name, kind, i, d, memory) =>
        if dir in ino && GoodName(name) && i != NULL && i !in ino && d != NULL && d !in dent {
          var r := Create(dir, name, kind, i, d, memory);
          ghost var p := old(ino)[dir].ptr;
          if r == OK { AddKept(old(dent), old(ino), e, old(next), p, d, Dentry(name, i, p, [], old(next))); }
        }
      case Links(dir, name, target, d, memory) =>
        if dir in ino && target in ino && GoodName(name) && d != NULL && d !in dent {
          var r := Link(dir, name, target, d, memory);
          ghost var p := old(ino)[dir].ptr;
          if r == OK { AddKept(old(dent), old(ino), e, old(next), p, d, Dentry(name, target, p, [], old(next))); }
        }
      case Unlinks(dir, name) =>
        if dir in ino {
          var r := Unlink(dir, name);
          if r == OK { GoneKept(old(dent), old(ino), e, next, dent, ino, dir, name); }
        }
      case Rmdirs(dir, name) =>
        if dir in ino {
          var r := Rmdir(dir, name);
          if r == OK { GoneKept(old(dent), old(ino), e, next, dent, ino, dir, name); }
        }
      case Renames(odir, oname, ndir, nname, noreplace) =>
        if odir in ino && ndir in ino && GoodName(nname) {
          var r := Rename(odir, oname, ndir, nname, noreplace);
          if r == OK { RenameKept(old(dent), old(ino), e, old(next), dent, ino, next); }
        }
      case OpensFile(i, f, base, limit) =>
        if i in ino && 0 < f < |opens.files| && opens.files[f] == NULL && base + limit <= |opens.slots| {
          var _, _ := Open(i, f, base, limit);
        }
      case Closes(k) => if k < |opens.slots| { var _ := Close(k); }
      case Dups(from, to) => if from < |opens.slots| && to < |opens.slots| { var _ := Dup3(from, to); }
      case Chdirs(p, to) => if p < |opens.cwds| && (to == NULL || to in ino) { Chdir(p, to); }
    }

    /** vfs_rmdir */
    method Rmdir(dir: nat, name: string) returns (r: Errno)
      requires Valid() && dir in ino
      modifies this`dent, this`ino, this`depth
      ensures Valid()
      ensures r == OK ==> exists d ::
        && IsChild(old(dent), old(ino), dir, name, d) && Gone(old(dent), old(ino), dent, ino, d)
        && old(ino)[old(dent)[d].inode].kind == Dir && old(dent)[d].children == []
        && SeenRemoved(old(dent), old(ino), dent, ino, d)
      ensures r != OK ==> dent == old(dent) && ino == old(ino)
      ensures r == ENOENT <==> old(ino)[dir].kind == Dir && NoChild(old(dent), old(ino), dir, name)
      ensures r == ENOTEMPTY <==> exists d ::
        IsChild(old(dent), old(ino), dir, name, d) && OfDir(old(dent), old(ino), d) && old(dent)[d].children != []
      ensures r == OK <== exists d ::
        IsChild(old(dent), old(ino), dir, name, d) && OfDir(old(dent), old(ino), d) && old(dent)[d].children == []
      ensures r in {OK, ENOENT, ENOTDIR, ENOTEMPTY}
    {
      hide TreeOk, NamedOk, HeldOk, OpensOk, NoChild, RemovedFrom, SeenRemoved;
      var d := Child(dir, name);
      if d == NULL {
        NoneThere(dent, ino, dir, name);
        return if ino[dir].kind == Dir then ENOENT else ENOTDIR;
      }
      SomeThere(dent, ino, dir, name, d);
      OnlyChild(dent, ino, root, depth, next, dir, name, d);
      EntryFacts(dent, ino, root, depth, next, dir, name, d);
      if ino[dent[d].inode].kind != Dir { return ENOTDIR; }
      if dent[d].children != [] { return ENOTEMPTY; }
      Drop(d);
      assert Gone(old(dent), old(ino), dent, ino, d);
      RemovedSeen(old(dent), old(ino), root, old(depth), next, dent, ino, depth, d);
      return OK;
    }
  }

  /** The last reference to open file `f` went, and with it the inode's. */
  ghost predicate Released(was: Inos, now: Inos, files: seq<nat>, left: seq<nat>, f: nat) {
    && f < |files| && files[f] in was && was[files[f]].refs > 0
    && now == Put(was, files[f]) && left == files[f := NULL]
  }

  lemma StillOpen(slots: seq<nat>, from: nat, to: nat)
    requires from < |slots| && to < |slots| && from != to
    ensures slots[to := NULL][to := slots[from]] == slots[to := slots[from]]
    ensures slots[to] != NULL ==> (slots[to] in slots[to := NULL] <==> slots[to] in slots[to := slots[from]])
  {
    var f := slots[from];
    if slots[to] in slots[to := NULL] && slots[to] != NULL {
      var k :| 0 <= k < |slots| && slots[to := NULL][k] == slots[to];
      assert slots[to := f][k] == slots[to];
    }
    if slots[to] in slots[to := f] && slots[to] != NULL {
      var k :| 0 <= k < |slots| && slots[to := f][k] == slots[to];
      assert slots[to := NULL][if k == to then from else k] == slots[to];
    }
  }

  /** A directory that is still there can get an entry of that name. */
  ghost predicate CanHold(ino: Inos, dir: nat, name: string) {
    |name| <= NAME_MAX && dir in ino && ino[dir].kind == Dir && ino[dir].ptr != NULL
  }

  ghost predicate OfDir(t: Dents, ino: Inos, d: nat) { d in t && t[d].inode in ino && ino[t[d].inode].kind == Dir }

  /** `src` can take the place of `dst`: they are names of one file, or both are
      directories and `dst` is empty, or neither is. */
  ghost predicate Replaceable(t: Dents, ino: Inos, src: nat, dst: nat) {
    && src in t && dst in t
    && (t[src].inode == t[dst].inode
        || (if OfDir(t, ino, src) then OfDir(t, ino, dst) && t[dst].children == [] else !OfDir(t, ino, dst)))
  }

  ghost predicate MayRename(t: Dents, ino: Inos, odir: nat, oname: string, ndir: nat, nname: string, noreplace: bool) {
    exists src :: IsChild(t, ino, odir, oname, src) && (
      || NoChild(t, ino, ndir, nname)
      || (!noreplace && exists dst :: IsChild(t, ino, ndir, nname, dst) && Replaceable(t, ino, src, dst)))
  }

  lemma NoneThere(t: Dents, ino: Inos, dir: nat, name: string)
    requires NoChild(t, ino, dir, name)
    ensures forall e :: !IsChild(t, ino, dir, name, e)
  {
  }

  lemma SomeThere(t: Dents, ino: Inos, dir: nat, name: string, d: nat)
    requires IsChild(t, ino, dir, name, d)
    ensures !NoChild(t, ino, dir, name) && dir in ino && ino[dir].kind == Dir
  {
  }

  lemma OnlyChild(t: Dents, ino: Inos, root: nat, depth: map<nat, nat>, next: nat, dir: nat, name: string, d: nat)
    requires TreeOk(t, root, depth, next) && IsChild(t, ino, dir, name, d)
    ensures forall e :: IsChild(t, ino, dir, name, e) ==> e == d
  {
    hide TreeOk;
    KidsThere(t, root, depth, next, ino[dir].ptr);
    forall e | IsChild(t, ino, dir, name, e) ensures e == d {
      if e != d { OneName(t, ino[dir].ptr, t[ino[dir].ptr].children, next, e, d); }
    }
  }

  lemma NoSource(t: Dents, ino: Inos, odir: nat, oname: string, ndir: nat, nname: string, noreplace: bool)
    requires NoChild(t, ino, odir, oname)
    ensures !MayRename(t, ino, odir, oname, ndir, nname, noreplace)
  {
    hide IsChild, Replaceable;
  }

  lemma MayIs(t: Dents, ino: Inos, root: nat, depth: map<nat, nat>, next: nat, odir: nat, oname: string, src: nat,
              ndir: nat, nname: string, dst: nat, noreplace: bool)
    requires TreeOk(t, root, depth, next) && IsChild(t, ino, odir, oname, src)
    requires if dst == NULL then NoChild(t, ino, ndir, nname) else IsChild(t, ino, ndir, nname, dst)
    ensures MayRename(t, ino, odir, oname, ndir, nname, noreplace) <==>
      dst == NULL || (!noreplace && Replaceable(t, ino, src, dst))
  {
    hide TreeOk, Replaceable, IsChild;
    OnlyChild(t, ino, root, depth, next, odir, oname, src);
    if dst != NULL {
      OnlyChild(t, ino, root, depth, next, ndir, nname, dst);
      SomeThere(t, ino, ndir, nname, dst);
    }
  }

  lemma CanReplace(t: Dents, ino: Inos, src: nat, dst: nat)
    requires src in t && dst in t && t[src].inode in ino && t[dst].inode in ino
    ensures var a, b := t[src].inode, t[dst].inode;
      Replaceable(t, ino, src, dst) <==>
        a == b || (if ino[a].kind == Dir then ino[b].kind == Dir && t[dst].children == [] else ino[b].kind != Dir)
  {
  }

  /** rename went through: `src` stands under the new directory and name, and what
      stood there before is gone. */
  ghost predicate Renamed(t: Dents, ino: Inos, u: Dents, j: Inos, src: nat, ndir: nat, nname: string, next: nat) {
    && ndir in ino
    && ((NoChild(t, ino, ndir, nname) && j == ino && MovedTo(t, u, src, ino[ndir].ptr, nname, next))
        || (exists dst, mid ::
          Replaced(t, ino, mid, j, dst, src, ndir, nname) && MovedTo(mid, u, src, ino[ndir].ptr, nname, next)))
  }

  ghost predicate RenameDone(t: Dents, ino: Inos, next: nat, u: Dents, j: Inos, more: nat, src: nat, ndir: nat,
                             nname: string) {
    if more == next then SameFile(t, ino, src, ndir, nname) && u == t && j == ino
    else Renamed(t, ino, u, j, src, ndir, nname, next) && more == next + 1
  }

  ghost predicate Replaced(t: Dents, ino: Inos, mid: Dents, j: Inos, dst: nat, src: nat, ndir: nat, nname: string) {
    && IsChild(t, ino, ndir, nname, dst) && Gone(t, ino, mid, j, dst)
    && t[dst].children == [] && src in t && t[src].inode != t[dst].inode
  }

  /** The two names are of one file already. */
  ghost predicate SameFile(t: Dents, ino: Inos, src: nat, ndir: nat, nname: string) {
    src in t && exists dst :: IsChild(t, ino, ndir, nname, dst) && t[dst].inode == t[src].inode
  }

  lemma {:induction false} BelowRemoved(t: Dents, root: nat, depth: map<nat, nat>, next: nat, u: Dents,
                                        h: map<nat, nat>, x: nat, a: nat)
    requires TreeOk(t, root, depth, next) && TreeOk(u, root, h, next) && x in u && Below(u, root, h, next, x, a)
    requires forall e :: e in u ==> e in t && u[e].parent == t[e].parent
    ensures Below(t, root, depth, next, x, a)
    decreases if x in h then h[x] else 0
  {
    hide TreeOk;
    UpFacts(u, root, h, next, x);
    UpFacts(t, root, depth, next, x);
    if x != a { BelowRemoved(t, root, depth, next, u, h, u[x].parent, a); }
  }

  /** An entry that is no directory has nothing beneath it. */
  lemma PlainNotAbove(t: Dents, ino: Inos, root: nat, depth: map<nat, nat>, next: nat, src: nat, np: nat)
    requires TreeOk(t, root, depth, next) && NamedOk(t, ino) && src in t && np in t
    requires t[src].inode in ino && ino[t[src].inode].kind != Dir && t[np].inode in ino && ino[t[np].inode].kind == Dir
    ensures !Below(t, root, depth, next, np, src)
  {
    hide TreeOk;
    assert EntryOk(t, ino, src);
    if Below(t, root, depth, next, np, src) { BelowDeep(t, root, depth, next, np, src); }
  }

  /** What is left where `dst` was: the rest of the tree, and no entry of its name. */
  lemma AfterDrop(t: Dents, ino: Inos, root: nat, depth: map<nat, nat>, next: nat, u: Dents, dst: nat, src: nat,
                  ndir: nat, nname: string)
    requires TreeOk(t, root, depth, next) && NamedOk(t, ino) && IsChild(t, ino, ndir, nname, dst)
    requires RemovedFrom(t, u, dst)
    requires src in t && t[src].inode != t[dst].inode && dst != root
    ensures t[dst].inode != ndir && ino[ndir].ptr in u && u[ino[ndir].ptr].inode == ndir && src in u
    ensures forall e :: e in u ==>
      e in t && u[e].parent == t[e].parent && u[e].inode == t[e].inode && u[e].name == t[e].name
    ensures forall c :: c in u[ino[ndir].ptr].children && c in u ==> u[c].name != nname
  {
    hide TreeOk, NamedOk, KidsOk, RemoveAt;
    var p := ino[ndir].ptr;
    KidNotSelf(t, root, depth, next, p, dst);
    NullOut(t, root, depth, next);
    DirApart(t, ino, ndir, dst);
    var k: nat :| At(t, dst, k) && u == Removed(t, dst, k);
    KidsThere(t, root, depth, next, p);
    KidsRemove(t, p, t[p].children, next, k);
    forall c | c in u[p].children && c in u ensures u[c].name != nname {
      OneName(t, p, t[p].children, next, c, dst);
    }
  }

  lemma KidsThere(t: Dents, root: nat, depth: map<nat, nat>, next: nat, p: nat)
    requires TreeOk(t, root, depth, next) && p in t
    ensures KidsOk(t, p, t[p].children, next)
  {
  }

  /** The entry of a directory is not that of anything in it. */
  lemma DirApart(t: Dents, ino: Inos, ndir: nat, dst: nat)
    requires NamedOk(t, ino) && ndir in ino && ino[ndir].kind == Dir && ino[ndir].ptr in t && dst in t
    requires ino[ndir].ptr != dst && ino[ndir].ptr != NULL
    ensures t[dst].inode != ndir && t[ino[ndir].ptr].inode == ndir
  {
    assert EntryOk(t, ino, dst) && InodeOk(t, ino, ndir);
  }

  lemma OneName(t: Dents, p: nat, cs: seq<nat>, next: nat, c: nat, e: nat)
    requires KidsOk(t, p, cs, next) && c in cs && e in cs && c != e
    ensures c in t && e in t && t[c].name != t[e].name
  {
    var i :| 0 <= i < |cs| && cs[i] == c;
    var j :| 0 <= j < |cs| && cs[j] == e;
    assert if i < j then Apart(t, cs[i], cs[j]) else Apart(t, cs[j], cs[i]);
  }

  /** The entry `d` is gone, and its inode counts one name less, or is gone too. */
  ghost predicate Gone(t: Dents, ino: Inos, u: Dents, j: Inos, d: nat) {
    && d in t && t[d].inode in ino && ino[t[d].inode].nlink > 0
    && RemovedFrom(t, u, d) && j == Dropped(ino, t[d].inode)
  }

  lemma MovedSteps(t: Dents, src: nat, k: nat, np: nat, name: string, next: nat)
    requires At(t, src, k) && np in t && np != src && t[src].parent != src
    ensures var u := Detached(t, src, k);
      var v := u[src := u[src].(name := name, num := next, parent := np)];
      v[np := v[np].(children := v[np].children + [src])] == Moved(t, src, k, np, name, next)
  {
    hide RemoveAt;
  }

  lemma RootMove(t: Dents, u: Dents, ino: Inos, root: nat, src: nat, k: nat, np: nat, name: string, next: nat)
    requires At(t, src, k) && np in t && u == Moved(t, src, k, np, name, next) && RootOk(t, ino, root)
    ensures RootOk(u, ino, root) && MovedTo(t, u, src, np, name, next)
  {
  }

  /** Moving the directory `src` under `np` would make a loop. */
  ghost predicate Loop(t: Dents, ino: Inos, root: nat, depth: map<nat, nat>, next: nat, np: nat, src: nat) {
    && TreeOk(t, root, depth, next) && src in t && np in t && t[src].inode in ino && ino[t[src].inode].kind == Dir
    && Below(t, root, depth, next, np, src)
  }

  /** The rename asked for would make a loop. */
  ghost predicate Loops(t: Dents, ino: Inos, root: nat, depth: map<nat, nat>, next: nat, odir: nat, oname: string,
                        ndir: nat) {
    ndir in ino && ino[ndir].kind == Dir && exists src ::
      IsChild(t, ino, odir, oname, src) && Loop(t, ino, root, depth, next, ino[ndir].ptr, src)
  }

  /** There is only one entry that can loop. */
  lemma LoopsIs(t: Dents, ino: Inos, root: nat, depth: map<nat, nat>, next: nat, odir: nat, oname: string, ndir: nat,
                src: nat)
    requires TreeOk(t, root, depth, next)
    requires (if src == NULL then NoChild(t, ino, odir, oname) else IsChild(t, ino, odir, oname, src)) && ndir in ino
    ensures Loops(t, ino, root, depth, next, odir, oname, ndir) <==>
      src != NULL && ino[ndir].kind == Dir && Loop(t, ino, root, depth, next, ino[ndir].ptr, src)
  {
    hide TreeOk, Loop;
    forall e | IsChild(t, ino, odir, oname, e) ensures e == src {
      assert src == NULL ==> !IsChild(t, ino, odir, oname, e);
      KidsThere(t, root, depth, next, ino[odir].ptr);
      if e != src { OneName(t, ino[odir].ptr, t[ino[odir].ptr].children, next, e, src); }
    }
  }

  lemma LoopIs(t: Dents, ino: Inos, root: nat, depth: map<nat, nat>, next: nat, np: nat, src: nat)
    requires TreeOk(t, root, depth, next) && NULL !in t
    ensures Loop(t, ino, root, depth, next, np, src) <==>
      && src in t && np in t && t[src].inode in ino && ino[t[src].inode].kind == Dir
      && Below(t, root, depth, next, np, src)
    ensures Loop(t, ino, root, depth, next, np, src) ==> np != NULL
  {
  }

  lemma KeptDir(ino: Inos, n: nat, i: nat)
    requires n in ino && ino[n].nlink > 0 && i in ino && i != n
    ensures i in Dropped(ino, n) && Dropped(ino, n)[i] == ino[i]
  {
  }

  lemma NullOut(t: Dents, root: nat, depth: map<nat, nat>, next: nat)
    requires TreeOk(t, root, depth, next)
    ensures NULL !in t
  {
  }

  lemma ChildrenThere(t: Dents, root: nat, depth: map<nat, nat>, next: nat, p: nat)
    requires TreeOk(t, root, depth, next) && p in t
    ensures forall c :: c in t[p].children ==> c in t
  {
    forall c | c in t[p].children ensures c in t { KidNotSelf(t, root, depth, next, p, c); }
  }

  // ---- What lookups see ----

  /** An entry is found under its name in the directory that its parent is of, and
      nowhere else. */
  lemma ChildIs(t: Dents, ino: Inos, root: nat, depth: map<nat, nat>, next: nat, dir: nat, name: string, e: nat)
    requires TreeOk(t, root, depth, next) && NamedOk(t, ino)
    ensures IsChild(t, ino, dir, name, e) <==>
      e in t && e != root && t[e].parent in t && t[t[e].parent].inode == dir && t[e].name == name
  {
    if IsChild(t, ino, dir, name, e) {
      KidNotSelf(t, root, depth, next, ino[dir].ptr, e);
      assert InodeOk(t, ino, dir);
    }
    if e in t && e != root {
      assert Up(t, root, depth, e);
      assert EntryOk(t, ino, t[e].parent);
    }
  }

  /** Lookups find what they found before, and `d` under the new name. */
  ghost predicate SeenAdded(t: Dents, ino: Inos, u: Dents, j: Inos, d: nat, dir: nat, name: string) {
    forall k, n, e {:trigger IsChild(u, j, k, n, e)} ::
      IsChild(u, j, k, n, e) <==> IsChild(t, ino, k, n, e) || (k == dir && n == name && e == d)
  }

  /** Lookups find what they found before, except `d`. */
  ghost predicate SeenRemoved(t: Dents, ino: Inos, u: Dents, j: Inos, d: nat) {
    forall k, n, e {:trigger IsChild(u, j, k, n, e)} ::
      IsChild(u, j, k, n, e) <==> IsChild(t, ino, k, n, e) && e != d
  }

  /** Lookups find `src`, with its file and what is in it, under the new name and no
      other; what that name stood for is found nowhere, all else where it was. */
  ghost predicate SeenMoved(t: Dents, ino: Inos, u: Dents, j: Inos, src: nat, dir: nat, name: string) {
    && src in t && src in u && u[src].inode == t[src].inode && u[src].children == t[src].children
    && forall k, n, e {:trigger IsChild(u, j, k, n, e)} :: IsChild(u, j, k, n, e) <==>
      if e == src then k == dir && n == name else IsChild(t, ino, k, n, e) && !(k == dir && n == name)
  }

  lemma AddedSeen(t: Dents, ino: Inos, root: nat, depth: map<nat, nat>, next: nat, u: Dents, j: Inos,
                  h: map<nat, nat>, more: nat, p: nat, d: nat, x: Dentry)
    requires TreeOk(t, root, depth, next) && NamedOk(t, ino) && TreeOk(u, root, h, more) && NamedOk(u, j)
    requires p in t && d !in t && x.parent == p && u == Added(t, p, d, x)
    ensures SeenAdded(t, ino, u, j, d, t[p].inode, x.name)
  {
    hide TreeOk, NamedOk, IsChild;
    RootIn(t, root, depth, next);
    forall k, n, e
      ensures IsChild(u, j, k, n, e) <==> IsChild(t, ino, k, n, e) || (k == t[p].inode && n == x.name && e == d)
    {
      ChildIs(t, ino, root, depth, next, k, n, e);
      ChildIs(u, j, root, h, more, k, n, e);
      if e in t && e != root { ParentIn(t, root, depth, next, e); }
    }
  }

  lemma RemovedSeen(t: Dents, ino: Inos, root: nat, depth: map<nat, nat>, next: nat, u: Dents, j: Inos,
                    h: map<nat, nat>, d: nat)
    requires TreeOk(t, root, depth, next) && NamedOk(t, ino) && TreeOk(u, root, h, next) && NamedOk(u, j)
    requires RemovedFrom(t, u, d)
    ensures SeenRemoved(t, ino, u, j, d)
  {
    hide TreeOk, NamedOk, IsChild, RemovedFrom;
    RemovedSame(t, u, d);
    forall k, n, e ensures IsChild(u, j, k, n, e) <==> IsChild(t, ino, k, n, e) && e != d {
      ChildIs(t, ino, root, depth, next, k, n, e);
      ChildIs(u, j, root, h, next, k, n, e);
      if e in u && e != root { ParentIn(u, root, h, next, e); }
    }
  }

  lemma MovedFacts(t: Dents, u: Dents, src: nat, np: nat, name: string, next: nat)
    requires MovedTo(t, u, src, np, name, next) && np != src && src in t && t[src].parent != src
    ensures OthersSame(t, u, src) && src in u && u[src] == t[src].(name := name, parent := np, num := next)
  {
  }

  lemma RemovedFacts(t: Dents, u: Dents, d: nat, e: nat)
    requires RemovedFrom(t, u, d) && e in t && e != d && e != t[d].parent
    ensures e in u && u[e] == t[e]
  {
  }

  lemma MovedSeen(t: Dents, ino: Inos, root: nat, depth: map<nat, nat>, next: nat, u: Dents, j: Inos,
                  h: map<nat, nat>, more: nat, src: nat, dst: nat, np: nat, name: string)
    requires TreeOk(t, root, depth, next) && NamedOk(t, ino) && TreeOk(u, root, h, more) && NamedOk(u, j)
    requires src in t && src != root && np in t && np in u && src in u
    requires if dst == NULL then NoChild(t, ino, t[np].inode, name)
      else dst != src && dst !in u && IsChild(t, ino, t[np].inode, name, dst)
    requires forall c :: c in t && c != src && c != dst ==> c in u && SameEntry(t[c], u[c])
    requires forall c :: c in u ==> c in t
    requires u[src].name == name && u[src].parent == np && u[src].inode == t[src].inode
    requires u[src].children == t[src].children
    ensures SeenMoved(t, ino, u, j, src, t[np].inode, name)
  {
    hide TreeOk, NamedOk, IsChild;
    NullOut(t, root, depth, next);
    forall k, n, e
      ensures IsChild(u, j, k, n, e) <==>
        if e == src then k == t[np].inode && n == name
        else IsChild(t, ino, k, n, e) && !(k == t[np].inode && n == name)
    {
      ChildIs(t, ino, root, depth, next, k, n, e);
      ChildIs(u, j, root, h, more, k, n, e);
      if e in u && e != root { ParentIn(u, root, h, more, e); }
      if e in t && e != root { ParentIn(t, root, depth, next, e); }
      if dst != NULL {
        OnlyChild(t, ino, root, depth, next, t[np].inode, name, dst);
        ChildIs(t, ino, root, depth, next, t[np].inode, name, dst);
      }
    }
  }

  lemma RenamedSeen(t: Dents, ino: Inos, root: nat, depth: map<nat, nat>, next: nat, u: Dents, j: Inos,
                    h: map<nat, nat>, src: nat, ndir: nat, nname: string)
    requires TreeOk(t, root, depth, next) && NamedOk(t, ino) && TreeOk(u, root, h, next + 1) && NamedOk(u, j)
    requires src in t && src != root && ndir in ino && ino[ndir].ptr in t && t[ino[ndir].ptr].inode == ndir
    requires !Below(t, root, depth, next, ino[ndir].ptr, src)
    requires Renamed(t, ino, u, j, src, ndir, nname, next)
    ensures SeenMoved(t, ino, u, j, src, ndir, nname)
  {
    hide TreeOk, NamedOk, NoChild, IsChild, RemovedFrom, MovedTo, Dropped, SeenMoved, Below;
    var np := ino[ndir].ptr;
    NotSelf(t, root, depth, next, np, src);
    NullOut(t, root, depth, next);
    ParentIn(t, root, depth, next, src);
    if NoChild(t, ino, ndir, nname) && j == ino && MovedTo(t, u, src, np, nname, next) {
      MovedFacts(t, u, src, np, nname, next);
      MovedSeen(t, ino, root, depth, next, u, j, h, next + 1, src, NULL, np, nname);
    } else {
      var dst, mid :| Replaced(t, ino, mid, j, dst, src, ndir, nname) && MovedTo(mid, u, src, np, nname, next);
      EntryFacts(t, ino, root, depth, next, ndir, nname, dst);
      ParentIn(t, root, depth, next, dst);
      RemovedSame(t, mid, dst);
      RemovedFacts(t, mid, dst, src);
      MovedFacts(mid, u, src, np, nname, next);
      MovedSeen(t, ino, root, depth, next, u, j, h, next + 1, src, dst, np, nname);
    }
  }

  lemma RootIn(t: Dents, root: nat, depth: map<nat, nat>, next: nat)
    requires TreeOk(t, root, depth, next)
    ensures root in t
  {
  }

  lemma ParentIn(t: Dents, root: nat, depth: map<nat, nat>, next: nat, e: nat)
    requires TreeOk(t, root, depth, next) && e in t && e != root
    ensures t[e].parent in t && t[e].parent != e
  {
    assert Up(t, root, depth, e);
    KidNotSelf(t, root, depth, next, t[e].parent, e);
  }

  // ---- What the invariant means ----

  /** Every entry is beneath the root, and none is beneath itself. */
  lemma {:induction false} Rooted(t: Dents, root: nat, depth: map<nat, nat>, next: nat, x: nat)
    requires TreeOk(t, root, depth, next) && x in t
    ensures Below(t, root, depth, next, x, root)
    ensures x != root ==> t[x].parent in t && !Below(t, root, depth, next, t[x].parent, x)
    decreases if x in depth then depth[x] else 0
  {
    hide TreeOk;
    UpFacts(t, root, depth, next, x);
    if x != root {
      Rooted(t, root, depth, next, t[x].parent);
      if Below(t, root, depth, next, t[x].parent, x) { BelowDeep(t, root, depth, next, t[x].parent, x); }
    }
  }

  /** An inode is there exactly as long as a name or a holder is left. */
  lemma Lifetime(t: Dents, ino: Inos, o: Opens, i: nat)
    requires NamedOk(t, ino) && HeldOk(ino, o) && i != NULL
    ensures i in ino <==> NamesOf(t, i) != {} || Held(o, i) > 0
  {
    if i in ino { assert InodeOk(t, ino, i); }
    forall d | d in NamesOf(t, i) ensures i in ino { assert EntryOk(t, ino, d); }
  }

  /** A directory has at most one name. */
  lemma OneEntry(t: Dents, ino: Inos, d: nat, e: nat)
    requires NamedOk(t, ino) && d in t && e in t && t[d].inode == t[e].inode && t[d].inode in ino
    requires ino[t[d].inode].kind == Dir
    ensures d == e
  {
    assert EntryOk(t, ino, d) && EntryOk(t, ino, e);
  }

  datatype Event =
    | Creates(dir: nat, name: string, kind: Kind, i: nat, d: nat, memory: bool)
    | Links(dir: nat, name: string, target: nat, d: nat, memory: bool)
    | Unlinks(dir: nat, name: string)
    | Rmdirs(dir: nat, name: string)
    | Renames(odir: nat, oname: string, ndir: nat, nname: string, noreplace: bool)
    | OpensFile(i: nat, f: nat, base: nat, limit: nat)
    | Closes(k: nat)
    | Dups(from: nat, to: nat)
    | Chdirs(p: nat, to: nat)

  // ---- What a call leaves alone ----

  ghost predicate SameEntry(a: Dentry, b: Dentry) {
    b.name == a.name && b.inode == a.inode && b.parent == a.parent && b.num == a.num
  }

  /** The call names the entry `d`, to remove, move or replace it. */
  ghost predicate Targets(t: Dents, ino: Inos, e: Event, d: nat) {
    match e
    case Unlinks(dir, name) => IsChild(t, ino, dir, name, d)
    case Rmdirs(dir, name) => IsChild(t, ino, dir, name, d)
    case Renames(odir, oname, ndir, nname, _) => IsChild(t, ino, odir, oname, d) || IsChild(t, ino, ndir, nname, d)
    case _ => false
  }

  /** Every entry that the call does not name is as it was. */
  ghost predicate Spared(t: Dents, ino: Inos, e: Event, u: Dents) {
    forall d :: d in t && !Targets(t, ino, e, d) ==> d in u && SameEntry(t[d], u[d])
  }

  /** What is not as it was has a number that nothing had before; no entry comes to
      name another inode. */
  ghost predicate Progress(t: Dents, next: nat, u: Dents, more: nat) {
    && next <= more && (forall d :: d in u ==> (d in t && SameEntry(t[d], u[d])) || u[d].num >= next)
    && forall d :: d in t && d in u ==> u[d].inode == t[d].inode
  }

  lemma SameKept(t: Dents, ino: Inos, e: Event, next: nat)
    ensures Spared(t, ino, e, t) && Progress(t, next, t, next)
  {
  }

  lemma AddKept(t: Dents, ino: Inos, e: Event, next: nat, p: nat, d: nat, x: Dentry)
    requires p in t && d !in t && x.num == next
    ensures Spared(t, ino, e, Added(t, p, d, x)) && Progress(t, next, Added(t, p, d, x), next + 1)
  {
  }

  /** All entries but `d` are as they were. */
  ghost predicate OthersSame(t: Dents, u: Dents, d: nat) {
    (forall c :: c in t && c != d ==> c in u && SameEntry(t[c], u[c])) && forall c :: c in u && c != d ==> c in t
  }

  lemma RemovedSame(t: Dents, u: Dents, d: nat)
    requires RemovedFrom(t, u, d)
    ensures OthersSame(t, u, d) && d !in u
  {
  }

  lemma MovedSame(t: Dents, u: Dents, src: nat, np: nat, name: string, next: nat)
    requires MovedTo(t, u, src, np, name, next)
    ensures OthersSame(t, u, src) && src in t && src in u && u[src].num == next && u[src].inode == t[src].inode
  {
  }

  lemma GoneKept(t: Dents, ino: Inos, e: Event, next: nat, u: Dents, j: Inos, dir: nat, name: string)
    requires exists d :: IsChild(t, ino, dir, name, d) && Gone(t, ino, u, j, d)
    requires e == Unlinks(dir, name) || e == Rmdirs(dir, name)
    ensures Spared(t, ino, e, u) && Progress(t, next, u, next)
  {
    hide RemovedFrom, IsChild;
    var d :| IsChild(t, ino, dir, name, d) && Gone(t, ino, u, j, d);
    RemovedSame(t, u, d);
  }

  lemma RenameKept(t: Dents, ino: Inos, e: Event, next: nat, u: Dents, j: Inos, more: nat)
    requires e.Renames?
    requires exists src ::
      IsChild(t, ino, e.odir, e.oname, src) && RenameDone(t, ino, next, u, j, more, src, e.ndir, e.nname)
    ensures Spared(t, ino, e, u) && Progress(t, next, u, more)
  {
    hide RemovedFrom, MovedTo, IsChild, SameFile, NoChild, Dropped, Spared, Progress;
    var src :| IsChild(t, ino, e.odir, e.oname, src) && RenameDone(t, ino, next, u, j, more, src, e.ndir, e.nname);
    if more == next {
      SameKept(t, ino, e, next);
      return;
    }
    var np := ino[e.ndir].ptr;
    if NoChild(t, ino, e.ndir, e.nname) && j == ino && MovedTo(t, u, src, np, e.nname, next) {
      MovedSame(t, u, src, np, e.nname, next);
      MoveKept(t, ino, e, next, u, src, src);
    } else {
      var dst, mid :| Replaced(t, ino, mid, j, dst, src, e.ndir, e.nname) && MovedTo(mid, u, src, np, e.nname, next);
      RemovedSame(t, mid, dst);
      MovedSame(mid, u, src, np, e.nname, next);
      ReplaceKept(t, ino, e, next, mid, u, dst, src);
    }
  }

  /** The entry `src` was moved; what it replaced went before. */
  lemma ReplaceKept(t: Dents, ino: Inos, e: Event, next: nat, mid: Dents, u: Dents, dst: nat, src: nat)
    requires e.Renames? && IsChild(t, ino, e.odir, e.oname, src) && IsChild(t, ino, e.ndir, e.nname, dst)
    requires OthersSame(t, mid, dst) && dst !in mid && OthersSame(mid, u, src) && src in mid && src in u
    requires u[src].num == next && u[src].inode == mid[src].inode
    ensures Spared(t, ino, e, u) && Progress(t, next, u, next + 1)
  {
    hide IsChild;
    MoveKept(t, ino, e, next, u, src, dst);
  }

  lemma MoveKept(t: Dents, ino: Inos, e: Event, next: nat, u: Dents, src: nat, dst: nat)
    requires e.Renames? && IsChild(t, ino, e.odir, e.oname, src)
    requires dst == src || (dst !in u && IsChild(t, ino, e.ndir, e.nname, dst))
    requires forall c :: c in t && c != src && c != dst ==> c in u && SameEntry(t[c], u[c])
    requires forall c :: c in u && c != src ==> c in t
    requires src in t && src in u && u[src].num == next && u[src].inode == t[src].inode
    ensures Spared(t, ino, e, u) && Progress(t, next, u, next + 1)
  {
    hide IsChild;
  }

  /** Every run from an empty file system keeps the tree, the names, the link
      counts and the references right. */
  method Run(rootDentry: nat, rootInode: nat, files: nat, slots: nat, procs: nat, es: seq<Event>)
    returns (ns: Namespace)
    requires rootDentry != NULL && rootInode != NULL && files > 0
    ensures fresh(ns) && ns.Valid()
  {
    hide Namespace.Settled;
    ns := new Namespace(rootDentry, rootInode, files, slots, procs);
    for i := 0 to |es|
      invariant fresh(ns) && ns.Valid()
    {
      ns.Step(es[i]);
    }
  }

  // ---- Reference counting ----

  /** The inodes with one more reference to `i`, if there is one to take. */
  function Taken(ino: Inos, i: nat): Inos { if i in ino then ino[i := ino[i].(refs := ino[i].refs + 1)] else ino }

  lemma SameHeld(ino: Inos, o: Opens, p: Opens)
    requires HeldOk(ino, o) && p.files == o.files && p.cwds == o.cwds
    ensures HeldOk(ino, p)
  {
    assert forall i :: Held(p, i) == Held(o, i);
  }

  lemma AllocHeld(t: Dents, ino: Inos, o: Opens, f: nat, i: nat)
    requires NamedOk(t, ino) && HeldOk(ino, o) && OpensOk(o, NULL) && i in ino && 0 < f < |o.files|
    requires o.files[f] == NULL
    ensures var p := o.(files := o.files[f := i], counts := o.counts[f := 1]);
      var j := ino[i := ino[i].(refs := ino[i].refs + 1)];
      HeldOk(j, p) && OpensOk(p, f) && NamedOk(t, j)
  {
    var p := o.(files := o.files[f := i], counts := o.counts[f := 1]);
    assert multiset(p.files) == multiset(o.files) - multiset{NULL} + multiset{i};
    HeldGet(ino, o, p, i);
    NamedRefs(t, ino, i, ino[i].(refs := ino[i].refs + 1));
  }

  lemma InHand(o: Opens, f: nat)
    requires OpensOk(o, f) && 0 < f < |o.files|
    ensures o.counts[f] > 0 && o.files[f] != NULL
    ensures var p := o.(counts := o.counts[f := o.counts[f] - 1]);
      && (p.counts[f] > 0 ==> OpensOk(p, NULL))
      && (p.counts[f] == 0 ==> f !in p.slots && OpensOk(p.(files := p.files[f := NULL]), NULL))
  {
  }

  lemma FreeHeld(t: Dents, ino: Inos, o: Opens, p: Opens, f: nat, i: nat)
    requires NamedOk(t, ino) && HeldOk(ino, o) && OpensOk(o, f) && 0 < f < |o.files| && o.files[f] == i != NULL
    requires p.files == o.files && p.cwds == o.cwds
    ensures i in ino && ino[i].refs > 0 && NamedOk(t, Put(ino, i))
    ensures HeldOk(Put(ino, i), p.(files := p.files[f := NULL]))
  {
    var z := p.(files := p.files[f := NULL]);
    assert multiset(z.files) == multiset(o.files) - multiset{i} + multiset{NULL};
    assert o.files[f] in multiset(o.files) && Held(o, i) > 0;
    HeldPut(ino, o, z, i);
    NamedPut(t, ino, i);
  }

  lemma HandHeld(t: Dents, ino: Inos, o: Opens, f: nat)
    requires NamedOk(t, ino) && HeldOk(ino, o) && OpensOk(o, f) && 0 < f < |o.files|
    ensures o.files[f] in ino && ino[o.files[f]].refs > 0 && (o.counts[f] == 1 <==> f !in o.slots)
  {
    var i := o.files[f];
    assert o.counts[f] > 0 && i != NULL;
    assert i in multiset(o.files) && Held(o, i) > 0;
    assert f in o.slots <==> multiset(o.slots)[f] > 0;
  }

  lemma Installed(o: Opens, k: nat, f: nat)
    requires OpensOk(o, f) && 0 < f < |o.files| && k < |o.slots| && o.slots[k] == NULL
    ensures OpensOk(o.(slots := o.slots[k := f]), NULL)
  {
    var p := o.(slots := o.slots[k := f]);
    assert multiset(p.slots) == multiset(o.slots) - multiset{NULL} + multiset{f};
    forall g | 0 < g < |o.files| ensures multiset(p.slots)[g] == multiset(o.slots)[g] + if g == f then 1 else 0 {}
  }

  lemma Cleared(o: Opens, k: nat)
    requires OpensOk(o, NULL) && k < |o.slots|
    ensures OpensOk(o.(slots := o.slots[k := NULL]), o.slots[k])
  {
    var f := o.slots[k];
    assert multiset(o.slots[k := NULL]) == multiset(o.slots) - multiset{f} + multiset{NULL};
    assert f in multiset(o.slots);
  }

  lemma FileThere(o: Opens, k: nat)
    requires OpensOk(o, NULL) && k < |o.slots| && o.slots[k] != NULL
    ensures 0 < o.slots[k] < |o.files| && o.files[o.slots[k]] != NULL
  {
    assert o.slots[k] in multiset(o.slots);
  }

  /** Before vfs_iput of the old directory: it is counted once too often. */
  lemma ChdirHeld(t: Dents, ino: Inos, j: Inos, o: Opens, p: Opens, k: nat, to: nat)
    requires NamedOk(t, ino) && HeldOk(ino, o) && OpensOk(o, NULL) && k < |o.cwds| && p == o.(cwds := o.cwds[k := to])
    requires if to == NULL then j == ino else to in ino && j == ino[to := ino[to].(refs := ino[to].refs + 1)]
    ensures OpensOk(p, NULL) && var from := o.cwds[k];
      if from == NULL then NamedOk(t, j) && HeldOk(j, p)
      else from in j && j[from].refs > 0 && NamedOk(t, Put(j, from)) && HeldOk(Put(j, from), p)
  {
    hide NamedOk, HeldOk, OpensOk, Held;
    NoNull(t, ino);
    var from := o.cwds[k];
    var q := o.(files := o.files + [to]);
    CwdShift(o, q, p, k, to);
    if to != NULL {
      HeldGet(ino, o, q, to);
      NamedRefs(t, ino, to, ino[to].(refs := ino[to].refs + 1));
    } else {
      HeldEqual(ino, o, q);
    }
    if from != NULL {
      HolderThere(j, q, from);
      HeldPut(j, q, p, from);
      NamedPut(t, j, from);
    } else {
      HeldEqual(j, q, p);
    }
  }

  lemma NoNull(t: Dents, ino: Inos)
    requires NamedOk(t, ino)
    ensures NULL !in ino
  {
  }

  lemma HolderThere(ino: Inos, o: Opens, i: nat)
    requires HeldOk(ino, o) && i != NULL && Held(o, i) > 0
    ensures i in ino
  {
  }

  lemma HeldEqual(ino: Inos, o: Opens, p: Opens)
    requires HeldOk(ino, o) && NULL !in ino && forall i :: i != NULL ==> Held(p, i) == Held(o, i)
    ensures HeldOk(ino, p)
  {
  }

  lemma CwdShift(o: Opens, q: Opens, p: Opens, k: nat, to: nat)
    requires OpensOk(o, NULL) && k < |o.cwds| && p == o.(cwds := o.cwds[k := to]) && q == o.(files := o.files + [to])
    ensures OpensOk(p, NULL)
    ensures to != NULL ==> Held(q, to) == Held(o, to) + 1
    ensures forall i :: i != to && i != NULL ==> Held(q, i) == Held(o, i)
    ensures var from := o.cwds[k]; Held(q, from) > 0 && (from != NULL ==> Held(q, from) == Held(p, from) + 1)
    ensures forall i :: i != o.cwds[k] && i != NULL ==> Held(p, i) == Held(q, i)
  {
    var from := o.cwds[k];
    assert multiset(p.cwds) == multiset(o.cwds) - multiset{from} + multiset{to};
    assert from in multiset(o.cwds);
    assert multiset(q.files) == multiset(o.files) + multiset{to};
  }

  lemma NoneNamed(t: Dents, ino: Inos, root: nat, depth: map<nat, nat>, next: nat, dir: nat, name: string)
    requires TreeOk(t, root, depth, next) && NoChild(t, ino, dir, name) && dir in ino && ino[dir].kind == Dir
    requires ino[dir].ptr in t
    ensures forall c :: c in t[ino[dir].ptr].children ==> c in t && t[c].name != name
  {
    forall c | c in t[ino[dir].ptr].children ensures c in t && t[c].name != name {
      KidNotSelf(t, root, depth, next, ino[dir].ptr, c);
      assert !IsChild(t, ino, dir, name, c);
    }
  }

  lemma EntryFacts(t: Dents, ino: Inos, root: nat, depth: map<nat, nat>, next: nat, dir: nat, name: string, d: nat)
    requires TreeOk(t, root, depth, next) && NamedOk(t, ino) && IsChild(t, ino, dir, name, d)
    ensures d in t && t[d].inode in ino && d != root && t[d].parent == ino[dir].ptr && d != NULL
    ensures ino[t[d].inode].kind != Dir ==> t[d].children == []
    ensures ino[t[d].inode].kind == Dir ==> ino[t[d].inode].ptr == d
  {
    KidNotSelf(t, root, depth, next, ino[dir].ptr, d);
    assert EntryOk(t, ino, d);
  }

  lemma BootNamed(t: Dents, ino: Inos, depth: map<nat, nat>, d: nat, i: nat)
    requires d != NULL && i != NULL && t == map[d := Dentry("/", i, NULL, [], 0)]
    requires ino == map[i := Inode(Dir, 1, 0, d)] && depth == map[d := 0]
    ensures TreeOk(t, d, depth, 2) && NamedOk(t, ino)
  {
    assert NamesOf(t, i) == {d};
  }

  lemma BootHeld(ino: Inos, o: Opens, files: nat, slots: nat, procs: nat)
    requires files > 0 && NULL !in ino && (forall i :: i in ino ==> ino[i].refs == 0 && ino[i].nlink > 0)
    requires o == Opens(seq(files, _ => NULL), seq(files, _ => 0), seq(slots, _ => NULL), seq(procs, _ => NULL))
    ensures HeldOk(ino, o) && OpensOk(o, NULL)
  {
    forall i | i != NULL ensures Held(o, i) == 0 {
      assert i !in o.files && i !in o.cwds;
    }
    forall f | 0 < f < |o.files| ensures multiset(o.slots)[f] == 0 {
      assert f !in o.slots;
    }
  }

  lemma PtrThere(t: Dents, ino: Inos, i: nat)
    requires NamedOk(t, ino) && i in ino && ino[i].kind == Dir && ino[i].ptr != NULL
    ensures ino[i].ptr in t && t[ino[i].ptr].inode == i
  {
    assert InodeOk(t, ino, i);
  }
}
