/** Inodes and who keeps them: names in the tree, open files, working directories. */
module Inodes {
  import opened Machine
  import opened Dentries

  datatype Kind = Dir | Symlink | Plain

  /** An inode_t. A directory keeps its entry in `ptr`; NULL once it was removed. */
  datatype Inode = Inode(kind: Kind, nlink: nat, refs: nat, ptr: nat)

  type Inos = map<nat, Inode>

  // ---- Names ----

  ghost function NamesOf(t: Dents, i: nat): set<nat> { set d | d in t && t[d].inode == i }

  ghost predicate EntryOk(t: Dents, ino: Inos, d: nat)
    requires d in t
  {
    && t[d].inode in ino && (ino[t[d].inode].kind == Dir ==> ino[t[d].inode].ptr == d)
    && (t[d].children != [] ==> ino[t[d].inode].kind == Dir)
  }

  /** The link count is the number of entries; a directory that is still in the
      tree has exactly one, in `ptr`. */
  ghost predicate InodeOk(t: Dents, ino: Inos, i: nat)
    requires i in ino
  {
    && ino[i].nlink == |NamesOf(t, i)|
    && (ino[i].kind == Dir && ino[i].ptr != NULL ==> ino[i].ptr in t && t[ino[i].ptr].inode == i)
  }

  ghost predicate NamedOk(t: Dents, ino: Inos) {
    && NULL !in ino
    && (forall d {:trigger EntryOk(t, ino, d)} :: d in t ==> EntryOk(t, ino, d))
    && (forall i {:trigger InodeOk(t, ino, i)} :: i in ino ==> InodeOk(t, ino, i))
  }

  /** "/" is a directory. */
  ghost predicate RootOk(t: Dents, ino: Inos, root: nat) {
    root in t && t[root].inode in ino && ino[t[root].inode].kind == Dir
  }

  // ---- References ----

  /** Open files by number (0 stands for none), how often each is referred to, all
      descriptor slots of all processes, and all working directories. */
  datatype Opens = Opens(files: seq<nat>, counts: seq<nat>, slots: seq<nat>, cwds: seq<nat>)

  /** `hand` is a file that one call holds outside every slot. */
  ghost predicate OpensOk(o: Opens, hand: nat) {
    && |o.files| == |o.counts| > 0 && o.files[0] == NULL
    && (forall f :: 0 < f < |o.files| ==> o.counts[f] == multiset(o.slots)[f] + if f == hand then 1 else 0)
    && (forall f :: 0 < f < |o.files| ==> (o.files[f] != NULL <==> o.counts[f] > 0))
    && (forall k :: 0 <= k < |o.slots| ==> o.slots[k] < |o.files|)
  }

  ghost function Held(o: Opens, i: nat): nat { multiset(o.files)[i] + multiset(o.cwds)[i] }

  /** Reference counts are right, nobody holds an inode that is gone, and an inode
      is there only as long as something names or holds it. */
  ghost predicate HeldOk(ino: Inos, o: Opens) {
    && (forall i {:trigger Held(o, i)} :: i != NULL && Held(o, i) > 0 ==> i in ino)
    && (forall i {:trigger ino[i].refs} :: i in ino ==> ino[i].refs == Held(o, i))
    && (forall i {:trigger ino[i].nlink} :: i in ino ==> ino[i].nlink > 0 || ino[i].refs > 0)
  }

  // ---- What adding a name keeps ----

  lemma NamesAdd(t: Dents, p: nat, d: nat, x: Dentry, i: nat)
    requires p in t && d !in t
    ensures var u := Added(t, p, d, x); |NamesOf(u, i)| == |NamesOf(t, i)| + if x.inode == i then 1 else 0
  {
    var u := Added(t, p, d, x);
    assert NamesOf(u, i) == NamesOf(t, i) + if x.inode == i then {d} else {};
  }

  /** A new file, directory or link under the name `d`. */
  lemma CreateNamed(t: Dents, ino: Inos, p: nat, d: nat, x: Dentry, n: Inode)
    requires NamedOk(t, ino) && p in t && d !in t && d != NULL && x.inode !in ino && x.inode != NULL && x.children == []
    requires n.nlink == 1 && n.ptr == (if n.kind == Dir then d else NULL) && t[p].inode in ino
    requires ino[t[p].inode].kind == Dir
    ensures NamedOk(Added(t, p, d, x), ino[x.inode := n])
  {
    var u, j := Added(t, p, d, x), ino[x.inode := n];
    assert NamesOf(t, x.inode) == {} by {
      forall e | e in t ensures t[e].inode != x.inode { assert EntryOk(t, ino, e); }
    }
    forall e | e in u ensures EntryOk(u, j, e) {
      if e != d { assert EntryOk(t, ino, e); }
    }
    forall i | i in j ensures InodeOk(u, j, i) {
      NamesAdd(t, p, d, x, i);
      if i != x.inode { assert InodeOk(t, ino, i); }
    }
  }

  /** One more name for an inode that is no directory. */
  lemma LinkNamed(t: Dents, ino: Inos, p: nat, d: nat, x: Dentry)
    requires NamedOk(t, ino) && p in t && d !in t && x.inode in ino && ino[x.inode].kind != Dir && x.children == []
    requires t[p].inode in ino && ino[t[p].inode].kind == Dir
    ensures NamedOk(Added(t, p, d, x), ino[x.inode := ino[x.inode].(nlink := ino[x.inode].nlink + 1)])
  {
    var u, j := Added(t, p, d, x), ino[x.inode := ino[x.inode].(nlink := ino[x.inode].nlink + 1)];
    forall e | e in u ensures EntryOk(u, j, e) {
      if e != d { assert EntryOk(t, ino, e); }
    }
    forall i | i in j ensures InodeOk(u, j, i) {
      NamesAdd(t, p, d, x, i);
      assert InodeOk(t, ino, i);
    }
  }

  // ---- What removing a name keeps ----

  /** The inodes after one name of `n` went; `gone` if that was the last of it. */
  function Dropped(ino: Inos, n: nat): Inos
    requires n in ino && ino[n].nlink > 0
  {
    var x := ino[n].(nlink := ino[n].nlink - 1, ptr := if ino[n].kind == Dir then NULL else ino[n].ptr);
    if x.nlink == 0 && x.refs == 0 then ino - {n} else ino[n := x]
  }

  lemma NamesRemove(t: Dents, d: nat, k: nat, i: nat)
    requires d in t && t[d].parent in t && t[d].parent != d && k < |t[t[d].parent].children|
    ensures d in NamesOf(t, t[d].inode) && |NamesOf(t, t[d].inode)| > 0
    ensures var u := Removed(t, d, k); |NamesOf(u, i)| == |NamesOf(t, i)| - if t[d].inode == i then 1 else 0
  {
    var u := Removed(t, d, k);
    assert NamesOf(u, i) == NamesOf(t, i) - {d};
    assert t[d].inode == i <==> d in NamesOf(t, i);
  }

  lemma DropNamed(t: Dents, ino: Inos, d: nat, k: nat)
    requires NamedOk(t, ino) && d in t && t[d].parent in t && t[d].parent != d && k < |t[t[d].parent].children|
    requires t[d].children == []
    ensures t[d].inode in ino && ino[t[d].inode].nlink > 0 && NamedOk(Removed(t, d, k), Dropped(ino, t[d].inode))
  {
    var n := t[d].inode;
    assert EntryOk(t, ino, d) && InodeOk(t, ino, n);
    NamesRemove(t, d, k, n);
    var u, j := Removed(t, d, k), Dropped(ino, n);
    forall e | e in u ensures EntryOk(u, j, e) {
      assert EntryOk(t, ino, e);
      if t[e].inode == n {
        TwoNames(t, n, d, e);
        assert ino[n].kind != Dir;
      }
    }
    forall i | i in j ensures InodeOk(u, j, i) {
      NamesRemove(t, d, k, i);
      assert InodeOk(t, ino, i);
    }
  }

  /** The root is no name that can be dropped, and its name keeps its inode. */
  lemma RootDrop(t: Dents, ino: Inos, root: nat, d: nat, k: nat)
    requires NamedOk(t, ino) && RootOk(t, ino, root)
    requires d in t && d != root && t[d].parent in t && k < |t[t[d].parent].children| && t[d].inode in ino
    requires ino[t[d].inode].nlink > 0
    ensures RootOk(Removed(t, d, k), Dropped(ino, t[d].inode), root)
  {
    assert EntryOk(t, ino, root) && EntryOk(t, ino, d);
  }

  lemma RootStays(t: Dents, ino: Inos, j: Inos, root: nat)
    requires NamedOk(t, j) && RootOk(t, ino, root) && forall i :: i in ino && i in j ==> j[i].kind == ino[i].kind
    ensures RootOk(t, j, root)
  {
    assert EntryOk(t, j, root);
  }

  lemma TwoNames(t: Dents, n: nat, d: nat, e: nat)
    requires d in t && e in t && d != e && t[d].inode == n == t[e].inode
    ensures |NamesOf(t, n)| >= 2
  {
    var s := NamesOf(t, n);
    assert {d, e} <= s;
    assert |s - {d, e}| == |s| - |{d, e}|;
  }

  // ---- What moving a name keeps ----

  lemma MoveNamed(t: Dents, ino: Inos, src: nat, k: nat, np: nat, name: string, next: nat)
    requires NamedOk(t, ino) && src in t && t[src].parent in t && t[src].parent != src && np in t && np != src
    requires k < |t[t[src].parent].children|
    requires t[np].inode in ino && ino[t[np].inode].kind == Dir
    ensures NamedOk(Moved(t, src, k, np, name, next), ino)
  {
    var u := Moved(t, src, k, np, name, next);
    forall e | e in u ensures EntryOk(u, ino, e) {
      assert EntryOk(t, ino, e);
    }
    forall i | i in ino ensures InodeOk(u, ino, i) {
      assert NamesOf(u, i) == NamesOf(t, i);
      assert InodeOk(t, ino, i);
    }
  }

  // ---- References: each step of the file layer ----

  lemma HeldCreate(ino: Inos, o: Opens, i: nat, n: Inode)
    requires HeldOk(ino, o) && i !in ino && i != NULL && n.nlink == 1 && n.refs == 0
    ensures HeldOk(ino[i := n], o)
  {
    assert Held(o, i) == 0;
  }

  lemma HeldLink(ino: Inos, o: Opens, i: nat)
    requires HeldOk(ino, o) && i in ino
    ensures HeldOk(ino[i := ino[i].(nlink := ino[i].nlink + 1)], o)
  {
  }

  lemma HeldDrop(ino: Inos, o: Opens, n: nat)
    requires HeldOk(ino, o) && n in ino && ino[n].nlink > 0
    ensures HeldOk(Dropped(ino, n), o)
  {
  }

  /** vfs_iget, file_alloc: the holder is recorded in `o`. */
  lemma HeldGet(ino: Inos, o: Opens, p: Opens, i: nat)
    requires HeldOk(ino, o) && i in ino && i != NULL && Held(p, i) == Held(o, i) + 1
    requires forall j :: j != i && j != NULL ==> Held(p, j) == Held(o, j)
    requires NULL !in ino
    ensures HeldOk(ino[i := ino[i].(refs := ino[i].refs + 1)], p)
  {
  }

  /** The inodes after a reference to `i` was given up. */
  function Put(ino: Inos, i: nat): Inos
    requires i in ino && ino[i].refs > 0
  {
    var x := ino[i].(refs := ino[i].refs - 1);
    if x.refs == 0 && x.nlink == 0 then ino - {i} else ino[i := x]
  }

  lemma HeldPut(ino: Inos, o: Opens, p: Opens, i: nat)
    requires HeldOk(ino, o) && i in ino && i != NULL && Held(o, i) == Held(p, i) + 1
    requires forall j :: j != i && j != NULL ==> Held(p, j) == Held(o, j)
    requires NULL !in ino
    ensures ino[i].refs > 0 && HeldOk(Put(ino, i), p)
  {
  }

  /** References do not matter to names, as long as what is named is there. */
  lemma NamedRefs(t: Dents, ino: Inos, i: nat, x: Inode)
    requires NamedOk(t, ino) && i in ino && x.kind == ino[i].kind && x.nlink == ino[i].nlink && x.ptr == ino[i].ptr
    ensures NamedOk(t, ino[i := x])
  {
    var j := ino[i := x];
    forall e | e in t ensures EntryOk(t, j, e) { assert EntryOk(t, ino, e); }
    forall k | k in j ensures InodeOk(t, j, k) { assert InodeOk(t, ino, k); }
  }

  lemma NamedPut(t: Dents, ino: Inos, i: nat)
    requires NamedOk(t, ino) && i in ino && ino[i].refs > 0
    ensures NamedOk(t, Put(ino, i))
  {
    assert InodeOk(t, ino, i);
    if ino[i].refs == 1 && ino[i].nlink == 0 {
      var j := ino - {i};
      assert Put(ino, i) == j;
      forall e | e in t ensures EntryOk(t, j, e) {
        assert EntryOk(t, ino, e);
        assert t[e].inode == i ==> e in NamesOf(t, i);
      }
      forall k | k in j ensures InodeOk(t, j, k) { assert InodeOk(t, ino, k); }
    } else {
      NamedRefs(t, ino, i, ino[i].(refs := ino[i].refs - 1));
    }
  }
}
