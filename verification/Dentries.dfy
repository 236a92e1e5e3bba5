/** The tree of names: directory entries, their parents and their children. */
module Dentries {
  import opened Machine

  const NAME_MAX: nat := 127

  /** A dentry_t. The children stand in the order they were added, which is the
      order of their numbers `num`. */
  datatype Dentry = Dentry(name: string, inode: nat, parent: nat, children: seq<nat>, num: nat)

  type Dents = map<nat, Dentry>

  /** What the names a system call takes from a path look like. */
  predicate GoodName(name: string) {
    name != "" && name != "." && name != ".." && '/' !in name && '\0' !in name
  }

  ghost predicate Up(t: Dents, root: nat, depth: map<nat, nat>, d: nat)
    requires d in t
  {
    d in depth && if d == root then t[d].parent == NULL && depth[d] == 0
    else t[d].parent in t && t[d].parent in depth && d in t[t[d].parent].children && depth[d] == depth[t[d].parent] + 1
  }

  ghost predicate Kid(t: Dents, d: nat, c: nat, next: nat) {
    c in t && t[c].parent == d && 2 <= t[c].num < next && GoodName(t[c].name) && |t[c].name| <= NAME_MAX
  }

  /** Two entries of one list: in the order of their numbers, under two names. */
  ghost predicate Apart(t: Dents, c: nat, e: nat) {
    c in t && e in t && t[c].num < t[e].num && t[c].name != t[e].name
  }

  ghost predicate KidsOk(t: Dents, d: nat, cs: seq<nat>, next: nat) {
    && (forall i {:trigger cs[i]} :: 0 <= i < |cs| ==> Kid(t, d, cs[i], next))
    && (forall i, j {:trigger cs[i], cs[j]} :: 0 <= i < j < |cs| ==> Apart(t, cs[i], cs[j]))
  }

  /** A tree with root `root`: every other entry hangs in the list of its parent,
      one level deeper; every list holds entries of that parent, under different
      names, ordered by number. `next` is the next number. */
  ghost predicate TreeOk(t: Dents, root: nat, depth: map<nat, nat>, next: nat) {
    && root in t && NULL !in t && next >= 2
    && (forall d {:trigger Up(t, root, depth, d)} :: d in t ==> Up(t, root, depth, d))
    && (forall d {:trigger t[d].children} :: d in t ==> KidsOk(t, d, t[d].children, next))
  }

  function RemoveAt(cs: seq<nat>, i: nat): seq<nat>
    requires i < |cs|
  {
    cs[..i] + cs[i + 1..]
  }

  /** vfs_add_child of a new entry. */
  function Added(t: Dents, p: nat, d: nat, x: Dentry): Dents
    requires p in t
  {
    t[p := t[p].(children := t[p].children + [d])][d := x]
  }

  /** detach and free. */
  function Removed(t: Dents, d: nat, i: nat): Dents
    requires d in t && t[d].parent in t && i < |t[t[d].parent].children|
  {
    var p := t[d].parent;
    t[p := t[p].(children := RemoveAt(t[p].children, i))] - {d}
  }

  /** detach, a new name, and vfs_add_child. */
  function Moved(t: Dents, d: nat, i: nat, np: nat, name: string, next: nat): Dents
    requires d in t && t[d].parent in t && np in t && i < |t[t[d].parent].children|
  {
    var p := t[d].parent;
    var u := t[p := t[p].(children := RemoveAt(t[p].children, i))];
    u[np := u[np].(children := u[np].children + [d])][d := t[d].(name := name, parent := np, num := next)]
  }

  // ---- Lists of children ----

  /** A list is as good in one table as in another that agrees on its entries. */
  lemma KidsSame(t: Dents, u: Dents, d: nat, cs: seq<nat>, next: nat, more: nat)
    requires KidsOk(t, d, cs, next) && next <= more
    requires forall i :: 0 <= i < |cs| ==> cs[i] in u && Same(t, u, cs[i])
    ensures KidsOk(u, d, cs, more)
  {
    forall i | 0 <= i < |cs| ensures Kid(u, d, cs[i], more) {
      assert Kid(t, d, cs[i], next);
    }
    forall i, j | 0 <= i < j < |cs| ensures Apart(u, cs[i], cs[j]) {
      assert Apart(t, cs[i], cs[j]);
    }
  }

  /** The same entry, its children apart. */
  ghost predicate Same(t: Dents, u: Dents, c: nat) {
    c in t && c in u && u[c].parent == t[c].parent && u[c].num == t[c].num && u[c].name == t[c].name
      && u[c].inode == t[c].inode
  }

  lemma KidsRemove(t: Dents, d: nat, cs: seq<nat>, next: nat, i: nat)
    requires KidsOk(t, d, cs, next) && i < |cs|
    ensures KidsOk(t, d, RemoveAt(cs, i), next) && cs[i] !in RemoveAt(cs, i)
    ensures forall c :: c in cs && c != cs[i] ==> c in RemoveAt(cs, i)
    ensures forall c :: c in RemoveAt(cs, i) ==> c in cs
  {
    var rs := RemoveAt(cs, i);
    forall k | 0 <= k < |rs| ensures Kid(t, d, rs[k], next) && rs[k] != cs[i] && rs[k] in cs {
      var k' := if k < i then k else k + 1;
      assert rs[k] == cs[k'] && Kid(t, d, cs[k'], next);
      assert k' < i ==> Apart(t, cs[k'], cs[i]);
      assert k' > i ==> Apart(t, cs[i], cs[k']);
    }
    forall k, l | 0 <= k < l < |rs| ensures Apart(t, rs[k], rs[l]) {
      var k', l' := if k < i then k else k + 1, if l < i then l else l + 1;
      assert Apart(t, cs[k'], cs[l']);
    }
    forall c | c in cs && c != cs[i] ensures c in rs {
      var k :| 0 <= k < |cs| && cs[k] == c;
      assert k < i ==> rs[k] == c;
      assert k > i ==> rs[k - 1] == c;
    }
  }

  lemma KidsAppend(t: Dents, d: nat, cs: seq<nat>, next: nat, c: nat)
    requires KidsOk(t, d, cs, next) && next >= 2 && c in t && t[c].parent == d && t[c].num == next
    requires GoodName(t[c].name) && |t[c].name| <= NAME_MAX
    requires forall i :: 0 <= i < |cs| ==> t[cs[i]].name != t[c].name
    ensures KidsOk(t, d, cs + [c], next + 1)
  {
    var es := cs + [c];
    forall k | 0 <= k < |es| ensures Kid(t, d, es[k], next + 1) {
      assert k < |cs| ==> Kid(t, d, cs[k], next);
    }
    forall k, l | 0 <= k < l < |es| ensures Apart(t, es[k], es[l]) {
      assert Kid(t, d, cs[k], next);
      assert l < |cs| ==> Apart(t, cs[k], cs[l]);
    }
  }

  lemma KidNotSelf(t: Dents, root: nat, depth: map<nat, nat>, next: nat, d: nat, c: nat)
    requires TreeOk(t, root, depth, next) && d in t && c in t[d].children
    ensures c in t && t[c].parent == d && c != d && c != root && d in depth && c in depth && depth[c] == depth[d] + 1
  {
    var i :| 0 <= i < |t[d].children| && t[d].children[i] == c;
    assert KidsOk(t, d, t[d].children, next) && Kid(t, d, t[d].children[i], next);
    assert Up(t, root, depth, c) && Up(t, root, depth, d);
  }

  // ---- What the operations keep ----

  lemma AddOk(t: Dents, root: nat, depth: map<nat, nat>, next: nat, p: nat, d: nat, x: Dentry)
    requires TreeOk(t, root, depth, next) && p in t && d !in t && d != NULL
    requires x.parent == p && x.children == [] && x.num == next && GoodName(x.name) && |x.name| <= NAME_MAX
    requires forall c :: c in t[p].children ==> c in t && t[c].name != x.name
    ensures p in depth && TreeOk(Added(t, p, d, x), root, depth[d := depth[p] + 1], next + 1)
  {
    assert Up(t, root, depth, p);
    var u, h := Added(t, p, d, x), depth[d := depth[p] + 1];
    forall e | e in u ensures Up(u, root, h, e) {
      if e != d { assert Up(t, root, depth, e); }
    }
    forall e | e in u ensures KidsOk(u, e, u[e].children, next + 1) {
      if e != d {
        assert KidsOk(t, e, t[e].children, next);
        AddKids(t, next, p, d, x, e);
      }
    }
    hide Up, KidsOk;
  }

  lemma AddKids(t: Dents, next: nat, p: nat, d: nat, x: Dentry, e: nat)
    requires p in t && d !in t && e in t && d != NULL && next >= 2 && KidsOk(t, e, t[e].children, next)
    requires x.parent == p && x.children == [] && x.num == next && GoodName(x.name) && |x.name| <= NAME_MAX
    requires forall c :: c in t[p].children ==> c in t && t[c].name != x.name
    ensures KidsOk(Added(t, p, d, x), e, Added(t, p, d, x)[e].children, next + 1)
  {
    var u := Added(t, p, d, x);
    forall i | 0 <= i < |t[e].children| ensures t[e].children[i] in u && Same(t, u, t[e].children[i]) {
      assert Kid(t, e, t[e].children[i], next);
    }
    hide KidsOk;
    KidsSame(t, u, e, t[e].children, next, next);
    KidsSame(t, u, e, t[e].children, next, next + 1);
    if e == p { KidsAppend(u, p, t[p].children, next, d); }
  }

  lemma RemoveOk(t: Dents, root: nat, depth: map<nat, nat>, next: nat, d: nat, i: nat)
    requires TreeOk(t, root, depth, next) && d in t && d != root && t[d].children == [] && t[d].parent in t
    requires i < |t[t[d].parent].children| && t[t[d].parent].children[i] == d
    ensures TreeOk(Removed(t, d, i), root, depth - {d}, next)
  {
    var p := t[d].parent;
    var u, h := Removed(t, d, i), depth - {d};
    KidNotSelf(t, root, depth, next, p, d);
    KidsRemove(t, p, t[p].children, next, i);
    forall e | e in u ensures Up(u, root, h, e) {
      assert Up(t, root, depth, e);
    }
    forall e | e in u ensures KidsOk(u, e, u[e].children, next) {
      var cs := u[e].children;
      assert KidsOk(t, e, t[e].children, next);
      forall k | 0 <= k < |cs| ensures cs[k] in u && Same(t, u, cs[k]) {
        assert cs[k] in t[e].children;
        KidNotSelf(t, root, depth, next, e, cs[k]);
      }
      KidsSame(t, u, e, cs, next, next);
    }
  }

  // ---- Moving a subtree ----

  lemma UpFacts(t: Dents, root: nat, depth: map<nat, nat>, next: nat, x: nat)
    requires TreeOk(t, root, depth, next) && x in t
    ensures x in depth && (x == root <==> t[x].parent == NULL) && x != NULL
    ensures x != root ==> t[x].parent in t && t[x].parent in depth && x in t[t[x].parent].children
    ensures x != root ==> depth[x] == depth[t[x].parent] + 1
  {
    assert Up(t, root, depth, x);
  }

  /** `x` is `a` or somewhere beneath it. */
  ghost predicate Below(t: Dents, root: nat, depth: map<nat, nat>, next: nat, x: nat, a: nat)
    requires TreeOk(t, root, depth, next) && x in t
    decreases if x in depth then depth[x] else 0
  {
    UpFacts(t, root, depth, next, x);
    x == a || (x != root && Below(t, root, depth, next, t[x].parent, a))
  }

  lemma {:induction false} BelowDeep(t: Dents, root: nat, depth: map<nat, nat>, next: nat, x: nat, a: nat)
    requires TreeOk(t, root, depth, next) && x in t && a in t && Below(t, root, depth, next, x, a)
    ensures x in depth && a in depth && depth[x] >= depth[a] && (x == a || t[a].children != [])
    decreases if x in depth then depth[x] else 0
  {
    hide TreeOk;
    UpFacts(t, root, depth, next, x);
    UpFacts(t, root, depth, next, a);
    if x != a { BelowDeep(t, root, depth, next, t[x].parent, a); }
  }

  /** The depth of `x` once the subtree of `src` hangs under `np`. */
  ghost function Shifted(t: Dents, root: nat, depth: map<nat, nat>, next: nat, src: nat, np: nat, x: nat): nat
    requires TreeOk(t, root, depth, next) && x in t && src in t && np in t
  {
    UpFacts(t, root, depth, next, x);
    UpFacts(t, root, depth, next, np);
    if Below(t, root, depth, next, x, src) then
      BelowDeep(t, root, depth, next, x, src);
      depth[x] - depth[src] + depth[np] + 1
    else depth[x]
  }

  ghost function Depths(t: Dents, root: nat, depth: map<nat, nat>, next: nat, src: nat, np: nat): map<nat, nat>
    requires TreeOk(t, root, depth, next) && src in t && np in t
  {
    map x | x in t :: Shifted(t, root, depth, next, src, np, x)
  }

  lemma ShiftedUp(t: Dents, root: nat, depth: map<nat, nat>, next: nat, src: nat, np: nat, x: nat)
    requires TreeOk(t, root, depth, next) && x in t && src in t && np in t && src != root
    requires !Below(t, root, depth, next, np, src)
    ensures x == root ==> Shifted(t, root, depth, next, src, np, x) == 0
    ensures x != root && x != src ==>
      t[x].parent in t
    ensures x != root && x != src ==>
      Shifted(t, root, depth, next, src, np, x) == Shifted(t, root, depth, next, src, np, t[x].parent) + 1
    ensures x == src ==> Shifted(t, root, depth, next, src, np, x) == Shifted(t, root, depth, next, src, np, np) + 1
  {
    hide TreeOk;
    UpFacts(t, root, depth, next, x);
    UpFacts(t, root, depth, next, src);
    UpFacts(t, root, depth, next, np);
    if x == root { Up0(t, root, depth, next); }
  }

  lemma Up0(t: Dents, root: nat, depth: map<nat, nat>, next: nat)
    requires TreeOk(t, root, depth, next)
    ensures root in t && root in depth && depth[root] == 0
  {
    assert Up(t, root, depth, root);
  }

  /** The table between detach and vfs_add_child: `src` is in no list. */
  function Detached(t: Dents, src: nat, i: nat): Dents
    requires src in t && t[src].parent in t && i < |t[t[src].parent].children|
  {
    var p := t[src].parent;
    t[p := t[p].(children := RemoveAt(t[p].children, i))]
  }

  lemma DetachKids(t: Dents, root: nat, depth: map<nat, nat>, next: nat, src: nat, i: nat, e: nat)
    requires TreeOk(t, root, depth, next) && src in t && t[src].parent in t && e in t
    requires i < |t[t[src].parent].children| && t[t[src].parent].children[i] == src
    ensures var cs := Detached(t, src, i)[e].children; KidsOk(t, e, cs, next) && src !in cs
    ensures var cs := Detached(t, src, i)[e].children; forall c :: c in cs <==> c in t[e].children && c != src
  {
    var p := t[src].parent;
    assert KidsOk(t, e, t[e].children, next);
    if e == p {
      KidsRemove(t, p, t[p].children, next, i);
    } else if src in t[e].children {
      KidNotSelf(t, root, depth, next, e, src);
    }
  }

  lemma MoveOk(t: Dents, root: nat, depth: map<nat, nat>, next: nat, src: nat, i: nat, np: nat, name: string)
    requires TreeOk(t, root, depth, next) && src in t && t[src].parent in t && src != root
    requires i < |t[t[src].parent].children| && t[t[src].parent].children[i] == src
    requires np in t && !Below(t, root, depth, next, np, src) && GoodName(name) && |name| <= NAME_MAX
    requires forall c :: c in t[np].children && c != src ==> c in t && t[c].name != name
    ensures TreeOk(Moved(t, src, i, np, name, next), root, Depths(t, root, depth, next, src, np), next + 1)
  {
    var u := Moved(t, src, i, np, name, next);
    var h := Depths(t, root, depth, next, src, np);
    forall e | e in u ensures Up(u, root, h, e) {
      MoveUp(t, root, depth, next, src, i, np, name, e);
    }
    forall e | e in u ensures KidsOk(u, e, u[e].children, next + 1) {
      MoveKids(t, root, depth, next, src, i, np, name, e);
    }
  }

  lemma MoveUp(t: Dents, root: nat, depth: map<nat, nat>, next: nat, src: nat, i: nat, np: nat, name: string, e: nat)
    requires TreeOk(t, root, depth, next) && src in t && t[src].parent in t && src != root
    requires i < |t[t[src].parent].children| && t[t[src].parent].children[i] == src
    requires np in t && !Below(t, root, depth, next, np, src) && e in t
    ensures e in Moved(t, src, i, np, name, next)
    ensures Up(Moved(t, src, i, np, name, next), root, Depths(t, root, depth, next, src, np), e)
  {
    hide TreeOk, Below, KidsOk, Shifted, RemoveAt;
    var u := Moved(t, src, i, np, name, next);
    UpFacts(t, root, depth, next, e);
    ShiftedUp(t, root, depth, next, src, np, e);
    assert np != src by { NotSelf(t, root, depth, next, np, src); }
    if e != root && e != src {
      DetachKids(t, root, depth, next, src, i, t[e].parent);
    }
  }

  lemma NotSelf(t: Dents, root: nat, depth: map<nat, nat>, next: nat, np: nat, src: nat)
    requires TreeOk(t, root, depth, next) && np in t && !Below(t, root, depth, next, np, src)
    ensures np != src
  {
  }

  lemma MoveKids(t: Dents, root: nat, depth: map<nat, nat>, next: nat, src: nat, i: nat, np: nat, name: string, e: nat)
    requires TreeOk(t, root, depth, next) && src in t && t[src].parent in t && src != np && e in t
    requires i < |t[t[src].parent].children| && t[t[src].parent].children[i] == src
    requires np in t && GoodName(name) && |name| <= NAME_MAX && next >= 2
    requires forall c :: c in t[np].children && c != src ==> c in t && t[c].name != name
    ensures var u := Moved(t, src, i, np, name, next); e in u && KidsOk(u, e, u[e].children, next + 1)
  {
    var u := Moved(t, src, i, np, name, next);
    var cs := Detached(t, src, i)[e].children;
    DetachKids(t, root, depth, next, src, i, e);
    KidNotSelf(t, root, depth, next, t[src].parent, src);
    forall k | 0 <= k < |cs| ensures cs[k] in u && Same(t, u, cs[k]) {
      assert cs[k] in t[e].children;
      KidNotSelf(t, root, depth, next, e, cs[k]);
    }
    hide TreeOk, RemoveAt;
    assert u[e].children == if e == np then cs + [src] else cs;
    KidsSame(t, u, e, cs, next, next);
    KidsSame(t, u, e, cs, next, next + 1);
    if e == np {
      forall k | 0 <= k < |cs| ensures u[cs[k]].name != name { assert cs[k] in cs; }
      KidsAppend(u, np, cs, next, src);
    }
  }
}
