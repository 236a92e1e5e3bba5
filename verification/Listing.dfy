/** Reading a directory between calls that change the file system: what the calls of
    the namespace do to the entries that a reader sees. */
module Listing {
  import opened Machine
  import opened Dentries
  import opened Inodes
  import Getdents
  import Vfs

  /** The file system at one point of a run. */
  datatype Snap = Snap(dent: Dents, ino: Inos, next: nat, root: nat, depth: map<nat, nat>)

  /** A call of the namespace, or one of getdents on the directory. */
  datatype Act = Change(e: Vfs.Event) | Call(room: nat, legacy: bool)

  ghost predicate SnapOk(s: Snap) { TreeOk(s.dent, s.root, s.depth, s.next) && NamedOk(s.dent, s.ino) }

  /** The directory with the inode `i` is still in the tree; getdents refuses otherwise. */
  predicate Listable(s: Snap, i: nat) { i in s.ino && s.ino[i].kind == Dir && s.ino[i].ptr in s.dent }

  ghost predicate Follows(s: Snap, a: Act, t: Snap) {
    match a
    case Change(e) =>
      t.root == s.root && Vfs.Spared(s.dent, s.ino, e, t.dent) && Vfs.Progress(s.dent, s.next, t.dent, t.next)
    case Call(_, _) => t == s
  }

  ghost predicate History(acts: seq<Act>, hist: seq<Snap>) {
    && |hist| == |acts| + 1 && (forall k :: 0 <= k < |hist| ==> SnapOk(hist[k]))
    && forall k :: 0 <= k < |acts| ==> Follows(hist[k], acts[k], hist[k + 1])
  }

  ghost function RoundAt(s: Snap, i: nat, a: Act): seq<Getdents.Round> {
    if a.Call? && Listable(s, i) then [Getdents.Round(s.dent, s.dent[s.ino[i].ptr].children, a.room, a.legacy)] else []
  }

  /** The calls of getdents on the directory `i`, with the directory as each found it. */
  ghost function Rounds(i: nat, acts: seq<Act>, hist: seq<Snap>): seq<Getdents.Round>
    requires |hist| == |acts| + 1
  {
    if acts == [] then [] else RoundAt(hist[0], i, acts[0]) + Rounds(i, acts[1..], hist[1..])
  }

  lemma {:induction false} RoundsSplit(i: nat, acts: seq<Act>, hist: seq<Snap>, j: nat)
    requires |hist| == |acts| + 1 && j <= |acts|
    ensures Rounds(i, acts, hist) == Rounds(i, acts[..j], hist[..j + 1]) + Rounds(i, acts[j..], hist[j..])
    decreases j
  {
    hide RoundAt;
    if j == 0 {
      assert acts[0..] == acts && hist[0..] == hist;
    } else {
      RoundsSplit(i, acts[1..], hist[1..], j - 1);
      assert acts[..j][1..] == acts[1..][..j - 1] && hist[..j + 1][1..] == hist[1..][..j];
      assert acts[1..][j - 1..] == acts[j..] && hist[1..][j - 1..] == hist[j..];
    }
  }

  lemma RoundsLast(i: nat, acts: seq<Act>, hist: seq<Snap>, a: Act, t: Snap)
    requires |hist| == |acts| + 1
    ensures Rounds(i, acts + [a], hist + [t]) == Rounds(i, acts, hist) + RoundAt(hist[|acts|], i, a)
  {
    hide RoundAt;
    var n := |acts|;
    var bs, h := acts + [a], hist + [t];
    RoundsSplit(i, bs, h, n);
    assert bs[..n] == acts && h[..n + 1] == hist && bs[n..] == [a] && h[n..] == [hist[n], t];
    assert [a][1..] == [] && [hist[n], t][1..] == [t] && Rounds(i, [a], [hist[n], t]) == RoundAt(hist[n], i, a) + [];
  }

  // ---- Every run of the namespace and of getdents is such a history ----

  ghost function Now(ns: Vfs.Namespace): Snap
    reads ns
  {
    Snap(ns.dent, ns.ino, ns.next, ns.root, ns.depth)
  }

  lemma NowOk(ns: Vfs.Namespace)
    requires ns.Valid()
    ensures SnapOk(Now(ns))
  {
  }

  lemma HistoryNext(acts: seq<Act>, hist: seq<Snap>, a: Act, t: Snap)
    requires History(acts, hist) && SnapOk(t) && Follows(hist[|acts|], a, t)
    ensures History(acts + [a], hist + [t])
  {
    hide SnapOk, Follows;
  }

  lemma DirThere(s: Snap, i: nat)
    requires SnapOk(s) && i in s.ino && s.ino[i].kind == Dir
    ensures s.ino[i].ptr != NULL <==> s.ino[i].ptr in s.dent
    ensures s.ino[i].ptr in s.dent ==> Getdents.Ordered(s.dent, s.dent[s.ino[i].ptr].children)
  {
    assert InodeOk(s.dent, s.ino, i);
    hide NamedOk;
    if s.ino[i].ptr in s.dent { Getdents.TreeOrdered(s.dent, s.root, s.depth, s.next, s.ino[i].ptr); }
  }

  method Read(ns: Vfs.Namespace, i: nat, acts: seq<Act>)
    returns (items: seq<Getdents.Item>, off: nat, ghost hist: seq<Snap>)
    requires ns.Valid()
    modifies ns
    ensures ns.Valid() && History(acts, hist) && hist[0] == old(Now(ns)) && hist[|acts|] == Now(ns)
    ensures (items, off) == Getdents.Collect(Rounds(i, acts, hist))
  {
    hide Vfs.Namespace.Valid, SnapOk, Follows, History, Getdents.Fill, Rounds, Getdents.Collect, Getdents.Ordered;
    items, off := [], 0;
    hist := [Now(ns)];
    NowOk(ns);
    Empty(i, Now(ns));
    for n := 0 to |acts|
      invariant ns.Valid() && |hist| == n + 1 && History(acts[..n], hist) && hist[0] == old(Now(ns))
      invariant hist[n] == Now(ns)
      invariant (items, off) == Getdents.Collect(Rounds(i, acts[..n], hist))
    {
      assert acts[..n + 1] == acts[..n] + [acts[n]];
      ghost var s := Now(ns);
      NowOk(ns);
      ghost var xs, at := items, off;
      match acts[n] {
        case Change(e) =>
          ns.Step(e);
          NowOk(ns);
          Stepped(s, acts[n], Now(ns));
        case Call(room, legacy) =>
          Still(s, acts[n]);
          if i in ns.ino && ns.ino[i].kind == Dir {
            DirThere(s, i);
            if ns.ino[i].ptr != NULL {
              var cs := ns.dent[ns.ino[i].ptr].children;
              OrderedThere(ns.dent, cs);
              var _, more, to := Getdents.Read(ns.dent, cs, off, room, legacy);
              items, off := items + more, to;
            }
          }
      }
      RoundsLast(i, acts[..n], hist, acts[n], Now(ns));
      CollectLast(Rounds(i, acts[..n], hist), s, i, acts[n]);
      HistoryNext(acts[..n], hist, acts[n], Now(ns));
      hist := hist + [Now(ns)];
    }
    assert acts[..|acts|] == acts;
  }

  lemma Empty(i: nat, s: Snap)
    requires SnapOk(s)
    ensures History([], [s]) && Rounds(i, [], [s]) == [] && Getdents.Collect([]) == ([], 0)
  {
  }

  lemma Stepped(s: Snap, a: Act, t: Snap)
    requires a.Change? && t.root == s.root && Vfs.Spared(s.dent, s.ino, a.e, t.dent)
    requires Vfs.Progress(s.dent, s.next, t.dent, t.next)
    ensures Follows(s, a, t)
  {
  }

  lemma Still(s: Snap, a: Act)
    requires a.Call?
    ensures Follows(s, a, s)
  {
  }

  lemma OrderedThere(t: Dents, cs: seq<nat>)
    requires Getdents.Ordered(t, cs)
    ensures forall k :: 0 <= k < |cs| ==> cs[k] in t
  {
  }

  lemma CollectLast(rs: seq<Getdents.Round>, s: Snap, i: nat, a: Act)
    ensures a.Change? || !Listable(s, i) ==> Getdents.Collect(rs + RoundAt(s, i, a)) == Getdents.Collect(rs)
    ensures a.Call? && Listable(s, i) ==>
      (var (xs, at) := Getdents.Collect(rs);
       var (ys, to) := Getdents.Fill(s.dent, s.dent[s.ino[i].ptr].children, at, a.room, a.legacy);
       Getdents.Collect(rs + RoundAt(s, i, a)) == (xs + ys, to))
  {
    hide Getdents.Fill;
    if a.Call? && Listable(s, i) {
      var q := rs + RoundAt(s, i, a);
      assert q[..|q| - 1] == rs;
    } else {
      assert rs + [] == rs;
    }
  }

  // ---- What the reader can rely on ----

  /** `d` is an entry of the directory `i` with the number `num`. */
  ghost predicate InDir(s: Snap, i: nat, d: nat, num: nat) {
    Listable(s, i) && d in s.dent[s.ino[i].ptr].children && d in s.dent && s.dent[d].num == num
  }

  /** No call of the run names the entry `d`. */
  ghost predicate Untouched(acts: seq<Act>, hist: seq<Snap>, d: nat)
    requires |hist| == |acts| + 1
  {
    forall k :: 0 <= k < |acts| && acts[k].Change? ==> !Vfs.Targets(hist[k].dent, hist[k].ino, acts[k].e, d)
  }

  lemma InDirUp(s: Snap, i: nat, d: nat, num: nat)
    requires SnapOk(s) && InDir(s, i, d, num)
    ensures var p := s.ino[i].ptr; s.dent[d].parent == p && s.dent[p].inode == i && 2 <= num < s.next && d != s.root
  {
    var p := s.ino[i].ptr;
    assert KidsOk(s.dent, p, s.dent[p].children, s.next);
    var k :| 0 <= k < |s.dent[p].children| && s.dent[p].children[k] == d;
    assert Kid(s.dent, p, s.dent[p].children[k], s.next);
    assert InodeOk(s.dent, s.ino, i);
    assert Up(s.dent, s.root, s.depth, d);
  }

  lemma InDirDown(s: Snap, p: nat, i: nat, d: nat)
    requires SnapOk(s) && d in s.dent && d != s.root && s.dent[d].parent == p && (p in s.dent ==> s.dent[p].inode == i)
    ensures InDir(s, i, d, s.dent[d].num) && s.ino[i].ptr == p
  {
    assert Up(s.dent, s.root, s.depth, d);
    assert EntryOk(s.dent, s.ino, p);
  }

  /** An entry that the step does not name stays in its directory, even if the
      directory itself is moved. */
  lemma StepStays(s: Snap, a: Act, t: Snap, i: nat, d: nat, num: nat)
    requires SnapOk(s) && SnapOk(t) && Follows(s, a, t) && InDir(s, i, d, num)
    requires a.Change? ==> !Vfs.Targets(s.dent, s.ino, a.e, d)
    ensures InDir(t, i, d, num)
  {
    InDirUp(s, i, d, num);
    hide SnapOk, InDir, Vfs.Targets;
    if a.Change? { InDirDown(t, s.dent[d].parent, i, d); }
  }

  lemma {:induction false} StaysAt(i: nat, acts: seq<Act>, hist: seq<Snap>, d: nat, num: nat, k: nat)
    requires History(acts, hist) && InDir(hist[0], i, d, num) && Untouched(acts, hist, d) && k < |hist|
    ensures InDir(hist[k], i, d, num)
  {
    hide SnapOk, InDir, Follows, Vfs.Targets;
    if k > 0 {
      StaysAt(i, acts, hist, d, num, k - 1);
      StepStays(hist[k - 1], acts[k - 1], hist[k], i, d, num);
    }
  }

  lemma {:induction false} RoundsOrdered(i: nat, acts: seq<Act>, hist: seq<Snap>)
    requires History(acts, hist)
    ensures Getdents.AllOrdered(Rounds(i, acts, hist))
  {
    hide SnapOk, Follows, Getdents.Ordered;
    if acts != [] {
      RoundsOrdered(i, acts[1..], hist[1..]);
      if Listable(hist[0], i) { DirThere(hist[0], i); }
    }
  }

  lemma {:induction false} RoundsStay(i: nat, acts: seq<Act>, hist: seq<Snap>, d: nat, num: nat)
    requires |hist| == |acts| + 1 && forall k :: 0 <= k < |hist| ==> InDir(hist[k], i, d, num)
    ensures Getdents.Stays(Rounds(i, acts, hist), d, num)
  {
    if acts != [] {
      assert InDir(hist[0], i, d, num);
      RoundsStay(i, acts[1..], hist[1..], d, num);
    }
  }

  /** An entry that no call of the run names stays where the reader looks for it. */
  lemma UntouchedStays(i: nat, acts: seq<Act>, hist: seq<Snap>, d: nat, num: nat)
    requires History(acts, hist) && InDir(hist[0], i, d, num) && Untouched(acts, hist, d)
    ensures Getdents.Stays(Rounds(i, acts, hist), d, num)
  {
    hide InDir, History, Untouched, Getdents.Stays;
    assert |hist| == |acts| + 1 by { HistorySize(acts, hist); }
    forall k | 0 <= k < |hist| ensures InDir(hist[k], i, d, num) { StaysAt(i, acts, hist, d, num, k); }
    RoundsStay(i, acts, hist, d, num);
  }

  lemma HistorySize(acts: seq<Act>, hist: seq<Snap>)
    requires History(acts, hist)
    ensures |hist| == |acts| + 1
  {
  }

  /** Whatever else happens to the file system meanwhile, an entry that is neither
      removed, renamed nor replaced from the first getdents call to the one that
      returns 0 is returned exactly once. */
  lemma ListedOnce(i: nat, acts: seq<Act>, hist: seq<Snap>, d: nat, num: nat)
    requires History(acts, hist) && InDir(hist[0], i, d, num) && Untouched(acts, hist, d)
    requires Getdents.Finished(Rounds(i, acts, hist))
    ensures var xs := Getdents.Collect(Rounds(i, acts, hist)).0;
      && Getdents.Has(xs, d, num)
      && forall a, b ::
        0 <= a < |xs| && 0 <= b < |xs| && Getdents.IsEntry(xs[a], d, num) && Getdents.IsEntry(xs[b], d, num) ==> a == b
  {
    hide History, InDir, Untouched, Rounds, Getdents.Collect, Getdents.Stays, Getdents.Finished, Getdents.AllOrdered;
    HistorySize(acts, hist);
    UntouchedStays(i, acts, hist, d, num);
    RoundsOrdered(i, acts, hist);
    Getdents.ExactlyOnce(Rounds(i, acts, hist), d, num);
  }

  lemma {:induction false} NextGrows(acts: seq<Act>, hist: seq<Snap>, k: nat, n: nat)
    requires History(acts, hist) && k <= n < |hist|
    ensures hist[k].next <= hist[n].next
  {
    if k < n {
      NextGrows(acts, hist, k, n - 1);
      assert Follows(hist[n - 1], acts[n - 1], hist[n]);
    }
  }

  lemma HistoryParts(acts: seq<Act>, hist: seq<Snap>, j: nat)
    requires History(acts, hist) && j <= |acts|
    ensures History(acts[..j], hist[..j + 1]) && History(acts[j..], hist[j..])
  {
    hide SnapOk, Follows;
    forall k | 0 <= k < |acts[j..]| ensures Follows(hist[j..][k], acts[j..][k], hist[j..][k + 1]) {
      assert Follows(hist[j + k], acts[j + k], hist[j + k + 1]);
    }
  }

  lemma KidsBelow(s: Snap, i: nat, n: nat)
    requires SnapOk(s) && Listable(s, i) && s.next <= n
    ensures forall c :: c in s.dent[s.ino[i].ptr].children && c in s.dent ==> s.dent[c].num < n
  {
    var p := s.ino[i].ptr;
    var cs := s.dent[p].children;
    assert KidsOk(s.dent, p, cs, s.next);
    forall c | c in cs && c in s.dent ensures s.dent[c].num < n {
      var k :| 0 <= k < |cs| && cs[k] == c;
      assert Kid(s.dent, p, cs[k], s.next);
    }
  }

  lemma {:induction false} RoundsBelow(i: nat, acts: seq<Act>, hist: seq<Snap>, n: nat)
    requires |hist| == |acts| + 1 && forall k :: 0 <= k < |hist| ==> SnapOk(hist[k]) && hist[k].next <= n
    ensures Getdents.NumberedBelow(Rounds(i, acts, hist), n)
  {
    hide SnapOk;
    if acts != [] {
      RoundsBelow(i, acts[1..], hist[1..], n);
      if Listable(hist[0], i) { KidsBelow(hist[0], i, n); }
    }
  }

  /** Call `k` renames an entry within its directory. The reader gets it under its new
      number, and under the old one too exactly if it had come that far already. */
  lemma RenamedListed(i: nat, acts: seq<Act>, hist: seq<Snap>, k: nat, d: nat, num: nat, again: nat)
    requires History(acts, hist) && k < |acts| && InDir(hist[0], i, d, num) && InDir(hist[k + 1], i, d, again)
    requires again != num
    requires Untouched(acts[..k], hist[..k + 1], d) && Untouched(acts[k + 1..], hist[k + 1..], d)
    requires Getdents.Finished(Rounds(i, acts, hist)) && Rounds(i, acts[k + 1..], hist[k + 1..]) != []
    ensures var xs := Getdents.Collect(Rounds(i, acts, hist)).0;
      var at := Getdents.Collect(Rounds(i, acts[..k], hist[..k + 1])).1;
      Getdents.Has(xs, d, again) && (Getdents.Has(xs, d, num) <==> num < at)
  {
    hide InDir, Untouched, Getdents.Collect, Getdents.Stays, Getdents.Finished, Getdents.AllOrdered;
    hide Getdents.NumberedBelow, Rounds, SnapOk;
    var rs := Rounds(i, acts, hist);
    var early, late := Rounds(i, acts[..k], hist[..k + 1]), Rounds(i, acts[k + 1..], hist[k + 1..]);
    HistoryParts(acts, hist, k);
    HistoryParts(acts, hist, k + 1);
    RoundsOrdered(i, acts, hist);
    NewNumber(acts, hist, k, i, d, num, again);
    CutAt(i, acts, hist, k);
    UntouchedStays(i, acts[..k], hist[..k + 1], d, num);
    UntouchedStays(i, acts[k + 1..], hist[k + 1..], d, again);
    var h := hist[..k + 1];
    forall n | 0 <= n < |h| ensures SnapOk(h[n]) && h[n].next <= again { NextGrows(acts, hist, n, k); }
    RoundsBelow(i, acts[..k], hist[..k + 1], again);
    var m := |early|;
    assert rs[..m] == early && rs[m..] == late;
    Getdents.RenamedComesBack(rs, m, d, num, again);
  }

  /** The call that changes a number is no call of getdents. */
  lemma CutAt(i: nat, acts: seq<Act>, hist: seq<Snap>, k: nat)
    requires |hist| == |acts| + 1 && k < |acts| && acts[k].Change?
    ensures Rounds(i, acts, hist) == Rounds(i, acts[..k], hist[..k + 1]) + Rounds(i, acts[k + 1..], hist[k + 1..])
  {
    RoundsSplit(i, acts, hist, k);
    var bs, h := acts[k..], hist[k..];
    assert bs[1..] == acts[k + 1..] && h[1..] == hist[k + 1..] && bs[0] == acts[k];
    assert Rounds(i, bs, h) == [] + Rounds(i, bs[1..], h[1..]);
  }

  lemma NewNumber(acts: seq<Act>, hist: seq<Snap>, k: nat, i: nat, d: nat, num: nat, again: nat)
    requires History(acts, hist) && k < |acts| && InDir(hist[0], i, d, num) && InDir(hist[k + 1], i, d, again)
    requires again != num
    requires Untouched(acts[..k], hist[..k + 1], d)
    ensures acts[k].Change? && num < hist[k].next <= again && 2 <= again
  {
    HistoryParts(acts, hist, k);
    StaysAt(i, acts[..k], hist[..k + 1], d, num, k);
    assert InDir(hist[k], i, d, num) && Follows(hist[k], acts[k], hist[k + 1]);
    InDirUp(hist[k], i, d, num);
    hide SnapOk, Untouched;
  }

  // ---- Any number of renames ----

  /** Everything that the calls have returned, and the position behind them. */
  ghost function Reading(i: nat, acts: seq<Act>, hist: seq<Snap>): (seq<Getdents.Item>, nat)
    requires |hist| == |acts| + 1
  {
    Getdents.Collect(Rounds(i, acts, hist))
  }

  /** The position before act `k`. */
  ghost function PosAt(i: nat, acts: seq<Act>, hist: seq<Snap>, k: nat): nat
    requires |hist| == |acts| + 1 && k <= |acts|
  {
    Reading(i, acts[..k], hist[..k + 1]).1
  }

  /** Act `k` is a call that takes the position past the number `num`, which the entry
      `d` has at that time. */
  ghost predicate PassedAt(i: nat, acts: seq<Act>, hist: seq<Snap>, k: nat, d: nat, num: nat)
    requires |hist| == |acts| + 1
  {
    && k < |acts| && acts[k].Call? && InDir(hist[k], i, d, num)
    && PosAt(i, acts, hist, k) <= num < PosAt(i, acts, hist, k + 1)
  }

  /** One more act, and what it adds to the reading. */
  lemma ReadingNext(i: nat, acts: seq<Act>, hist: seq<Snap>)
    requires |hist| == |acts| + 1 && acts != []
    ensures var n := |acts| - 1;
      var a, s := acts[n], hist[n];
      var (xs, at) := Reading(i, acts[..n], hist[..n + 1]);
      Reading(i, acts, hist) ==
        if a.Call? && Listable(s, i) then
          (var (ys, to) := Getdents.Fill(s.dent, s.dent[s.ino[i].ptr].children, at, a.room, a.legacy); (xs + ys, to))
        else (xs, at)
  {
    hide Getdents.Fill, Getdents.Collect, Rounds;
    var n := |acts| - 1;
    assert acts == acts[..n] + [acts[n]] && hist == hist[..n + 1] + [hist[n + 1]];
    RoundsLast(i, acts[..n], hist[..n + 1], acts[n], hist[n + 1]);
    CollectLast(Rounds(i, acts[..n], hist[..n + 1]), hist[n], i, acts[n]);
  }

  lemma PassedPrefix(i: nat, acts: seq<Act>, hist: seq<Snap>, n: nat, k: nat, d: nat, num: nat)
    requires |hist| == |acts| + 1 && k < n <= |acts|
    ensures PassedAt(i, acts[..n], hist[..n + 1], k, d, num) <==> PassedAt(i, acts, hist, k, d, num)
  {
    hide Reading, InDir;
    assert acts[..n][..k] == acts[..k] && hist[..n + 1][..k + 1] == hist[..k + 1];
    assert acts[..n][..k + 1] == acts[..k + 1] && hist[..n + 1][..k + 2] == hist[..k + 2];
  }

  /** What the last act adds to the entries returned. */
  lemma LastAdds(i: nat, acts: seq<Act>, hist: seq<Snap>, d: nat, num: nat)
    requires History(acts, hist) && acts != []
    ensures var n := |acts| - 1;
      Getdents.Has(Reading(i, acts, hist).0, d, num) <==>
        Getdents.Has(Reading(i, acts[..n], hist[..n + 1]).0, d, num) || PassedAt(i, acts, hist, n, d, num)
  {
    var n := |acts| - 1;
    var a, s := acts[n], hist[n];
    assert SnapOk(s) && acts[..n + 1] == acts && hist[..n + 2] == hist;
    ReadingNext(i, acts, hist);
    hide Reading, SnapOk, Getdents.Fill, Getdents.Has, History;
    if a.Call? && Listable(s, i) {
      var cs := s.dent[s.ino[i].ptr].children;
      DirThere(s, i);
      var (xs, at) := Reading(i, acts[..n], hist[..n + 1]);
      Getdents.FillHas(s.dent, cs, at, a.room, a.legacy, d, num);
      Getdents.HasBoth(xs, Getdents.Fill(s.dent, cs, at, a.room, a.legacy).0, d, num);
    }
  }

  /** Whatever happens to the file system, an entry is returned under a number exactly
      if a call takes the position past that number while the entry has it. */
  lemma {:induction false} ReturnedExactly(i: nat, acts: seq<Act>, hist: seq<Snap>, d: nat, num: nat)
    requires History(acts, hist)
    ensures Getdents.Has(Reading(i, acts, hist).0, d, num) <==> exists k: nat :: PassedAt(i, acts, hist, k, d, num)
    decreases |acts|
  {
    hide SnapOk, Follows;
    if acts != [] {
      var n := |acts| - 1;
      HistoryParts(acts, hist, n);
      ReturnedExactly(i, acts[..n], hist[..n + 1], d, num);
      LastAdds(i, acts, hist, d, num);
      hide Reading, PassedAt, History;
      var bs, h := acts[..n], hist[..n + 1];
      forall k | 0 <= k < n ensures PassedAt(i, bs, h, k, d, num) <==> PassedAt(i, acts, hist, k, d, num) {
        PassedPrefix(i, acts, hist, n, k, d, num);
      }
      OnlyActs(i, acts, hist, d, num);
      OnlyActs(i, acts[..n], hist[..n + 1], d, num);
    }
  }

  lemma OnlyActs(i: nat, acts: seq<Act>, hist: seq<Snap>, d: nat, num: nat)
    requires |hist| == |acts| + 1
    ensures forall k: nat :: PassedAt(i, acts, hist, k, d, num) ==> k < |acts|
  {
  }

  /** And never twice under one number. */
  lemma ReturnedOnce(i: nat, acts: seq<Act>, hist: seq<Snap>, a: nat, b: nat)
    requires History(acts, hist) && a < b < |Reading(i, acts, hist).0|
    ensures Getdents.Place(Reading(i, acts, hist).0[a]) < Getdents.Place(Reading(i, acts, hist).0[b])
  {
    hide History, Getdents.Collect, Rounds, Getdents.AllOrdered;
    HistorySize(acts, hist);
    RoundsOrdered(i, acts, hist);
    Getdents.NeverTwice(Rounds(i, acts, hist));
  }

  /** `d` is an entry of the directory `i`, with whatever number. */
  ghost predicate Within(s: Snap, i: nat, d: nat) { d in s.dent && InDir(s, i, d, s.dent[d].num) }

  /** The position has not got ahead of the numbers given out. */
  lemma PosBelow(i: nat, acts: seq<Act>, hist: seq<Snap>)
    requires History(acts, hist) && 2 <= hist[|acts|].next
    ensures Reading(i, acts, hist).1 <= hist[|acts|].next
  {
    hide SnapOk, Getdents.Collect, Rounds, Getdents.NumberedBelow, Getdents.AllOrdered;
    var n := |acts|;
    forall k | 0 <= k < |hist| ensures SnapOk(hist[k]) && hist[k].next <= hist[n].next {
      NextGrows(acts, hist, k, n);
    }
    RoundsBelow(i, acts, hist, hist[n].next);
    RoundsOrdered(i, acts, hist);
    Getdents.PositionBound(Rounds(i, acts, hist), hist[n].next);
  }

  /** A step keeps the number of an entry or gives it one that was not given out. */
  lemma NumberStep(s: Snap, a: Act, t: Snap, i: nat, d: nat)
    requires SnapOk(s) && Follows(s, a, t) && Within(s, i, d) && Within(t, i, d)
    ensures 2 <= s.dent[d].num < s.next && (t.dent[d].num == s.dent[d].num || s.next <= t.dent[d].num)
  {
    InDirUp(s, i, d, s.dent[d].num);
    hide SnapOk;
  }

  /** An entry that is in the directory throughout, however often it is renamed there,
      is still to come or has come under the number it has. */
  lemma {:induction false} ToComeOrCame(i: nat, acts: seq<Act>, hist: seq<Snap>, d: nat)
    requires History(acts, hist) && forall k :: 0 <= k < |hist| ==> Within(hist[k], i, d)
    ensures Within(hist[|acts|], i, d)
    ensures var num := hist[|acts|].dent[d].num;
      Getdents.Has(Reading(i, acts, hist).0, d, num) || Reading(i, acts, hist).1 <= num
    decreases |acts|
  {
    hide SnapOk, Follows, InDir;
    if acts == [] {
      assert Rounds(i, acts, hist) == [];
    } else {
      var n := |acts| - 1;
      var num := hist[|acts|].dent[d].num;
      HistoryParts(acts, hist, n);
      ToComeOrCame(i, acts[..n], hist[..n + 1], d);
      NumberStep(hist[n], acts[n], hist[n + 1], i, d);
      PosBelow(i, acts[..n], hist[..n + 1]);
      LastAdds(i, acts, hist, d, num);
      ReadingNext(i, acts, hist);
      assert acts[..n + 1] == acts && hist[..n + 2] == hist;
      hide Reading, History, Getdents.Fill, Getdents.Has;
      assert acts[n].Call? ==> hist[n + 1] == hist[n] by { CallStays(acts, hist, n); }
    }
  }

  lemma CallStays(acts: seq<Act>, hist: seq<Snap>, n: nat)
    requires History(acts, hist) && n < |acts|
    ensures acts[n].Call? ==> hist[n + 1] == hist[n]
  {
    assert Follows(hist[n], acts[n], hist[n + 1]);
  }

  /** When a call returns 0, every entry that was in the directory throughout has come
      under the number it has now. */
  lemma LastListed(i: nat, acts: seq<Act>, hist: seq<Snap>, d: nat)
    requires History(acts, hist) && forall k :: 0 <= k < |hist| ==> Within(hist[k], i, d)
    requires acts != [] && acts[|acts| - 1].Call? && Getdents.Finished(Rounds(i, acts, hist))
    ensures Within(hist[|acts|], i, d)
    ensures Getdents.Has(Reading(i, acts, hist).0, d, hist[|acts|].dent[d].num)
  {
    hide SnapOk, Follows, Getdents.Has, Getdents.Finished, Getdents.Collect, Getdents.AllOrdered, InDir, Rounds;
    ToComeOrCame(i, acts, hist, d);
    CallStays(acts, hist, |acts| - 1);
    RoundsOrdered(i, acts, hist);
    assert Within(hist[|acts|], i, d);
    LastRound(i, acts, hist, d);
    hide History, Within;
    Getdents.PastAll(Rounds(i, acts, hist), d);
  }

  /** The last call found the directory as it is now. */
  lemma LastRound(i: nat, acts: seq<Act>, hist: seq<Snap>, d: nat)
    requires |hist| == |acts| + 1 && acts != [] && acts[|acts| - 1].Call? && hist[|acts|] == hist[|acts| - 1]
    requires Within(hist[|acts|], i, d)
    ensures var rs := Rounds(i, acts, hist);
      rs != [] && var r := rs[|rs| - 1]; r.t == hist[|acts|].dent && d in r.cs
  {
    hide Rounds;
    var n := |acts| - 1;
    assert acts == acts[..n] + [acts[n]] && hist == hist[..n + 1] + [hist[n + 1]];
    RoundsLast(i, acts[..n], hist[..n + 1], acts[n], hist[n + 1]);
  }
}
