/** Reading a directory in pieces while it changes. An open directory remembers a
    position: 0 and 1 stand for "." and "..", anything else for the first entry
    with that number or a higher one. */
module Getdents {
  import opened Dentries

  datatype Item = Self | Parent | Entry(d: nat, num: nat, name: string)

  datatype Found = Some(item: Item) | None

  predicate IsEntry(x: Item, d: nat, num: nat) { x.Entry? && x.d == d && x.num == num }

  function NameOf(x: Item): string {
    match x case Self => "." case Parent => ".." case Entry(_, _, name) => name
  }

  /** The length of a record, for the old and the new call: for both, the least
      multiple of eight that holds a header, the name, its NUL and the type. */
  function RecLen(len: nat, legacy: bool): (r: nat)
    ensures r % 8 == 0 && len + 20 <= r < len + 28
  {
    ((if legacy then 18 else 19) + len + 1 + (if legacy then 1 else 0) + 7) / 8 * 8
  }

  /** The first entry of `cs` numbered `idx` or higher. */
  function FirstFrom(t: Dents, cs: seq<nat>, idx: nat): Found
  {
    if cs == [] then None
    else if cs[0] in t && t[cs[0]].num >= idx then Some(Entry(cs[0], t[cs[0]].num, t[cs[0]].name))
    else FirstFrom(t, cs[1..], idx)
  }

  /** What stands at a position. */
  function ItemAt(t: Dents, cs: seq<nat>, idx: nat): Found {
    if idx == 0 then Some(Self) else if idx == 1 then Some(Parent) else FirstFrom(t, cs, idx)
  }

  /** The position behind it. */
  function Behind(x: Item, idx: nat): nat { if x.Entry? then x.num + 1 else idx + 1 }

  /** One call: as many items as fit, and the new position. */
  function Fill(t: Dents, cs: seq<nat>, idx: nat, room: nat, legacy: bool): (seq<Item>, nat)
    decreases room
  {
    match ItemAt(t, cs, idx)
    case None => ([], idx)
    case Some(x) =>
      var len := RecLen(|NameOf(x)|, legacy);
      if len > room then ([], idx)
      else
        var (rest, off) := Fill(t, cs, Behind(x, idx), room - len, legacy);
        ([x] + rest, off)
  }

  function Size(xs: seq<Item>, legacy: bool): nat {
    if xs == [] then 0 else Size(xs[..|xs| - 1], legacy) + RecLen(|NameOf(xs[|xs| - 1])|, legacy)
  }

  /** The entry loop of do_getdents: the first child at or behind a position. */
  method Scan(t: Dents, cs: seq<nat>, idx: nat) returns (x: Found)
    requires forall i :: 0 <= i < |cs| ==> cs[i] in t
    ensures x == FirstFrom(t, cs, idx)
  {
    var i := 0;
    while i < |cs| && t[cs[i]].num < idx
      invariant 0 <= i <= |cs| && FirstFrom(t, cs, idx) == FirstFrom(t, cs[i..], idx)
    {
      assert cs[i..][1..] == cs[i + 1..];
      i := i + 1;
    }
    if i == |cs| { return None; }
    return Some(Entry(cs[i], t[cs[i]].num, t[cs[i]].name));
  }

  datatype Result = Bytes(count: nat) | EINVAL

  /** do_getdents on the directory with the children `cs`: fills a buffer of `count`
      bytes; EINVAL if not even the first item fits. */
  method Read(t: Dents, cs: seq<nat>, offset: nat, count: nat, legacy: bool)
    returns (r: Result, items: seq<Item>, off: nat)
    requires forall i :: 0 <= i < |cs| ==> cs[i] in t
    ensures (items, off) == Fill(t, cs, offset, count, legacy)
    ensures r == EINVAL <==> items == [] && ItemAt(t, cs, offset).Some?
    ensures r.Bytes? ==> r.count == Size(items, legacy) <= count
    ensures ItemAt(t, cs, off).Some? ==>
      Size(items, legacy) + RecLen(|NameOf(ItemAt(t, cs, off).item)|, legacy) > count
    ensures r == EINVAL <==>
      ItemAt(t, cs, offset).Some? && RecLen(|NameOf(ItemAt(t, cs, offset).item)|, legacy) > count
    ensures Ordered(t, cs) ==> Covers(t, cs, offset, items, off)
  {
    hide Fill, FirstFrom, ItemAt, RecLen, Resumes, Size, Ordered, Covers;
    if Ordered(t, cs) { FillCovers(t, cs, offset, count, legacy); }
    FillStep(t, cs, offset, count, legacy);
    items, off := [], offset;
    var pos := 0;
    Begin(t, cs, offset, count, legacy);
    while true
      invariant pos == Size(items, legacy) <= count && (items == [] ==> off == offset) && (pos == 0 ==> items == [])
      invariant Resumes(t, cs, offset, count, legacy, items, off, count - pos)
      decreases count - pos
    {
      var x: Found;
      if off == 0 { x := Some(Self); }
      else if off == 1 { x := Some(Parent); }
      else { x := Scan(t, cs, off); }
      ItemIs(t, cs, off);
      if x.None? {
        Finish(t, cs, offset, count, legacy, items, off, count - pos);
        break;
      }
      var len := RecLen(|NameOf(x.item)|, legacy);
      if pos + len > count {
        Finish(t, cs, offset, count, legacy, items, off, count - pos);
        if pos == 0 { return EINVAL, items, off; }
        break;
      }
      Advance(t, cs, offset, count, legacy, items, off, count - pos, x.item);
      items := items + [x.item];
      pos := pos + len;
      off := Behind(x.item, off);
    }
    return Bytes(pos), items, off;
  }

  lemma Begin(t: Dents, cs: seq<nat>, offset: nat, count: nat, legacy: bool)
    ensures Resumes(t, cs, offset, count, legacy, [], offset, count) && Size([], legacy) == 0
  {
    hide Fill;
    assert [] + Fill(t, cs, offset, count, legacy).0 == Fill(t, cs, offset, count, legacy).0;
  }

  lemma Advance(t: Dents, cs: seq<nat>, offset: nat, count: nat, legacy: bool, items: seq<Item>, off: nat, left: nat,
                x: Item)
    requires Resumes(t, cs, offset, count, legacy, items, off, left) && ItemAt(t, cs, off) == Some(x)
    requires RecLen(|NameOf(x)|, legacy) <= left
    ensures Resumes(t, cs, offset, count, legacy, items + [x], Behind(x, off), left - RecLen(|NameOf(x)|, legacy))
    ensures Size(items + [x], legacy) == Size(items, legacy) + RecLen(|NameOf(x)|, legacy)
  {
    hide Fill, ItemAt, RecLen, NameOf;
    FillStep(t, cs, off, left, legacy);
    Regroup(items, x, Fill(t, cs, Behind(x, off), left - RecLen(|NameOf(x)|, legacy), legacy).0);
  }

  lemma Finish(t: Dents, cs: seq<nat>, offset: nat, count: nat, legacy: bool, items: seq<Item>, off: nat, left: nat)
    requires Resumes(t, cs, offset, count, legacy, items, off, left)
    requires ItemAt(t, cs, off).Some? ==> RecLen(|NameOf(ItemAt(t, cs, off).item)|, legacy) > left
    ensures Fill(t, cs, offset, count, legacy) == (items, off)
  {
    hide Fill, ItemAt, RecLen, NameOf;
    FillStep(t, cs, off, left, legacy);
    assert items + [] == items;
  }

  /** What is still to come after `items`, when `left` bytes are left at `off`. */
  ghost predicate Resumes(t: Dents, cs: seq<nat>, offset: nat, count: nat, legacy: bool, items: seq<Item>, off: nat,
                          left: nat) {
    var rest := Fill(t, cs, off, left, legacy);
    Fill(t, cs, offset, count, legacy) == (items + rest.0, rest.1)
  }

  lemma FillStep(t: Dents, cs: seq<nat>, idx: nat, room: nat, legacy: bool)
    ensures ItemAt(t, cs, idx).None? ==> Fill(t, cs, idx, room, legacy) == ([], idx)
    ensures ItemAt(t, cs, idx).Some? ==>
      (var x := ItemAt(t, cs, idx).item;
       var len := RecLen(|NameOf(x)|, legacy);
       if len > room then Fill(t, cs, idx, room, legacy) == ([], idx)
       else
         var (rest, off) := Fill(t, cs, Behind(x, idx), room - len, legacy);
         Fill(t, cs, idx, room, legacy) == ([x] + rest, off))
  {
  }

  lemma ItemIs(t: Dents, cs: seq<nat>, idx: nat)
    ensures ItemAt(t, cs, idx) == if idx == 0 then Some(Self) else if idx == 1 then Some(Parent)
      else FirstFrom(t, cs, idx)
  {
  }

  lemma Regroup(items: seq<Item>, x: Item, rest: seq<Item>)
    ensures items + ([x] + rest) == (items + [x]) + rest && (items + [x])[..|items + [x]| - 1] == items
  {
  }

  // ---- What one call covers ----

  /** Items in the order of the directory: "." and ".." first, then by number. */
  ghost function Place(x: Item): nat { match x case Self => 0 case Parent => 1 case Entry(_, num, _) => num }

  ghost predicate Ascending(xs: seq<Item>) {
    forall i, j :: 0 <= i < j < |xs| ==> Place(xs[i]) < Place(xs[j])
  }

  /** The children of one directory, in order. */
  ghost predicate Ordered(t: Dents, cs: seq<nat>) {
    && (forall i :: 0 <= i < |cs| ==> cs[i] in t && t[cs[i]].num >= 2)
    && forall i, j :: 0 <= i < j < |cs| ==> t[cs[i]].num < t[cs[j]].num
  }

  lemma {:induction false} FirstFromFacts(t: Dents, cs: seq<nat>, idx: nat)
    requires Ordered(t, cs)
    ensures var x := FirstFrom(t, cs, idx);
      if x.None? then forall c :: c in cs ==> t[c].num < idx
      else x.item.Entry? && x.item.d in cs && x.item.num == t[x.item.d].num >= idx && x.item.name == t[x.item.d].name
           && forall c :: c in cs && c != x.item.d ==> t[c].num < idx || t[c].num > x.item.num
  {
    if cs != [] {
      var rest := cs[1..];
      FirstFromFacts(t, rest, idx);
      assert cs == [cs[0]] + rest;
    }
  }

  /** One call returns exactly the items between the old and the new position. */
  ghost predicate Covers(t: Dents, cs: seq<nat>, idx: nat, xs: seq<Item>, off: nat) {
    && idx <= off && Ascending(xs)
    && (forall i :: 0 <= i < |xs| ==> idx <= Place(xs[i]) < off && (xs[i].Entry? ==> Names(t, cs, xs[i])))
    && (forall c :: c in cs && c in t && idx <= t[c].num < off ==> Has(xs, c, t[c].num))
  }

  ghost predicate Names(t: Dents, cs: seq<nat>, x: Item)
    requires x.Entry?
  {
    x.d in cs && x.d in t && x.num == t[x.d].num && x.name == t[x.d].name
  }

  ghost predicate Has(xs: seq<Item>, d: nat, num: nat) {
    exists i :: 0 <= i < |xs| && IsEntry(xs[i], d, num)
  }

  lemma HasEither(xs: seq<Item>, ys: seq<Item>, d: nat, num: nat)
    requires Has(xs, d, num) || Has(ys, d, num)
    ensures Has(xs + ys, d, num)
  {
    var zs := xs + ys;
    if Has(xs, d, num) {
      var i :| 0 <= i < |xs| && IsEntry(xs[i], d, num);
      assert IsEntry(zs[i], d, num);
    } else {
      var i :| 0 <= i < |ys| && IsEntry(ys[i], d, num);
      assert IsEntry(zs[|xs| + i], d, num);
    }
  }

  lemma CoversOne(t: Dents, cs: seq<nat>, idx: nat, x: Item)
    requires Ordered(t, cs) && ItemAt(t, cs, idx) == Some(x)
    ensures Covers(t, cs, idx, [x], Behind(x, idx))
  {
    FirstFromFacts(t, cs, idx);
    var xs := [x];
    assert xs[0] == x;
    forall c | c in cs && c in t && idx <= t[c].num < Behind(x, idx) ensures Has(xs, c, t[c].num) {
      assert IsEntry(xs[0], c, t[c].num);
    }
  }

  lemma CoversMore(t: Dents, cs: seq<nat>, idx: nat, xs: seq<Item>, mid: nat, ys: seq<Item>, off: nat)
    requires Covers(t, cs, idx, xs, mid) && Covers(t, cs, mid, ys, off) && Ordered(t, cs)
    ensures Covers(t, cs, idx, xs + ys, off)
  {
    var zs := xs + ys;
    forall c | c in cs && c in t && idx <= t[c].num < off ensures Has(zs, c, t[c].num) {
      HasEither(xs, ys, c, t[c].num);
    }
  }

  lemma {:induction false} FillCovers(t: Dents, cs: seq<nat>, idx: nat, room: nat, legacy: bool)
    requires Ordered(t, cs)
    ensures var (xs, off) := Fill(t, cs, idx, room, legacy);
      Covers(t, cs, idx, xs, off) && (ItemAt(t, cs, off).None? ==> forall c :: c in cs ==> t[c].num < off)
    decreases room
  {
    var x := ItemAt(t, cs, idx);
    FirstFromFacts(t, cs, Fill(t, cs, idx, room, legacy).1);
    if x.Some? && RecLen(|NameOf(x.item)|, legacy) <= room {
      var mid := Behind(x.item, idx);
      CoversOne(t, cs, idx, x.item);
      FillCovers(t, cs, mid, room - RecLen(|NameOf(x.item)|, legacy), legacy);
      var (ys, off) := Fill(t, cs, mid, room - RecLen(|NameOf(x.item)|, legacy), legacy);
      CoversMore(t, cs, idx, [x.item], mid, ys, off);
    }
  }

  /** An entry comes under a number exactly if it has it and the position passes it. */
  lemma FillHas(t: Dents, cs: seq<nat>, idx: nat, room: nat, legacy: bool, d: nat, num: nat)
    requires Ordered(t, cs)
    ensures var (xs, off) := Fill(t, cs, idx, room, legacy);
      Has(xs, d, num) <==> d in cs && d in t && t[d].num == num && idx <= num < off
  {
    hide Fill;
    FillCovers(t, cs, idx, room, legacy);
    var xs := Fill(t, cs, idx, room, legacy).0;
    if Has(xs, d, num) {
      var i :| 0 <= i < |xs| && IsEntry(xs[i], d, num);
      assert Names(t, cs, xs[i]) && Place(xs[i]) == num;
    }
  }

  lemma HasBoth(xs: seq<Item>, ys: seq<Item>, d: nat, num: nat)
    ensures Has(xs + ys, d, num) <==> Has(xs, d, num) || Has(ys, d, num)
  {
    if Has(xs, d, num) || Has(ys, d, num) { HasEither(xs, ys, d, num); }
    if Has(xs + ys, d, num) {
      var i :| 0 <= i < |xs + ys| && IsEntry((xs + ys)[i], d, num);
      if i < |xs| { assert IsEntry(xs[i], d, num); } else { assert IsEntry(ys[i - |xs|], d, num); }
    }
  }

  // ---- A whole reading, from the first call to the one that returns 0 ----

  /** The directory as it was at one call, and the buffer given. */
  datatype Round = Round(t: Dents, cs: seq<nat>, room: nat, legacy: bool)

  /** All items that a series of calls returns, and where it ends. */
  function Collect(rs: seq<Round>): (seq<Item>, nat) {
    if rs == [] then ([], 0)
    else
      var r := rs[|rs| - 1];
      var (xs, idx) := Collect(rs[..|rs| - 1]);
      var (ys, off) := Fill(r.t, r.cs, idx, r.room, r.legacy);
      (xs + ys, off)
  }

  ghost predicate AllOrdered(rs: seq<Round>) { forall k :: 0 <= k < |rs| ==> Ordered(rs[k].t, rs[k].cs) }

  /** The entry `d` is in the directory under the number `num` at every call. */
  ghost predicate Stays(rs: seq<Round>, d: nat, num: nat) {
    forall k :: 0 <= k < |rs| ==> d in rs[k].cs && d in rs[k].t && rs[k].t[d].num == num
  }

  /** No entry is returned twice: whatever happens to the directory between the
      calls, and whatever the buffer sizes, positions only go up. */
  lemma {:induction false} NeverTwice(rs: seq<Round>)
    requires AllOrdered(rs)
    ensures var (xs, off) := Collect(rs); Ascending(xs) && forall i :: 0 <= i < |xs| ==> Place(xs[i]) < off
  {
    if rs != [] {
      var k := |rs| - 1;
      NeverTwice(rs[..k]);
      var (xs, idx) := Collect(rs[..k]);
      FillCovers(rs[k].t, rs[k].cs, idx, rs[k].room, rs[k].legacy);
    }
  }

  /** One more call returns an entry that it passes, if no call before did. */
  lemma OneMore(r: Round, xs: seq<Item>, idx: nat, d: nat, num: nat)
    requires Ordered(r.t, r.cs) && d in r.cs && d in r.t && r.t[d].num == num && (num < idx ==> Has(xs, d, num))
    ensures var (ys, off) := Fill(r.t, r.cs, idx, r.room, r.legacy); num < off ==> Has(xs + ys, d, num)
  {
    hide Fill;
    FillCovers(r.t, r.cs, idx, r.room, r.legacy);
    var (ys, off) := Fill(r.t, r.cs, idx, r.room, r.legacy);
    if num < off { HasEither(xs, ys, d, num); }
  }

  /** From call `k` on an entry stays; the position had not passed it then. */
  lemma {:induction false} StaysReturned(rs: seq<Round>, k: nat, d: nat, num: nat)
    requires AllOrdered(rs) && k <= |rs| && Stays(rs[k..], d, num) && Collect(rs[..k]).1 <= num
    ensures var (xs, off) := Collect(rs); num < off ==> Has(xs, d, num)
  {
    hide Fill, Has, Ordered;
    if k < |rs| {
      var n := |rs| - 1;
      assert rs[..n][..k] == rs[..k] && rs[..n][k..] == rs[k..][..n - k];
      StaysReturned(rs[..n], k, d, num);
      assert rs[k..][n - k] == rs[n];
      OneMore(rs[n], Collect(rs[..n]).0, Collect(rs[..n]).1, d, num);
    } else {
      assert rs[..k] == rs;
    }
  }

  /** The last call of the series returned 0: nothing, and not for lack of room. */
  ghost predicate Finished(rs: seq<Round>) {
    rs != [] && var r := rs[|rs| - 1]; ItemAt(r.t, r.cs, Collect(rs[..|rs| - 1]).1).None?
  }

  /** When a call returned 0, the position has passed everything there is. */
  lemma PastAll(rs: seq<Round>, d: nat)
    requires AllOrdered(rs) && Finished(rs) && d in rs[|rs| - 1].cs
    ensures d in rs[|rs| - 1].t && rs[|rs| - 1].t[d].num < Collect(rs).1
  {
    var r := rs[|rs| - 1];
    FirstFromFacts(r.t, r.cs, Collect(rs[..|rs| - 1]).1);
  }

  /** An entry that was there all the time, neither removed nor renamed, has been
      returned exactly once when a call returns 0. */
  lemma ExactlyOnce(rs: seq<Round>, d: nat, num: nat)
    requires AllOrdered(rs) && Stays(rs, d, num) && Finished(rs)
    ensures var xs := Collect(rs).0;
      Has(xs, d, num) && forall i, j ::
        0 <= i < |xs| && 0 <= j < |xs| && IsEntry(xs[i], d, num) && IsEntry(xs[j], d, num) ==> i == j
  {
    assert rs[..0] == [] && rs[0..] == rs;
    PastAll(rs, d);
    StaysReturned(rs, 0, d, num);
    NeverTwice(rs);
    var xs := Collect(rs).0;
    hide Collect, Has;
    forall i, j | 0 <= i < |xs| && 0 <= j < |xs| && IsEntry(xs[i], d, num) && IsEntry(xs[j], d, num) ensures i == j {
      assert Place(xs[i]) == Place(xs[j]);
    }
  }

  // ---- The directory between the calls ----

  /** The lists of a tree are ordered. */
  lemma TreeOrdered(t: Dents, root: nat, depth: map<nat, nat>, next: nat, p: nat)
    requires TreeOk(t, root, depth, next) && p in t
    ensures Ordered(t, t[p].children)
  {
    var cs := t[p].children;
    assert KidsOk(t, p, cs, next);
    forall i | 0 <= i < |cs| ensures cs[i] in t && t[cs[i]].num >= 2 {
      assert Kid(t, p, cs[i], next);
    }
    forall i, j | 0 <= i < j < |cs| ensures t[cs[i]].num < t[cs[j]].num {
      assert Apart(t, cs[i], cs[j]);
    }
  }

  /** All entries of the rounds are numbered below `n`. */
  ghost predicate NumberedBelow(rs: seq<Round>, n: nat) {
    forall k, c :: 0 <= k < |rs| && c in rs[k].cs && c in rs[k].t ==> rs[k].t[c].num < n
  }

  lemma {:induction false} FillBound(t: Dents, cs: seq<nat>, idx: nat, room: nat, legacy: bool, n: nat)
    requires Ordered(t, cs) && 2 <= n && idx <= n && forall c :: c in cs && c in t ==> t[c].num < n
    ensures Fill(t, cs, idx, room, legacy).1 <= n
    decreases room
  {
    var x := ItemAt(t, cs, idx);
    FirstFromFacts(t, cs, idx);
    if x.Some? && RecLen(|NameOf(x.item)|, legacy) <= room {
      FillBound(t, cs, Behind(x.item, idx), room - RecLen(|NameOf(x.item)|, legacy), legacy, n);
    }
  }

  /** The position never gets ahead of the numbers given out so far. */
  lemma {:induction false} PositionBound(rs: seq<Round>, n: nat)
    requires AllOrdered(rs) && 2 <= n && NumberedBelow(rs, n)
    ensures Collect(rs).1 <= n
  {
    hide Fill, Ordered;
    if rs != [] {
      var k := |rs| - 1;
      PositionBound(rs[..k], n);
      FillBound(rs[k].t, rs[k].cs, Collect(rs[..k]).1, rs[k].room, rs[k].legacy, n);
    }
  }

  /** While `d` has the number `again`, no call returns it under another. */
  lemma {:induction false} OnlyEarlier(rs: seq<Round>, k: nat, d: nat, num: nat, again: nat)
    requires AllOrdered(rs) && k <= |rs| && Stays(rs[k..], d, again) && num != again
    ensures Has(Collect(rs).0, d, num) <==> Has(Collect(rs[..k]).0, d, num)
  {
    hide Fill, Has, Ordered;
    if k == |rs| {
      assert rs[..k] == rs;
    } else {
      var n := |rs| - 1;
      assert rs[..n][..k] == rs[..k] && rs[..n][k..] == rs[k..][..n - k];
      OnlyEarlier(rs[..n], k, d, num, again);
      assert rs[k..][n - k] == rs[n];
      var (xs, idx) := Collect(rs[..n]);
      OtherNumber(rs[n], xs, idx, d, num);
    }
  }

  lemma OtherNumber(r: Round, xs: seq<Item>, idx: nat, d: nat, num: nat)
    requires Ordered(r.t, r.cs) && d in r.t && r.t[d].num != num
    ensures Has(xs + Fill(r.t, r.cs, idx, r.room, r.legacy).0, d, num) <==> Has(xs, d, num)
  {
    hide Fill;
    FillCovers(r.t, r.cs, idx, r.room, r.legacy);
    var ys := Fill(r.t, r.cs, idx, r.room, r.legacy).0;
    if Has(xs, d, num) { HasEither(xs, ys, d, num); }
    if Has(xs + ys, d, num) {
      var i :| 0 <= i < |xs + ys| && IsEntry((xs + ys)[i], d, num);
      assert i >= |xs| ==> Names(r.t, r.cs, ys[i - |xs|]);
      assert IsEntry(xs[i], d, num);
    }
  }

  /** An entry that stays has come exactly if the position has passed it. */
  lemma CameIfPassed(rs: seq<Round>, d: nat, num: nat)
    requires AllOrdered(rs) && Stays(rs, d, num)
    ensures Has(Collect(rs).0, d, num) <==> num < Collect(rs).1
  {
    assert rs[..0] == [] && rs[0..] == rs;
    StaysReturned(rs, 0, d, num);
    NeverTwice(rs);
    var xs := Collect(rs).0;
    hide Collect;
    if Has(xs, d, num) {
      var i :| 0 <= i < |xs| && IsEntry(xs[i], d, num);
      assert Place(xs[i]) == num;
    }
  }

  /** An entry is renamed before call `k` and gets a number that was not given out
      yet. It comes under the new number, and it has come under the old one as well
      exactly if the position had passed it at the rename. */
  lemma RenamedComesBack(rs: seq<Round>, k: nat, d: nat, num: nat, again: nat)
    requires AllOrdered(rs) && k < |rs| && Finished(rs) && Stays(rs[..k], d, num) && Stays(rs[k..], d, again)
    requires num < again && 2 <= again && NumberedBelow(rs[..k], again)
    ensures Has(Collect(rs).0, d, again) && (Has(Collect(rs).0, d, num) <==> num < Collect(rs[..k]).1)
  {
    hide Collect, Has;
    PositionBound(rs[..k], again);
    StaysReturned(rs, k, d, again);
    assert rs[k..][|rs| - 1 - k] == rs[|rs| - 1];
    PastAll(rs, d);
    OnlyEarlier(rs, k, d, num, again);
    CameIfPassed(rs[..k], d, num);
  }

  /** One directory with one entry, which is renamed. */
  function OneEntry(name: string, num: nat): Dents { map[7 := Dentry(name, 1, 3, [], num)] }

  lemma ReadOne(name: string, num: nat, room: nat)
    requires num >= 2 && |name| == 1 && room >= 72
    ensures Fill(OneEntry(name, num), [7], num, room, false) == ([Entry(7, num, name)], num + 1)
  {
    var t := OneEntry(name, num);
    assert [7][1..] == [] && FirstFrom(t, [7], num) == Some(Entry(7, num, name)) && FirstFrom(t, [7], num + 1) == None;
    assert Fill(t, [7], num, room, false).0 == [Entry(7, num, name)] + [] == [Entry(7, num, name)];
    assert Fill(t, [7], num, room, false).1 == num + 1;
  }

  lemma ReadFirst(name: string)
    requires |name| == 1
    ensures Fill(OneEntry(name, 2), [7], 0, 120, false) == ([Self, Parent, Entry(7, 2, name)], 3)
  {
    var t, a := OneEntry(name, 2), Entry(7, 2, name);
    ReadOne(name, 2, 72);
    hide OneEntry, FirstFrom;
    assert Fill(t, [7], 1, 96, false).0 == [Parent] + [a] == [Parent, a] && Fill(t, [7], 1, 96, false).1 == 3;
    assert Fill(t, [7], 0, 120, false).0 == [Self] + [Parent, a] == [Self, Parent, a];
    assert Fill(t, [7], 0, 120, false).1 == 3;
  }

  /** Entry 7 is returned, renamed, and returned again. */
  lemma RenamedTwiceExample()
    ensures Collect([Round(OneEntry("a", 2), [7], 120, false), Round(OneEntry("b", 3), [7], 120, false)]).0
      == [Self, Parent, Entry(7, 2, "a"), Entry(7, 3, "b")]
  {
    hide OneEntry, Fill;
    var r0, r1 := Round(OneEntry("a", 2), [7], 120, false), Round(OneEntry("b", 3), [7], 120, false);
    var a, b := Entry(7, 2, "a"), Entry(7, 3, "b");
    ReadFirst("a");
    ReadOne("b", 3, 120);
    assert [r0, r1][..1] == [r0] && [r0][..0] == [];
    assert Collect([r0]).0 == [] + [Self, Parent, a] == [Self, Parent, a] && Collect([r0]).1 == 3;
    assert Collect([r0, r1]).0 == [Self, Parent, a] + [b];
  }
}
