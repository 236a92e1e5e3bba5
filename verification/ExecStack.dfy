/** The stack a new program starts with, and the copying into its memory. */
module ExecStack {
  import opened Machine

  const STACK_TOP: nat := USER_END
  const STACK_SIZE: nat := 16 * PAGE_SIZE
  const STACK_LOW: nat := STACK_TOP - STACK_SIZE
  const PHDR_SIZE: nat := 56

  type Bytes = seq<nat>

  // ---- User memory, page by page ----

  /** Mapped pages by page number. */
  type Pages = map<nat, Bytes>

  ghost predicate PagesOk(m: Pages) { forall p :: p in m ==> |m[p]| == PAGE_SIZE }

  predicate There(m: Pages, a: nat) { a / PAGE_SIZE in m && |m[a / PAGE_SIZE]| == PAGE_SIZE }

  function At(m: Pages, a: nat): nat
    requires There(m, a)
  {
    m[a / PAGE_SIZE][a % PAGE_SIZE]
  }

  ghost predicate Mapped(m: Pages, lo: nat, hi: nat) { forall a :: lo <= a < hi ==> There(m, a) }

  predicate HasByte(m: Pages, a: nat, b: Bytes, i: nat)
    requires i < |b|
  {
    There(m, a + i) && At(m, a + i) == b[i]
  }

  /** The bytes `b` are in memory at `a`. */
  ghost predicate Holds(m: Pages, a: nat, b: Bytes) {
    forall i: nat {:trigger HasByte(m, a, b, i)} :: i < |b| ==> HasByte(m, a, b, i)
  }

  /** `n` differs from `m` at most in [lo, hi). */
  ghost predicate Only(m: Pages, n: Pages, lo: nat, hi: nat) {
    && n.Keys == m.Keys
    && forall a: nat :: There(m, a) ==> There(n, a) && (a < lo || a >= hi ==> At(n, a) == At(m, a))
  }

  lemma HoldsKept(m: Pages, n: Pages, lo: nat, hi: nat, a: nat, b: Bytes)
    requires Only(m, n, lo, hi) && Holds(m, a, b) && (a + |b| <= lo || hi <= a)
    ensures Holds(n, a, b)
  {
    hide There, At;
    forall i: nat | i < |b| ensures HasByte(n, a, b, i) {
      HoldsAt(m, a, b, i);
    }
  }

  lemma HoldsAt(m: Pages, a: nat, b: Bytes, i: nat)
    requires Holds(m, a, b) && i < |b|
    ensures There(m, a + i) && At(m, a + i) == b[i]
  {
    hide There, At;
    assert HasByte(m, a, b, i);
  }

  lemma OnlyTwice(l: Pages, m: Pages, n: Pages, lo: nat, mid: nat, hi: nat)
    requires Only(l, m, lo, mid) && Only(m, n, mid, hi) && lo <= mid <= hi
    ensures Only(l, n, lo, hi)
  {
  }

  /** One piece of one page is replaced. */
  function Patched(page: Bytes, off: nat, b: Bytes): Bytes
    requires off + |b| <= |page|
  {
    page[..off] + b + page[off + |b|..]
  }

  lemma PatchAt(m: Pages, va: nat, b: Bytes, a: nat)
    requires There(m, va) && va % PAGE_SIZE + |b| <= PAGE_SIZE && There(m, a)
    ensures var n := m[va / PAGE_SIZE := Patched(m[va / PAGE_SIZE], va % PAGE_SIZE, b)];
      There(n, a) && At(n, a) == if va <= a < va + |b| then b[a - va] else At(m, a)
  {
    var p, off := va / PAGE_SIZE, va % PAGE_SIZE;
    if a / PAGE_SIZE == p {
      SamePage(va, a);
    } else {
      OtherPage(va, |b|, a);
    }
  }

  lemma SamePage(va: nat, a: nat)
    requires a / PAGE_SIZE == va / PAGE_SIZE
    ensures a - va == a % PAGE_SIZE - va % PAGE_SIZE
  {
  }

  lemma OtherPage(va: nat, len: nat, a: nat)
    requires a / PAGE_SIZE != va / PAGE_SIZE && va % PAGE_SIZE + len <= PAGE_SIZE
    ensures a < va || a >= va + len
  {
  }

  class UserMemory {
    var pages: Pages

    ghost predicate Valid()
      reads this
    {
      PagesOk(pages)
    }

    /** vmm_copy_to: page by page; false at the first page that is not there. */
    method CopyTo(va: nat, src: Bytes) returns (ok: bool)
      requires Valid()
      modifies this
      ensures Valid() && Only(old(pages), pages, va, va + |src|)
      ensures ok <==> Mapped(old(pages), va, va + |src|)
      ensures ok ==> Holds(pages, va, src)
    {
      hide Only, Mapped, Holds, Patched;
      Nothing(pages, va);
      var i := 0;
      while i < |src|
        invariant 0 <= i <= |src| && Valid() && Only(old(pages), pages, va, va + i)
        invariant Mapped(old(pages), va, va + i) && Holds(pages, va, src[..i])
      {
        var at := va + i;
        var off := at % PAGE_SIZE;
        var chunk := if PAGE_SIZE - off < |src| - i then PAGE_SIZE - off else |src| - i;
        if at / PAGE_SIZE !in pages {
          NotThere(old(pages), pages, va, at, |src|);
          OnlyMore(old(pages), pages, va, at, va + |src|);
          return false;
        }
        ghost var m := pages;
        var piece := src[i..i + chunk];
        pages := pages[at / PAGE_SIZE := Patched(pages[at / PAGE_SIZE], off, piece)];
        PatchOk(m, pages, at, piece);
        ChunkMapped(old(pages), m, va, at, chunk);
        OnlyTwice(old(pages), m, pages, va, at, at + chunk);
        HoldsKept(m, pages, at, at + chunk, va, src[..i]);
        HoldsBoth(pages, va, src[..i], piece);
        assert src[..i] + piece == src[..i + chunk];
        i := i + chunk;
      }
      assert src[..|src|] == src;
      return true;
    }
  }

  lemma Nothing(m: Pages, a: nat)
    ensures Only(m, m, a, a) && Mapped(m, a, a) && Holds(m, a, [])
  {
  }

  lemma OnlyMore(l: Pages, m: Pages, lo: nat, mid: nat, hi: nat)
    requires Only(l, m, lo, mid) && mid <= hi
    ensures Only(l, m, lo, hi)
  {
  }

  lemma NotThere(l: Pages, m: Pages, va: nat, at: nat, len: nat)
    requires Only(l, m, va, at) && va <= at < va + len && at / PAGE_SIZE !in m
    ensures !Mapped(l, va, va + len)
  {
    assert !There(l, at);
  }

  lemma PatchOk(m: Pages, n: Pages, at: nat, b: Bytes)
    requires PagesOk(m) && at / PAGE_SIZE in m && |m[at / PAGE_SIZE]| == PAGE_SIZE && at % PAGE_SIZE + |b| <= PAGE_SIZE
    requires n == m[at / PAGE_SIZE := Patched(m[at / PAGE_SIZE], at % PAGE_SIZE, b)]
    ensures PagesOk(n) && Only(m, n, at, at + |b|) && Holds(n, at, b)
  {
    forall a: nat | There(m, a) ensures There(n, a) && (a < at || a >= at + |b| ==> At(n, a) == At(m, a)) {
      PatchAt(m, at, b, a);
    }
    forall i: nat | i < |b| ensures HasByte(n, at, b, i) {
      assert (at + i) / PAGE_SIZE == at / PAGE_SIZE;
      PatchAt(m, at, b, at + i);
    }
  }

  lemma ChunkMapped(l: Pages, m: Pages, va: nat, at: nat, chunk: nat)
    requires Only(l, m, va, at) && Mapped(l, va, at) && va <= at && at / PAGE_SIZE in m
    requires at % PAGE_SIZE + chunk <= PAGE_SIZE && PagesOk(l)
    ensures Mapped(l, va, at + chunk)
  {
    forall a | va <= a < at + chunk ensures There(l, a) {
      assert a >= at ==> a / PAGE_SIZE == at / PAGE_SIZE;
    }
  }

  lemma HoldsBoth(m: Pages, a: nat, b: Bytes, c: Bytes)
    requires Holds(m, a, b) && Holds(m, a + |b|, c)
    ensures Holds(m, a, b + c)
  {
    hide There, At;
    var d := b + c;
    forall i: nat | i < |d| ensures HasByte(m, a, d, i) {
      if i >= |b| {
        HoldsAt(m, a + |b|, c, i - |b|);
        assert d[i] == c[i - |b|] && a + |b| + (i - |b|) == a + i;
      } else {
        HoldsAt(m, a, b, i);
        assert d[i] == b[i];
      }
    }
  }

  // ---- Words ----

  function Power(k: nat): nat { if k == 0 then 1 else 256 * Power(k - 1) }

  /** `k` bytes of a number, lowest first. */
  function Little(x: nat, k: nat): (b: Bytes)
    ensures |b| == k
  {
    if k == 0 then [] else [x % 256] + Little(x / 256, k - 1)
  }

  function FromLittle(b: Bytes): nat { if b == [] then 0 else b[0] + 256 * FromLittle(b[1..]) }

  lemma {:induction false} LittleBack(x: nat, k: nat)
    requires x < Power(k)
    ensures FromLittle(Little(x, k)) == x
  {
    if k > 0 {
      LittleBack(x / 256, k - 1);
      assert Little(x, k)[1..] == Little(x / 256, k - 1);
    }
  }

  lemma WordPower()
    ensures Power(8) == WORD
  {
    assert Power(2) == 0x1_0000 && Power(4) == 0x1_0000_0000 && Power(6) == 0x1_0000_0000_0000;
  }

  /** A vector of words, as it lies in memory. */
  function Words(v: seq<nat>): (b: Bytes)
    ensures |b| == 8 * |v|
  {
    if v == [] then [] else Words(v[..|v| - 1]) + Little(v[|v| - 1], 8)
  }

  ghost predicate WordAt(m: Pages, a: nat, x: nat) { Holds(m, a, Little(x, 8)) }

  /** What a program reads there. */
  ghost function ReadWord(m: Pages, a: nat): nat
    requires Mapped(m, a, a + 8)
  {
    FromLittle([At(m, a), At(m, a + 1), At(m, a + 2), At(m, a + 3),
                At(m, a + 4), At(m, a + 5), At(m, a + 6), At(m, a + 7)])
  }

  lemma WordRead(m: Pages, a: nat, x: nat)
    requires WordAt(m, a, x) && x < WORD
    ensures Mapped(m, a, a + 8) && ReadWord(m, a) == x
  {
    hide There, At, Little, FromLittle, Power;
    var b := Little(x, 8);
    forall y | a <= y < a + 8 ensures There(m, y) {
      HoldsAt(m, a, b, y - a);
    }
    HoldsAt(m, a, b, 0);
    HoldsAt(m, a, b, 1);
    HoldsAt(m, a, b, 2);
    HoldsAt(m, a, b, 3);
    HoldsAt(m, a, b, 4);
    HoldsAt(m, a, b, 5);
    HoldsAt(m, a, b, 6);
    HoldsAt(m, a, b, 7);
    assert [At(m, a), At(m, a + 1), At(m, a + 2), At(m, a + 3),
            At(m, a + 4), At(m, a + 5), At(m, a + 6), At(m, a + 7)] == b;
    WordPower();
    LittleBack(x, 8);
  }

  lemma {:induction false} WordsAt(m: Pages, a: nat, v: seq<nat>, k: nat)
    requires Holds(m, a, Words(v)) && k < |v|
    ensures WordAt(m, a + 8 * k, v[k])
  {
    var n := |v| - 1;
    var front, back := Words(v[..n]), Little(v[n], 8);
    HoldsParts(m, a, front, back);
    if k < n { WordsAt(m, a, v[..n], k); }
  }

  lemma HoldsParts(m: Pages, a: nat, b: Bytes, c: Bytes)
    requires Holds(m, a, b + c)
    ensures Holds(m, a, b) && Holds(m, a + |b|, c)
  {
    hide There, At;
    var d := b + c;
    forall i: nat | i < |b| ensures HasByte(m, a, b, i) {
      HoldsAt(m, a, d, i);
      assert d[i] == b[i];
    }
    var at := a + |b|;
    forall i: nat | i < |c| ensures HasByte(m, at, c, i) {
      HoldsAt(m, a, d, |b| + i);
      assert d[|b| + i] == c[i] && a + (|b| + i) == a + |b| + i;
    }
  }

  // ---- Strings ----

  predicate GoodString(s: Bytes) { forall i :: 0 <= i < |s| ==> 0 < s[i] < 256 }

  /** A C string in memory. */
  ghost predicate StringAt(m: Pages, a: nat, s: Bytes) { Holds(m, a, s + [0]) }

  lemma NotShorter(s: Bytes, t: Bytes, x: Bytes, y: Bytes)
    requires GoodString(t) && x == s + [0] && y == t + [0] && forall i :: 0 <= i < |x| && i < |y| ==> x[i] == y[i]
    ensures |s| >= |t|
  {
    assert x[|s|] == 0;
  }

  /** Only one string can be read from an address. */
  lemma StringUnique(m: Pages, a: nat, s: Bytes, t: Bytes)
    requires StringAt(m, a, s) && StringAt(m, a, t) && GoodString(s) && GoodString(t)
    ensures s == t
  {
    var x, y := s + [0], t + [0];
    hide There, At;
    forall i | 0 <= i < |x| && i < |y| ensures x[i] == y[i] {
      HoldsAt(m, a, x, i);
      HoldsAt(m, a, y, i);
    }
    NotShorter(s, t, x, y);
    NotShorter(t, s, y, x);
    forall i | 0 <= i < |s| ensures s[i] == t[i] { assert x[i] == y[i]; }
  }

  /** Strings one after the other, each with its terminator. */
  function Joined(ss: seq<Bytes>): Bytes {
    if ss == [] then [] else Joined(ss[..|ss| - 1]) + (ss[|ss| - 1] + [0])
  }

  lemma {:induction false} JoinedAt(m: Pages, a: nat, ss: seq<Bytes>, k: nat)
    requires Holds(m, a, Joined(ss)) && k < |ss|
    ensures StringAt(m, a + |Joined(ss[..k])|, ss[k])
  {
    var n := |ss| - 1;
    HoldsParts(m, a, Joined(ss[..n]), ss[n] + [0]);
    if k < n {
      JoinedAt(m, a, ss[..n], k);
      assert ss[..n][..k] == ss[..k];
    }
  }

  // ---- The stack ----

  datatype Ids = Ids(uid: nat, euid: nat, gid: nat, egid: nat)

  /** The auxiliary vector: pairs of a tag and a value, closed by AT_NULL. */
  function Aux(phdr: nat, phnum: nat, entry: nat, id: Ids, random: nat, execfn: nat): seq<nat> {
    [3, phdr, 4, PHDR_SIZE, 5, phnum, 6, PAGE_SIZE, 7, 0, 9, entry]
    + [11, id.uid, 12, id.euid, 13, id.gid, 14, id.egid, 23, if id.uid != id.euid || id.gid != id.egid then 1 else 0]
    + [25, random, 31, execfn, 0, 0]
  }

  /** Addresses of strings joined from `at` on. */
  function Starts(ss: seq<Bytes>, at: nat): (v: seq<nat>)
    ensures |v| == |ss|
  {
    if ss == [] then [] else Starts(ss[..|ss| - 1], at) + [at + |Joined(ss[..|ss| - 1])|]
  }

  /** The vector at the top of the stack: argc, argv, NULL, envp, NULL, auxv. */
  function Vector(argv: seq<Bytes>, envp: seq<Bytes>, args: nat, envs: nat, aux: seq<nat>): seq<nat> {
    [|argv|] + Starts(argv, args) + [0] + Starts(envp, envs) + [0] + aux
  }

  method StringsSize(ss: seq<Bytes>) returns (total: nat)
    ensures total == |Joined(ss)|
  {
    total := 0;
    for i := 0 to |ss|
      invariant total == |Joined(ss[..i])|
    {
      assert ss[..i + 1][..i] == ss[..i];
      total := total + |ss[i]| + 1;
    }
    assert ss[..|ss|] == ss;
  }

  /** put_strings: copies the strings upwards from `at` and notes where each starts.
      All the pages are there, so no copy can fail. */
  method PutStrings(mem: UserMemory, at: nat, ss: seq<Bytes>, v: array<nat>, base: nat) returns (end: nat)
    requires mem.Valid() && Mapped(mem.pages, at, at + |Joined(ss)|) && base + |ss| <= v.Length
    modifies mem, v
    ensures mem.Valid() && end == at + |Joined(ss)| && Holds(mem.pages, at, Joined(ss))
    ensures Only(old(mem.pages), mem.pages, at, end)
    ensures v[..] == old(v[..base]) + Starts(ss, at) + old(v[base + |ss|..])
  {
    hide Only, Mapped, Holds, Starts, Joined;
    NoStrings(at);
    Nothing(mem.pages, at);
    end := at;
    var i := 0;
    assert v[..] == old(v[..base]) + [] + old(v[base..]);
    while i < |ss|
      invariant 0 <= i <= |ss| && mem.Valid() && end == at + |Joined(ss[..i])|
      invariant Holds(mem.pages, at, Joined(ss[..i])) && Only(old(mem.pages), mem.pages, at, end)
      invariant v[..] == old(v[..base]) + Starts(ss[..i], at) + old(v[base + i..])
    {
      JoinedGrows(ss, i);
      ghost var m := mem.pages;
      var len := |ss[i]| + 1;
      StillMapped(old(mem.pages), m, at, end, at + |Joined(ss)|, end, end + len);
      var ok := mem.CopyTo(end, ss[i] + [0]);
      assert ok;
      OnlyTwice(old(mem.pages), m, mem.pages, at, end, end + len);
      HoldsKept(m, mem.pages, end, end + len, at, Joined(ss[..i]));
      HoldsBoth(mem.pages, at, Joined(ss[..i]), ss[i] + [0]);
      ghost var w := v[..];
      v[base + i] := end;
      assert v[..] == w[base + i := end];
      StartsGrows(ss, i, at);
      SlotFilled(old(v[..]), w, base, Starts(ss[..i], at), end);
      end := end + len;
      i := i + 1;
    }
    assert ss[..|ss|] == ss;
  }

  lemma NoStrings(at: nat)
    ensures Joined([]) == [] && Starts([], at) == []
  {
  }

  lemma SlotFilled(v: seq<nat>, w: seq<nat>, base: nat, done: seq<nat>, x: nat)
    requires base + |done| < |v| && w == v[..base] + done + v[base + |done|..]
    ensures w[base + |done| := x] == v[..base] + (done + [x]) + v[base + |done| + 1..]
  {
  }

  lemma JoinedGrows(ss: seq<Bytes>, i: nat)
    requires i < |ss|
    ensures Joined(ss[..i + 1]) == Joined(ss[..i]) + (ss[i] + [0]) && |Joined(ss[..i + 1])| <= |Joined(ss)|
  {
    assert ss[..i + 1][..i] == ss[..i];
    JoinedPrefix(ss, i + 1);
  }

  lemma {:induction false} JoinedPrefix(ss: seq<Bytes>, i: nat)
    requires i <= |ss|
    ensures |Joined(ss[..i])| <= |Joined(ss)|
    decreases |ss| - i
  {
    if i == |ss| {
      assert ss[..i] == ss;
    } else {
      JoinedPrefix(ss, i + 1);
      assert ss[..i + 1][..i] == ss[..i];
    }
  }

  lemma StartsGrows(ss: seq<Bytes>, i: nat, at: nat)
    requires i < |ss|
    ensures Starts(ss[..i + 1], at) == Starts(ss[..i], at) + [at + |Joined(ss[..i])|]
  {
    assert ss[..i + 1][..i] == ss[..i];
  }

  /** Copying does not unmap anything. */
  lemma StillMapped(l: Pages, m: Pages, lo: nat, mid: nat, hi: nat, a: nat, b: nat)
    requires Mapped(l, lo, hi) && Only(l, m, lo, mid) && lo <= a && b <= hi
    ensures Mapped(m, a, b)
  {
  }

  // ---- Reading the stack back ----

  ghost predicate WordIs(m: Pages, a: nat, x: nat) { Mapped(m, a, a + 8) && ReadWord(m, a) == x }

  ghost predicate Points(m: Pages, a: nat, s: Bytes) { Mapped(m, a, a + 8) && StringAt(m, ReadWord(m, a), s) }

  ghost predicate PointsTo(m: Pages, a: nat, ss: seq<Bytes>, i: nat)
    requires i < |ss|
  {
    Points(m, a + 8 * i, ss[i])
  }

  ghost predicate PointsAll(m: Pages, a: nat, ss: seq<Bytes>) {
    forall i: nat {:trigger PointsTo(m, a, ss, i)} :: i < |ss| ==> PointsTo(m, a, ss, i)
  }

  ghost predicate HasWord(m: Pages, a: nat, v: seq<nat>, i: nat)
    requires i < |v|
  {
    WordIs(m, a + 8 * i, v[i])
  }

  ghost predicate WordsAre(m: Pages, a: nat, v: seq<nat>) {
    forall i: nat {:trigger HasWord(m, a, v, i)} :: i < |v| ==> HasWord(m, a, v, i)
  }

  /** What a program finds from rsp upwards: its argument count, pointers to its
      arguments and NULL, pointers to its environment and NULL, the auxiliary vector.
      This is the initial process stack of the System V ABI, section 3.4.1. */
  ghost predicate Reads(m: Pages, rsp: nat, argv: seq<Bytes>, envp: seq<Bytes>, aux: seq<nat>) {
    && WordIs(m, rsp, |argv|)
    && PointsAll(m, rsp + 8, argv) && WordIs(m, rsp + 8 * (1 + |argv|), 0)
    && PointsAll(m, rsp + 8 * (2 + |argv|), envp) && WordIs(m, rsp + 8 * (2 + |argv| + |envp|), 0)
    && WordsAre(m, rsp + 8 * (3 + |argv| + |envp|), aux)
  }

  ghost predicate PairAt(m: Pages, at: nat, k: nat, tag: nat, value: nat) {
    WordIs(m, at + 16 * k, tag) && WordIs(m, at + 16 * k + 8, value)
  }

  /** Looking a tag up from `at` on, pair by pair, gives the value. */
  ghost predicate Tells(m: Pages, at: nat, tag: nat, value: nat) {
    exists k: nat :: PairAt(m, at, k, tag, value) && forall j: nat :: j < k ==> Passes(m, at, j, tag)
  }

  /** Pair `j` has another tag and does not end the vector. */
  ghost predicate Passes(m: Pages, at: nat, j: nat, tag: nat) {
    exists w, x :: w != 0 && w != tag && PairAt(m, at, j, w, x)
  }

  /** What the auxiliary vector tells a program, tag by tag; the tag 23, AT_SECURE,
      is set if it runs with an identity that is not its user's. */
  ghost predicate AuxSays(m: Pages, at: nat, phdr: nat, phnum: nat, entry: nat, id: Ids, random: nat, execfn: nat) {
    && Tells(m, at, 3, phdr) && Tells(m, at, 4, 56) && Tells(m, at, 5, phnum) && Tells(m, at, 6, 4096)
    && Tells(m, at, 7, 0) && Tells(m, at, 9, entry)
    && Tells(m, at, 11, id.uid) && Tells(m, at, 12, id.euid) && Tells(m, at, 13, id.gid) && Tells(m, at, 14, id.egid)
    && (id.uid == id.euid && id.gid == id.egid ==> Tells(m, at, 23, 0))
    && (id.uid != id.euid || id.gid != id.egid ==> Tells(m, at, 23, 1))
    && Tells(m, at, 25, random) && Tells(m, at, 31, execfn)
  }

  lemma PairIs(m: Pages, at: nat, aux: seq<nat>, k: nat)
    requires WordsAre(m, at, aux) && 2 * k + 1 < |aux|
    ensures PairAt(m, at, k, aux[2 * k], aux[2 * k + 1])
  {
    hide WordIs;
    assert HasWord(m, at, aux, 2 * k) && HasWord(m, at, aux, 2 * k + 1);
  }

  lemma TellsAt(m: Pages, at: nat, aux: seq<nat>, k: nat)
    requires WordsAre(m, at, aux) && 2 * k + 1 < |aux|
    requires forall j: nat {:trigger aux[2 * j]} :: j < k ==> aux[2 * j] != 0 && aux[2 * j] != aux[2 * k]
    ensures Tells(m, at, aux[2 * k], aux[2 * k + 1])
  {
    hide PairAt, WordsAre;
    PairIs(m, at, aux, k);
    forall j: nat | j < k ensures Passes(m, at, j, aux[2 * k]) {
      PairIs(m, at, aux, j);
    }
  }

  lemma ReadsAux(m: Pages, rsp: nat, argv: seq<Bytes>, envp: seq<Bytes>, aux: seq<nat>)
    requires Reads(m, rsp, argv, envp, aux)
    ensures WordsAre(m, rsp + 8 * (3 + |argv| + |envp|), aux)
  {
  }

  lemma AuxAt(phdr: nat, phnum: nat, entry: nat, id: Ids, random: nat, execfn: nat)
    ensures var a := Aux(phdr, phnum, entry, id, random, execfn);
      && |a| == 28 && (a[0], a[1]) == (3, phdr) && (a[2], a[3]) == (4, 56) && (a[4], a[5]) == (5, phnum)
      && (a[6], a[7]) == (6, 4096) && (a[8], a[9]) == (7, 0) && (a[10], a[11]) == (9, entry)
      && (a[12], a[13]) == (11, id.uid) && (a[14], a[15]) == (12, id.euid) && (a[16], a[17]) == (13, id.gid)
      && (a[18], a[19]) == (14, id.egid) && a[20] == 23
      && a[21] == (if id.uid == id.euid && id.gid == id.egid then 0 else 1)
      && (a[22], a[23]) == (25, random) && (a[24], a[25]) == (31, execfn)
  {
  }

  lemma AuxLaw(m: Pages, at: nat, phdr: nat, phnum: nat, entry: nat, id: Ids, random: nat, execfn: nat)
    requires WordsAre(m, at, Aux(phdr, phnum, entry, id, random, execfn))
    ensures AuxSays(m, at, phdr, phnum, entry, id, random, execfn)
  {
    hide WordsAre, WordIs, Tells, Aux;
    var aux := Aux(phdr, phnum, entry, id, random, execfn);
    AuxAt(phdr, phnum, entry, id, random, execfn);
    TellsAt(m, at, aux, 0);
    TellsAt(m, at, aux, 1);
    TellsAt(m, at, aux, 2);
    TellsAt(m, at, aux, 3);
    TellsAt(m, at, aux, 4);
    TellsAt(m, at, aux, 5);
    TellsAt(m, at, aux, 6);
    TellsAt(m, at, aux, 7);
    TellsAt(m, at, aux, 8);
    TellsAt(m, at, aux, 9);
    TellsAt(m, at, aux, 10);
    TellsAt(m, at, aux, 11);
    TellsAt(m, at, aux, 12);
  }

  ghost predicate Small(v: seq<nat>) { forall i :: 0 <= i < |v| ==> v[i] < WORD }

  lemma WordHere(m: Pages, a: nat, v: seq<nat>, k: nat)
    requires Holds(m, a, Words(v)) && k < |v| && v[k] < WORD
    ensures WordIs(m, a + 8 * k, v[k])
  {
    hide Holds, Mapped, ReadWord, WordAt, Words;
    WordsAt(m, a, v, k);
    WordRead(m, a + 8 * k, v[k]);
  }

  lemma {:induction false} StartsAt(ss: seq<Bytes>, at: nat, k: nat)
    requires k < |ss|
    ensures Starts(ss, at)[k] == at + |Joined(ss[..k])| <= at + |Joined(ss)|
  {
    var n := |ss| - 1;
    JoinedPrefix(ss, k);
    if k < n {
      StartsAt(ss[..n], at, k);
      assert ss[..n][..k] == ss[..k];
    }
  }

  lemma SliceAt(v: seq<nat>, from: nat, w: seq<nat>, i: nat)
    requires from + |w| <= |v| && v[from..from + |w|] == w && i < |w|
    ensures v[from + i] == w[i]
  {
  }

  lemma Nth(a: nat, from: nat, i: nat)
    ensures a + 8 * (from + i) == (a + 8 * from) + 8 * i
  {
  }

  /** A stretch of the vector that points to joined strings. */
  lemma PointersRead(m: Pages, a: nat, v: seq<nat>, from: nat, ss: seq<Bytes>, at: nat, start: nat)
    requires Holds(m, a, Words(v)) && Holds(m, at, Joined(ss)) && at + |Joined(ss)| < WORD && start == a + 8 * from
    requires from + |ss| <= |v| && v[from..from + |ss|] == Starts(ss, at)
    ensures PointsAll(m, start, ss)
  {
    hide Holds, Mapped, ReadWord, Starts, Joined, Words;
    forall i: nat | i < |ss| ensures PointsTo(m, start, ss, i) {
      StartsAt(ss, at, i);
      SliceAt(v, from, Starts(ss, at), i);
      WordHere(m, a, v, from + i);
      Nth(a, from, i);
      JoinedAt(m, at, ss, i);
    }
  }

  lemma WordsRead(m: Pages, a: nat, v: seq<nat>, from: nat, w: seq<nat>, start: nat)
    requires Holds(m, a, Words(v)) && from + |w| <= |v| && v[from..from + |w|] == w && Small(w) && start == a + 8 * from
    ensures WordsAre(m, start, w)
  {
    hide Holds, Words, WordIs;
    forall i: nat | i < |w| ensures HasWord(m, start, w, i) {
      SliceAt(v, from, w, i);
      WordHere(m, a, v, from + i);
      Nth(a, from, i);
    }
  }

  lemma VectorParts(argv: seq<Bytes>, envp: seq<Bytes>, args: nat, envs: nat, aux: seq<nat>)
    ensures var v := Vector(argv, envp, args, envs, aux);
      var n, k := |argv|, |envp|;
      && |v| == 3 + n + k + |aux| && v[0] == n && v[1..1 + n] == Starts(argv, args) && v[1 + n] == 0
      && v[2 + n..2 + n + k] == Starts(envp, envs) && v[2 + n + k] == 0 && v[3 + n + k..3 + n + k + |aux|] == aux
  {
    hide Starts;
  }

  lemma ArgsRead(m: Pages, rsp: nat, argv: seq<Bytes>, envp: seq<Bytes>, args: nat, envs: nat, aux: seq<nat>)
    requires Holds(m, rsp, Words(Vector(argv, envp, args, envs, aux))) && Holds(m, args, Joined(argv))
    requires args + |Joined(argv)| < WORD && |argv| < WORD
    ensures WordIs(m, rsp, |argv|) && PointsAll(m, rsp + 8, argv) && WordIs(m, rsp + 8 * (1 + |argv|), 0)
  {
    hide Holds, Vector, Joined, Words, PointsAll, WordIs, Starts;
    VectorParts(argv, envp, args, envs, aux);
    var v := Vector(argv, envp, args, envs, aux);
    WordHere(m, rsp, v, 0);
    PointersRead(m, rsp, v, 1, argv, args, rsp + 8);
    WordHere(m, rsp, v, 1 + |argv|);
  }

  lemma VectorReads(m: Pages, rsp: nat, argv: seq<Bytes>, envp: seq<Bytes>, args: nat, envs: nat, aux: seq<nat>)
    requires Holds(m, rsp, Words(Vector(argv, envp, args, envs, aux))) && Holds(m, args, Joined(argv))
    requires Holds(m, envs, Joined(envp))
    requires args + |Joined(argv)| < WORD && envs + |Joined(envp)| < WORD && |argv| < WORD && Small(aux)
    ensures Reads(m, rsp, argv, envp, aux)
  {
    hide Holds, Vector, Joined, Words, PointsAll, WordsAre, WordIs, Starts, Small;
    ArgsRead(m, rsp, argv, envp, args, envs, aux);
    EnvRead(m, rsp, argv, envp, args, envs, aux);
    AuxRead(m, rsp, argv, envp, args, envs, aux);
  }

  lemma EnvRead(m: Pages, rsp: nat, argv: seq<Bytes>, envp: seq<Bytes>, args: nat, envs: nat, aux: seq<nat>)
    requires Holds(m, rsp, Words(Vector(argv, envp, args, envs, aux))) && Holds(m, envs, Joined(envp))
    requires envs + |Joined(envp)| < WORD
    ensures PointsAll(m, rsp + 8 * (2 + |argv|), envp) && WordIs(m, rsp + 8 * (2 + |argv| + |envp|), 0)
  {
    hide Holds, Vector, Joined, Words, PointsAll, WordIs, Starts;
    VectorParts(argv, envp, args, envs, aux);
    var v := Vector(argv, envp, args, envs, aux);
    PointersRead(m, rsp, v, 2 + |argv|, envp, envs, rsp + 8 * (2 + |argv|));
    WordHere(m, rsp, v, 2 + |argv| + |envp|);
  }

  lemma AuxRead(m: Pages, rsp: nat, argv: seq<Bytes>, envp: seq<Bytes>, args: nat, envs: nat, aux: seq<nat>)
    requires Holds(m, rsp, Words(Vector(argv, envp, args, envs, aux))) && Small(aux)
    ensures WordsAre(m, rsp + 8 * (3 + |argv| + |envp|), aux)
  {
    hide Holds, Vector, Words, WordsAre, Starts, Small;
    VectorParts(argv, envp, args, envs, aux);
    var from := 3 + |argv| + |envp|;
    WordsRead(m, rsp, Vector(argv, envp, args, envs, aux), from, aux, rsp + 8 * from);
  }

  // ---- Building it ----

  /** Where everything is, from the top of the stack downwards. */
  datatype Layout = Layout(envs: nat, args: nat, execfn: nat, random: nat, rsp: nat)

  /** The areas of the stack do not meet, fill it from the top, and end above its
      lowest page boundary; rsp is aligned as the ABI wants it. */
  predicate Fits(l: Layout, argv: seq<Bytes>, envp: seq<Bytes>, path: Bytes, words: nat) {
    && l.envs + |Joined(envp)| == STACK_TOP && l.args + |Joined(argv)| == l.envs && l.execfn + |path| + 1 == l.args
    && l.random + 16 == l.execfn && l.rsp + 8 * words <= l.random && STACK_LOW <= l.rsp && l.rsp % 16 == 0
  }

  /** Outside the stack no page comes or goes, and no byte changes. */
  ghost predicate Outside(m: Pages, n: Pages) {
    forall a: nat :: a < STACK_LOW || a >= STACK_TOP ==>
      (There(n, a) <==> There(m, a)) && (There(m, a) ==> At(n, a) == At(m, a))
  }

  lemma OutsideMore(m: Pages, n: Pages, k: Pages, lo: nat, hi: nat)
    requires Outside(m, n) && Only(n, k, lo, hi) && STACK_LOW <= lo && hi <= STACK_TOP && PagesOk(n) && PagesOk(k)
    ensures Outside(m, k)
  {
    forall a: nat | a < STACK_LOW || a >= STACK_TOP
      ensures (There(k, a) <==> There(m, a)) && (There(m, a) ==> At(k, a) == At(m, a))
    {
      assert There(n, a) ==> There(k, a) && At(k, a) == At(n, a);
    }
  }

  /** vmm_alloc_range for the stack: the pages that are not there yet, zeroed. */
  method MapStack(mem: UserMemory)
    requires mem.Valid()
    modifies mem
    ensures mem.Valid() && Mapped(mem.pages, STACK_LOW, STACK_TOP) && Outside(old(mem.pages), mem.pages)
    ensures forall q :: STACK_LOW / PAGE_SIZE <= q < STACK_TOP / PAGE_SIZE ==>
      q in mem.pages && mem.pages[q] == if q in old(mem.pages) then old(mem.pages)[q] else seq(PAGE_SIZE, _ => 0)
  {
    var p := STACK_LOW / PAGE_SIZE;
    while p < STACK_TOP / PAGE_SIZE
      invariant STACK_LOW / PAGE_SIZE <= p <= STACK_TOP / PAGE_SIZE && mem.Valid()
      invariant forall q :: q in mem.pages <==> q in old(mem.pages) || STACK_LOW / PAGE_SIZE <= q < p
      invariant forall q :: q in old(mem.pages) ==> mem.pages[q] == old(mem.pages)[q]
      invariant forall q :: q in mem.pages && q !in old(mem.pages) ==> mem.pages[q] == seq(PAGE_SIZE, _ => 0)
    {
      if p !in mem.pages { mem.pages := mem.pages[p := seq(PAGE_SIZE, _ => 0)]; }
      p := p + 1;
    }
    forall a | STACK_LOW <= a < STACK_TOP ensures There(mem.pages, a) {
      assert STACK_LOW / PAGE_SIZE <= a / PAGE_SIZE < STACK_TOP / PAGE_SIZE;
    }
    forall a: nat | a < STACK_LOW || a >= STACK_TOP ensures There(mem.pages, a) <==> There(old(mem.pages), a) {
      assert a / PAGE_SIZE < STACK_LOW / PAGE_SIZE || a / PAGE_SIZE >= STACK_TOP / PAGE_SIZE;
    }
  }

  /** build_stack. `frames` and `memory` say whether the pages and the vector could
      be allocated; `rnd` are the sixteen random bytes. On success the program reads
      back from rsp what it was given; none of the copies could have failed. */
  method BuildStack(mem: UserMemory, path: Bytes, argv: seq<Bytes>, envp: seq<Bytes>,
                    entry: nat, phdr: nat, phnum: nat, id: Ids,
                    rnd: Bytes, frames: bool, memory: bool) returns (ok: bool, ghost l: Layout, rsp: nat)
    requires mem.Valid() && |path| < 128 && |rnd| == 16 && |Joined(argv)| + |Joined(envp)| <= STACK_TOP
    requires Small([entry, phdr, phnum, id.uid, id.euid, id.gid, id.egid])
    modifies mem
    ensures mem.Valid()
    ensures ok ==> rsp == l.rsp && Fits(l, argv, envp, path, |argv| + |envp| + 31)
    ensures ok ==> Reads(mem.pages, rsp, argv, envp, Aux(phdr, phnum, entry, id, l.random, l.execfn))
    ensures ok ==> AuxSays(mem.pages, rsp + 8 * (3 + |argv| + |envp|), phdr, phnum, entry, id, l.random, l.execfn)
    ensures ok ==> StringAt(mem.pages, l.execfn, path) && Holds(mem.pages, l.random, rnd)
    ensures ok ==> Holds(mem.pages, l.args, Joined(argv)) && Holds(mem.pages, l.envs, Joined(envp))
    ensures ok <==> frames && memory && Room(argv, envp, path)
    ensures Outside(old(mem.pages), mem.pages)
  {
    hide Outside, AuxSays;
    hide Only, Mapped, Holds, Joined, Words, Aux, Reads, Starts, Small;
    l := Layout(0, 0, 0, 0, 0);
    rsp := 0;
    var sp := STACK_TOP;
    var argc, envc := |argv|, |envp|;
    OutsideSame(mem.pages);
    if !frames { return false, l, 0; }
    MapStack(mem);
    ghost var m := old(mem.pages);
    if !memory { return false, l, 0; }
    var v := new nat[argc + envc + 32];
    var asize := StringsSize(argv);
    var esize := StringsSize(envp);
    if sp - asize - esize < STACK_LOW + PAGE_SIZE { return false, l, 0; }
    ghost var m0 := mem.pages;
    var envs := sp - esize;
    var args := envs - asize;
    PutBoth(mem, v, argv, envp, args, envs);
    OutsideMore(m, m0, mem.pages, args, STACK_TOP);
    sp := args - (|path| + 1);
    var execfn := sp;
    ghost var m1 := mem.pages;
    Inner(m1, STACK_LOW, STACK_TOP, execfn, execfn + |path| + 1);
    var copied := mem.CopyTo(execfn, path + [0]);
    assert copied;
    OutsideMore(m, m1, mem.pages, execfn, args);
    Lower(m1, mem.pages, execfn, args, argv, envp, args, envs);
    sp := sp - 16;
    var random := sp;
    ghost var m2 := mem.pages;
    Inner(m2, STACK_LOW, STACK_TOP, random, random + 16);
    copied := mem.CopyTo(random, rnd);
    assert copied;
    OutsideMore(m, m2, mem.pages, random, execfn);
    Lower(m2, mem.pages, random, execfn, argv, envp, args, envs);
    HoldsKept(m2, mem.pages, random, execfn, execfn, path + [0]);
    var aux := Aux(phdr, phnum, entry, id, random, execfn);
    AuxSize(phdr, phnum, entry, id, random, execfn);
    PutVector(v, argv, envp, args, envs, aux);
    var n := argc + envc + 31;
    sp := Down16(sp - n * 8);
    if sp < STACK_LOW { return false, l, 0; }
    ghost var m3 := mem.pages;
    Inner(m3, STACK_LOW, STACK_TOP, sp, sp + 8 * n);
    copied := mem.CopyTo(sp, Words(v[..n]));
    assert copied;
    OutsideMore(m, m3, mem.pages, sp, sp + 8 * n);
    Lower(m3, mem.pages, sp, sp + 8 * n, argv, envp, args, envs);
    HoldsKept(m3, mem.pages, sp, sp + 8 * n, execfn, path + [0]);
    HoldsKept(m3, mem.pages, sp, sp + 8 * n, random, rnd);
    VectorReads(mem.pages, sp, argv, envp, args, envs, aux);
    ReadsAux(mem.pages, sp, argv, envp, aux);
    AuxLaw(mem.pages, sp + 8 * (3 + argc + envc), phdr, phnum, entry, id, random, execfn);
    return true, Layout(envs, args, execfn, random, sp), sp;
  }

  lemma OutsideSame(m: Pages)
    ensures Outside(m, m)
  {
  }

  function Down16(x: int): (r: int)
    ensures r <= x < r + 16 && r % 16 == 0
  {
    x - x % 16
  }

  /** The strings leave a page free, and path, random bytes and vector still fit. */
  predicate Room(argv: seq<Bytes>, envp: seq<Bytes>, path: Bytes) {
    var strings := |Joined(argv)| + |Joined(envp)|;
    strings + PAGE_SIZE <= STACK_SIZE
      && STACK_LOW <= Down16(STACK_TOP - strings - |path| - 17 - 8 * (|argv| + |envp| + 31))
  }

  lemma Inner(m: Pages, lo: nat, hi: nat, a: nat, b: nat)
    requires Mapped(m, lo, hi) && lo <= a && b <= hi
    ensures Mapped(m, a, b)
  {
  }

  /** Copying below the strings leaves them, and the stack mapped. */
  lemma Lower(m: Pages, n: Pages, lo: nat, hi: nat, argv: seq<Bytes>, envp: seq<Bytes>, args: nat, envs: nat)
    requires Only(m, n, lo, hi) && lo <= hi <= args <= envs && Mapped(m, STACK_LOW, STACK_TOP)
    requires Holds(m, args, Joined(argv)) && Holds(m, envs, Joined(envp))
    ensures Mapped(n, STACK_LOW, STACK_TOP) && Holds(n, args, Joined(argv)) && Holds(n, envs, Joined(envp))
  {
    assert Mapped(n, STACK_LOW, STACK_TOP);
    hide Joined;
    HoldsKept(m, n, lo, hi, args, Joined(argv));
    HoldsKept(m, n, lo, hi, envs, Joined(envp));
  }

  lemma AuxSize(phdr: nat, phnum: nat, entry: nat, id: Ids, random: nat, execfn: nat)
    requires Small([entry, phdr, phnum, id.uid, id.euid, id.gid, id.egid]) && random < WORD && execfn < WORD
    ensures var aux := Aux(phdr, phnum, entry, id, random, execfn); |aux| == 28 && Small(aux)
  {
    var w := [entry, phdr, phnum, id.uid, id.euid, id.gid, id.egid];
    assert w[0] == entry && w[1] == phdr && w[2] == phnum && w[3] == id.uid && w[4] == id.euid && w[5] == id.gid
      && w[6] == id.egid;
  }

  /** Both sets of strings, each contiguous and in order, and their addresses. */
  method PutBoth(mem: UserMemory, v: array<nat>, argv: seq<Bytes>, envp: seq<Bytes>, args: nat, envs: nat)
    requires mem.Valid() && Mapped(mem.pages, STACK_LOW, STACK_TOP) && STACK_LOW <= args
    requires args + |Joined(argv)| == envs && envs + |Joined(envp)| == STACK_TOP
    requires v.Length == |argv| + |envp| + 32
    modifies mem, v
    ensures mem.Valid() && Mapped(mem.pages, STACK_LOW, STACK_TOP) && Holds(mem.pages, args, Joined(argv))
    ensures Holds(mem.pages, envs, Joined(envp))
    ensures v[1..1 + |argv|] == Starts(argv, args) && v[2 + |argv|..2 + |argv| + |envp|] == Starts(envp, envs)
    ensures Only(old(mem.pages), mem.pages, args, STACK_TOP)
  {
    hide Only, Mapped, Holds, Joined, Starts;
    ghost var m := mem.pages;
    Inner(m, STACK_LOW, STACK_TOP, envs, STACK_TOP);
    var end := PutStrings(mem, envs, envp, v, 2 + |argv|);
    ghost var n, w := mem.pages, v[..];
    SlotsAt(w, 2 + |argv|, Starts(envp, envs), old(v[..2 + |argv|]), old(v[2 + |argv| + |envp|..]));
    Same(m, n, envs, STACK_TOP);
    Inner(n, STACK_LOW, STACK_TOP, args, envs);
    end := PutStrings(mem, args, argv, v, 1);
    Same(n, mem.pages, args, envs);
    HoldsKept(n, mem.pages, args, envs, envs, Joined(envp));
    OnlyBoth(m, n, mem.pages, args, envs, STACK_TOP);
    SlotsKept(w, v[..], 1, Starts(argv, args), 2 + |argv|, |envp|);
  }

  lemma OnlyBoth(m: Pages, n: Pages, k: Pages, lo: nat, mid: nat, hi: nat)
    requires Only(m, n, mid, hi) && Only(n, k, lo, mid) && lo <= mid <= hi
    ensures Only(m, k, lo, hi)
  {
    forall a: nat | There(m, a) ensures There(k, a) && (a < lo || a >= hi ==> At(k, a) == At(m, a)) {
      assert There(n, a);
    }
  }

  lemma Same(m: Pages, n: Pages, lo: nat, hi: nat)
    requires Only(m, n, lo, hi) && Mapped(m, STACK_LOW, STACK_TOP)
    ensures Mapped(n, STACK_LOW, STACK_TOP)
  {
  }

  lemma SlotsAt(w: seq<nat>, base: nat, s: seq<nat>, a: seq<nat>, b: seq<nat>)
    requires w == a + s + b && |a| == base
    ensures w[base..base + |s|] == s
  {
  }

  lemma SlotsKept(w: seq<nat>, x: seq<nat>, base: nat, s: seq<nat>, from: nat, n: nat)
    requires base + |s| <= from && from + n <= |w| && x == w[..base] + s + w[base + |s|..]
    ensures x[base..base + |s|] == s && x[from..from + n] == w[from..from + n]
  {
  }

  lemma SubSlice(w: seq<nat>, n: nat, i: nat, j: nat)
    requires i <= j <= n <= |w|
    ensures w[..n][i..j] == w[i..j]
  {
  }

  /** The counts, the NULLs and the auxiliary vector around the addresses. */
  method PutVector(v: array<nat>, argv: seq<Bytes>, envp: seq<Bytes>, args: nat, envs: nat, aux: seq<nat>)
    requires v.Length == |argv| + |envp| + 32 && |aux| == 28
    requires v[1..1 + |argv|] == Starts(argv, args) && v[2 + |argv|..2 + |argv| + |envp|] == Starts(envp, envs)
    modifies v
    ensures v[..|argv| + |envp| + 31] == Vector(argv, envp, args, envs, aux)
  {
    hide Starts;
    var argc, envc := |argv|, |envp|;
    v[0] := argc;
    v[1 + argc] := 0;
    v[2 + argc + envc] := 0;
    ghost var w := v[..];
    assert w[1..1 + argc] == Starts(argv, args) && w[2 + argc..2 + argc + envc] == Starts(envp, envs);
    var n := 3 + argc + envc;
    for i := 0 to |aux|
      invariant v[..n + i] == w[..n] + aux[..i]
    {
      v[n + i] := aux[i];
      assert aux[..i + 1] == aux[..i] + [aux[i]];
    }
    assert aux[..|aux|] == aux;
    SubSlice(w, n, 1, 1 + argc);
    SubSlice(w, n, 2 + argc, 2 + argc + envc);
    VectorIs(w[..n], argv, envp, args, envs, aux);
  }

  lemma VectorIs(w: seq<nat>, argv: seq<Bytes>, envp: seq<Bytes>, args: nat, envs: nat, aux: seq<nat>)
    requires var n, k := |argv|, |envp|;
      && |w| == 3 + n + k && w[0] == n && w[1 + n] == 0 && w[2 + n + k] == 0
      && w[1..1 + n] == Starts(argv, args) && w[2 + n..2 + n + k] == Starts(envp, envs)
    ensures w + aux == Vector(argv, envp, args, envs, aux)
  {
    hide Starts;
    var n, k := |argv|, |envp|;
    assert w == [n] + w[1..1 + n] + [0] + w[2 + n..2 + n + k] + [0];
  }
}
