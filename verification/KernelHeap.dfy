/** The kernel heap: blocks with a 32-byte header, linked in address order, split
    on allocation and merged with physical neighbours on free. A block is named
    by the address of its header. */
module KernelHeap {
  import opened Machine
  import opened Pmm

  const HEADER: nat := 32
  const ALIGN: nat := 16
  const MIN_SPLIT: nat := 48

  datatype Block = Block(size: nat, next: nat, isFree: bool)
  type Headers = map<nat, Block>

  function End(h: Headers, b: nat): nat
    requires b in h
  {
    b + HEADER + h[b].size
  }

  ghost predicate Covers(h: Headers, b: nat, x: nat) {
    b in h && b <= x < End(h, b)
  }

  /** `n` is the next block after address `b` in the list, NULL if there is none. */
  ghost predicate After(h: Headers, b: nat, n: nat) {
    if n == NULL then forall c :: c in h ==> c <= b
    else n in h && b < n && forall c :: c in h ==> c <= b || n <= c
  }

  /** The list is the blocks in address order, and no two of them overlap. */
  ghost predicate Ordered(h: Headers, head: nat) {
    && NULL !in h
    && After(h, NULL, head)
    && (forall b {:trigger Linked(h, b)} :: b in h ==> Linked(h, b))
    && (forall b, c {:trigger Before(h, b, c)} :: b in h && c in h ==> Before(h, b, c))
  }

  ghost predicate Linked(h: Headers, b: nat)
    requires b in h
  {
    After(h, b, h[b].next) && b % ALIGN == 0 && h[b].size % ALIGN == 0
  }

  predicate Before(h: Headers, b: nat, c: nat)
    requires b in h
  {
    b < c ==> End(h, b) <= c
  }

  ghost function FrameRun(f: nat, n: nat): (r: set<nat>)
    ensures forall g :: g in r <==> f <= g < f + n
  {
    if n == 0 then {} else FrameRun(f, n - 1) + {f + n - 1}
  }

  /** The blocks tile exactly the pages the heap has taken. */
  ghost predicate Tiles(h: Headers, pages: set<nat>) {
    && (forall b, x: nat :: Covers(h, b, x) ==> x / PAGE_SIZE in pages)
    && (forall x: nat :: x / PAGE_SIZE in pages ==> exists b :: Covers(h, b, x))
  }

  ghost predicate HeapOk(h: Headers, head: nat, pages: set<nat>) {
    Ordered(h, head) && Tiles(h, pages)
  }

  /** The blocks in use, with the bytes each holds. */
  ghost function Live(h: Headers): map<nat, nat> {
    map b | b in h && !h[b].isFree :: h[b].size
  }

  /** Payloads in use are aligned and do not overlap. */
  lemma LiveApart(h: Headers, head: nat, a: nat, b: nat)
    requires Ordered(h, head) && a in Live(h) && b in Live(h) && a < b
    ensures (a + HEADER) % ALIGN == 0 && a + HEADER + Live(h)[a] <= b
  {
    assert Linked(h, a) && Before(h, a, b);
  }

  // ---- Sizes, in 64-bit arithmetic ----

  function Round16(size: nat): nat { (size + ALIGN - 1) % WORD / ALIGN * ALIGN }

  function PagesFor(size: nat): nat { ((size + HEADER) % WORD + PAGE_SIZE - 1) % WORD / PAGE_SIZE }

  /** A request gets enough bytes: rounding does not lose any, and the pages
      asked for hold the block, unless none are asked for and the call fails. */
  predicate RequestSound(size: nat) {
    var s := Round16(size);
    s >= size && (PagesFor(s) == 0 || s + HEADER <= PagesFor(s) * PAGE_SIZE)
  }

  /** For sizes within 31 bytes of 2^64 the sums wrap. */
  lemma WrapExample()
    ensures !RequestSound(WORD - 16) && PagesFor(Round16(WORD - 16)) == 1
    ensures !RequestSound(WORD - 1) && Round16(WORD - 1) == 0
  {
  }

  /** Every other request is sound, and only those. */
  lemma RequestExact(size: nat)
    requires size < WORD
    ensures RequestSound(size) <==> size <= WORD - 32
  {
    if size <= WORD - 16 {
      assert (size + ALIGN - 1) % WORD == size + ALIGN - 1;
    }
  }

  // ---- Steps on the list ----

  function Mark(h: Headers, b: nat, free: bool): Headers
    requires b in h
  {
    h[b := h[b].(isFree := free)]
  }

  lemma MarkOk(h: Headers, head: nat, pages: set<nat>, b: nat, free: bool)
    requires HeapOk(h, head, pages) && b in h
    ensures HeapOk(Mark(h, b, free), head, pages)
    ensures Live(Mark(h, b, free)) == if free then Live(h) - {b} else Live(h)[b := h[b].size]
  {
    var g := Mark(h, b, free);
    forall x: nat | x / PAGE_SIZE in pages ensures exists c :: Covers(g, c, x) {
      var c :| Covers(h, c, x);
      assert Covers(g, c, x);
    }
    forall c, x: nat | Covers(g, c, x) ensures x / PAGE_SIZE in pages {
      assert Covers(h, c, x);
    }
    MarkOrdered(h, head, b, free);
  }

  lemma MarkOrdered(h: Headers, head: nat, b: nat, free: bool)
    requires Ordered(h, head) && b in h
    ensures Ordered(Mark(h, b, free), head)
  {
    var g := Mark(h, b, free);
    forall c | c in g ensures Linked(g, c) {
      assert Linked(h, c);
    }
    forall c, d | c in g && d in g ensures Before(g, c, d) {
      assert Before(h, c, d);
    }
  }

  /** split: the first `size` bytes stay, the rest becomes a free block. */
  function Split(h: Headers, b: nat, size: nat): Headers
    requires b in h && size + HEADER <= h[b].size
  {
    var rest := b + HEADER + size;
    h[b := h[b].(size := size, next := rest)][rest := Block(h[b].size - size - HEADER, h[b].next, true)]
  }

  lemma SplitAligned(b: nat, whole: nat, size: nat)
    requires b % ALIGN == 0 && whole % ALIGN == 0 && size % ALIGN == 0 && size + HEADER <= whole
    ensures (b + HEADER + size) % ALIGN == 0 && (whole - size - HEADER) % ALIGN == 0
  {
  }

  lemma SplitAfter(h: Headers, b: nat, size: nat, c: nat, n: nat)
    requires b in h && size + HEADER <= h[b].size && NULL !in h && c != b && (c == NULL || c in h) && After(h, c, n)
    requires forall d :: d in h ==> d <= b || End(h, b) <= d
    ensures After(Split(h, b, size), c, n)
  {
  }

  lemma SplitOrdered(h: Headers, head: nat, b: nat, size: nat)
    requires Ordered(h, head) && b in h && size + MIN_SPLIT <= h[b].size && size % ALIGN == 0
    ensures b + HEADER + size !in h && Ordered(Split(h, b, size), head)
  {
    hide After, Linked, Split, End, Before;
    BlocksApart(h, head, b);
    SplitAfter(h, b, size, NULL, head);
    var g := Split(h, b, size);
    SplitKeys(h, b, size);
    forall c | c in g ensures Linked(g, c) {
      SplitLinked(h, b, size, c);
    }
    forall c, d | c in g && d in g ensures Before(g, c, d) {
      SplitInOrder(h, head, b, size, c, d);
    }
  }

  lemma SplitInOrder(h: Headers, head: nat, b: nat, size: nat, c: nat, d: nat)
    requires Ordered(h, head) && b in h && size + MIN_SPLIT <= h[b].size && b + HEADER + size !in h
    requires c in Split(h, b, size) && d in Split(h, b, size) && forall e :: e in h ==> e <= b || End(h, b) <= e
    ensures Before(Split(h, b, size), c, d)
  {
    hide After, Linked;
    var rest := b + HEADER + size;
    assert c != rest ==> Before(h, c, if d == rest then b else d);
    SplitBefore(h, b, size, c, d);
  }

  lemma BlocksApart(h: Headers, head: nat, b: nat)
    requires Ordered(h, head) && b in h
    ensures forall c :: c in h ==> c <= b || End(h, b) <= c
  {
    forall c | c in h ensures c <= b || End(h, b) <= c {
      assert Before(h, b, c);
    }
  }

  lemma SplitKeys(h: Headers, b: nat, size: nat)
    requires b in h && size + MIN_SPLIT <= h[b].size && forall c :: c in h ==> c <= b || End(h, b) <= c
    ensures b + HEADER + size !in h && Split(h, b, size).Keys == h.Keys + {b + HEADER + size}
  {
  }

  lemma SplitBefore(h: Headers, b: nat, size: nat, c: nat, d: nat)
    requires b in h && size + MIN_SPLIT <= h[b].size && b + HEADER + size !in h
    requires c in Split(h, b, size) && d in Split(h, b, size) && forall e :: e in h ==> e <= b || End(h, b) <= e
    requires c != b + HEADER + size ==> Before(h, c, if d == b + HEADER + size then b else d)
    ensures Before(Split(h, b, size), c, d)
  {
  }

  lemma SplitLinked(h: Headers, b: nat, size: nat, c: nat)
    requires b in h && size + MIN_SPLIT <= h[b].size && size % ALIGN == 0 && NULL !in h
    requires forall d {:trigger Linked(h, d)} :: d in h ==> Linked(h, d)
    requires forall d :: d in h ==> d <= b || End(h, b) <= d
    requires c in Split(h, b, size)
    ensures Linked(Split(h, b, size), c)
  {
    assert Linked(h, b);
    if c == b + HEADER + size || c == b {
      SplitAligned(b, h[b].size, size);
    } else {
      assert Linked(h, c);
      SplitAfter(h, b, size, c, h[c].next);
    }
  }

  lemma SplitTiles(h: Headers, head: nat, pages: set<nat>, b: nat, size: nat)
    requires HeapOk(h, head, pages) && b in h && size + MIN_SPLIT <= h[b].size && b + HEADER + size !in h
    ensures Tiles(Split(h, b, size), pages)
  {
    var g, rest := Split(h, b, size), b + HEADER + size;
    forall x: nat | x / PAGE_SIZE in pages ensures exists c :: Covers(g, c, x) {
      var c: nat :| Covers(h, c, x);
      assert Covers(g, if c != b then c else if x < rest then b else rest, x);
    }
    forall c, x: nat | Covers(g, c, x) ensures x / PAGE_SIZE in pages {
      assert Covers(h, if c == rest then b else c, x);
    }
  }

  lemma SplitLive(h: Headers, b: nat, size: nat)
    requires b in h && !h[b].isFree && size + HEADER <= h[b].size && b + HEADER + size !in h
    ensures Live(Split(h, b, size)) == Live(h)[b := size]
  {
  }

  predicate Adjacent(h: Headers, a: nat, b: nat)
    requires a in h
  {
    End(h, a) == b
  }

  /** Block `a` swallows its physical neighbour `b`. */
  function Merge(h: Headers, a: nat, b: nat): Headers
    requires a in h && b in h && a != b
  {
    (h - {b})[a := h[a].(size := h[a].size + h[b].size + HEADER, next := h[b].next)]
  }

  lemma MergeOrdered(h: Headers, head: nat, a: nat, b: nat)
    requires Ordered(h, head) && a in h && b in h && h[a].next == b && Adjacent(h, a, b)
    ensures Ordered(Merge(h, a, b), head)
  {
    var g := Merge(h, a, b);
    assert Linked(h, a) && Linked(h, b);
    MergeHead(h, head, a, b);
    forall c | c in g ensures Linked(g, c) {
      assert Linked(h, c);
      MergeLinked(h, a, b, c);
    }
    forall c, d | c in g && d in g ensures Before(g, c, d) {
      assert Before(h, if c == a then b else c, d) && Before(h, c, d);
      MergeBefore(h, a, b, c, d);
    }
    hide Linked, Before, After, Merge;
  }

  lemma MergeHead(h: Headers, head: nat, a: nat, b: nat)
    requires NULL !in h && After(h, NULL, head) && a in h && b in h && a < b && After(h, a, b)
    ensures NULL !in Merge(h, a, b) && After(Merge(h, a, b), NULL, head)
  {
  }

  lemma MergeLinked(h: Headers, a: nat, b: nat, c: nat)
    requires a in h && b in h && a < b && h[a].next == b && NULL !in h && Linked(h, a) && Linked(h, b)
    requires c in Merge(h, a, b) && Linked(h, c)
    ensures Linked(Merge(h, a, b), c)
  {
  }

  lemma MergeBefore(h: Headers, a: nat, b: nat, c: nat, d: nat)
    requires a in h && b in h && a < b && Adjacent(h, a, b) && c in Merge(h, a, b) && d in Merge(h, a, b)
    requires Before(h, if c == a then b else c, d) && Before(h, c, d) && Linked(h, a) && h[a].next == b
    ensures Before(Merge(h, a, b), c, d)
  {
  }

  lemma MergeTiles(h: Headers, head: nat, pages: set<nat>, a: nat, b: nat)
    requires HeapOk(h, head, pages) && a in h && b in h && a < b && Adjacent(h, a, b)
    ensures Tiles(Merge(h, a, b), pages)
  {
    var g := Merge(h, a, b);
    forall x: nat | x / PAGE_SIZE in pages ensures exists c :: Covers(g, c, x) {
      var c :| Covers(h, c, x);
      assert Covers(g, if c == b then a else c, x);
    }
    forall c, x: nat | Covers(g, c, x) ensures x / PAGE_SIZE in pages {
      if c == a && x >= b { assert Covers(h, b, x); } else { assert Covers(h, c, x); }
    }
  }

  lemma MergeLive(h: Headers, a: nat, b: nat)
    requires a in h && b in h && a != b && h[a].isFree
    ensures Live(Merge(h, a, b)) == Live(h) - {b}
  {
  }

  /** A new run of pages goes into the list after `prev` (NULL: at the front). */
  function Insert(h: Headers, prev: nat, b: nat, blk: Block): Headers
    requires prev == NULL || prev in h
  {
    if prev == NULL then h[b := blk] else h[prev := h[prev].(next := b)][b := blk]
  }

  ghost predicate Insertable(h: Headers, head: nat, pages: set<nat>, prev: nat, b: nat, blk: Block, n: nat) {
    && n > 0 && b > 0 && b % PAGE_SIZE == 0 && b !in h && blk.size + HEADER == n * PAGE_SIZE
    && (forall f :: b / PAGE_SIZE <= f < b / PAGE_SIZE + n ==> f !in pages)
    && (prev == NULL || prev in h)
    && (forall c :: c in h ==> c <= prev || b < c)
    && prev < b
    && blk.next == if prev == NULL then head else h[prev].next
  }

  lemma InsertApart(h: Headers, head: nat, pages: set<nat>, prev: nat, b: nat, blk: Block, n: nat)
    requires HeapOk(h, head, pages) && Insertable(h, head, pages, prev, b, blk, n)
    ensures forall c :: c in h ==> End(h, c) <= b || b + n * PAGE_SIZE <= c
  {
    forall c | c in h ensures End(h, c) <= b || b + n * PAGE_SIZE <= c {
      if c < b && End(h, c) > b { assert Covers(h, c, b); }
      if b < c && c < b + n * PAGE_SIZE { assert Covers(h, c, c); }
    }
  }

  lemma InsertAligned(b: nat, size: nat, n: nat)
    requires b % PAGE_SIZE == 0 && size + HEADER == n * PAGE_SIZE
    ensures b % ALIGN == 0 && size % ALIGN == 0
  {
    Multiple16(256 * (b / PAGE_SIZE));
    Multiple16(256 * n - 2);
  }

  lemma Multiple16(k: nat)
    ensures 16 * k % ALIGN == 0
  {
  }

  lemma InsertOrdered(h: Headers, head: nat, pages: set<nat>, prev: nat, b: nat, blk: Block, n: nat)
    requires HeapOk(h, head, pages) && Insertable(h, head, pages, prev, b, blk, n)
    ensures Ordered(Insert(h, prev, b, blk), if prev == NULL then b else head)
  {
    InsertApart(h, head, pages, prev, b, blk, n);
    InsertAligned(b, blk.size, n);
    assert prev != NULL ==> Linked(h, prev);
    assert Insertion(h, head, prev, b, blk);
    hide HeapOk, Insertable, Ordered, Insertion;
    InsertionOk(h, head, prev, b, blk);
  }

  /** `blk` can stand at `b` behind `prev` in an ordered list. */
  ghost predicate Insertion(h: Headers, head: nat, prev: nat, b: nat, blk: Block) {
    && Ordered(h, head) && b !in h && b != NULL && b % ALIGN == 0 && blk.size % ALIGN == 0
    && (prev == NULL || prev in h) && prev < b && (forall c :: c in h ==> c <= prev || b < c)
    && blk.next == (if prev == NULL then head else h[prev].next)
    && forall c :: c in h ==> End(h, c) <= b || b + HEADER + blk.size <= c
  }

  lemma InsertionOk(h: Headers, head: nat, prev: nat, b: nat, blk: Block)
    requires Insertion(h, head, prev, b, blk)
    ensures Ordered(Insert(h, prev, b, blk), if prev == NULL then b else head)
  {
    var g := Insert(h, prev, b, blk);
    forall c | c in g ensures Linked(g, c) { InsertionLinked(h, head, prev, b, blk, c); }
    forall c, d | c in g && d in g ensures Before(g, c, d) { InsertionBefore(h, head, prev, b, blk, c, d); }
  }

  lemma InsertionLinked(h: Headers, head: nat, prev: nat, b: nat, blk: Block, c: nat)
    requires Insertion(h, head, prev, b, blk) && c in Insert(h, prev, b, blk)
    ensures Linked(Insert(h, prev, b, blk), c)
  {
    hide Before, End;
    assert prev != NULL ==> Linked(h, prev);
    if c != b { assert Linked(h, c); }
  }

  lemma InsertionBefore(h: Headers, head: nat, prev: nat, b: nat, blk: Block, c: nat, d: nat)
    requires Insertion(h, head, prev, b, blk) && c in Insert(h, prev, b, blk) && d in Insert(h, prev, b, blk)
    ensures Before(Insert(h, prev, b, blk), c, d)
  {
    hide Linked, After;
    if c != b && d != b { assert Before(h, c, d); }
  }

  lemma InsertTiles(h: Headers, head: nat, pages: set<nat>, prev: nat, b: nat, blk: Block, n: nat)
    requires HeapOk(h, head, pages) && Insertable(h, head, pages, prev, b, blk, n)
    ensures Tiles(Insert(h, prev, b, blk), pages + FrameRun(b / PAGE_SIZE, n))
  {
    var g := Insert(h, prev, b, blk);
    var more := FrameRun(b / PAGE_SIZE, n);
    forall x: nat | x / PAGE_SIZE in pages + more ensures exists c :: Covers(g, c, x) {
      if x / PAGE_SIZE in pages {
        var c :| Covers(h, c, x);
        assert Covers(g, c, x);
      } else {
        assert Covers(g, b, x);
      }
    }
    forall c, x: nat | Covers(g, c, x) ensures x / PAGE_SIZE in pages + more {
      if c != b { assert Covers(h, c, x); }
    }
  }

  // ---- What a header write may touch ----

  /** The header at `w` lies outside every payload of `kept`. */
  ghost predicate Clear(kept: map<nat, nat>, w: nat) {
    forall p :: p in kept ==> w <= p || p + HEADER + kept[p] <= w
  }

  ghost predicate AllClear(kept: map<nat, nat>, writes: set<nat>) {
    forall w :: w in writes ==> Clear(kept, w)
  }

  /** The payloads `kept` are in use, at those sizes. */
  ghost predicate Within(kept: map<nat, nat>, live: map<nat, nat>) {
    forall p :: p in kept ==> p in live && live[p] == kept[p]
  }

  /** Every header that is new in `g`, or not as it was in `h`, is among `writes`. */
  ghost predicate Noted(h: Headers, g: Headers, writes: set<nat>) {
    forall a :: a in g && (a !in h || g[a] != h[a]) ==> a in writes
  }

  lemma NotedTrans(h: Headers, g: Headers, k: Headers, some: set<nat>, all: set<nat>)
    requires Noted(h, g, some) && Noted(g, k, all) && some <= all
    ensures Noted(h, k, all)
  {
  }

  /** Headers of a well-formed list lie outside every payload in use. */
  lemma ClearStep(h: Headers, head: nat, pages: set<nat>, kept: map<nat, nat>, writes: set<nat>, more: set<nat>)
    requires HeapOk(h, head, pages) && Within(kept, Live(h)) && AllClear(kept, writes) && more <= h.Keys
    ensures AllClear(kept, writes + more)
  {
    forall w, p | w in more && p in kept ensures w <= p || p + HEADER + kept[p] <= w {
      assert Before(h, p, w);
    }
  }

  const LIMIT: nat := 0x4000_0000

  /** All blocks of `h` but `but` are there in `g`, as long and as free. */
  ghost predicate Others(h: Headers, g: Headers, but: nat) {
    forall c :: c in h && c != but ==> c in g && g[c].size == h[c].size && g[c].isFree == h[c].isFree
  }

  /** Block `b` is in use; what is over beyond `size` bytes is a free block behind it, if
      that leaves it a payload. */
  ghost predicate Cut(h: Headers, g: Headers, b: nat, size: nat) {
    && b in h && b in g && !g[b].isFree && Others(h, g, b)
    && if h[b].size >= size + 48 then
         var rest := b + 32 + size;
         g.Keys == h.Keys + {rest} && g[b].size == size && g[rest].size == h[b].size - size - 32 && g[rest].isFree
       else g.Keys == h.Keys && g[b].size == h[b].size
  }

  /** `n` new pages at `phys` make the free block that ends there longer, or are a block
      of their own. */
  ghost predicate Widened(h: Headers, g: Headers, phys: nat, n: nat, b: nat) {
    && b in g && Others(h, g, b)
    && if b == phys then
         && g.Keys == h.Keys + {phys} && phys !in h && g[b].size == n * 4096 - 32
         && forall c :: c in h && h[c].isFree ==> c + 32 + h[c].size != phys
       else
         && g.Keys == h.Keys && h[b].isFree && b + 32 + h[b].size == phys
         && g[b].isFree && g[b].size == h[b].size + n * 4096
  }

  /** What k_malloc does: the first block that is long enough, or else one with the pages
      of the lowest free run, is cut to `size` bytes. */
  ghost predicate Granted(h: Headers, bits: seq<bool>, g: Headers, b: nat, size: nat) {
    if exists c :: c in h && Fits(h, c, size) then
      b in h && Fits(h, b, size) && (forall c :: c in h && c < b ==> !Fits(h, c, size)) && Cut(h, g, b, size)
    else
      exists f: nat, x: Headers ::
        LowestRun(bits, f, PagesFor(size)) && Widened(h, x, f * 4096, PagesFor(size), b) && Cut(x, g, b, size)
  }

  lemma FrontWidens(h: Headers, head: nat, pages: set<nat>, b: nat, x: Block, n: nat)
    requires HeapOk(h, head, pages) && (head == NULL || b < head) && b != NULL && b !in h && n > 0
    requires x.size == n * PAGE_SIZE - HEADER
    ensures Widened(h, h[b := x], b, n, b)
  {
    hide Tiles;
  }

  /** With the new block behind `cur`, which takes it in if it can. */
  lemma InsertWidens(h: Headers, head: nat, pages: set<nat>, cur: nat, b: nat, x: Block, n: nat)
    requires HeapOk(h, head, pages) && cur in h && cur < b && b !in h && (forall c :: c in h ==> c <= cur || b < c)
    requires n > 0 && x.size == n * PAGE_SIZE - HEADER && x.next == h[cur].next
    ensures var g := h[cur := h[cur].(next := b)][b := x];
      if g[cur].isFree && Adjacent(g, cur, b) then Widened(h, Merge(g, cur, b), b, n, cur) else Widened(h, g, b, n, b)
  {
    hide Tiles;
    forall c | c in h && c < cur ensures End(h, c) < b {
      assert Before(h, c, cur);
    }
  }

  predicate Fits(h: Headers, b: nat, size: nat)
    requires b in h
  {
    h[b].isFree && h[b].size >= size
  }

  lemma NoPageZero(bits: seq<bool>, n: nat)
    requires |bits| > 0 && bits[0]
    ensures n == 0 || !LowestRun(bits, INVALID / PAGE_SIZE, n)
  {
  }

  /** Frames just handed out were not the heap's before. */
  lemma FreshPages(bits: seq<bool>, pages: set<nat>, f: nat, n: nat)
    requires LowestRun(bits, f, n) && forall g :: g in pages ==> g < |bits| && bits[g]
    ensures forall g :: f <= g < f + n ==> g !in pages
    ensures forall g :: g in pages + FrameRun(f, n) ==> g < |bits| && Fill(bits, f, n, true)[g]
  {
  }

  /** The heap took the free run of `n` frames at `f`. */
  ghost predicate ExtendedBy(ps: set<nat>, bits: seq<bool>, qs: set<nat>, more: seq<bool>, f: nat, n: nat) {
    RunFree(bits, f, n) && qs == ps + FrameRun(f, n) && more == Fill(bits, f, n, true)
  }

  /** The heap took one free run, or nothing. */
  ghost predicate Extended(ps: set<nat>, bits: seq<bool>, qs: set<nat>, more: seq<bool>) {
    (qs == ps && more == bits) || exists f: nat, n: nat :: ExtendedBy(ps, bits, qs, more, f, n)
  }

  lemma ExtendedRun(ps: set<nat>, bits: seq<bool>, f: nat, n: nat)
    requires LowestRun(bits, f, n)
    ensures f + n <= |bits| && Extended(ps, bits, ps + FrameRun(f, n), Fill(bits, f, n, true))
  {
    assert ExtendedBy(ps, bits, ps + FrameRun(f, n), Fill(bits, f, n, true), f, n);
  }

  lemma NotThere(h: Headers, head: nat, pages: set<nat>, b: nat)
    requires HeapOk(h, head, pages) && b / PAGE_SIZE !in pages
    ensures b !in h && b !in Live(h)
  {
    assert b in h ==> Covers(h, b, b);
  }

  lemma InsertOk(h: Headers, head: nat, pages: set<nat>, prev: nat, b: nat, blk: Block, n: nat)
    requires HeapOk(h, head, pages) && Insertable(h, head, pages, prev, b, blk, n) && !blk.isFree
    ensures HeapOk(Insert(h, prev, b, blk), if prev == NULL then b else head, pages + FrameRun(b / PAGE_SIZE, n))
    ensures Live(Insert(h, prev, b, blk)) == Live(h)[b := blk.size]
  {
    InsertOrdered(h, head, pages, prev, b, blk, n);
    InsertTiles(h, head, pages, prev, b, blk, n);
  }

  lemma FrontOk(h: Headers, head: nat, pages: set<nat>, b: nat, blk: Block, n: nat)
    requires HeapOk(h, head, pages) && (head == NULL || b < head)
    requires n > 0 && b > 0 && b % PAGE_SIZE == 0 && b !in h && blk.size + HEADER == n * PAGE_SIZE && !blk.isFree
    requires blk.next == head && forall f :: b / PAGE_SIZE <= f < b / PAGE_SIZE + n ==> f !in pages
    ensures HeapOk(h[b := blk], b, pages + FrameRun(b / PAGE_SIZE, n))
    ensures Live(h[b := blk]) == Live(h)[b := blk.size]
  {
    InsertOk(h, head, pages, NULL, b, blk, n);
  }

  lemma MergeOk(h: Headers, head: nat, pages: set<nat>, a: nat, b: nat)
    requires HeapOk(h, head, pages) && a in h && b in h && h[a].next == b && Adjacent(h, a, b) && h[a].isFree
    ensures HeapOk(Merge(h, a, b), head, pages) && Live(Merge(h, a, b)) == Live(h) - {b}
  {
    MergeOrdered(h, head, a, b);
    assert Linked(h, a);
    MergeTiles(h, head, pages, a, b);
    MergeLive(h, a, b);
  }

  lemma SplitOk(h: Headers, head: nat, pages: set<nat>, b: nat, size: nat)
    requires HeapOk(h, head, pages) && b in h && !h[b].isFree && size + MIN_SPLIT <= h[b].size && size % ALIGN == 0
    ensures b + HEADER + size !in h && HeapOk(Split(h, b, size), head, pages)
    ensures Live(Split(h, b, size)) == Live(h)[b := size]
  {
    SplitOrdered(h, head, b, size);
    SplitTiles(h, head, pages, b, size);
    SplitLive(h, b, size);
  }

  lemma MergeGrows(h: Headers, a: nat, b: nat)
    requires a in h && b in h && a != b
    ensures a in Merge(h, a, b) && Merge(h, a, b)[a].size >= h[b].size + HEADER
    ensures Merge(h, a, b)[a].isFree == h[a].isFree
  {
  }

  lemma KeptGrows(kept: map<nat, nat>, b: nat, size: nat)
    requires b !in kept
    ensures Within(kept, kept[b := size])
  {
  }

  lemma HeadThere(h: Headers, head: nat, pages: set<nat>)
    requires HeapOk(h, head, pages)
    ensures head == NULL || head in h
  {
  }

  lemma NextThere(h: Headers, head: nat, pages: set<nat>, b: nat)
    requires HeapOk(h, head, pages) && b in h
    ensures h[b].next == NULL || (h[b].next in h && b < h[b].next)
  {
    assert Linked(h, b);
  }

  lemma PayloadAligned(h: Headers, head: nat, pages: set<nat>, b: nat)
    requires HeapOk(h, head, pages) && b in h
    ensures b != NULL && (b + HEADER) % ALIGN == 0
  {
    assert Linked(h, b);
  }

  lemma NothingNoted(h: Headers, writes: set<nat>)
    ensures Noted(h, h, writes)
  {
  }

  lemma NotedSet(h: Headers, g: Headers, b: nat, x: Block, writes: set<nat>)
    requires Noted(h, g, writes)
    ensures Noted(h, g[b := x], writes + {b})
  {
  }

  lemma NotedInsert(h: Headers, prev: nat, b: nat, blk: Block, writes: set<nat>)
    requires prev == NULL || prev in h
    ensures Noted(h, Insert(h, prev, b, blk), writes + {b, prev})
    ensures prev == NULL ==> Noted(h, Insert(h, prev, b, blk), writes + {b})
  {
  }

  lemma NotedMerge(h: Headers, g: Headers, a: nat, b: nat, writes: set<nat>)
    requires a in g && b in g && a != b && Noted(h, g, writes) && a in writes
    ensures Noted(h, Merge(g, a, b), writes)
  {
  }

  lemma NothingWritten(kept: map<nat, nat>)
    ensures AllClear(kept, {})
  {
  }

  lemma LiveKeys(h: Headers)
    ensures forall b :: b in Live(h) ==> b in h && Live(h)[b] == h[b].size
  {
  }

  lemma LiveIs(h: Headers, b: nat)
    requires b in h
    ensures b in Live(h) <==> !h[b].isFree
    ensures b in Live(h) ==> Live(h)[b] == h[b].size
  {
  }

  class Heap {
    const pmm: FrameAllocator
    var head: nat
    var hdr: Headers
    /** The frames taken from the allocator. */
    ghost var pages: set<nat>
    /** Addresses of the headers the current call has written. */
    ghost var writes: set<nat>

    ghost predicate PagesUsed()
      reads this`pages, pmm`bits
    {
      forall f :: f in pages ==> f < |pmm.bits| && pmm.bits[f]
    }

    ghost predicate Valid()
      reads this, pmm, pmm.bitmap
    {
      pmm.Valid() && HeapOk(hdr, head, pages) && PagesUsed() && 0 < |pmm.bits| <= 0x4_0000 && pmm.bits[0]
    }

    /** k_memory_init, before the first block: an empty list. */
    constructor (pmm: FrameAllocator)
      requires pmm.Valid() && 0 < pmm.totalFrames <= 0x4_0000 && pmm.bits[0]
      ensures Valid() && this.pmm == pmm && hdr == map[] && head == NULL && pages == {}
    {
      this.pmm := pmm;
      head := NULL;
      hdr := map[];
      pages := {};
      writes := {};
    }

    /** k_heap_init: one free page to start with, if there is one. */
    method Start()
      requires Valid() && hdr == map[] && head == NULL
      modifies this`head, this`hdr, this`pages, this`writes, pmm`usedFrames, pmm`bits, pmm.bitmap
      ensures Valid() && Live(hdr) == map[] && Extended(old(pages), old(pmm.bits), pages, pmm.bits)
      ensures NoRun(old(pmm.bits), 1) ==> hdr == map[]
      ensures !NoRun(old(pmm.bits), 1) ==> head in hdr && hdr == map[head := Block(PAGE_SIZE - HEADER, NULL, true)]
      ensures !NoRun(old(pmm.bits), 1) ==> LowestRun(old(pmm.bits), head / PAGE_SIZE, 1)
    {
      hide HeapOk, Ordered, Tiles, FrameAllocator.Valid, LowestRun, NoRun, RunFree, Fill, Live;
      NoLive();
      ghost var bits := pmm.bits;
      NoPageZero(bits, 1);
      var phys := pmm.AllocPages(1);
      if phys == INVALID { return; }
      ghost var f := phys / PAGE_SIZE;
      FreshPages(bits, pages, f, 1);
      ExtendedRun(pages, bits, f, 1);
      FrontOk(hdr, head, pages, phys, Block(PAGE_SIZE - HEADER, NULL, false), 1);
      ghost var h := hdr[phys := Block(PAGE_SIZE - HEADER, NULL, false)];
      MarkOk(h, phys, pages + FrameRun(f, 1), phys, true);
      head := phys;
      hdr := hdr[phys := Block(PAGE_SIZE - HEADER, NULL, true)];
      pages := pages + FrameRun(f, 1);
      writes := {phys};
      assert hdr == Mark(h, phys, true);
      OneFree(phys);
    }

    /** Blocks lie in the 1 GiB of managed memory. */
    lemma InWindow(b: nat)
      requires Valid() && b in hdr
      ensures b < LIMIT && End(hdr, b) <= LIMIT
    {
      assert Covers(hdr, b, b);
      assert Covers(hdr, b, b + HEADER + hdr[b].size - 1);
    }

    /** k_find_free_block: the first block in the list that fits. */
    method FindFreeBlock(size: nat) returns (b: nat)
      requires Valid()
      ensures b == NULL ==> forall c :: c in hdr ==> !Fits(hdr, c, size)
      ensures b != NULL ==> b in hdr && Fits(hdr, b, size)
      ensures b != NULL ==> forall c :: c in hdr && c < b ==> !Fits(hdr, c, size)
    {
      hide Tiles, FrameAllocator.Valid, PagesUsed;
      b := head;
      while b != NULL
        invariant b == NULL || b in hdr
        invariant forall c :: c in hdr && (b == NULL || c < b) ==> !Fits(hdr, c, size)
        decreases if b == NULL then 0 else LIMIT - b
      {
        InWindow(b);
        if Fits(hdr, b, size) { return; }
        assert Linked(hdr, b);
        b := hdr[b].next;
        if b != NULL { InWindow(b); }
      }
    }

    /** The last block below address `b`, in a list that starts below it. */
    method FindPrev(b: nat) returns (cur: nat)
      requires Valid() && head != NULL && head < b && b !in hdr
      ensures cur in hdr && cur < b && forall c :: c in hdr ==> c <= cur || b < c
    {
      hide Tiles, FrameAllocator.Valid, PagesUsed;
      cur := head;
      while hdr[cur].next != NULL && hdr[cur].next < b
        invariant cur in hdr && cur < b
        decreases LIMIT - cur
      {
        assert Linked(hdr, cur);
        cur := hdr[cur].next;
        InWindow(cur);
      }
      assert Linked(hdr, cur);
    }

    /** k_expand_heap: a run of new pages joins the list, in order; it is merged
        into the block before it when that one is free and adjacent. */
    method ExpandHeap(size: nat, ghost kept: map<nat, nat>) returns (b: nat)
      requires Valid() && (PagesFor(size) == 0 || size + HEADER <= PagesFor(size) * PAGE_SIZE)
      requires kept == Live(hdr) && AllClear(kept, writes)
      modifies this`head, this`hdr, this`pages, this`writes, pmm`usedFrames, pmm`bits, pmm.bitmap
      ensures Valid() && AllClear(kept, writes)
      ensures b == NULL ==> hdr == old(hdr) && head == old(head) && pages == old(pages)
      ensures b == NULL ==> (PagesFor(size) == 0 || NoRun(old(pmm.bits), PagesFor(size)))
      ensures b != NULL ==> b in hdr && b !in kept && hdr[b].size >= size && old(pages) <= pages
      ensures b != NULL ==> Live(hdr) == if hdr[b].isFree then kept else kept[b := hdr[b].size]
      ensures b != NULL ==>
        var n := PagesFor(size);
        exists f: nat :: LowestRun(old(pmm.bits), f, n) && Widened(old(hdr), hdr, f * 4096, n, b)
      ensures old(writes) <= writes && Noted(old(hdr), hdr, writes)
      ensures Extended(old(pages), old(pmm.bits), pages, pmm.bits)
    {
      hide HeapOk, Ordered, Tiles, FrameAllocator.Valid, Live, AllClear, Clear, LowestRun, NoRun, RunFree, Fill;
      hide Covers, Adjacent, End, Noted;
      var n := PagesFor(size);
      NothingNoted(hdr, writes);
      ghost var bits := pmm.bits;
      var phys := pmm.AllocPages(n);
      if phys == INVALID {
        NoPageZero(bits, n);
        return NULL;
      }
      ghost var f := phys / PAGE_SIZE;
      FreshPages(bits, pages, f, n);
      ExtendedRun(pages, bits, f, n);
      b := InsertRun(phys, n, kept);
    }

    /** The run of `n` frames at `phys` has joined the heap, as the block `b`. */
    ghost predicate Joined(phys: nat, n: nat, kept: map<nat, nat>, ps: set<nat>, b: nat)
      reads this
    {
      && pages == ps + FrameRun(phys / PAGE_SIZE, n) && b in hdr && b !in kept && hdr[b].size + HEADER >= n * PAGE_SIZE
      && Live(hdr) == if hdr[b].isFree then kept else kept[b := hdr[b].size]
    }

    /** The end of k_expand_heap: the new pages become a block of the list. */
    method InsertRun(phys: nat, n: nat, ghost kept: map<nat, nat>) returns (b: nat)
      requires Valid() && n > 0 && phys > 0 && phys % PAGE_SIZE == 0
      requires forall g :: g in pages + FrameRun(phys / PAGE_SIZE, n) ==> g < |pmm.bits| && pmm.bits[g]
      requires forall g :: phys / PAGE_SIZE <= g < phys / PAGE_SIZE + n ==> g !in pages
      requires kept == Live(hdr) && AllClear(kept, writes)
      modifies this`head, this`hdr, this`pages, this`writes
      ensures Valid() && b != NULL && AllClear(kept, writes) && Joined(phys, n, kept, old(pages), b)
      ensures Widened(old(hdr), hdr, phys, n, b)
      ensures old(writes) <= writes && Noted(old(hdr), hdr, writes)
    {
      hide HeapOk, Ordered, Tiles, FrameAllocator.Valid, Live, AllClear, Clear, Covers, Adjacent, End, Noted, Widened;
      b := phys;
      assert phys / PAGE_SIZE !in pages;
      NotThere(hdr, head, pages, b);
      if head == NULL || b < head {
        var blk := Block(n * PAGE_SIZE - HEADER, head, false);
        FrontOk(hdr, head, pages, b, blk, n);
        FrontWidens(hdr, head, pages, b, blk, n);
        NotedInsert(hdr, NULL, b, blk, writes);
        hdr := hdr[b := blk];
        head := b;
        pages := pages + FrameRun(phys / PAGE_SIZE, n);
        KeptGrows(kept, b, blk.size);
        ClearStep(hdr, head, pages, kept, writes, {b});
        writes := writes + {b};
      } else {
        HeadThere(hdr, head, pages);
        b := InsertAfter(phys, n, kept);
      }
    }

    /** The same behind the first block; a free block that it follows takes it in. */
    method InsertAfter(phys: nat, n: nat, ghost kept: map<nat, nat>) returns (b: nat)
      requires Valid() && n > 0 && phys % PAGE_SIZE == 0 && head != NULL && head < phys && phys !in hdr && phys !in kept
      requires forall g :: g in pages + FrameRun(phys / PAGE_SIZE, n) ==> g < |pmm.bits| && pmm.bits[g]
      requires forall g :: phys / PAGE_SIZE <= g < phys / PAGE_SIZE + n ==> g !in pages
      requires kept == Live(hdr) && AllClear(kept, writes)
      modifies this`hdr, this`pages, this`writes
      ensures Valid() && b != NULL && AllClear(kept, writes) && Joined(phys, n, kept, old(pages), b)
      ensures Widened(old(hdr), hdr, phys, n, b)
      ensures old(writes) <= writes && Noted(old(hdr), hdr, writes)
    {
      hide HeapOk, Ordered, Tiles, FrameAllocator.Valid, Live, AllClear, Clear, Covers, Adjacent, End, Noted, Widened;
      b := phys;
      HeadThere(hdr, head, pages);
      var cur := FindPrev(b);
      var blk := Block(n * PAGE_SIZE - HEADER, hdr[cur].next, false);
      LiveIs(hdr, cur);
      InsertWidens(hdr, head, pages, cur, b, blk, n);
      InsertOk(hdr, head, pages, cur, b, blk, n);
      NotedInsert(hdr, cur, b, blk, writes);
      hdr := hdr[cur := hdr[cur].(next := b)][b := blk];
      pages := pages + FrameRun(phys / PAGE_SIZE, n);
      KeptGrows(kept, b, blk.size);
      ClearStep(hdr, head, pages, kept, writes, {b, cur});
      writes := writes + {b, cur};
      if hdr[cur].isFree && Adjacent(hdr, cur, b) {
        MergeOk(hdr, head, pages, cur, b);
        NotedMerge(old(hdr), hdr, cur, b, writes);
        MergeGrows(hdr, cur, b);
        hdr := Merge(hdr, cur, b);
        assert kept[b := blk.size] - {b} == kept;
        b := cur;
      }
    }

    /** The block just found or made is given out, cut to size. */
    method GiveOut(b: nat, size: nat, ghost kept: map<nat, nat>)
      requires Valid() && b in hdr && hdr[b].size >= size && size % ALIGN == 0 && b !in kept
      requires Live(hdr) == if hdr[b].isFree then kept else kept[b := hdr[b].size]
      requires AllClear(kept, writes)
      modifies this`hdr, this`writes
      ensures Valid() && AllClear(kept, writes)
      ensures b in hdr && hdr[b].size >= size && Live(hdr) == kept[b := hdr[b].size]
      ensures old(writes) <= writes && Noted(old(hdr), hdr, writes) && Cut(old(hdr), hdr, b, size)
    {
      hide HeapOk, Ordered, Tiles, FrameAllocator.Valid, Live, AllClear, Clear, PagesUsed, Covers, Noted;
      InWindow(b);
      MarkOk(hdr, head, pages, b, false);
      NothingNoted(hdr, writes);
      NotedSet(hdr, hdr, b, hdr[b].(isFree := false), writes);
      hdr := hdr[b := hdr[b].(isFree := false)];
      KeptGrows(kept, b, hdr[b].size);
      ClearStep(hdr, head, pages, kept, writes, {b});
      writes := writes + {b};
      assert (size + MIN_SPLIT) % WORD == size + MIN_SPLIT;
      if hdr[b].size >= size + MIN_SPLIT { CutTo(b, size, kept, old(hdr)); }
    }

    /** split: what is over becomes a free block. */
    method CutTo(b: nat, size: nat, ghost kept: map<nat, nat>, ghost h: Headers)
      requires Valid() && b in hdr && !hdr[b].isFree && hdr[b].size >= size + MIN_SPLIT && size % ALIGN == 0
      requires b !in kept
      requires Live(hdr) == kept[b := hdr[b].size] && AllClear(kept, writes) && Noted(h, hdr, writes)
      modifies this`hdr, this`writes
      ensures Valid() && AllClear(kept, writes) && b in hdr && hdr[b].size == size && Live(hdr) == kept[b := size]
      ensures Cut(old(hdr), hdr, b, size)
      ensures old(writes) <= writes && Noted(h, hdr, writes)
    {
      hide HeapOk, Ordered, Tiles, FrameAllocator.Valid, Live, AllClear, Clear, PagesUsed, Covers, Noted;
      var rest := b + HEADER + size;
      var first := hdr[b].(size := size, next := rest);
      var tail := Block(hdr[b].size - size - HEADER, hdr[b].next, true);
      SplitOk(hdr, head, pages, b, size);
      NotedSet(h, hdr, b, first, writes);
      NotedSet(h, hdr[b := first], rest, tail, writes + {b});
      hdr := hdr[b := first][rest := tail];
      KeptGrows(kept, b, size);
      ClearStep(hdr, head, pages, kept, writes, {b, rest});
      assert writes + {b} + {rest} == writes + {b, rest};
      writes := writes + {b, rest};
    }

    /** k_malloc: a payload that is new, aligned and long enough; no payload in
        use is moved, resized or written to. */
    method Malloc(request: nat) returns (ptr: nat)
      requires Valid() && request <= WORD - 32
      modifies this`head, this`hdr, this`pages, this`writes, pmm`usedFrames, pmm`bits, pmm.bitmap
      ensures Valid() && AllClear(old(Live(hdr)), writes) && Noted(old(hdr), hdr, writes)
      ensures ptr == NULL ==>
        Live(hdr) == old(Live(hdr)) && hdr == old(hdr)
      ensures ptr == NULL ==>
        (request == 0 || PagesFor(Round16(request)) == 0 || NoRun(old(pmm.bits), PagesFor(Round16(request))))
      ensures ptr != NULL ==> request > 0 && ptr >= HEADER && ptr - HEADER !in old(Live(hdr)) && ptr % ALIGN == 0
      ensures ptr != NULL ==> ptr - HEADER in hdr && hdr[ptr - HEADER].size >= request
      ensures ptr != NULL ==> Live(hdr) == old(Live(hdr))[ptr - HEADER := hdr[ptr - HEADER].size]
      ensures (exists c :: c in old(hdr) && request > 0 && Fits(old(hdr), c, Round16(request))) ==>
        ptr != NULL && pages == old(pages)
      ensures ptr != NULL ==> Granted(old(hdr), old(pmm.bits), hdr, ptr - HEADER, (request + 15) / 16 * 16)
      ensures Extended(old(pages), old(pmm.bits), pages, pmm.bits)
    {
      hide HeapOk, Ordered, Tiles, FrameAllocator.Valid, Live, PagesUsed, Clear, Noted;
      writes := {};
      NothingNoted(hdr, {});
      if request == 0 { return NULL; }
      ghost var kept := Live(hdr);
      var size := Round16(request);
      RequestExact(request);
      var b := FindFreeBlock(size);
      if b == NULL {
        b := ExpandHeap(size, kept);
        if b == NULL { return NULL; }
      } else {
        LiveIs(hdr, b);
      }
      ghost var h, w := hdr, writes;
      GiveOut(b, size, kept);
      assert size == (request + 15) / 16 * 16;
      hide Cut, Widened, LowestRun, Fits;
      NotedTrans(old(hdr), h, hdr, w, writes);
      PayloadAligned(hdr, head, pages, b);
      return b + HEADER;
    }

    /** k_free: exactly this payload is given back. The block takes in a free
        neighbour after it, and joins a free neighbour before it. */
    method Free(ptr: nat)
      requires Valid() && (ptr == NULL || (ptr >= HEADER && ptr - HEADER in Live(hdr)))
      modifies this`hdr, this`writes
      ensures Valid() && pages == old(pages) && head == old(head)
      ensures ptr == NULL ==> Live(hdr) == old(Live(hdr))
      ensures ptr != NULL ==> Live(hdr) == old(Live(hdr)) - {ptr - HEADER}
      ensures AllClear(Live(hdr), writes) && Noted(old(hdr), hdr, writes)
      ensures ptr == NULL ==> hdr == old(hdr)
      ensures ptr != NULL ==> ptr - HEADER in old(hdr)
      ensures ptr != NULL ==> JoinedPrev(TookNext(Mark(old(hdr), ptr - HEADER, true), ptr - HEADER), hdr, ptr - HEADER)
    {
      hide HeapOk, Ordered, Tiles, FrameAllocator.Valid, Live, PagesUsed, AllClear, Clear, JoinedPrev;
      writes := {};
      if ptr == NULL {
        NothingWritten(Live(hdr));
        return;
      }
      var b := ptr - HEADER;
      ghost var kept := Live(hdr) - {b};
      LiveKeys(hdr);
      NothingWritten(kept);
      MarkOk(hdr, head, pages, b, true);
      hdr := hdr[b := hdr[b].(isFree := true)];
      ClearStep(hdr, head, pages, kept, writes, {b});
      writes := writes + {b};
      var n := hdr[b].next;
      NextThere(hdr, head, pages, b);
      if n != NULL && hdr[n].isFree && Adjacent(hdr, b, n) {
        MergeOk(hdr, head, pages, b, n);
        LiveIs(hdr, n);
        hdr := Merge(hdr, b, n);
      }
      ghost var h, w := hdr, writes;
      JoinPrev(b, kept);
      NotedTrans(old(hdr), h, hdr, w, writes);
    }

    /** The loop of k_free that looks for the block before `b`. */
    method JoinPrev(b: nat, ghost kept: map<nat, nat>)
      requires Valid() && b in hdr && hdr[b].isFree && kept == Live(hdr) && AllClear(kept, writes)
      modifies this`hdr, this`writes
      ensures Valid() && Live(hdr) == kept && AllClear(kept, writes) && JoinedPrev(old(hdr), hdr, b)
      ensures old(writes) <= writes && Noted(old(hdr), hdr, writes)
    {
      hide HeapOk, Ordered, Tiles, FrameAllocator.Valid, Live, PagesUsed, AllClear, Clear, JoinedPrev;
      HeadThere(hdr, head, pages);
      FirstBlock(hdr, head, pages, b);
      var prev := head;
      while prev != NULL
        invariant hdr == old(hdr) && writes == old(writes) && Passed(hdr, prev, b)
        invariant prev == NULL || prev in hdr
        decreases if prev == NULL then 0 else LIMIT - prev
      {
        InWindow(prev);
        NextThere(hdr, head, pages, prev);
        PassBlock(hdr, head, pages, prev, b);
        if hdr[prev].next == b {
          OnlyPrev(hdr, head, pages, prev, b);
          if hdr[prev].isFree && Adjacent(hdr, prev, b) {
            MergeOk(hdr, head, pages, prev, b);
            LiveIs(hdr, b);
            ClearStep(hdr, head, pages, kept, writes, {prev});
            writes := writes + {prev};
            hdr := Merge(hdr, prev, b);
          }
          return;
        }
        prev := hdr[prev].next;
        if prev != NULL { InWindow(prev); }
      }
      NonePrev(hdr, b);
    }
  }

  /** Block `b` after it took in a free neighbour behind it. */
  function TookNext(h: Headers, b: nat): Headers
    requires b in h
  {
    var n := h[b].next;
    if n in h && n != b && h[n].isFree && Adjacent(h, b, n) then Merge(h, b, n) else h
  }

  predicate CanJoin(h: Headers, p: nat, b: nat) {
    p in h && b in h && p != b && h[p].next == b && h[p].isFree && Adjacent(h, p, b)
  }

  /** A free neighbour in front of `b` took it in, if there was one. */
  ghost predicate JoinedPrev(h: Headers, g: Headers, b: nat) {
    (exists p :: CanJoin(h, p, b) && g == Merge(h, p, b)) || (g == h && forall p :: !CanJoin(h, p, b))
  }

  /** No block in front of `prev` leads to `b`; with `prev` NULL, none at all. */
  ghost predicate Passed(h: Headers, prev: nat, b: nat) {
    forall p :: p in h && (prev == NULL || p < prev) ==> h[p].next != b
  }

  lemma FirstBlock(h: Headers, head: nat, pages: set<nat>, b: nat)
    requires HeapOk(h, head, pages)
    ensures Passed(h, head, b)
  {
  }

  lemma PassBlock(h: Headers, head: nat, pages: set<nat>, prev: nat, b: nat)
    requires HeapOk(h, head, pages) && prev in h && Passed(h, prev, b)
    ensures h[prev].next != b ==> Passed(h, h[prev].next, b)
  {
    hide Tiles;
    assert Linked(h, prev);
  }

  lemma OnlyPrev(h: Headers, head: nat, pages: set<nat>, prev: nat, b: nat)
    requires HeapOk(h, head, pages) && prev in h && b in h && h[prev].next == b
    ensures prev != b && (CanJoin(h, prev, b) ==> JoinedPrev(h, Merge(h, prev, b), b))
    ensures (!CanJoin(h, prev, b) ==> JoinedPrev(h, h, b))
  {
    hide Tiles;
    assert Linked(h, prev);
    forall p | p in h && h[p].next == b ensures p == prev { assert Linked(h, p); }
  }

  lemma NonePrev(h: Headers, b: nat)
    requires Passed(h, NULL, b)
    ensures JoinedPrev(h, h, b)
  {
  }

  lemma NoLive()
    ensures Live(map[]) == map[]
  {
  }

  lemma OneFree(b: nat)
    ensures Live(map[b := Block(PAGE_SIZE - HEADER, NULL, true)]) == map[]
  {
  }

  datatype Call = CallMalloc(size: nat) | CallFree(which: nat)

  /** What one call returned: a block and its size, for a k_malloc that succeeded. */
  datatype Answer = Nothing | Gave(block: nat, size: nat)

  /** What the callers hold after these calls: all that was given out and not freed
      since, at the size it was given out with. */
  function Owed(calls: seq<Call>, log: seq<Answer>): map<nat, nat>
    requires |calls| == |log|
  {
    if calls == [] then map[]
    else
      var n := |calls| - 1;
      var m := Owed(calls[..n], log[..n]);
      match calls[n]
      case CallMalloc(_) => if log[n].Gave? then m[log[n].block := log[n].size] else m
      case CallFree(b) => m - {b}
  }

  ghost predicate Suits(c: Call, a: Answer) {
    a.Gave? ==> c.CallMalloc? && c.size > 0 && a.size >= c.size && (a.block + HEADER) % ALIGN == 0
  }

  lemma OwedNext(calls: seq<Call>, log: seq<Answer>, i: nat, a: Answer)
    requires i < |calls| && |log| == i
    ensures var m := Owed(calls[..i], log);
      Owed(calls[..i + 1], log + [a]) == match calls[i]
        case CallMalloc(_) => if a.Gave? then m[a.block := a.size] else m
        case CallFree(b) => m - {b}
  {
    assert calls[..i + 1][..i] == calls[..i] && (log + [a])[..i] == log;
  }

  /** Every call sequence keeps the heap well-formed, and what is in use is exactly
      what was given out and not freed since, where it was and at its size. A free of
      something that is not held is not made. */
  method Run(heap: Heap, calls: seq<Call>) returns (log: seq<Answer>)
    requires heap.Valid() && Live(heap.hdr) == map[]
    modifies heap`head, heap`hdr, heap`pages, heap`writes, heap.pmm`usedFrames, heap.pmm`bits, heap.pmm.bitmap
    ensures heap.Valid() && |log| == |calls| && Live(heap.hdr) == Owed(calls, log)
    ensures forall i :: 0 <= i < |calls| ==> Suits(calls[i], log[i])
  {
    hide Live, Heap.Valid, Fits, AllClear, Round16, Owed, Noted;
    log := [];
    assert Owed(calls[..0], log) == map[] by { OwedNone(); }
    var held: map<nat, nat> := map[];
    for i := 0 to |calls|
      invariant heap.Valid() && |log| == i && held == Live(heap.hdr) == Owed(calls[..i], log)
      invariant forall j :: 0 <= j < i ==> Suits(calls[j], log[j])
    {
      var a := Nothing;
      match calls[i] {
        case CallMalloc(size) =>
          if size <= WORD - 32 {
            var p := heap.Malloc(size);
            if p != NULL {
              a := Gave(p - HEADER, heap.hdr[p - HEADER].size);
              held := held[a.block := a.size];
            }
          }
        case CallFree(b) =>
          if b in held { heap.Free(b + HEADER); }
          held := held - {b};
      }
      OwedNext(calls, log, i, a);
      log := log + [a];
    }
    assert calls[..|calls|] == calls;
  }

  lemma OwedNone()
    ensures Owed([], []) == map[]
  {
  }
}
