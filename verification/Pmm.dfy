/** The physical frame allocator: a bitmap with one bit per 4 KiB frame, set
    while the frame is used, and a counter of the set bits. */
module Pmm {
  import opened Machine

  const DIRECT_MAP_END: nat := 0x4000_0000
  /** Page 0 is never handed out, so 0 stands for "no page". */
  const INVALID: nat := 0

  function AlignDown(a: nat): (r: nat)
    ensures r % PAGE_SIZE == 0 && r <= a < r + PAGE_SIZE
  {
    a / PAGE_SIZE * PAGE_SIZE
  }

  function AlignUp(a: nat): (r: nat)
    ensures r % PAGE_SIZE == 0 && a <= r < a + PAGE_SIZE
  {
    (a + PAGE_SIZE - 1) / PAGE_SIZE * PAGE_SIZE
  }

  // ---- Bits of a byte ----

  function Mask(i: nat): (m: bv8)
    requires i < 8
  {
    if i == 0 then 1 else if i == 1 then 2 else if i == 2 then 4 else if i == 3 then 8
    else if i == 4 then 16 else if i == 5 then 32 else if i == 6 then 64 else 128
  }

  lemma MaskIs(i: nat)
    requires i < 8
    ensures Mask(i) == (1 as bv8) << i
  {
  }

  predicate Bit(b: bv8, i: nat)
    requires i < 8
  {
    b & Mask(i) != 0
  }

  lemma SetBit(b: bv8, i: nat, j: nat)
    requires i < 8 && j < 8
    ensures Bit(b | Mask(i), j) <==> i == j || Bit(b, j)
  {
  }

  lemma ClearBit(b: bv8, i: nat, j: nat)
    requires i < 8 && j < 8
    ensures Bit(b & !Mask(i), j) <==> i != j && Bit(b, j)
  {
  }

  // ---- The abstract bitmap: one bool per frame ----

  function Count(bits: seq<bool>): nat {
    if bits == [] then 0 else Count(bits[..|bits| - 1]) + if bits[|bits| - 1] then 1 else 0
  }

  predicate RunFree(bits: seq<bool>, s: nat, n: nat) {
    s + n <= |bits| && forall f :: s <= f < s + n ==> !bits[f]
  }

  predicate RunUsed(bits: seq<bool>, s: nat, n: nat) {
    s + n <= |bits| && forall f :: s <= f < s + n ==> bits[f]
  }

  function Fill(bits: seq<bool>, s: nat, n: nat, v: bool): (r: seq<bool>)
    requires s + n <= |bits|
    ensures |r| == |bits|
    ensures forall f :: 0 <= f < |r| ==> r[f] == if s <= f < s + n then v else bits[f]
  {
    seq(|bits|, f requires 0 <= f < |bits| => if s <= f < s + n then v else bits[f])
  }

  lemma {:induction false} CountUpdate(bits: seq<bool>, f: nat, v: bool)
    requires f < |bits|
    ensures Count(bits[f := v]) == Count(bits) + (if v then 1 else 0) - (if bits[f] then 1 else 0)
  {
    var n := |bits| - 1;
    if f < n {
      CountUpdate(bits[..n], f, v);
      assert bits[f := v][..n] == bits[..n][f := v];
    } else {
      assert bits[f := v][..n] == bits[..n];
    }
  }

  lemma FillZero(bits: seq<bool>, s: nat, v: bool)
    requires s <= |bits|
    ensures Fill(bits, s, 0, v) == bits
  {
  }

  lemma FillStep(bits: seq<bool>, s: nat, n: nat, v: bool)
    requires s + n < |bits|
    ensures Fill(bits, s, n, v)[s + n := v] == Fill(bits, s, n + 1, v)
  {
  }

  /** Filling a run changes the count by exactly the number of bits flipped. */
  lemma {:induction false} CountFill(bits: seq<bool>, s: nat, n: nat, v: bool)
    requires if v then RunFree(bits, s, n) else RunUsed(bits, s, n)
    ensures Count(Fill(bits, s, n, v)) == if v then Count(bits) + n else Count(bits) - n
  {
    if n == 0 {
      FillZero(bits, s, v);
    } else {
      CountFill(bits, s, n - 1, v);
      FillStep(bits, s, n - 1, v);
      CountUpdate(Fill(bits, s, n - 1, v), s + n - 1, v);
    }
  }

  lemma {:induction false} CountAll(bits: seq<bool>)
    requires forall f :: 0 <= f < |bits| ==> bits[f]
    ensures Count(bits) == |bits|
  {
    if bits != [] { CountAll(bits[..|bits| - 1]); }
  }

  lemma {:induction false} CountBound(bits: seq<bool>)
    ensures Count(bits) <= |bits|
  {
    if bits != [] { CountBound(bits[..|bits| - 1]); }
  }

  /** The lowest frame that starts a free run of `n`, when there is one. */
  ghost predicate LowestRun(bits: seq<bool>, s: nat, n: nat) {
    RunFree(bits, s, n) && forall t: nat :: t < s ==> !RunFree(bits, t, n)
  }

  ghost predicate NoRun(bits: seq<bool>, n: nat) {
    forall t: nat :: !RunFree(bits, t, n)
  }

  lemma LowestFrame(bits: seq<bool>, f: nat)
    requires LowestRun(bits, f, 1)
    ensures f < |bits| && !bits[f] && !NoRun(bits, 1) && (forall g :: 0 <= g < f ==> bits[g])
    ensures Fill(bits, f, 1, true) == bits[f := true] && Count(bits[f := true]) == Count(bits) + 1
  {
    FillZero(bits, f, true);
    FillStep(bits, f, 0, true);
    forall g | 0 <= g < f ensures bits[g] {
      assert !RunFree(bits, g, 1);
    }
    CountUpdate(bits, f, true);
  }

  /** A run that starts after a used frame, with none found before it, is lowest. */
  lemma EarlierRunsBlocked(bits: seq<bool>, s: nat, n: nat)
    requires n > 0 && RunFree(bits, s, n) && (s > 0 ==> bits[s - 1])
    requires forall t: nat :: t + n <= s ==> !RunFree(bits, t, n)
    ensures LowestRun(bits, s, n)
  {
  }

  /** Extending the scan by one frame finds no run while the current one is short. */
  lemma LaterRunsBlocked(bits: seq<bool>, frame: nat, run: nat, n: nat)
    requires run < n && run <= frame <= |bits| && 0 < frame
    requires run < frame ==> bits[frame - run - 1]
    requires forall t: nat :: t + n <= frame - 1 ==> !RunFree(bits, t, n)
    ensures forall t: nat :: t + n <= frame ==> !RunFree(bits, t, n)
  {
  }

  // ---- Boot information ----

  datatype Region = Region(address: nat, length: nat, available: bool)
  datatype Range = Range(start: nat, end: nat)

  predicate Overlap(a: nat, b: nat, r: Range) {
    a < r.end && r.start < b
  }

  /** Page-aligned `a` is a home for `len` bytes in region `m`, below `limit`. */
  ghost predicate Home(m: Region, limit: nat, reserved: seq<Range>, len: nat, a: nat) {
    && m.available
    && a % PAGE_SIZE == 0
    && m.address <= a && a + len <= AlignDown(m.address + m.length) && a + len <= limit
    && forall r :: 0 <= r < |reserved| ==> !Overlap(a, a + len, reserved[r])
  }

  predicate ReservedOk(reserved: seq<Range>) {
    forall r :: 0 <= r < |reserved| ==>
      reserved[r].start < reserved[r].end && reserved[r].start % PAGE_SIZE == 0 && reserved[r].end % PAGE_SIZE == 0
  }

  /** The search of one region for the lowest home: it restarts the scan of the
      reserved ranges each time one is in the way. */
  method FindInRegion(m: Region, limit: nat, reserved: seq<Range>, len: nat) returns (found: bool, start: nat)
    requires ReservedOk(reserved) && m.available && limit % PAGE_SIZE == 0 && len > 0
    ensures found ==> Home(m, limit, reserved, len, start)
    ensures found ==> forall a: nat :: a < start ==> !Home(m, limit, reserved, len, a)
    ensures !found ==> forall a: nat :: !Home(m, limit, reserved, len, a)
  {
    hide Home;
    start := AlignUp(m.address);
    var end := AlignDown(m.address + m.length);
    if end > limit { end := limit; }
    HomesFrom(m, limit, reserved, len, start);
    var r := 0;
    while r < |reserved| && start + len <= end
      invariant 0 <= r <= |reserved|
      invariant m.address <= start && start % PAGE_SIZE == 0
      invariant forall q :: 0 <= q < r ==> !Overlap(start, start + len, reserved[q])
      invariant forall a: nat :: Home(m, limit, reserved, len, a) ==> start <= a
      decreases end - start, |reserved| - r
    {
      if Overlap(start, start + len, reserved[r]) {
        HomesPast(m, limit, reserved, len, start, r);
        start := reserved[r].end;
        r := 0;
      } else {
        r := r + 1;
      }
    }
    found := start + len <= end;
    HomeAt(m, limit, reserved, len, start, end);
  }

  lemma HomesFrom(m: Region, limit: nat, reserved: seq<Range>, len: nat, start: nat)
    requires start == AlignUp(m.address)
    ensures forall a: nat :: Home(m, limit, reserved, len, a) ==> start <= a
  {
  }

  /** No home overlaps a reserved range, so the next one is behind it. */
  lemma HomesPast(m: Region, limit: nat, reserved: seq<Range>, len: nat, start: nat, r: nat)
    requires r < |reserved| && Overlap(start, start + len, reserved[r])
    requires forall a: nat :: Home(m, limit, reserved, len, a) ==> start <= a
    ensures forall a: nat :: Home(m, limit, reserved, len, a) ==> reserved[r].end <= a
  {
    forall a: nat | Home(m, limit, reserved, len, a) ensures reserved[r].end <= a {
      assert !Overlap(a, a + len, reserved[r]);
    }
  }

  lemma HomeAt(m: Region, limit: nat, reserved: seq<Range>, len: nat, start: nat, end: nat)
    requires m.available && m.address <= start && start % PAGE_SIZE == 0
    requires end == AlignDown(m.address + m.length) || end == limit
    requires end <= AlignDown(m.address + m.length) && end <= limit
    ensures start + len <= end && (forall r :: 0 <= r < |reserved| ==> !Overlap(start, start + len, reserved[r])) ==>
      Home(m, limit, reserved, len, start)
    ensures start + len > end && (forall a: nat :: Home(m, limit, reserved, len, a) ==> start <= a) ==>
      forall a: nat :: !Home(m, limit, reserved, len, a)
  {
  }

  /** `home` is the lowest home in region `i`, and no region before it has one. */
  ghost predicate FirstHome(mmap: seq<Region>, limit: nat, reserved: seq<Range>, len: nat, i: nat, home: nat) {
    && i < |mmap| && Home(mmap[i], limit, reserved, len, home)
    && (forall a: nat :: a < home ==> !Home(mmap[i], limit, reserved, len, a))
    && forall j, a: nat :: 0 <= j < i ==> !Home(mmap[j], limit, reserved, len, a)
  }

  /** Where the bitmap itself goes: the lowest home in the first region that
      has one, and INVALID exactly when no region has. */
  method FindBitmapHome(mmap: seq<Region>, limit: nat, reserved: seq<Range>, len: nat) returns (ok: bool, home: nat)
    requires ReservedOk(reserved) && limit % PAGE_SIZE == 0 && len > 0
    ensures ok ==> exists i: nat :: FirstHome(mmap, limit, reserved, len, i, home)
    ensures !ok ==> forall i, a: nat :: 0 <= i < |mmap| ==> !Home(mmap[i], limit, reserved, len, a)
  {
    var i := 0;
    while i < |mmap|
      invariant 0 <= i <= |mmap|
      invariant forall j, a: nat :: 0 <= j < i ==> !Home(mmap[j], limit, reserved, len, a)
    {
      if mmap[i].available {
        ok, home := FindInRegion(mmap[i], limit, reserved, len);
        if ok {
          assert FirstHome(mmap, limit, reserved, len, i, home);
          return;
        }
      }
      i := i + 1;
    }
    return false, INVALID;
  }

  predicate BoundedBy(m: Region, limit: nat) {
    m.available && m.address < DIRECT_MAP_END && limit <= m.address + m.length
  }

  /** The end of the available memory of the first `n` regions, as far as the direct
      map reaches. */
  function MemoryEnd(mmap: seq<Region>, n: nat): nat
    requires n <= |mmap|
  {
    if n == 0 then 0
    else
      var m, before := mmap[n - 1], MemoryEnd(mmap, n - 1);
      if !m.available || m.address >= DIRECT_MAP_END then before
      else Max(before, if m.address + m.length > DIRECT_MAP_END then DIRECT_MAP_END else m.address + m.length)
  }

  function Max(a: nat, b: nat): nat { if a > b then a else b }

  /** The highest managed address: available memory below the direct map's end. */
  method ManagedLimit(mmap: seq<Region>) returns (limit: nat)
    ensures limit == AlignDown(MemoryEnd(mmap, |mmap|))
    ensures limit % PAGE_SIZE == 0 && limit <= DIRECT_MAP_END
    ensures forall i :: 0 <= i < |mmap| && mmap[i].available && mmap[i].address < DIRECT_MAP_END ==>
      mmap[i].address + mmap[i].length < limit + PAGE_SIZE || limit == DIRECT_MAP_END
    ensures limit > 0 ==> (exists i :: 0 <= i < |mmap| && BoundedBy(mmap[i], limit))
  {
    limit := 0;
    var i := 0;
    while i < |mmap|
      invariant 0 <= i <= |mmap| && limit == MemoryEnd(mmap, i)
      invariant limit <= DIRECT_MAP_END
      invariant forall j :: 0 <= j < i && mmap[j].available && mmap[j].address < DIRECT_MAP_END ==>
        mmap[j].address + mmap[j].length <= limit || limit == DIRECT_MAP_END
      invariant limit > 0 ==> (exists j :: 0 <= j < i && BoundedBy(mmap[j], limit))
    {
      if mmap[i].available && mmap[i].address < DIRECT_MAP_END {
        var end := mmap[i].address + mmap[i].length;
        if end > DIRECT_MAP_END { end := DIRECT_MAP_END; }
        if end > limit { limit := end; }
      }
      i := i + 1;
    }
    limit := AlignDown(limit);
  }

  predicate Touches(f: nat, r: Range) {
    r.start < r.end && Overlap(f * PAGE_SIZE, (f + 1) * PAGE_SIZE, r)
  }

  predicate Inside(f: nat, r: Range) {
    r.start <= f * PAGE_SIZE && (f + 1) * PAGE_SIZE <= r.end
  }

  function Span(m: Region): Range {
    Range(m.address, m.address + m.length)
  }

  /** Frame `f` lies wholly inside one of the first `n` regions, an available one. */
  ghost predicate Available(mmap: seq<Region>, n: nat, f: nat)
    requires n <= |mmap|
  {
    exists i :: 0 <= i < n && mmap[i].available && Inside(f, Span(mmap[i]))
  }

  ghost predicate Reserved(reserved: seq<Range>, n: nat, f: nat)
    requires n <= |reserved|
  {
    exists r :: 0 <= r < n && Touches(f, reserved[r])
  }

  lemma OneFrame(bits: seq<bool>, f: nat)
    requires f < |bits| && bits[f]
    ensures RunUsed(bits, f, 1) && Fill(bits, f, 1, false) == bits[f := false]
  {
    FillZero(bits, f, false);
    FillStep(bits, f, 0, false);
  }

  class FrameAllocator {
    const bitmap: array<bv8>
    var totalFrames: nat
    var usedFrames: nat
    /** Error lines logged: frees of bad addresses and double frees. */
    var complaints: nat
    /** The bitmap read as one bool per frame. */
    ghost var bits: seq<bool>

    ghost predicate Linked()
      reads this, bitmap
    {
      && totalFrames == |bits| <= 8 * bitmap.Length
      && forall f :: 0 <= f < |bits| ==> bits[f] == Bit(bitmap[f / 8], f % 8)
    }

    /** The counter always equals the number of set bits. */
    ghost predicate Valid()
      reads this, bitmap
    {
      Linked() && usedFrames == Count(bits)
    }

    lemma Size()
      requires Valid()
      ensures totalFrames == |bits|
    {
    }

    predicate Test(f: nat)
      requires Linked() && f < totalFrames
      reads this, bitmap
      ensures Test(f) == bits[f]
    {
      Bit(bitmap[f / 8], f % 8)
    }

    method SetFrame(f: nat)
      requires Linked() && f < totalFrames
      modifies this`bits, bitmap
      ensures Linked() && bits == old(bits)[f := true]
    {
      hide Mask, Bit;
      ghost var b := bitmap[f / 8];
      bitmap[f / 8] := bitmap[f / 8] | Mask(f % 8);
      bits := bits[f := true];
      forall g | 0 <= g < |bits| ensures bits[g] == Bit(bitmap[g / 8], g % 8) {
        SetBit(b, f % 8, g % 8);
      }
    }

    method ClearFrame(f: nat)
      requires Linked() && f < totalFrames
      modifies this`bits, bitmap
      ensures Linked() && bits == old(bits)[f := false]
    {
      hide Mask, Bit;
      ghost var b := bitmap[f / 8];
      bitmap[f / 8] := bitmap[f / 8] & !Mask(f % 8);
      bits := bits[f := false];
      forall g | 0 <= g < |bits| ensures bits[g] == Bit(bitmap[g / 8], g % 8) {
        ClearBit(b, f % 8, g % 8);
      }
    }

    /** Mark every frame that [start, end) touches, inside the managed window. */
    method MarkUsed(start: nat, end: nat)
      requires Valid()
      modifies this`usedFrames, this`bits, bitmap
      ensures Valid() && |bits| == |old(bits)|
      ensures forall f :: 0 <= f < totalFrames ==> bits[f] == (old(bits)[f] || Touches(f, Range(start, end)))
    {
      if end <= start { return; }
      var lo := start / PAGE_SIZE;
      var hi := (end + PAGE_SIZE - 1) / PAGE_SIZE;
      if lo >= totalFrames { return; }
      if hi > totalFrames { hi := totalFrames; }
      var f := lo;
      while f < hi
        invariant lo <= f <= hi && Valid() && |bits| == |old(bits)|
        invariant forall g :: 0 <= g < |bits| ==> bits[g] == (old(bits)[g] || lo <= g < f)
      {
        if !Test(f) {
          CountUpdate(bits, f, true);
          SetFrame(f);
          usedFrames := usedFrames + 1;
        }
        f := f + 1;
      }
    }

    /** Free only the frames wholly inside [start, end). */
    method MarkFree(start: nat, end: nat)
      requires Valid()
      modifies this`usedFrames, this`bits, bitmap
      ensures Valid() && |bits| == |old(bits)|
      ensures forall f :: 0 <= f < totalFrames ==> bits[f] == (old(bits)[f] && !Inside(f, Range(start, end)))
    {
      hide Count, Bit;
      if end <= start { return; }
      var lo := (start + PAGE_SIZE - 1) / PAGE_SIZE;
      var hi := end / PAGE_SIZE;
      if lo >= totalFrames { return; }
      if hi > totalFrames { hi := totalFrames; }
      var f := lo;
      while f < hi
        invariant lo <= f && (f <= hi || f == lo) && Valid() && |bits| == |old(bits)|
        invariant forall g :: 0 <= g < |bits| ==> bits[g] == (old(bits)[g] && !(lo <= g < f))
      {
        if Test(f) {
          CountUpdate(bits, f, false);
          ClearFrame(f);
          if usedFrames > 0 { usedFrames := usedFrames - 1; }
        }
        f := f + 1;
      }
    }

    /** Everything used, until MarkFree opens frames up. */
    constructor Blank(frames: nat)
      ensures Valid() && fresh(bitmap)
      ensures totalFrames == frames && complaints == 0 && bits == seq(frames, _ => true)
    {
      bitmap := new bv8[(frames + 7) / 8](_ => 0xFF);
      totalFrames := frames;
      usedFrames := frames;
      complaints := 0;
      bits := seq(frames, _ => true);
      new;
      CountAll(bits);
    }

    /** First-fit scan: the lowest run of `count` free frames, or INVALID only
        when there is none. */
    method AllocPages(count: nat) returns (page: nat)
      requires Valid()
      modifies this`usedFrames, this`bits, bitmap
      ensures Valid()
      ensures count == 0 || NoRun(old(bits), count) ==> page == INVALID && bits == old(bits)
      ensures count > 0 && !NoRun(old(bits), count) ==>
        page % PAGE_SIZE == 0 && LowestRun(old(bits), page / PAGE_SIZE, count)
        && bits == Fill(old(bits), page / PAGE_SIZE, count, true)
    {
      if count == 0 || totalFrames == 0 || count > totalFrames { return INVALID; }
      var found, start := FindRun(count);
      if !found { return INVALID; }
      TakeRun(start, count);
      return start * PAGE_SIZE;
    }

    method FindRun(count: nat) returns (found: bool, runStart: nat)
      requires Linked() && count > 0
      ensures if found then LowestRun(bits, runStart, count) else NoRun(bits, count)
    {
      hide Bit, Count;
      var run, frame := 0, 0;
      runStart := 0;
      while frame < totalFrames
        invariant 0 <= frame <= totalFrames && run < count && run <= frame
        invariant run > 0 ==> runStart == frame - run
        invariant forall f :: frame - run <= f < frame ==> !bits[f]
        invariant run < frame ==> bits[frame - run - 1]
        invariant forall t: nat :: t + count <= frame ==> !RunFree(bits, t, count)
      {
        if !Test(frame) {
          if run == 0 { runStart := frame; }
          run := run + 1;
          if run == count {
            EarlierRunsBlocked(bits, runStart, count);
            return true, runStart;
          }
        } else {
          run := 0;
        }
        frame := frame + 1;
        LaterRunsBlocked(bits, frame, run, count);
      }
      return false, 0;
    }

    method TakeRun(start: nat, count: nat)
      requires Valid() && RunFree(bits, start, count)
      modifies this`usedFrames, this`bits, bitmap
      ensures Valid() && bits == Fill(old(bits), start, count, true)
    {
      hide Count, Fill;
      ghost var before := bits;
      FillZero(before, start, true);
      var f := start;
      while f < start + count
        invariant start <= f <= start + count && Linked() && |bits| == |before| && usedFrames == old(usedFrames)
        invariant bits == Fill(before, start, f - start, true)
      {
        FillStep(before, start, f - start, true);
        SetFrame(f);
        f := f + 1;
      }
      usedFrames := usedFrames + count;
      CountFill(before, start, count, true);
    }

    method DropRun(start: nat, count: nat)
      requires Valid() && RunUsed(bits, start, count)
      modifies this`usedFrames, this`bits, bitmap
      ensures Valid() && bits == Fill(old(bits), start, count, false)
    {
      hide Count, Fill;
      ghost var before := bits;
      FillZero(before, start, false);
      var f := start;
      while f < start + count
        invariant start <= f <= start + count && Linked() && |bits| == |before| && usedFrames == old(usedFrames)
        invariant bits == Fill(before, start, f - start, false)
      {
        FillStep(before, start, f - start, false);
        ClearFrame(f);
        f := f + 1;
      }
      CountFill(before, start, count, false);
      usedFrames := usedFrames - count;
    }

    /** pmm_free_page of a used frame. */
    method FreePage(page: nat)
      requires Valid() && page % PAGE_SIZE == 0 && page / PAGE_SIZE < |bits| && bits[page / PAGE_SIZE]
      modifies this`usedFrames, this`bits, this`complaints, bitmap
      ensures Valid() && bits == old(bits)[page / PAGE_SIZE := false] && complaints == old(complaints)
      ensures usedFrames + 1 == old(usedFrames)
    {
      hide Count, Fill, RunUsed;
      ghost var before, f := bits, page / PAGE_SIZE;
      OneFrame(before, f);
      FreePages(page, 1);
      CountUpdate(before, f, false);
    }

    /** pmm_alloc_page: the lowest free frame. */
    method AllocPage() returns (page: nat)
      requires Valid() && totalFrames > 0 && bits[0]
      modifies this`usedFrames, this`bits, bitmap
      ensures Valid()
      ensures page == INVALID ==> bits == old(bits) && NoRun(bits, 1)
      ensures page != INVALID ==> page % PAGE_SIZE == 0 && page / PAGE_SIZE < |old(bits)|
      ensures page != INVALID ==> !old(bits)[page / PAGE_SIZE] && bits == old(bits)[page / PAGE_SIZE := true]
      ensures page != INVALID ==> !NoRun(old(bits), 1) && forall f :: 0 <= f < page / PAGE_SIZE ==> old(bits)[f]
      ensures usedFrames == old(usedFrames) + if page == INVALID then 0 else 1
    {
      hide FrameAllocator.Valid, Fill, NoRun, LowestRun, Count;
      Counted();
      ghost var before := bits;
      page := AllocPages(1);
      Counted();
      if !NoRun(before, 1) { LowestFrame(before, page / PAGE_SIZE); }
    }

    lemma Counted()
      requires Valid()
      ensures usedFrames == Count(bits)
    {
    }

    lemma Bound()
      requires Valid()
      ensures usedFrames <= totalFrames
    {
      CountBound(bits);
    }

    /** No free frame means that all are counted as used. */
    lemma Full()
      requires Valid() && NoRun(bits, 1)
      ensures usedFrames == totalFrames
    {
      forall f | 0 <= f < |bits| ensures bits[f] { assert !RunFree(bits, f, 1); }
      CountAll(bits);
    }

    /** Clears the run when every frame of it is used; otherwise complains and
        changes nothing. */
    method FreePages(page: nat, count: nat)
      requires Valid()
      modifies this`usedFrames, this`bits, this`complaints, bitmap
      ensures Valid()
      ensures if count == 0 || totalFrames == 0 then bits == old(bits) && complaints == old(complaints)
        else if page % PAGE_SIZE == 0 && RunUsed(old(bits), page / PAGE_SIZE, count)
          then bits == Fill(old(bits), page / PAGE_SIZE, count, false) && complaints == old(complaints)
        else bits == old(bits) && complaints == old(complaints) + 1
    {
      if count == 0 || totalFrames == 0 { return; }
      var start := page / PAGE_SIZE;
      if page % PAGE_SIZE != 0 || page >= totalFrames * PAGE_SIZE
         || count > totalFrames || start + count > totalFrames {
        complaints := complaints + 1;
        return;
      }
      var f := start;
      while f < start + count
        invariant start <= f <= start + count && forall g :: start <= g < f ==> bits[g]
      {
        if !Test(f) {
          complaints := complaints + 1;
          return;
        }
        f := f + 1;
      }
      DropRun(start, count);
    }
  }

  /** Free the available regions of a blank bitmap. */
  method OpenAvailable(pmm: FrameAllocator, mmap: seq<Region>)
    requires pmm.Valid() && pmm.bits == seq(pmm.totalFrames, _ => true)
    modifies pmm`usedFrames, pmm`bits, pmm.bitmap
    ensures pmm.Valid() && |pmm.bits| == |old(pmm.bits)|
    ensures forall f :: 0 <= f < |pmm.bits| ==> (!pmm.bits[f] <==> Available(mmap, |mmap|, f))
  {
    var i := 0;
    while i < |mmap|
      invariant 0 <= i <= |mmap| && pmm.Valid() && |pmm.bits| == |old(pmm.bits)|
      invariant forall f :: 0 <= f < |pmm.bits| ==> (!pmm.bits[f] <==> Available(mmap, i, f))
    {
      if mmap[i].available {
        pmm.MarkFree(mmap[i].address, mmap[i].address + mmap[i].length);
      }
      i := i + 1;
    }
  }

  /** Take the reserved ranges back. */
  method CloseReserved(pmm: FrameAllocator, reserved: seq<Range>)
    requires pmm.Valid()
    modifies pmm`usedFrames, pmm`bits, pmm.bitmap
    ensures pmm.Valid() && |pmm.bits| == |old(pmm.bits)|
    ensures forall f :: 0 <= f < |pmm.bits| ==> (pmm.bits[f] <==> old(pmm.bits)[f] || Reserved(reserved, |reserved|, f))
  {
    var i := 0;
    while i < |reserved|
      invariant 0 <= i <= |reserved| && pmm.Valid() && |pmm.bits| == |old(pmm.bits)|
      invariant forall f :: 0 <= f < |pmm.bits| ==> (pmm.bits[f] <==> old(pmm.bits)[f] || Reserved(reserved, i, f))
    {
      pmm.MarkUsed(reserved[i].start, reserved[i].end);
      i := i + 1;
    }
  }

  /** There are 16 frames, and there is room for a bitmap with a bit for each frame. */
  ghost predicate Manageable(mmap: seq<Region>, reserved: seq<Range>) {
    var managed := AlignDown(MemoryEnd(mmap, |mmap|));
    var len := AlignUp((managed / PAGE_SIZE + 7) / 8);
    managed >= 16 * PAGE_SIZE && exists i, a: nat :: 0 <= i < |mmap| && Home(mmap[i], managed, reserved, len, a)
  }

  /** The managed window reaches over every available frame of the direct map. */
  lemma Managed(mmap: seq<Region>, limit: nat, f: nat)
    requires Available(mmap, |mmap|, f) && (f + 1) * PAGE_SIZE <= DIRECT_MAP_END && limit % PAGE_SIZE == 0
    requires forall i :: 0 <= i < |mmap| && mmap[i].available && mmap[i].address < DIRECT_MAP_END ==>
      mmap[i].address + mmap[i].length < limit + PAGE_SIZE || limit == DIRECT_MAP_END
    ensures f < limit / PAGE_SIZE
  {
    var i :| 0 <= i < |mmap| && mmap[i].available && Inside(f, Span(mmap[i]));
    assert (f + 1) * PAGE_SIZE < limit + PAGE_SIZE || limit == DIRECT_MAP_END;
  }

  /** pmm_init: a frame ends up free exactly when it lies wholly in available
      memory and touches neither a reserved range nor the bitmap's own home,
      which itself avoids every reserved range. */
  method Init(mmap: seq<Region>, reserved: seq<Range>) returns (pmm: FrameAllocator, home: Range)
    requires ReservedOk(reserved)
    ensures fresh(pmm) && fresh(pmm.bitmap) && pmm.Valid() && pmm.complaints == 0
    ensures pmm.totalFrames > 0 ==>
      && 16 <= pmm.totalFrames <= (home.end - home.start) * 8
      && home.end <= pmm.totalFrames * PAGE_SIZE
      && (forall r :: 0 <= r < |reserved| ==> !Overlap(home.start, home.end, reserved[r]))
    ensures forall f :: 0 <= f < pmm.totalFrames ==>
      (!pmm.bits[f] <==> Available(mmap, |mmap|, f) && !Reserved(reserved, |reserved|, f) && !Touches(f, home))
    ensures pmm.totalFrames == if Manageable(mmap, reserved) then MemoryEnd(mmap, |mmap|) / PAGE_SIZE else 0
    ensures pmm.totalFrames * PAGE_SIZE <= DIRECT_MAP_END
    ensures pmm.totalFrames > 0 ==> forall f: nat ::
      (f + 1) * PAGE_SIZE <= DIRECT_MAP_END && Available(mmap, |mmap|, f) ==> f < pmm.totalFrames
  {
    var managed := ManagedLimit(mmap);
    home := Range(0, 0);
    if managed < PAGE_SIZE * 16 {
      pmm := new FrameAllocator.Blank(0);
      return;
    }
    var total := managed / PAGE_SIZE;
    var bitmapBytes := (total + 7) / 8;
    var len := AlignUp(bitmapBytes);
    var ok, at := FindBitmapHome(mmap, managed, reserved, len);
    if !ok {
      pmm := new FrameAllocator.Blank(0);
      return;
    }
    home := Range(at, at + len);
    forall f: nat | (f + 1) * PAGE_SIZE <= DIRECT_MAP_END && Available(mmap, |mmap|, f) ensures f < total {
      Managed(mmap, managed, f);
    }
    hide Home, Available, Reserved, Touches;
    pmm := Marked(mmap, reserved, total, home);
  }

  /** The marking part of pmm_init. */
  method Marked(mmap: seq<Region>, reserved: seq<Range>, total: nat, home: Range) returns (pmm: FrameAllocator)
    ensures fresh(pmm) && fresh(pmm.bitmap) && pmm.Valid() && pmm.complaints == 0 && pmm.totalFrames == total
    ensures forall f :: 0 <= f < total ==>
      (!pmm.bits[f] <==> Available(mmap, |mmap|, f) && !Reserved(reserved, |reserved|, f) && !Touches(f, home))
  {
    hide Available, Reserved, Touches;
    pmm := new FrameAllocator.Blank(total);
    OpenAvailable(pmm, mmap);
    CloseReserved(pmm, reserved);
    pmm.MarkUsed(home.start, home.end);
  }
}
