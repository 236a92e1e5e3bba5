/** Delivering a signal, running its handler and coming back from it: which signal,
    the frame on the user stack, the registers, the masks, and the restart of an
    interrupted system call. Addresses and lengths are 64-bit and wrap. */
module SignalFrame {
  import opened Machine
  import ProcTree

  type U64 = n: nat | n < WORD

  const RED_ZONE: nat := 128
  const FPU_SIZE: nat := 512
  const FRAME_SIZE: nat := 440
  const UC_SIZE: nat := 304
  const USER_CODE_SEL: U64 := 0x23
  const USER_DATA_SEL: U64 := 0x1B

  const SIGSEGV: nat := 11
  const SIGSTOP: nat := 19

  /** Negative results of a system call, as the 64-bit word in rax. */
  const EINTR_WORD: U64 := WORD - 4
  const RESTART_WORD: U64 := WORD - 512

  type Signals = set<nat>

  predicate InRange(x: Signals) { forall s :: s in x ==> 1 <= s <= ProcTree.NSIG }

  /** SIGKILL and SIGSTOP cannot be blocked. */
  predicate Clear(x: Signals) { ProcTree.SIGKILL !in x && SIGSTOP !in x }

  function Unblock(x: Signals): Signals { x - {ProcTree.SIGKILL, SIGSTOP} }

  /** The 64-bit word of a set of signals, from signal `s` on: signal s is bit s - 1. */
  function Word(x: Signals, s: nat): nat
    requires s <= 65
    decreases 65 - s
  {
    if s == 65 then 0 else (if s in x then 1 else 0) + 2 * Word(x, s + 1)
  }

  function Members(n: nat, s: nat): Signals
    requires s <= 65
    decreases 65 - s
  {
    if s == 65 then {} else (if n % 2 == 1 then {s} else {}) + Members(n / 2, s + 1)
  }

  lemma {:induction false} MembersRange(n: nat, s: nat)
    requires 1 <= s <= 65
    ensures InRange(Members(n, s)) && forall k :: k in Members(n, s) ==> k >= s
    decreases 65 - s
  {
    if s < 65 { MembersRange(n / 2, s + 1); }
  }

  /** A mask survives being written to memory as a word. */
  lemma {:induction false} MaskRoundTrip(x: Signals, s: nat)
    requires 1 <= s <= 65 && InRange(x)
    ensures forall k :: k in Members(Word(x, s), s) <==> k in x && k >= s
    decreases 65 - s
  {
    if s < 65 {
      var w := Word(x, s + 1);
      assert Word(x, s) == (if s in x then 1 else 0) + 2 * w;
      assert Word(x, s) / 2 == w && (Word(x, s) % 2 == 1 <==> s in x);
      MaskRoundTrip(x, s + 1);
    }
  }

  function Pow(k: nat): (r: nat)
    ensures r > 0
  {
    if k == 0 then 1 else 2 * Pow(k - 1)
  }

  lemma {:induction false} WordBound(x: Signals, s: nat)
    requires 1 <= s <= 65
    ensures Word(x, s) < Pow(65 - s)
    decreases 65 - s
  {
    if s < 65 { WordBound(x, s + 1); }
  }

  lemma PowFour(k: nat)
    ensures Pow(k + 4) == 16 * Pow(k)
  {
    assert Pow(k + 2) == 4 * Pow(k);
    assert Pow(k + 4) == 4 * Pow(k + 2);
  }

  lemma PowSixteen(k: nat)
    ensures Pow(k + 16) == 0x1_0000 * Pow(k)
  {
    PowFour(k);
    PowFour(k + 4);
    PowFour(k + 8);
    PowFour(k + 12);
  }

  lemma WordFits(x: Signals)
    ensures Word(x, 1) < WORD
  {
    WordBound(x, 1);
    hide Pow;
    PowSixteen(0);
    PowSixteen(16);
    PowSixteen(32);
    PowSixteen(48);
    assert Pow(0) == 1 by { PowZero(); }
  }

  lemma PowZero()
    ensures Pow(0) == 1
  {
  }

  function ToWord(x: Signals): U64 {
    WordFits(x);
    Word(x, 1)
  }

  function FromWord(n: nat): Signals { Members(n, 1) }

  /** Signal s is bit s - 1 of the word. */
  lemma WordBit(n: nat, s: nat)
    requires 1 <= s <= 64
    ensures s in FromWord(n) <==> n / Pow(s - 1) % 2 == 1
  {
    MembersBit(n, 1, s);
  }

  lemma {:induction false} MembersBit(n: nat, from: nat, s: nat)
    requires 1 <= from <= s <= 64
    ensures s in Members(n, from) <==> n / Pow(s - from) % 2 == 1
    decreases s - from
  {
    MembersRange(n / 2, from + 1);
    if from < s {
      MembersBit(n / 2, from + 1, s);
      HalfFirst(n, Pow(s - from - 1));
    } else {
      assert Pow(0) == 1;
    }
  }

  lemma HalfFirst(n: nat, p: nat)
    requires p > 0
    ensures n / 2 / p == n / (2 * p)
  {
    var q, r := n / (2 * p), n % (2 * p);
    assert n == q * (2 * p) + r == 2 * (q * p) + r;
    assert n / 2 == q * p + r / 2 && 0 <= r / 2 < p;
    DivBy(n / 2, q, p, r / 2);
  }

  lemma DivBy(x: nat, q: nat, p: nat, r: nat)
    requires p > 0 && x == q * p + r && r < p
    ensures x / p == q
  {
    var d := x / p;
    assert x == d * p + x % p;
    assert d > q ==> d * p >= (q + 1) * p;
    assert d < q ==> q * p >= (d + 1) * p;
  }

  lemma WordRange(n: nat)
    ensures InRange(FromWord(n))
  {
    MembersRange(n, 1);
  }

  lemma MaskBack(x: Signals)
    requires InRange(x)
    ensures FromWord(ToWord(x)) == x
  {
    MaskRoundTrip(x, 1);
  }

  /** What a handler starts with: no trap, no direction flag. */
  function StartFlags(x: bv64): bv64 { x & !0x500 }

  /** What is believed of saved flags: arithmetic, trap, direction, alignment. */
  function SafeFlags(x: bv64): bv64 { (x & 0x4_0DD5) | 0x202 }

  function Wrap(x: int): U64 { x % WORD }

  function Down(x: nat, k: nat): (d: nat)
    requires k > 0
    ensures d <= x
  {
    x - x % k
  }

  /** A word of user memory, as a number or as bits. */
  datatype Cell = N(n: U64) | B(b: bv64)

  function Num(c: Cell): U64 { match c case N(n) => n case B(b) => Wrap(b as int) }

  function Bits(c: Cell): bv64 { match c case N(n) => n as bv64 case B(b) => b }

  type Memory = map<nat, Cell>

  function Load(mem: Memory, at: nat): Cell { if at in mem then mem[at] else N(0) }

  /** Copying words to memory, one after the other. */
  function Store(mem: Memory, at: nat, cs: seq<Cell>): Memory
    decreases |cs|
  {
    if cs == [] then mem else Store(mem[at := cs[0]], at + 8, cs[1..])
  }

  lemma {:induction false} StoreElse(mem: Memory, at: nat, cs: seq<Cell>, a: nat)
    requires a < at || a >= at + 8 * |cs|
    ensures Load(Store(mem, at, cs), a) == Load(mem, a)
    decreases |cs|
  {
    if cs != [] { StoreElse(mem[at := cs[0]], at + 8, cs[1..], a); }
  }

  lemma {:induction false} StoreAt(mem: Memory, at: nat, cs: seq<Cell>, k: nat)
    requires k < |cs|
    ensures Load(Store(mem, at, cs), at + 8 * k) == cs[k]
    decreases |cs|
  {
    if k == 0 {
      StoreElse(mem[at := cs[0]], at + 8, cs[1..], at);
    } else {
      StoreAt(mem[at := cs[0]], at + 8, cs[1..], k - 1);
      assert at + 8 + 8 * (k - 1) == at + 8 * k;
    }
  }

  // ---- Registers and the frame ----

  datatype Regs = Regs(
    r8: U64, r9: U64, r10: U64, r11: U64, r12: U64, r13: U64, r14: U64, r15: U64,
    rdi: U64, rsi: U64, rbp: U64, rbx: U64, rdx: U64, rax: U64, rcx: U64, rsp: U64, rip: U64,
    rflags: bv64, cs: U64, ss: U64, intNo: U64)

  /** handler 0 is the default, 1 ignores. */
  datatype Action = Action(handler: U64, restart: bool, restorer: U64, hasRestorer: bool, nodefer: bool,
    resethand: bool, mask: Signals)

  /** struct rt_sigframe, word by word: the restorer, the ucontext (five words, the
      sigcontext, the mask), the siginfo. */
  function Frame(r: Regs, was: Signals, fp: U64, sig: U64, restorer: U64): (f: seq<Cell>)
    ensures |f| * 8 == FRAME_SIZE
  {
    [N(restorer)] + Context(r, was, fp) + Info(sig)
  }

  function Zeros(n: nat): seq<Cell> { seq(n, _ => N(0)) }

  /** The sigcontext is r8 to r15, rdi to rip, and the rest. */
  function Low(r: Regs): seq<Cell> { [N(r.r8), N(r.r9), N(r.r10), N(r.r11), N(r.r12), N(r.r13), N(r.r14), N(r.r15)] }

  function High(r: Regs): seq<Cell> {
    [N(r.rdi), N(r.rsi), N(r.rbp), N(r.rbx), N(r.rdx), N(r.rax), N(r.rcx), N(r.rsp), N(r.rip)]
  }

  function Tail(r: Regs, was: Signals, fp: U64): seq<Cell> {
    [B(r.rflags), N(r.cs % 0x1_0000 + r.ss % 0x1_0000 * 0x1_0000_0000_0000), N(0), N(0), N(ToWord(was)), N(0), N(fp)]
  }

  function Context(r: Regs, was: Signals, fp: U64): (f: seq<Cell>)
    ensures |f| * 8 == UC_SIZE
  {
    Zeros(5) + Low(r) + High(r) + Tail(r, was, fp) + Zeros(8) + [N(ToWord(was))]
  }

  function Info(sig: U64): (f: seq<Cell>)
    ensures |f| == 16
  {
    [N(sig)] + Zeros(15)
  }

  function FpuAt(rsp: nat): U64 { Down(Wrap(Wrap(rsp - RED_ZONE) - FPU_SIZE), 64) }

  function FrameAt(fp: nat): U64 { Wrap(Down(Wrap(fp - FRAME_SIZE), 16) - 8) }

  /** vmm_user_ok, for the pages that are mapped and may be used so. */
  predicate UserOk(mapped: set<nat>, addr: nat, len: nat) {
    len == 0 || (addr + len < WORD && addr + len <= USER_END
      && forall p :: addr / PAGE_SIZE <= p <= (addr + len - 1) / PAGE_SIZE ==> p in mapped)
  }

  /** The byte at `a` is in user memory, on a page that may be used so. */
  ghost predicate ByteOk(mapped: set<nat>, a: nat) { a < 0x7FFF_FFFF_F000 && a / 4096 in mapped }

  lemma UserOkIs(mapped: set<nat>, addr: nat, len: nat)
    ensures UserOk(mapped, addr, len) <==> forall a: nat :: addr <= a < addr + len ==> ByteOk(mapped, a)
  {
    if UserOk(mapped, addr, len) {
      forall a: nat | addr <= a < addr + len ensures ByteOk(mapped, a) {
        PageBetween(addr, a, addr + len - 1);
      }
    } else {
      var last := addr + len - 1;
      assert last >= USER_END ==> !ByteOk(mapped, last);
      if last < USER_END {
        var p :| addr / PAGE_SIZE <= p <= last / PAGE_SIZE && p !in mapped;
        var a := if p * PAGE_SIZE < addr then addr else p * PAGE_SIZE;
        assert addr <= a < addr + len && a / 4096 == p && !ByteOk(mapped, a);
      }
    }
  }

  lemma PageBetween(a: nat, b: nat, c: nat)
    requires a <= b <= c
    ensures a / PAGE_SIZE <= b / PAGE_SIZE <= c / PAGE_SIZE
  {
  }

  lemma WrapOnce(x: int)
    requires 0 <= x + WORD < 2 * WORD
    ensures Wrap(x) == if x < 0 then x + WORD else x
  {
  }

  lemma DownFacts(x: nat)
    ensures Down(x, 64) <= x < Down(x, 64) + 64 && Down(x, 64) % 64 == 0
    ensures Down(x, 16) <= x < Down(x, 16) + 16 && Down(x, 16) % 16 == 0
  {
  }

  /** The FPU area starts below rsp, or wraps to the top of the address space. */
  lemma FpuArea(rsp: nat)
    requires rsp < WORD
    ensures var fp := FpuAt(rsp);
      fp < WORD && fp % 64 == 0 && (rsp >= 640 ==> rsp - 640 - 63 <= fp <= rsp - 640)
        && (rsp < 640 ==> fp >= WORD - 703)
  {
    hide Down, Wrap;
    WrapOnce(rsp - RED_ZONE);
    WrapOnce(Wrap(rsp - RED_ZONE) - FPU_SIZE);
    DownFacts(Wrap(Wrap(rsp - RED_ZONE) - FPU_SIZE));
  }

  /** The frame starts below the FPU area, or wraps, and then its end does too. */
  lemma FrameArea(fp: nat)
    requires fp < WORD && fp % 64 == 0
    ensures var sp := FrameAt(fp);
      sp < WORD && sp % 16 == 8 && 960 <= Wrap(fp + FPU_SIZE - sp) <= 975
    ensures var sp := FrameAt(fp);
      if fp >= 512 then sp + Wrap(fp + FPU_SIZE - sp) == fp + FPU_SIZE && sp + FRAME_SIZE <= fp
        else sp + Wrap(fp + FPU_SIZE - sp) >= WORD
  {
    hide Down, Wrap;
    WrapOnce(fp - FRAME_SIZE);
    var d: int := Down(Wrap(fp - FRAME_SIZE), 16);
    DownFacts(Wrap(fp - FRAME_SIZE));
    WrapOnce(d - 8);
    var sp := FrameAt(fp);
    assert sp == Wrap(d - 8);
    WrapOnce(fp + FPU_SIZE - sp);
    assert fp < 512 ==> fp <= 448;
    Step16(d, sp);
  }

  lemma Step16(d: int, sp: int)
    requires d % 16 == 0 && d >= 0 && sp == if d - 8 < 0 then d - 8 + WORD else d - 8
    ensures sp % 16 == 8
  {
  }

  /** Where the frame lands if it is accepted: the two areas do not meet, lie below
      the red zone and inside user memory, and the stack pointer is as after a call. */
  lemma Layout(rsp: nat, mapped: set<nat>)
    requires rsp < WORD && UserOk(mapped, FrameAt(FpuAt(rsp)), Wrap(FpuAt(rsp) + FPU_SIZE - FrameAt(FpuAt(rsp))))
    ensures var fp := FpuAt(rsp);
      var sp := FrameAt(fp);
      && sp + FRAME_SIZE <= fp && fp + FPU_SIZE <= rsp - RED_ZONE && fp + FPU_SIZE <= USER_END
      && sp % 16 == 8 && fp % 64 == 0
      && UserOk(mapped, sp + 8, UC_SIZE) && UserOk(mapped, fp, FPU_SIZE)
  {
    hide FpuAt, FrameAt, Wrap;
    FpuArea(rsp);
    FrameArea(FpuAt(rsp));
    var fp := FpuAt(rsp);
    var sp := FrameAt(fp);
    hide UserOk;
    Part(mapped, sp, Wrap(fp + FPU_SIZE - sp), sp + 8, UC_SIZE);
    Part(mapped, sp, Wrap(fp + FPU_SIZE - sp), fp, FPU_SIZE);
  }

  lemma Part(mapped: set<nat>, a: nat, m: nat, b: nat, n: nat)
    requires UserOk(mapped, a, m) && a <= b && b + n <= a + m && n > 0
    ensures UserOk(mapped, b, n)
  {
  }

  // ---- What sigreturn reads ----

  function ContextWord(mem: Memory, uc: nat, k: nat): Cell { Load(mem, uc + 8 * k) }

  /** The registers as sys_rt_sigreturn takes them from the ucontext at `uc`: only
      the arithmetic flags, the trap, direction and alignment flags are believed. */
  function Restored(mem: Memory, uc: nat): Regs {
    Regs(Num(ContextWord(mem, uc, 5)), Num(ContextWord(mem, uc, 6)), Num(ContextWord(mem, uc, 7)),
         Num(ContextWord(mem, uc, 8)), Num(ContextWord(mem, uc, 9)), Num(ContextWord(mem, uc, 10)),
         Num(ContextWord(mem, uc, 11)), Num(ContextWord(mem, uc, 12)), Num(ContextWord(mem, uc, 13)),
         Num(ContextWord(mem, uc, 14)), Num(ContextWord(mem, uc, 15)), Num(ContextWord(mem, uc, 16)),
         Num(ContextWord(mem, uc, 17)), Num(ContextWord(mem, uc, 18)), Num(ContextWord(mem, uc, 19)),
         Num(ContextWord(mem, uc, 20)), Num(ContextWord(mem, uc, 21)),
         SafeFlags(Bits(ContextWord(mem, uc, 22))), USER_CODE_SEL, USER_DATA_SEL, WORD - 1)
  }

  /** Registers that went through a frame: the selectors are the user's own, the
      flags are cut to the fixed mask, and no system call is there to restart. */
  function Back(r: Regs): Regs {
    r.(rflags := SafeFlags(r.rflags), cs := USER_CODE_SEL, ss := USER_DATA_SEL, intNo := WORD - 1)
  }

  function ContextMask(mem: Memory, uc: nat): Signals { FromWord(Num(ContextWord(mem, uc, 37))) }

  function ContextFpu(mem: Memory, uc: nat): U64 { Num(ContextWord(mem, uc, 28)) }

  /** `n` words from memory. */
  function LoadBits(mem: Memory, at: nat, n: nat): (bs: seq<bv64>)
    ensures |bs| == n && forall k :: 0 <= k < n ==> bs[k] == Bits(Load(mem, at + 8 * k))
  {
    seq(n, k requires 0 <= k < n => Bits(Load(mem, at + 8 * k)))
  }

  function Cells(bs: seq<bv64>): (cs: seq<Cell>)
    ensures |cs| == |bs| && forall k :: 0 <= k < |bs| ==> cs[k] == B(bs[k])
  {
    seq(|bs|, k requires 0 <= k < |bs| => B(bs[k]))
  }

  /** The memory once both areas were written. */
  function Written(mem: Memory, sp: nat, fp: nat, fpu: seq<bv64>, frame: seq<Cell>): Memory {
    Store(Store(mem, fp, Cells(fpu)), sp, frame)
  }

  ghost predicate SameWords(m: Memory, n: Memory, at: nat, count: nat) {
    forall k :: 0 <= k < count ==> ContextWord(n, at, k) == ContextWord(m, at, k)
  }

  /** The user has left the ucontext and the FPU area alone. */
  ghost predicate Untouched(m: Memory, n: Memory, sp: nat, fp: nat) {
    SameWords(m, n, sp + 8, 38) && SameWords(m, n, fp, 64)
  }

  lemma ContextThere(mem: Memory, sp: nat, fp: U64, fpu: seq<bv64>, r: Regs, was: Signals, sig: U64, restorer: U64,
                     k: nat)
    requires k < 38
    ensures ContextWord(Written(mem, sp, fp, fpu, Frame(r, was, fp, sig, restorer)), sp + 8, k) ==
      Context(r, was, fp)[k]
  {
    hide Context, Info;
    var f := Frame(r, was, fp, sig, restorer);
    assert f[k + 1] == Context(r, was, fp)[k];
    StoreAt(Store(mem, fp, Cells(fpu)), sp, f, k + 1);
    assert sp + 8 + 8 * k == sp + 8 * (k + 1);
  }

  lemma FpuThere(mem: Memory, sp: nat, fp: nat, fpu: seq<bv64>, frame: seq<Cell>, k: nat)
    requires |fpu| == 64 && k < 64 && sp + 8 * |frame| <= fp
    ensures ContextWord(Written(mem, sp, fp, fpu, frame), fp, k) == B(fpu[k])
  {
    StoreAt(mem, fp, Cells(fpu), k);
    StoreElse(Store(mem, fp, Cells(fpu)), sp, frame, fp + 8 * k);
  }

  /** Reading the frame back gives every register, and the flags up to the fixed mask. */
  lemma ReadBack(mem: Memory, n: Memory, sp: nat, fp: U64, fpu: seq<bv64>, r: Regs, was: Signals, sig: U64,
                 restorer: U64)
    requires |fpu| == 64 && sp + FRAME_SIZE <= fp && InRange(was)
    requires Untouched(Written(mem, sp, fp, fpu, Frame(r, was, fp, sig, restorer)), n, sp, fp)
    ensures Restored(n, sp + 8) == Back(r)
    ensures ContextMask(n, sp + 8) == was && ContextFpu(n, sp + 8) == fp && LoadBits(n, fp, 64) == fpu
  {
    hide Written, Frame, LoadBits, Restored, ContextMask, ContextFpu, Context, FromWord, ToWord, Back;
    MaskBack(was);
    var f := Frame(r, was, fp, sig, restorer);
    var m := Written(mem, sp, fp, fpu, f);
    var uc := sp + 8;
    forall k | 0 <= k < 38 ensures ContextWord(n, uc, k) == Context(r, was, fp)[k] {
      ContextThere(mem, sp, fp, fpu, r, was, sig, restorer, k);
      assert ContextWord(n, uc, k) == ContextWord(m, uc, k);
    }
    ReadRegs(n, uc, r, was, fp);
    forall k | 0 <= k < 64 ensures ContextWord(n, fp, k) == B(fpu[k]) {
      FpuThere(mem, sp, fp, fpu, f, k);
      assert ContextWord(n, fp, k) == ContextWord(m, fp, k);
    }
    ReadFpu(n, fp, fpu);
  }

  lemma ReadRegs(n: Memory, uc: nat, r: Regs, was: Signals, fp: U64)
    requires forall k :: 0 <= k < 38 ==> ContextWord(n, uc, k) == Context(r, was, fp)[k]
    ensures Restored(n, uc) == Back(r)
    ensures ContextMask(n, uc) == FromWord(ToWord(was)) && ContextFpu(n, uc) == fp
  {
    hide ContextWord, Context, FromWord, ToWord;
    ContextLow(r, was, fp);
    ContextHigh(r, was, fp);
  }

  lemma ContextLow(r: Regs, was: Signals, fp: U64)
    ensures var c := Context(r, was, fp);
      && c[5] == N(r.r8) && c[6] == N(r.r9) && c[7] == N(r.r10) && c[8] == N(r.r11) && c[9] == N(r.r12)
      && c[10] == N(r.r13)
      && c[11] == N(r.r14) && c[12] == N(r.r15) && c[13] == N(r.rdi) && c[14] == N(r.rsi)
  {
  }

  lemma ContextHigh(r: Regs, was: Signals, fp: U64)
    ensures var c := Context(r, was, fp);
      && c[15] == N(r.rbp) && c[16] == N(r.rbx) && c[17] == N(r.rdx) && c[18] == N(r.rax) && c[19] == N(r.rcx)
      && c[20] == N(r.rsp) && c[21] == N(r.rip) && c[22] == B(r.rflags) && c[28] == N(fp) && c[37] == N(ToWord(was))
  {
  }

  lemma ReadFpu(n: Memory, fp: nat, fpu: seq<bv64>)
    requires |fpu| == 64 && forall k :: 0 <= k < 64 ==> ContextWord(n, fp, k) == B(fpu[k])
    ensures LoadBits(n, fp, 64) == fpu
  {
    forall k | 0 <= k < 64 ensures LoadBits(n, fp, 64)[k] == fpu[k] {
      assert ContextWord(n, fp, k) == Load(n, fp + 8 * k);
    }
  }

  // ---- The process ----

  const SIG_DFL: U64 := 0
  const SIG_IGN: nat := 1

  /** The mask that sigreturn is to bring back. */
  function Mask(blocked: Signals, saved: Signals, restore: bool): Signals { if restore then saved else blocked }

  /** The registers a handler starts with. */
  function HandlerRegs(r: Regs, sp: U64, sig: U64, handler: U64): Regs {
    r.(rip := handler, rsp := sp, rdi := sig, rsi := Wrap(sp + 312), rdx := Wrap(sp + 8), rax := 0,
      rflags := StartFlags(r.rflags))
  }

  function HandlerMask(was: Signals, a: Action, sig: nat): Signals {
    Unblock(was + a.mask + (if a.nodefer then {} else {sig}))
  }

  /** The context at `uc` can be returned to. */
  predicate Acceptable(mapped: set<nat>, mem: Memory, uc: nat) {
    && UserOk(mapped, uc, UC_SIZE) && Restored(mem, uc).rip < USER_END
    && (ContextFpu(mem, uc) == 0 || UserOk(mapped, ContextFpu(mem, uc), FPU_SIZE))
  }

  lemma RipAndFpu(mem: Memory, uc: nat)
    ensures Restored(mem, uc).rip == Num(ContextWord(mem, uc, 21))
    ensures ContextFpu(mem, uc) == Num(ContextWord(mem, uc, 28))
  {
  }

  /** The process as the signal code sees it. */
  datatype View = View(regs: Regs, mem: Memory, mapped: set<nat>, pending: Signals, blocked: Signals, saved: Signals,
                       restore: bool, actions: seq<Action>, fpu: seq<bv64>)

  predicate ViewOk(v: View) {
    && |v.actions| == ProcTree.NSIG && |v.fpu| == 64
    && InRange(v.pending) && MaskOk(v.blocked) && MaskOk(v.saved)
    && (forall k :: 0 <= k < |v.actions| ==> MaskOk(v.actions[k].mask))
    && v.actions[ProcTree.SIGKILL - 1].handler == SIG_DFL && v.actions[SIGSTOP - 1].handler == SIG_DFL
  }

  predicate MaskOk(x: Signals) { InRange(x) && Clear(x) }

  /** The frame can be written: there is a restorer, and all of it is user memory. */
  predicate Room(v: View, sig: nat)
    requires 1 <= sig <= |v.actions| == ProcTree.NSIG
  {
    var fp := FpuAt(v.regs.rsp);
    v.actions[sig - 1].hasRestorer && UserOk(v.mapped, FrameAt(fp), Wrap(fp + FPU_SIZE - FrameAt(fp)))
  }

  /** What is on the stack once the frame for `sig` was written. */
  function Stacked(v: View, sig: nat): Memory
    requires 1 <= sig <= |v.actions| == ProcTree.NSIG
  {
    var fp := FpuAt(v.regs.rsp);
    Written(v.mem, FrameAt(fp), fp, v.fpu, Frame(v.regs, Mask(v.blocked, v.saved, v.restore), fp, sig,
      v.actions[sig - 1].restorer))
  }

  /** From `v` to `w`, the handler of `sig` is about to run on its frame. */
  ghost predicate Entered(v: View, w: View, sig: nat)
    requires 1 <= sig <= |v.actions| == ProcTree.NSIG
  {
    var a := v.actions[sig - 1];
    var fp := FpuAt(v.regs.rsp);
    && w.regs == HandlerRegs(v.regs, FrameAt(fp), sig, a.handler) && w.regs.rsp % 16 == 8
    && w.regs.rsp + FRAME_SIZE <= fp && fp + FPU_SIZE <= v.regs.rsp - RED_ZONE
    && w.mem == Stacked(v, sig) && w.mapped == v.mapped && w.fpu == v.fpu && w.pending == v.pending
    && w.saved == v.saved
    && w.blocked == HandlerMask(Mask(v.blocked, v.saved, v.restore), a, sig) && !w.restore
    && w.actions == if a.resethand then v.actions[sig - 1 := a.(handler := SIG_DFL)] else v.actions
  }

  /** The ucontext at `uc`, as the x86-64 system call interface of Linux lays it out. */
  ghost predicate ContextHolds(mem: Memory, uc: nat, r: Regs, was: Signals, fp: U64) {
    && Load(mem, uc + 40) == N(r.r8) && Load(mem, uc + 48) == N(r.r9) && Load(mem, uc + 56) == N(r.r10)
    && Load(mem, uc + 64) == N(r.r11) && Load(mem, uc + 72) == N(r.r12) && Load(mem, uc + 80) == N(r.r13)
    && Load(mem, uc + 88) == N(r.r14) && Load(mem, uc + 96) == N(r.r15) && Load(mem, uc + 104) == N(r.rdi)
    && Load(mem, uc + 112) == N(r.rsi) && Load(mem, uc + 120) == N(r.rbp) && Load(mem, uc + 128) == N(r.rbx)
    && Load(mem, uc + 136) == N(r.rdx) && Load(mem, uc + 144) == N(r.rax) && Load(mem, uc + 152) == N(r.rcx)
    && Load(mem, uc + 160) == N(r.rsp) && Load(mem, uc + 168) == N(r.rip) && Load(mem, uc + 176) == B(r.rflags)
    && Load(mem, uc + 224) == N(fp) && Load(mem, uc + 296) == N(ToWord(was))
  }

  ghost predicate FlagsStart(x: bv64, y: bv64) { y & 0x500 == 0 && y & !0x500 == x & !0x500 }

  lemma StartLaw(x: bv64)
    ensures FlagsStart(x, StartFlags(x))
  {
  }

  /** The registers of a handler: its three arguments, the stack as after a call, no trap
      and no direction flag, and the rest as it was. */
  ghost predicate StartsWith(r: Regs, y: Regs, sig: nat, handler: nat) {
    && y.rip == handler && y.rdi == sig && y.rsi == y.rsp + 312 && y.rdx == y.rsp + 8 && y.rax == 0
    && FlagsStart(r.rflags, y.rflags) && y.rsp % 16 == 8
    && y.r8 == r.r8 && y.r9 == r.r9 && y.r10 == r.r10 && y.r11 == r.r11 && y.r12 == r.r12 && y.r13 == r.r13
    && y.r14 == r.r14 && y.r15 == r.r15 && y.rbp == r.rbp && y.rbx == r.rbx && y.rcx == r.rcx
    && y.cs == r.cs && y.ss == r.ss && y.intNo == r.intNo
  }

  /** What the handler of `sig` finds: the restorer to return to, the signal number, the
      context it interrupted and the FPU state on its stack, nothing else of memory
      changed; the signals of its action blocked, and itself unless it asked not to. */
  ghost predicate Starts(v: View, w: View, sig: nat)
    requires 1 <= sig <= |v.actions| == ProcTree.NSIG && |v.fpu| == 64
  {
    var a, was := v.actions[sig - 1], if v.restore then v.saved else v.blocked;
    var fp := Num(Load(w.mem, w.regs.rdx + 224));
    && StartsWith(v.regs, w.regs, sig, a.handler)
    && Load(w.mem, w.regs.rsp) == N(a.restorer) && Load(w.mem, w.regs.rsi) == N(sig)
    && ContextHolds(w.mem, w.regs.rdx, v.regs, was, fp)
    && (forall k :: 0 <= k < 64 ==> Load(w.mem, fp + 8 * k) == B(v.fpu[k]))
    && fp % 64 == 0 && w.regs.rsp + 440 <= fp && fp + 512 <= v.regs.rsp - 128
    && (forall b: nat :: b < w.regs.rsp || b >= fp + 512 ==> Load(w.mem, b) == Load(v.mem, b))
    && (forall s ::
      s in w.blocked <==> s != 9 && s != 19 && (s in was || s in a.mask || (s == sig && !a.nodefer)))
    && !w.restore && w.pending == v.pending
    && w.actions == if a.resethand then v.actions[sig - 1 := a.(handler := 0)] else v.actions
  }

  lemma EnteredStarts(v: View, w: View, sig: nat)
    requires 1 <= sig <= |v.actions| == ProcTree.NSIG && |v.fpu| == 64 && Entered(v, w, sig) && Room(v, sig)
    ensures Starts(v, w, sig)
  {
    hide UserOk, FpuAt, FrameAt, Wrap, Frame, Context, Info, Store, ToWord, Down, FlagsStart, StartFlags;
    StartLaw(v.regs.rflags);
    var a, was := v.actions[sig - 1], Mask(v.blocked, v.saved, v.restore);
    var fp := FpuAt(v.regs.rsp);
    var sp := FrameAt(fp);
    Layout(v.regs.rsp, v.mapped);
    WrapOnce(sp + 312);
    WrapOnce(sp + 8);
    var f := Frame(v.regs, was, fp, sig, a.restorer);
    forall k | 0 <= k < 38 ensures Load(w.mem, sp + 8 + 8 * k) == Context(v.regs, was, fp)[k] {
      ContextThere(v.mem, sp, fp, v.fpu, v.regs, was, sig, a.restorer, k);
    }
    HoldsAt(w.mem, sp + 8, v.regs, was, fp);
    forall k | 0 <= k < 64 ensures Load(w.mem, fp + 8 * k) == B(v.fpu[k]) {
      FpuThere(v.mem, sp, fp, v.fpu, f, k);
    }
    FrameEnds(v.regs, was, fp, sig, a.restorer);
    StoreAt(Store(v.mem, fp, Cells(v.fpu)), sp, f, 0);
    StoreAt(Store(v.mem, fp, Cells(v.fpu)), sp, f, 39);
    forall b: nat | b < sp || b >= fp + 512 ensures Load(w.mem, b) == Load(v.mem, b) {
      StoreElse(Store(v.mem, fp, Cells(v.fpu)), sp, f, b);
      StoreElse(v.mem, fp, Cells(v.fpu), b);
    }
  }

  lemma RoomHas(v: View, sig: nat)
    requires 1 <= sig <= |v.actions| == ProcTree.NSIG && Room(v, sig)
    ensures v.actions[sig - 1].hasRestorer
  {
  }

  /** Every byte of both areas may be written. */
  lemma FrameBytes(v: View, w: View, sig: nat)
    requires 1 <= sig <= |v.actions| == ProcTree.NSIG && |v.fpu| == 64 && Entered(v, w, sig) && Room(v, sig)
    ensures forall a: nat :: w.regs.rsp <= a < Num(Load(w.mem, w.regs.rdx + 224)) + 512 ==> ByteOk(v.mapped, a)
  {
    hide UserOk, FpuAt, FrameAt, Wrap, Frame, Context, Info, Store, ToWord, Down, ByteOk;
    var fp := FpuAt(v.regs.rsp);
    var sp := FrameAt(fp);
    Layout(v.regs.rsp, v.mapped);
    FpuArea(v.regs.rsp);
    FrameArea(fp);
    WrapOnce(sp + 8);
    var was := Mask(v.blocked, v.saved, v.restore);
    ContextThere(v.mem, sp, fp, v.fpu, v.regs, was, sig, v.actions[sig - 1].restorer, 28);
    ContextHigh(v.regs, was, fp);
    assert Load(w.mem, sp + 8 + 8 * 28) == N(fp);
    UserOkIs(v.mapped, sp, Wrap(fp + FPU_SIZE - sp));
  }

  lemma FrameEnds(r: Regs, was: Signals, fp: U64, sig: U64, restorer: U64)
    ensures var f := Frame(r, was, fp, sig, restorer); f[0] == N(restorer) && f[39] == N(sig)
  {
    hide Context;
  }

  lemma HoldsAt(mem: Memory, uc: nat, r: Regs, was: Signals, fp: U64)
    requires forall k :: 0 <= k < 38 ==> Load(mem, uc + 8 * k) == Context(r, was, fp)[k]
    ensures ContextHolds(mem, uc, r, was, fp)
  {
    hide Context, ToWord, Load;
    ContextLow(r, was, fp);
    ContextHigh(r, was, fp);
    var c := Context(r, was, fp);
    forall k | 0 <= k < 38 ensures Load(mem, uc + 8 * k) == c[k] {
    }
    assert Load(mem, uc + 8 * 5) == c[5] && Load(mem, uc + 8 * 6) == c[6] && Load(mem, uc + 8 * 7) == c[7];
    assert Load(mem, uc + 8 * 8) == c[8] && Load(mem, uc + 8 * 9) == c[9] && Load(mem, uc + 8 * 10) == c[10];
    assert Load(mem, uc + 8 * 11) == c[11] && Load(mem, uc + 8 * 12) == c[12] && Load(mem, uc + 8 * 13) == c[13];
    assert Load(mem, uc + 8 * 14) == c[14] && Load(mem, uc + 8 * 15) == c[15] && Load(mem, uc + 8 * 16) == c[16];
    assert Load(mem, uc + 8 * 17) == c[17] && Load(mem, uc + 8 * 18) == c[18] && Load(mem, uc + 8 * 19) == c[19];
    assert Load(mem, uc + 8 * 20) == c[20] && Load(mem, uc + 8 * 21) == c[21] && Load(mem, uc + 8 * 22) == c[22];
    assert Load(mem, uc + 8 * 28) == c[28] && Load(mem, uc + 8 * 37) == c[37];
  }

  // ---- Which signal ----

  predicate Skips(a: Action, sig: nat) {
    a.handler == SIG_IGN || (a.handler == SIG_DFL && ProcTree.DefaultIgnored(sig))
  }

  /** Pending, not blocked, and not ignored. */
  predicate Due(v: View, sig: nat) {
    sig in v.pending && sig !in v.blocked && 1 <= sig <= |v.actions| && !Skips(v.actions[sig - 1], sig)
  }

  ghost predicate FirstDue(v: View, sig: nat) { Due(v, sig) && NoneDue(v, sig) }

  /** Nothing below `n` is due. */
  ghost predicate NoneDue(v: View, n: nat) { forall s: nat :: s < n ==> !Due(v, s) }

  /** The pending signals once those up to `sig` that are not blocked were taken. */
  function Left(pending: Signals, blocked: Signals, sig: nat): Signals {
    set s | s in pending && (s in blocked || s > sig)
  }

  lemma LeftNext(pending: Signals, blocked: Signals, last: nat, sig: nat)
    requires sig in Left(pending, blocked, last) - blocked
    requires forall s :: s in Left(pending, blocked, last) - blocked ==> sig <= s
    requires InRange(pending)
    ensures last < sig <= ProcTree.NSIG && sig in pending - blocked && InRange(Left(pending, blocked, sig))
    ensures Left(pending, blocked, last) - {sig} == Left(pending, blocked, sig)
    ensures forall s :: last < s < sig ==> s !in pending - blocked
  {
    forall s | last < s < sig ensures s !in pending - blocked {
      assert s in pending - blocked ==> s in Left(pending, blocked, last) - blocked;
    }
    forall s | s in Left(pending, blocked, last) && s != sig ensures s in Left(pending, blocked, sig) {
      assert s in blocked || s in Left(pending, blocked, last) - blocked;
    }
  }

  lemma LeftNone(pending: Signals, blocked: Signals, last: nat)
    requires Left(pending, blocked, last) <= blocked && last <= ProcTree.NSIG && InRange(pending)
    ensures Left(pending, blocked, last) == pending * blocked && forall s :: last < s ==> s !in pending - blocked
  {
    forall s | last < s ensures s !in pending - blocked {
      assert s in pending - blocked ==> s in Left(pending, blocked, last);
    }
  }

  /** The lowest signal of a set. */
  method Lowest(x: Signals) returns (sig: nat)
    requires x != {} && InRange(x)
    ensures sig in x && forall s :: s in x ==> sig <= s
  {
    sig := 1;
    ghost var some :| some in x;
    while sig !in x
      invariant 1 <= sig <= some && forall s :: s in x ==> sig <= s
      decreases some - sig
    {
      sig := sig + 1;
    }
  }

  // ---- System calls cut short ----

  /** syscall_dispatch: the number is kept, and the result put in its place. The CPU
      has moved rip past the two bytes of the instruction. */
  function Dispatched(r: Regs, result: U64): Regs { r.(intNo := r.rax, rip := Wrap(r.rip + 2), rax := result) }

  /** restart: the instruction is executed again. */
  function Restart(r: Regs): Regs { r.(rax := r.intNo, rip := Wrap(r.rip - 2)) }

  predicate Interrupted(r: Regs, fromSyscall: bool) { fromSyscall && r.rax == RESTART_WORD }

  /** What the handler's frame says of an interrupted call. */
  function Answered(r: Regs, fromSyscall: bool, a: Action): Regs {
    if Interrupted(r, fromSyscall) then (if a.restart then Restart(r) else r.(rax := EINTR_WORD)) else r
  }

  /** A restarted call finds every register as it was before the call. */
  lemma RestartUndoes(r: Regs, result: U64)
    ensures Restart(Dispatched(r, result)) == r.(intNo := r.rax)
  {
    WrapOnce(r.rip + 2 - WORD);
    assert Wrap(Wrap(r.rip + 2) - 2) == r.rip;
  }

  /** After the handler, the process repeats the call or sees EINTR. */
  lemma RestartedCall(r: Regs, a: Action)
    ensures Back(Answered(Dispatched(r, RESTART_WORD), true, a)) ==
      if a.restart then Back(r) else Back(r).(rip := Wrap(r.rip + 2), rax := EINTR_WORD)
  {
    RestartUndoes(r, RESTART_WORD);
  }

  /** How the kernel goes on: in user space, or the process ends with a status. */
  datatype Outcome = Resumes | Dies(status: nat)

  class Task {
    var regs: Regs
    var mem: Memory
    var mapped: set<nat>
    var pending: Signals
    var blocked: Signals
    var saved: Signals
    /** signal_mask_temp is in force; `saved` is the mask to go back to. */
    var restore: bool
    var actions: seq<Action>
    var fpu: seq<bv64>
    var pid: nat
    var isUser: bool

    ghost function Now(): View
      reads this
    {
      View(regs, mem, mapped, pending, blocked, saved, restore, actions, fpu)
    }

    /** SIGKILL and SIGSTOP are never blocked and never handled. */
    ghost predicate Valid()
      reads this
    {
      ViewOk(Now())
    }

    /** setup_frame: both areas are written below the red zone, and the handler is
        about to run; or nothing happens at all. */
    method SetupFrame(sig: nat) returns (ok: bool)
      requires Valid() && 1 <= sig <= ProcTree.NSIG
      modifies this`regs, this`mem, this`blocked, this`restore, this`actions
      ensures Valid() && (ok <==> Room(old(Now()), sig)) && |old(actions)| == 64 && |old(fpu)| == 64
      ensures if ok then Entered(old(Now()), Now(), sig) else Now() == old(Now())
      ensures ok ==> Starts(old(Now()), Now(), sig) && old(actions)[sig - 1].hasRestorer
      ensures ok ==> forall a: nat :: regs.rsp <= a < Num(Load(mem, regs.rdx + 224)) + 512 ==> ByteOk(mapped, a)
    {
      hide UserOk, MaskOk, Entered, Room, Starts, ByteOk;
      ghost var v := Now();
      ok := PushFrame(sig);
      if ok {
        RoomHas(v, sig);
        EnteredStarts(v, Now(), sig);
        FrameBytes(v, Now(), sig);
      }
    }

    method PushFrame(sig: nat) returns (ok: bool)
      requires Valid() && 1 <= sig <= ProcTree.NSIG
      modifies this`regs, this`mem, this`blocked, this`restore, this`actions
      ensures Valid() && (ok <==> Room(old(Now()), sig))
      ensures if ok then Entered(old(Now()), Now(), sig) else Now() == old(Now())
    {
      hide UserOk, FpuAt, FrameAt, Wrap, Frame, Store, Down, Cells, StartFlags, HandlerMask, MaskOk;
      var was := if restore then saved else blocked;
      var k := actions[sig - 1];
      if !k.hasRestorer { return false; }
      var fp := FpuAt(regs.rsp);
      var sp := FrameAt(fp);
      if !UserOk(mapped, sp, Wrap(fp + FPU_SIZE - sp)) { return false; }
      Layout(regs.rsp, mapped);
      var f := Frame(regs, was, fp, sig, k.restorer);
      mem := Store(mem, fp, Cells(fpu));
      mem := Store(mem, sp, f);
      regs := regs.(rip := k.handler, rsp := sp, rdi := sig, rsi := Wrap(sp + 312), rdx := Wrap(sp + 8), rax := 0,
        rflags := StartFlags(regs.rflags));
      HandlerClear(was, k, sig);
      blocked := HandlerMask(was, k, sig);
      restore := false;
      if k.resethand { actions := actions[sig - 1 := k.(handler := SIG_DFL)]; }
      return true;
    }

    /** signal_deliver: the lowest signal that is due is acted on, the ignored ones
        below it are dropped; `sig` is 0 if there is none. An interrupted call is
        restarted if no handler runs. */
    method Deliver(fromSyscall: bool) returns (out: Outcome, sig: nat)
      requires Valid()
      modifies this`regs, this`mem, this`pending, this`blocked, this`restore, this`actions
      ensures Valid() && (sig == 0 <==> !isUser || NoneDue(old(Now()), ProcTree.NSIG + 1))
      ensures sig == 0 ==> out == Resumes && Now() == Undisturbed(old(Now()), fromSyscall, isUser)
      ensures sig != 0 ==> FirstDue(old(Now()), sig) && (out.Dies? ==> Ends(old(Now()), sig, fromSyscall, out.status))
      ensures sig != 0 && out.Resumes? ==> old(actions)[sig - 1].handler != SIG_DFL
      ensures sig != 0 && out.Resumes? ==> Room(Facing(old(Now()), sig, fromSyscall), sig)
      ensures sig != 0 && out.Resumes? ==> Entered(Facing(old(Now()), sig, fromSyscall), Now(), sig)
      ensures sig == 0 ==> Resolves(old(regs), regs, Cut(old(regs), fromSyscall), true) && !restore
      ensures sig == 0 ==> blocked == if old(restore) then old(saved) else old(blocked)
      ensures sig != 0 ==> sig in old(pending) && sig !in old(blocked) && old(actions)[sig - 1].handler != 1
      ensures sig != 0 && old(actions)[sig - 1].handler == 0 ==> out == Dies(sig)
    {
      hide InRange, MaskOk, Entered, Room, Left, NoneDue, Due, Starts, ByteOk, Resolves, Cut;
      ghost var v := Now();
      UndisturbedLaw(v, fromSyscall, isUser);
      ghost var last := 0;
      Start(v);
      while isUser && !(pending <= blocked)
        invariant ViewOk(v) && Now() == v.(pending := Left(v.pending, v.blocked, last)) && last <= ProcTree.NSIG
        invariant NoneDue(v, last + 1) && (!isUser ==> last == 0)
        decreases ProcTree.NSIG - last
      {
        SomeReady(v.pending, pending, blocked, v.blocked, last);
        sig := Lowest(pending - blocked);
        LeftNext(v.pending, v.blocked, last, sig);
        NoneBelow(v, last, sig);
        pending := pending - {sig};
        var k := actions[sig - 1];
        last := sig;
        PassOver(v, sig);
        if k.handler == SIG_IGN || (k.handler == SIG_DFL && ProcTree.DefaultIgnored(sig)) { continue; }
        if k.handler == SIG_DFL { return Dies(sig), sig; }
        out := RunHandler(sig, fromSyscall);
        return;
      }
      NoneLeft(v, last, isUser);
      LetGo(fromSyscall);
      return Resumes, 0;
    }

    /** The part of signal_deliver that starts a handler; a call that was cut short is
        answered first. */
    method RunHandler(sig: nat, fromSyscall: bool) returns (out: Outcome)
      requires Valid() && 1 <= sig <= ProcTree.NSIG
      modifies this`regs, this`mem, this`blocked, this`restore, this`actions
      ensures Valid() && |old(actions)| == 64
      ensures var v := old(Now()).(regs := Answered(old(regs), fromSyscall, old(actions)[sig - 1]));
        if Room(v, sig) then out.Resumes? && Entered(v, Now(), sig) else out == Dies(SIGSEGV)
    {
      hide InRange, MaskOk, Entered, Room, Starts, ByteOk;
      var k := actions[sig - 1];
      if fromSyscall && regs.rax == RESTART_WORD {
        regs := if k.restart then Restart(regs) else regs.(rax := EINTR_WORD);
      }
      var ok := SetupFrame(sig);
      return if ok then Resumes else Dies(SIGSEGV);
    }

    /** The end of signal_deliver: nothing ran in user space, so an interrupted call is
        retried. */
    method LetGo(fromSyscall: bool)
      requires Valid()
      modifies this`regs, this`blocked, this`restore
      ensures Valid()
      ensures Now() == old(Now()).(restore := false, blocked := Mask(old(blocked), old(saved), old(restore)),
        regs := if Interrupted(old(regs), fromSyscall) then Restart(old(regs)) else old(regs))
    {
      if fromSyscall && regs.rax == RESTART_WORD { regs := Restart(regs); }
      MaskRestore();
    }

    /** signal_mask_temp: another mask until a handler runs or the call returns. */
    method MaskTemp(mask: nat)
      requires Valid()
      modifies this`saved, this`restore, this`blocked
      ensures Valid()
      ensures Now() == old(Now()).(saved := old(blocked), restore := true, blocked := Unblock(FromWord(mask)))
    {
      saved := blocked;
      restore := true;
      WordRange(mask);
      blocked := Unblock(FromWord(mask));
    }

    /** signal_mask_restore: no handler ran, back to the mask before. */
    method MaskRestore()
      requires Valid()
      modifies this`restore, this`blocked
      ensures Valid() && Now() == old(Now()).(restore := false, blocked := Mask(old(blocked), saved, old(restore)))
    {
      if restore {
        blocked := saved;
        restore := false;
      }
    }

    /** sys_rt_sigprocmask: 0 adds, 1 removes, 2 sets; SIGKILL and SIGSTOP stay out.
        `arg` is the mask handed in, if any, and `oset` whether the old one is asked
        for; `stored` is what is written there. */
    method Sigprocmask(how: int, size: int, arg: MaskArg, argBad: bool, oset: bool, osetBad: bool)
      returns (err: Errno, stored: MaskArg)
      requires Valid()
      modifies this`blocked
      ensures Valid() && err == MaskRefusal(how, size, arg, argBad, oset && osetBad)
      ensures stored == if size == 8 && oset && !osetBad then TheMask(ToWord(old(blocked))) else NoMask
      ensures err != Fine || arg.NoMask? ==> blocked == old(blocked)
      ensures err == Fine && arg.TheMask? ==>
        forall s :: s in blocked <==> Chosen(how, s, s in old(blocked), s in FromWord(arg.word))
    {
      hide FromWord, ToWord;
      stored := NoMask;
      if size != 8 { return Inval, stored; }
      if oset {
        if osetBad { return Fault, stored; }
        stored := TheMask(ToWord(blocked));
      }
      if arg.NoMask? { return Fine, stored; }
      if argBad { return Fault, stored; }
      if how !in {0, 1, 2} { return Inval, stored; }
      var m := FromWord(arg.word);
      WordRange(arg.word);
      blocked := Unblock(if how == 0 then blocked + m else if how == 1 then blocked - m else m);
      return Fine, stored;
    }

    /** sys_rt_sigaction. `act` is what the user hands in, if anything, its mask as a
        word; the flags say that an address is not user memory. A signal that is now
        ignored is no longer pending. */
    method Sigaction(sig: int, size: int, oactBad: bool, act: Given, actBad: bool) returns (err: Errno)
      requires Valid()
      modifies this`actions, this`pending
      ensures Valid() && err == Refusal(sig, size, oactBad, act, actBad)
      ensures err != Fine || act.Nothing? ==> Now() == old(Now())
      ensures err == Fine && act.Given? ==>
        actions == old(actions)[sig - 1 := act.action.(mask := Unblock(FromWord(act.mask)))]
      ensures err == Fine && act.Given? ==>
        forall s :: s in pending <==> s in old(pending) && (s == sig ==> !Unwanted(pid, act.action.handler, sig))
      ensures err == Fine && act.Given? ==>
        var h := act.action.handler;
        (sig in pending <==>
           sig in old(pending) && h != 1 && (h == 0 ==> pid != 1 && !(17 <= sig <= 23) && sig != 28))
    {
      hide FromWord;
      if sig < 1 || sig > ProcTree.NSIG || size != 8 { return Inval; }
      if act.Given? && (sig == ProcTree.SIGKILL || sig == SIGSTOP) { return Inval; }
      if oactBad { return Fault; }
      if act.Given? {
        if actBad { return Fault; }
        WordRange(act.mask);
        var k := act.action.(mask := Unblock(FromWord(act.mask)));
        assert MaskOk(k.mask);
        actions := actions[sig - 1 := k];
        if Unwanted(pid, k.handler, sig) { pending := pending - {sig}; }
      }
      return Fine;
    }

    /** sys_rt_sigreturn; a false result ends the process with SIGSEGV. */
    method Sigreturn() returns (ok: bool)
      requires Valid()
      modifies this`regs, this`blocked, this`fpu
      ensures Valid() && (ok <==> Acceptable(mapped, mem, old(regs.rsp)))
      ensures !ok ==> Now() == old(Now())
      ensures ok ==> regs == Restored(mem, old(regs.rsp)) && blocked == Unblock(ContextMask(mem, old(regs.rsp)))
      ensures ok ==> |old(fpu)| == 64 && fpu == if ContextFpu(mem, old(regs.rsp)) == 0 then old(fpu)
        else Clean(LoadBits(mem, ContextFpu(mem, old(regs.rsp)), 64))
      ensures ok && ContextFpu(mem, old(regs.rsp)) != 0 ==>
        FpuBack(LoadBits(mem, ContextFpu(mem, old(regs.rsp)), 64), fpu)
      ensures ok ==> forall s :: s in blocked <==> s in ContextMask(mem, old(regs.rsp)) && s != 9 && s != 19
    {
      hide UserOk, FpuBack, Clean, ContextWord, Num, Bits, Restored, ContextFpu, FromWord, LoadBits;
      var uc := regs.rsp;
      RipAndFpu(mem, uc);
      if !UserOk(mapped, uc, UC_SIZE) { return false; }
      var rip := Num(ContextWord(mem, uc, 21));
      var state := Num(ContextWord(mem, uc, 28));
      if rip >= USER_END || (state != 0 && !UserOk(mapped, state, FPU_SIZE)) { return false; }
      regs := Restored(mem, uc);
      if state != 0 {
        CleanLaw(LoadBits(mem, state, 64));
        fpu := Clean(LoadBits(mem, state, 64));
      }
      WordRange(Num(ContextWord(mem, uc, 37)));
      blocked := Unblock(ContextMask(mem, uc));
      return true;
    }
  }

  datatype MaskArg = NoMask | TheMask(word: nat)

  /** What sigprocmask says. */
  function MaskRefusal(how: int, size: int, arg: MaskArg, argBad: bool, osetBad: bool): Errno {
    if size != 8 then Inval else if osetBad then Fault else if arg.NoMask? then Fine
    else if argBad then Fault else if how in {0, 1, 2} then Fine else Inval
  }

  datatype Given = Nothing | Given(action: Action, mask: nat)

  datatype Errno = Fine | Inval | Fault

  predicate Unwanted(pid: nat, handler: nat, sig: int) {
    if sig == ProcTree.SIGKILL then pid == ProcTree.INIT_PID
    else handler == SIG_IGN || (handler == SIG_DFL && (ProcTree.DefaultIgnored(sig) || pid == ProcTree.INIT_PID))
  }

  /** What sigaction says; SIGKILL and SIGSTOP may be asked about, not changed. */
  function Refusal(sig: int, size: int, oactBad: bool, act: Given, actBad: bool): Errno {
    if !(1 <= sig <= ProcTree.NSIG && size == 8) || (act.Given? && sig in {ProcTree.SIGKILL, SIGSTOP}) then Inval
    else if oactBad || (act.Given? && actBad) then Fault else Fine
  }

  /** Whether `s` is blocked after sigprocmask, if it was or was not before. */
  predicate Chosen(how: int, s: nat, before: bool, named: bool) {
    s != ProcTree.SIGKILL && s != SIGSTOP && if how == 0 then before || named else if how == 1 then before && !named
      else named
  }

  /** Nothing was due: what is pending is blocked, the call is retried, and a mask
      of sigsuspend is over. */
  function Undisturbed(v: View, fromSyscall: bool, isUser: bool): View {
    v.(pending := if isUser then v.pending * v.blocked else v.pending,
       restore := false, blocked := Mask(v.blocked, v.saved, v.restore),
       regs := if Interrupted(v.regs, fromSyscall) then Restart(v.regs) else v.regs)
  }

  /** The process as the handler of `sig` finds it. */
  function Facing(v: View, sig: nat, fromSyscall: bool): View
    requires 1 <= sig <= |v.actions| == ProcTree.NSIG
  {
    v.(pending := Left(v.pending, v.blocked, sig), regs := Answered(v.regs, fromSyscall, v.actions[sig - 1]))
  }

  /** A call cut short by a signal: it is made again if no handler runs or the handler's
      action says so, and answered with EINTR otherwise. */
  ghost predicate Resolves(r: Regs, y: Regs, cut: bool, again: bool) {
    if !cut then y == r
    else if again then
      y == r.(rax := r.intNo, rip := if r.rip >= 2 then r.rip - 2 else r.rip + 0xFFFF_FFFF_FFFF_FFFE)
    else y == r.(rax := 0xFFFF_FFFF_FFFF_FFFC)
  }

  /** The call was from user space and ended with -ERESTARTSYS. */
  ghost predicate Cut(r: Regs, fromSyscall: bool) { fromSyscall && r.rax == 0xFFFF_FFFF_FFFF_FE00 }

  lemma AnsweredLaw(r: Regs, fromSyscall: bool, a: Action)
    ensures Resolves(r, Answered(r, fromSyscall, a), Cut(r, fromSyscall), a.restart)
  {
    WrapOnce(r.rip - 2);
  }

  lemma FacingLaw(v: View, sig: nat, fromSyscall: bool)
    requires 1 <= sig <= |v.actions| == ProcTree.NSIG
    ensures var f := Facing(v, sig, fromSyscall);
      && f == v.(pending := f.pending, regs := f.regs)
      && (forall s :: s in f.pending <==> s in v.pending && (s in v.blocked || s > sig))
      && Resolves(v.regs, f.regs, Cut(v.regs, fromSyscall), v.actions[sig - 1].restart)
  {
    AnsweredLaw(v.regs, fromSyscall, v.actions[sig - 1]);
  }

  lemma UndisturbedLaw(v: View, fromSyscall: bool, isUser: bool)
    ensures var w := Undisturbed(v, fromSyscall, isUser);
      && w == v.(pending := w.pending, blocked := w.blocked, restore := false, regs := w.regs)
      && (forall s :: s in w.pending <==> s in v.pending && (isUser ==> s in v.blocked))
      && w.blocked == (if v.restore then v.saved else v.blocked)
      && Resolves(v.regs, w.regs, Cut(v.regs, fromSyscall), true)
  {
    WrapOnce(v.regs.rip - 2);
  }

  /** Why a signal ends the process: its default, or no room for the frame. */
  predicate Ends(v: View, sig: nat, fromSyscall: bool, status: nat)
    requires 1 <= sig <= |v.actions| == ProcTree.NSIG
  {
    if v.actions[sig - 1].handler == SIG_DFL then status == sig
      else status == SIGSEGV && !Room(Facing(v, sig, fromSyscall), sig)
  }

  lemma Start(v: View)
    requires InRange(v.pending)
    ensures NoneDue(v, 1) && Left(v.pending, v.blocked, 0) == v.pending
  {
    LeftAll(v.pending, v.blocked);
  }

  lemma NoneBelow(v: View, last: nat, sig: nat)
    requires NoneDue(v, last + 1) && forall s :: last < s < sig ==> s !in v.pending - v.blocked
    ensures NoneDue(v, sig)
  {
    forall s: nat | s < sig ensures !Due(v, s) {
      assert s > last ==> s !in v.pending - v.blocked;
    }
  }

  lemma PassOver(v: View, sig: nat)
    requires NoneDue(v, sig) && sig in v.pending - v.blocked && 1 <= sig <= |v.actions|
    ensures if Skips(v.actions[sig - 1], sig) then NoneDue(v, sig + 1)
      else FirstDue(v, sig) && !NoneDue(v, |v.actions| + 1)
  {
    hide Skips;
    assert !Skips(v.actions[sig - 1], sig) ==> Due(v, sig);
  }

  lemma NoneLeft(v: View, last: nat, isUser: bool)
    requires NoneDue(v, last + 1) && InRange(v.pending) && last <= ProcTree.NSIG && (!isUser ==> last == 0)
    requires isUser ==> Left(v.pending, v.blocked, last) <= v.blocked
    ensures isUser ==> NoneDue(v, ProcTree.NSIG + 1) && Left(v.pending, v.blocked, last) == v.pending * v.blocked
    ensures !isUser ==> Left(v.pending, v.blocked, last) == v.pending
    ensures InRange(Left(v.pending, v.blocked, last))
  {
    assert InRange(Left(v.pending, v.blocked, last));
    hide Left, InRange;
    if isUser {
      LeftNone(v.pending, v.blocked, last);
      NoneBelow(v, last, ProcTree.NSIG + 1);
    } else {
      LeftAll(v.pending, v.blocked);
    }
  }

  lemma LeftAll(pending: Signals, blocked: Signals)
    requires InRange(pending)
    ensures Left(pending, blocked, 0) == pending
  {
  }

  lemma SomeReady(all: Signals, pending: Signals, blocked: Signals, mask: Signals, last: nat)
    requires pending == Left(all, mask, last) && blocked == mask && InRange(all) && !(pending <= blocked)
    ensures pending - blocked != {} && InRange(pending - blocked)
  {
    var s :| s in pending && s !in blocked;
    assert s in pending - blocked;
  }

  /** Reserved bits of the SSE control word are dropped. */
  function Clean(fpu: seq<bv64>): (r: seq<bv64>)
    requires |fpu| == 64
    ensures |r| == 64
  {
    fpu[3 := fpu[3] & 0xFFFF_FFFF_0000_FFBF]
  }

  lemma HandlerClear(was: Signals, a: Action, sig: nat)
    requires MaskOk(was) && MaskOk(a.mask) && 1 <= sig <= ProcTree.NSIG
    ensures MaskOk(HandlerMask(was, a, sig))
  {
  }

  /** The frame for `sig`, left alone, holds what to go back to. */
  lemma FrameReads(v: View, left: Memory, sig: nat)
    requires 1 <= sig <= |v.actions| == ProcTree.NSIG && |v.fpu| == 64 && MaskOk(Mask(v.blocked, v.saved, v.restore))
    requires Room(v, sig)
    requires Untouched(Stacked(v, sig), left, FrameAt(FpuAt(v.regs.rsp)), FpuAt(v.regs.rsp))
    ensures var fp := FpuAt(v.regs.rsp);
      var uc := FrameAt(fp) + 8;
      && (Acceptable(v.mapped, left, uc) <==> v.regs.rip < USER_END) && Restored(left, uc) == Back(v.regs)
      && Unblock(ContextMask(left, uc)) == Mask(v.blocked, v.saved, v.restore) && ContextFpu(left, uc) == fp != 0
      && LoadBits(left, fp, 64) == v.fpu
  {
    hide UserOk, FpuAt, FrameAt, Wrap, Frame, Written, Restored, ContextMask, ContextFpu, LoadBits, Untouched;
    var fp := FpuAt(v.regs.rsp);
    var was := Mask(v.blocked, v.saved, v.restore);
    MaskKept(was);
    Layout(v.regs.rsp, v.mapped);
    ReadBack(v.mem, left, FrameAt(fp), fp, v.fpu, v.regs, was, sig, v.actions[sig - 1].restorer);
  }

  lemma MaskKept(x: Signals)
    requires MaskOk(x)
    ensures InRange(x) && Unblock(x) == x
  {
  }

  lemma DueSome(v: View, sig: nat)
    requires FirstDue(v, sig)
    ensures 1 <= sig <= |v.actions| && !NoneDue(v, |v.actions| + 1)
  {
    assert Due(v, sig);
  }

  lemma OneFirst(v: View, s: nat, t: nat)
    requires FirstDue(v, s) && FirstDue(v, t)
    ensures s == t
  {
    assert Due(v, s) && Due(v, t);
  }

  /** The registers before a handler ran and after it returned. All general registers
      are the same but for the answer of a call cut short; the arithmetic, trap,
      direction and alignment flags are the same, interrupts are on, and every other
      flag is clear. */
  ghost predicate CameBack(r: Regs, y: Regs, cut: bool, restart: bool) {
    && y.r8 == r.r8 && y.r9 == r.r9 && y.r10 == r.r10 && y.r11 == r.r11 && y.r12 == r.r12 && y.r13 == r.r13
    && y.r14 == r.r14 && y.r15 == r.r15 && y.rdi == r.rdi && y.rsi == r.rsi && y.rbp == r.rbp && y.rbx == r.rbx
    && y.rdx == r.rdx && y.rcx == r.rcx && y.rsp == r.rsp
    && y.rax == (if !cut then r.rax else if restart then r.intNo else 0xFFFF_FFFF_FFFF_FFFC)
    && y.rip == (if !cut || !restart then r.rip else if r.rip >= 2 then r.rip - 2 else r.rip + 0xFFFF_FFFF_FFFF_FFFE)
    && FlagsBack(r.rflags, y.rflags)
    && y.cs == 0x23 && y.ss == 0x1B && y.intNo == 0xFFFF_FFFF_FFFF_FFFF
  }

  ghost predicate FlagsBack(x: bv64, y: bv64) {
    y & 0x4_0DD5 == x & 0x4_0DD5 && y & 0x202 == 0x202 && y & !0x4_0FD7 == 0
  }

  lemma FlagsLaw(x: bv64)
    ensures FlagsBack(x, SafeFlags(x))
  {
  }

  /** The SSE control word is the lower half of a word, and loses its reserved bits. */
  ghost predicate ControlBack(x: bv64, y: bv64) {
    y & 0xFFFF_FFFF_0000_0000 == x & 0xFFFF_FFFF_0000_0000 && y & 0xFFFF_FFFF == x & 0xFFBF
  }

  lemma ControlLaw(x: bv64)
    ensures ControlBack(x, x & 0xFFFF_FFFF_0000_FFBF)
  {
  }

  /** The FPU state comes back word by word, but for the control word in word 3. */
  ghost predicate FpuBack(a: seq<bv64>, b: seq<bv64>) {
    |a| == |b| == 64 && (forall k :: 0 <= k < 64 && k != 3 ==> b[k] == a[k]) && ControlBack(a[3], b[3])
  }

  lemma CleanLaw(fpu: seq<bv64>)
    requires |fpu| == 64
    ensures FpuBack(fpu, Clean(fpu))
  {
    hide ControlBack;
    ControlLaw(fpu[3]);
  }

  lemma AnsweredBack(r: Regs, fromSyscall: bool, a: Action)
    ensures CameBack(r, Back(Answered(r, fromSyscall, a)), Cut(r, fromSyscall), a.restart)
  {
    hide SafeFlags, FlagsBack, Answered;
    FlagsLaw(r.rflags);
    AnsweredLaw(r, fromSyscall, a);
  }

  /** A handler runs on its frame and returns: whatever it did to the registers and
      to the rest of memory, if it left the frame alone and its stack pointer is where
      it was, sigreturn restores the registers, the FPU and the mask. It refuses
      exactly when the address to go back to is no user address. */
  method RoundTrip(t: Task, sig: nat, fromSyscall: bool, after: Regs, left: Memory, mask: Signals)
    returns (out: Outcome, back: bool)
    requires t.Valid() && t.isUser && FirstDue(t.Now(), sig) && t.actions[sig - 1].handler != SIG_DFL
    requires after.rsp == FrameAt(FpuAt(t.regs.rsp)) + 8 && MaskOk(mask)
    requires Untouched(Stacked(Facing(t.Now(), sig, fromSyscall), sig), left, FrameAt(FpuAt(t.regs.rsp)),
      FpuAt(t.regs.rsp))
    modifies t
    ensures t.Valid() && (out.Resumes? <==> Room(Facing(old(t.Now()), sig, fromSyscall), sig)) && |old(t.actions)| == 64
    ensures out.Resumes? ==> (back <==> Answered(old(t.regs), fromSyscall, old(t.actions)[sig - 1]).rip < USER_END)
    ensures out.Resumes? && back ==> t.regs == Back(Answered(old(t.regs), fromSyscall, old(t.actions)[sig - 1]))
    ensures out.Resumes? && back ==> t.blocked == Mask(old(t.blocked), old(t.saved), old(t.restore))
    ensures out.Resumes? && back ==> |old(t.fpu)| == 64 && t.fpu == Clean(old(t.fpu))
    ensures out.Resumes? && back ==>
      CameBack(old(t.regs), t.regs, Cut(old(t.regs), fromSyscall), old(t.actions)[sig - 1].restart)
    ensures out.Resumes? && back ==> FpuBack(old(t.fpu), t.fpu)
    ensures out.Resumes? && back ==> t.blocked == if old(t.restore) then old(t.saved) else old(t.blocked)
  {
    hide FpuBack, CameBack, Cut;
    hide UserOk, FpuAt, FrameAt, Wrap, Restored, ContextMask, ContextFpu, LoadBits, Untouched, MaskOk, Stacked;
    hide Acceptable, Clean, NoneDue, Due, Left, Room, Entered, Back;
    DueSome(t.Now(), sig);
    AnsweredBack(t.regs, fromSyscall, t.actions[sig - 1]);
    CleanLaw(t.fpu);
    ghost var v := Facing(t.Now(), sig, fromSyscall);
    var taken;
    out, taken := t.Deliver(fromSyscall);
    OneFirst(old(t.Now()), sig, taken);
    back := false;
    if out.Resumes? {
      back := ComeBack(t, v, sig, after, left, mask);
    }
  }

  /** A handler that was started in the state `v` and left its frame alone returns. */
  method ComeBack(t: Task, ghost v: View, ghost sig: nat, after: Regs, left: Memory, mask: Signals)
    returns (back: bool)
    requires t.Valid() && t.mapped == v.mapped && MaskOk(mask) && |v.fpu| == 64
    requires 1 <= sig <= |v.actions| == ProcTree.NSIG && Room(v, sig) && MaskOk(Mask(v.blocked, v.saved, v.restore))
    requires after.rsp == FrameAt(FpuAt(v.regs.rsp)) + 8
    requires Untouched(Stacked(v, sig), left, FrameAt(FpuAt(v.regs.rsp)), FpuAt(v.regs.rsp))
    modifies t
    ensures t.Valid() && (back <==> v.regs.rip < USER_END)
    ensures back ==> t.regs == Back(v.regs) && t.blocked == Mask(v.blocked, v.saved, v.restore) && t.fpu == Clean(v.fpu)
  {
    hide UserOk, FpuAt, FrameAt, Wrap, Restored, ContextMask, ContextFpu, LoadBits, Untouched, MaskOk, Stacked;
    hide Acceptable, Clean, Room, Back, Mask;
    FrameReads(v, left, sig);
    t.regs, t.mem, t.blocked := after, left, mask;
    back := t.Sigreturn();
  }

  /** sigreturn as a system call: dispatched, and followed by delivery like any
      other. The process goes on with the registers of the frame exactly when their
      rax is not the result of a call to restart; if it is, rip comes out two lower
      and rax is lost. */
  method SigreturnCall(t: Task) returns (ok: bool, out: Outcome, sig: nat)
    requires t.Valid()
    modifies t
    ensures t.Valid() && (ok <==> Acceptable(t.mapped, old(t.mem), old(t.regs.rsp))) && (!ok ==> out == Dies(SIGSEGV))
    ensures ok && sig == 0 ==> t.regs == Resumed(Restored(old(t.mem), old(t.regs.rsp)))
    ensures ok && sig == 0 ==>
      (t.regs == Restored(old(t.mem), old(t.regs.rsp)) <==> Restored(old(t.mem), old(t.regs.rsp)).rax != RESTART_WORD)
    ensures ok && sig != 0 && out.Resumes? ==> 1 <= sig <= |old(t.actions)| == 64
    ensures ok && sig != 0 && out.Resumes? ==>
      t.regs == StartRegs(Restored(old(t.mem), old(t.regs.rsp)), sig, old(t.actions)[sig - 1])
  {
    hide Acceptable, MaskOk, InRange, Undisturbed, NoneDue, Stacked, Room, Entered, Facing, Resumed, StartRegs;
    hide Restored;
    hide ContextMask, ContextFpu, LoadBits, Clean, Due, Ends, Unblock;
    RestoredFresh(t.mem, t.regs.rsp);
    t.regs := t.regs.(intNo := t.regs.rax);
    ok := t.Sigreturn();
    out, sig := Dies(SIGSEGV), 0;
    if ok {
      ghost var v := t.Now();
      out, sig := t.Deliver(true);
      if sig == 0 {
        QuietReturn(v, t.isUser);
      } else {
        DueSome(v, sig);
        if out.Resumes? { HandlerReturn(v, t.Now(), sig); }
      }
    }
  }

  /** The registers after sigreturn, if no other handler runs. */
  function Resumed(r: Regs): Regs {
    if r.rax == RESTART_WORD then r.(rax := WORD - 1, rip := Wrap(r.rip - 2)) else r
  }

  lemma QuietReturn(v: View, isUser: bool)
    requires v.regs.intNo == WORD - 1
    ensures var r := Undisturbed(v, true, isUser).regs;
      r == Resumed(v.regs) && (r == v.regs <==> v.regs.rax != RESTART_WORD)
  {
    WrapOnce(v.regs.rip - 2);
  }

  lemma HandlerReturn(v: View, w: View, sig: nat)
    requires 1 <= sig <= |v.actions| == ProcTree.NSIG && Entered(Facing(v, sig, true), w, sig)
    ensures w.regs == StartRegs(v.regs, sig, v.actions[sig - 1])
  {
    hide FpuAt, FrameAt, HandlerMask, Stacked, Left;
  }

  /** A handler that starts right after a system call. */
  function StartRegs(r: Regs, sig: U64, a: Action): Regs {
    HandlerRegs(Answered(r, true, a), FrameAt(FpuAt(r.rsp)), sig, a.handler)
  }

  lemma RestoredFresh(mem: Memory, uc: nat)
    ensures Restored(mem, uc).intNo == WORD - 1
  {
  }

  /** A process interrupted with that value in rax is not resumed as it was. */
  lemma SpuriousRestart(r: Regs)
    requires r.rax == RESTART_WORD
    ensures Interrupted(Back(r), true) && Restart(Back(r)).rax != r.rax && Restart(Back(r)).rip != r.rip
  {
    WrapOnce(r.rip - 2);
  }

  /** The frame that the handler of `sig` was started on brings back the mask `m`. */
  ghost predicate BringsBack(w: View, sig: nat, m: Signals, r: Regs) {
    && 1 <= sig <= ProcTree.NSIG
    && exists v :: ViewOk(v) && Entered(v, w, sig) && Mask(v.blocked, v.saved, v.restore) == m && v.regs == r
  }

  /** The action is to do nothing. */
  predicate Ignores(a: Action, sig: nat) {
    a.handler == 1 || (a.handler == 0 && (17 <= sig <= 23 || sig == 28))
  }

  /** Nothing below `n` in `pending` is let through by `mask` and acted on. */
  ghost predicate Calm(pending: Signals, actions: seq<Action>, mask: nat, n: nat) {
    forall s :: s in pending && s < n && 1 <= s <= |actions| ==>
      (s in FromWord(mask) && s != 9 && s != 19) || Ignores(actions[s - 1], s)
  }

  lemma CalmIs(v: View, mask: nat, n: nat)
    requires v.blocked == Unblock(FromWord(mask))
    ensures NoneDue(v, n) <==> Calm(v.pending, v.actions, mask, n)
  {
    hide FromWord;
    forall s: nat | s < n && 1 <= s <= |v.actions|
      ensures Due(v, s) <==>
        s in v.pending && (s !in FromWord(mask) || s == 9 || s == 19) && !Ignores(v.actions[s - 1], s)
    {
    }
  }

  /** sys_rt_sigsuspend with the signals that arrive while it sleeps, and the delivery
      behind it. It refuses a mask of the wrong size or at a bad address. Only a signal
      that the given mask lets through is taken; if a handler starts, its frame holds
      the mask from before the call, and if none does, that mask is back at once. */
  method Suspend(t: Task, at: nat, size: int, arrived: Signals) returns (err: Errno, out: Outcome, sig: nat)
    requires t.Valid() && InRange(arrived)
    modifies t
    ensures err == if size != 8 then Inval else if !UserOk(old(t.mapped), at, 8) then Fault else Fine
    ensures t.Valid() && (err != Fine ==> t.Now() == old(t.Now()) && out == Resumes && sig == 0)
    ensures sig == 0 ==> out == Resumes && t.blocked == old(t.blocked) && (err == Fine ==> !t.restore)
    ensures sig != 0 ==> sig in old(t.pending) + arrived
    ensures sig != 0 ==>
      (sig !in FromWord(Num(Load(old(t.mem), at))) || sig == ProcTree.SIGKILL || sig == SIGSTOP)
    ensures sig != 0 && out.Resumes? ==>
      BringsBack(t.Now(), sig, old(t.blocked), old(t.regs).(rax := 0xFFFF_FFFF_FFFF_FFFC))
    ensures err == Fine && sig == 0 ==> t.regs == old(t.regs).(rax := 0xFFFF_FFFF_FFFF_FFFC)
    ensures err == Fine && t.isUser ==> Calm(old(t.pending) + arrived, old(t.actions), Num(Load(old(t.mem), at)),
      if sig == 0 then 65 else sig)
  {
    hide UserOk, FromWord, BringsBack, Calm;
    if size != 8 { return Inval, Resumes, 0; }
    if !UserOk(t.mapped, at, 8) { return Fault, Resumes, 0; }
    out, sig := SuspendOn(t, Num(Load(t.mem, at)), arrived);
    err := Fine;
  }

  /** The sleep of sigsuspend under `mask`. */
  method SuspendOn(t: Task, mask: nat, arrived: Signals) returns (out: Outcome, sig: nat)
    requires t.Valid() && InRange(arrived)
    modifies t
    ensures t.Valid() && (sig == 0 ==> out == Resumes && t.blocked == old(t.blocked) && !t.restore)
    ensures sig != 0 ==> sig in old(t.pending) + arrived
    ensures sig != 0 ==> (sig !in FromWord(mask) || sig == ProcTree.SIGKILL || sig == SIGSTOP)
    ensures sig != 0 && out.Resumes? ==>
      BringsBack(t.Now(), sig, old(t.blocked), old(t.regs).(rax := 0xFFFF_FFFF_FFFF_FFFC))
    ensures sig == 0 ==> t.regs == old(t.regs).(rax := 0xFFFF_FFFF_FFFF_FFFC)
    ensures t.isUser ==> Calm(old(t.pending) + arrived, old(t.actions), mask, if sig == 0 then 65 else sig)
  {
    hide FromWord, Entered, Room, NoneDue, Left, InRange, Skips, Calm, Ignores;
    ghost var m := t.blocked;
    t.MaskTemp(mask);
    ArrivedRange(t.pending, arrived);
    t.pending := t.pending + arrived;
    t.regs := t.regs.(rax := EINTR_WORD);
    ghost var v := t.Now();
    out, sig := t.Deliver(true);
    CalmIs(v, mask, if sig == 0 then 65 else sig);
    if sig != 0 {
      DueSome(v, sig);
      if out.Resumes? {
        LeftRange(v.pending, v.blocked, sig);
        assert ViewOk(Facing(v, sig, true)) && Entered(Facing(v, sig, true), t.Now(), sig);
      }
    }
  }

  lemma ArrivedRange(x: Signals, y: Signals)
    requires InRange(x) && InRange(y)
    ensures InRange(x + y)
  {
  }

  lemma LeftRange(pending: Signals, blocked: Signals, sig: nat)
    requires InRange(pending)
    ensures InRange(Left(pending, blocked, sig))
  {
  }
}
