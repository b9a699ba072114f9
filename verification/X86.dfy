/** The x86-64 form of the stub: instruction bytes (chapter 2 of volume 2 of the
    Intel 64 and IA-32 Architectures Software Developer's Manual), and a machine
    that fetches, decodes and runs them. */
module X86 {
  import opened ParallelMove
  import opened Stub
  import opened X86Moves

  const BIND_MAX_ARGS: nat := 6
  /** rax .. r15, in the order of their numbers. */
  const REGISTERS: nat := 16
  const RAX: nat := 0

  type Byte = b: int | 0 <= b < 256

  function BindSize(movs: nat, ldrs: nat, cycles: nat): nat {
    3 * (movs + cycles) + 10 * ldrs + 12
  }

  /** The register of an argument index (rdi, rsi, rdx, rcx, r8, r9), and rax. */
  function Hw(r: int): (h: nat)
    requires 0 <= r <= TMP
    ensures h < REGISTERS
  {
    [7, 6, 2, 1, 8, 9, 0][r]
  }

  // ---------------------------------------------------------------------
  // Instruction bytes
  // ---------------------------------------------------------------------

  function R2i(r: int): nat
    requires 0 <= r <= TMP
  {
    [7, 6, 2, 1, 0, 1, 0][r]
  }

  /** The bits joined here and in `ModRm` are different ones, so that the sum
      is their bitwise or. */
  function Rex(d: int, s: int): int {
    0x48 + (if s > 3 && s != TMP then 4 else 0) + if d > 3 && s != TMP then 1 else 0
  }

  function ModRm(d: int, s: int): int
    requires 0 <= d <= TMP && 0 <= s <= TMP
  {
    0xC0 + R2i(s) * 8 + R2i(d)
  }

  /** The `n` low bytes, the lowest first. */
  function Bytes(x: nat, n: nat): (r: seq<Byte>)
    ensures |r| == n
  {
    if n == 0 then [] else [x % 256] + Bytes(x / 256, n - 1)
  }

  function Value(bytes: seq<Byte>): nat {
    if bytes == [] then 0 else bytes[0] + 256 * Value(bytes[1..])
  }

  function Power(n: nat): nat {
    if n == 0 then 1 else 256 * Power(n - 1)
  }

  lemma {:induction false} ValueBytes(x: nat, n: nat)
    requires x < Power(n)
    ensures Value(Bytes(x, n)) == x
  {
    if n > 0 {
      ValueBytes(x / 256, n - 1);
      assert Bytes(x, n)[1..] == Bytes(x / 256, n - 1);
    }
  }

  /** mov d, s */
  function MovBytes(d: int, s: int): seq<Byte>
    requires 0 <= d <= TMP && 0 <= s <= TMP
  {
    [Rex(d, s), 0x89, ModRm(d, s)]
  }

  /** movabs d, x */
  function MoviBytes(d: int, x: nat): seq<Byte>
    requires 0 <= d <= TMP
  {
    [Rex(d, 0), 0xB8 + R2i(d)] + Bytes(x, 8)
  }

  /** movabs rax, x; jmp rax */
  function JumpBytes(x: nat): seq<Byte> {
    [0x48, 0xB8] + Bytes(x, 8) + [0xFF, 0xE0]
  }

  datatype Instr = MovReg(d: nat, s: nat) | MovImm(d: nat, val: nat) | JmpReg(r: nat) | Other

  /** The instruction at `a` and its length: the three that stubs use, with
      64-bit operands. */
  function Decode(mem: seq<Byte>, a: nat): (Instr, nat) {
    if a + 2 < |mem| && mem[a] / 8 == 9 && mem[a + 1] == 0x89 && mem[a + 2] / 64 == 3 then
      (MovReg(mem[a + 2] % 8 + 8 * (mem[a] % 2), mem[a + 2] / 8 % 8 + 8 * (mem[a] / 4 % 2)), 3)
    else if a + 9 < |mem| && mem[a] / 8 == 9 && mem[a + 1] / 8 == 23 then
      (MovImm(mem[a + 1] % 8 + 8 * (mem[a] % 2), Value(mem[a + 2..a + 10])), 10)
    else if a + 1 < |mem| && mem[a] == 0xFF && mem[a + 1] / 8 == 28 then (JmpReg(mem[a + 1] % 8), 2)
    else (Other, 1)
  }

  /** Bytes of known meaning: mov rdi, rax; mov r8, rsi; jmp rax; and the lowest
      byte of a number comes first. */
  lemma KnownBytes()
    ensures MovBytes(0, TMP) == [0x48, 0x89, 0xC7] && Decode([0x48, 0x89, 0xC7], 0) == (MovReg(7, 0), 3)
    ensures MovBytes(4, 1) == [0x49, 0x89, 0xF0] && Decode([0x49, 0x89, 0xF0], 0) == (MovReg(8, 6), 3)
    ensures Decode([0xFF, 0xE0], 0) == (JmpReg(0), 2)
    ensures Value([0x01, 0x02]) == 0x0201
  {
    var low: seq<Byte> := [0x01, 0x02];
    var high: seq<Byte> := [0x02];
    assert low[1..] == high && high[1..] == [];
    assert Value(high) == 2;
  }

  /** `bytes` are in memory at `a`. */
  ghost predicate At(mem: seq<Byte>, a: nat, bytes: seq<Byte>) {
    a + |bytes| <= |mem| && mem[a..a + |bytes|] == bytes
  }

  lemma AtByte(mem: seq<Byte>, a: nat, bytes: seq<Byte>, k: nat)
    requires At(mem, a, bytes) && k < |bytes|
    ensures a + |bytes| <= |mem| && mem[a + k] == bytes[k]
  {
    assert mem[a..a + |bytes|][k] == mem[a + k];
  }

  lemma AtPart(mem: seq<Byte>, a: nat, bytes: seq<Byte>, i: nat, j: nat)
    requires At(mem, a, bytes) && i <= j <= |bytes|
    ensures mem[a + i..a + j] == bytes[i..j]
  {
    forall k | 0 <= k < j - i ensures mem[a + i..a + j][k] == bytes[i..j][k] {
      AtByte(mem, a, bytes, i + k);
    }
  }

  /** What the bytes of a move are. */
  lemma DecodeMov(mem: seq<Byte>, a: nat, d: int, s: int)
    requires 0 <= d <= TMP && 0 <= s <= TMP && At(mem, a, MovBytes(d, s))
    ensures var m := Effect(Move(d, s));
            0 <= m.dst <= TMP && 0 <= m.src <= TMP && Decode(mem, a) == (MovReg(Hw(m.dst), Hw(m.src)), 3)
  {
    hide Rex, ModRm, At, Value;
    MovLength(d, s);
    AtByte(mem, a, MovBytes(d, s), 0);
    AtByte(mem, a, MovBytes(d, s), 1);
    AtByte(mem, a, MovBytes(d, s), 2);
    assert mem[a] == Rex(d, s) && mem[a + 1] == 0x89 && mem[a + 2] == ModRm(d, s);
    RexBits(d, s);
    ModRmBits(d, s);
  }

  lemma RexBits(d: int, s: int)
    ensures Rex(d, s) / 8 == 9
    ensures Rex(d, s) % 2 == if d > 3 && s != TMP then 1 else 0
    ensures Rex(d, s) / 4 % 2 == if s > 3 && s != TMP then 1 else 0
  {
  }

  lemma ModRmBits(d: int, s: int)
    requires 0 <= d <= TMP && 0 <= s <= TMP
    ensures ModRm(d, s) / 64 == 3 && ModRm(d, s) % 8 == R2i(d) && ModRm(d, s) / 8 % 8 == R2i(s)
  {
  }

  /** Which moves are encoded right: none from an argument register to rax, and
      from rax to one of the first four only. */
  lemma MovIsRight(mem: seq<Byte>, a: nat, d: int, s: int)
    requires 0 <= d <= TMP && 0 <= s <= TMP && At(mem, a, MovBytes(d, s))
    ensures Decode(mem, a).0 == MovReg(Hw(d), Hw(s)) <==> if d == TMP then s == TMP else s == TMP ==> d <= 3
  {
    DecodeMov(mem, a, d, s);
  }

  lemma DecodeMovi(mem: seq<Byte>, a: nat, d: int, x: nat)
    requires 0 <= d < TMP && x < USIZE && At(mem, a, MoviBytes(d, x))
    ensures Decode(mem, a) == (MovImm(Hw(d), x), 10)
  {
    AtByte(mem, a, MoviBytes(d, x), 0);
    AtByte(mem, a, MoviBytes(d, x), 1);
    assert mem[a] == Rex(d, 0) && mem[a + 1] == 0xB8 + R2i(d);
    ImmAt(mem, a, [Rex(d, 0), 0xB8 + R2i(d)], x, []);
  }

  lemma ImmAt(mem: seq<Byte>, a: nat, head: seq<Byte>, x: nat, tail: seq<Byte>)
    requires |head| == 2 && x < USIZE && At(mem, a, head + Bytes(x, 8) + tail)
    ensures a + 10 <= |mem| && Value(mem[a + 2..a + 10]) == x
  {
    AtPart(mem, a, head + Bytes(x, 8) + tail, 2, 10);
    assert (head + Bytes(x, 8) + tail)[2..10] == Bytes(x, 8);
    assert Power(8) == USIZE;
    ValueBytes(x, 8);
  }

  lemma DecodeJump(mem: seq<Byte>, a: nat, x: nat)
    requires x < USIZE && At(mem, a, JumpBytes(x))
    ensures Decode(mem, a) == (MovImm(RAX, x), 10) && Decode(mem, a + 10) == (JmpReg(RAX), 2)
  {
    AtByte(mem, a, JumpBytes(x), 0);
    AtByte(mem, a, JumpBytes(x), 1);
    AtByte(mem, a, JumpBytes(x), 10);
    AtByte(mem, a, JumpBytes(x), 11);
    ImmAt(mem, a, [0x48, 0xB8], x, [0xFF, 0xE0]);
  }

  // ---------------------------------------------------------------------
  // The machine
  // ---------------------------------------------------------------------

  /** The address of the next instruction and the registers while in the stub,
      then where it jumped. */
  datatype Machine = Running(pc: nat, regs: Regs) | Jumped(target: nat, regs: Regs) | Stuck

  function Step(mem: seq<Byte>, m: Machine): Machine {
    if !m.Running? || |m.regs| != REGISTERS then
      if m.Jumped? then m else Stuck
    else
      match Decode(mem, m.pc)
      case (MovReg(d, s), len) =>
        if d < REGISTERS && s < REGISTERS then Running(m.pc + len, m.regs[d := m.regs[s]]) else Stuck
      case (MovImm(d, val), len) =>
        if d < REGISTERS then Running(m.pc + len, m.regs[d := val]) else Stuck
      case (JmpReg(r), _) => if r < REGISTERS then Jumped(m.regs[r], m.regs) else Stuck
      case (Other, _) => Stuck
  }

  function Run(mem: seq<Byte>, m: Machine, steps: nat): Machine {
    if steps == 0 then m else Step(mem, Run(mem, m, steps - 1))
  }

  // ---------------------------------------------------------------------
  // What the laid bytes do
  // ---------------------------------------------------------------------

  predicate ArgMoves(code: seq<Move>) {
    forall k :: 0 <= k < |code| ==> 0 <= code[k].dst <= TMP && 0 <= code[k].src <= TMP
  }

  /** What moves do to the machine's registers. */
  function HwMove(m: Move): (r: Move)
    requires 0 <= m.dst <= TMP && 0 <= m.src <= TMP
    ensures 0 <= r.dst < REGISTERS && 0 <= r.src < REGISTERS
  {
    Move(Hw(Effect(m).dst), Hw(Effect(m).src))
  }

  function HwMoves(code: seq<Move>): (r: seq<Move>)
    requires ArgMoves(code)
    ensures |r| == |code|
    ensures forall k :: 0 <= k < |code| ==> r[k] == HwMove(code[k])
    ensures forall k :: 0 <= k < |code| ==> 0 <= r[k].dst < REGISTERS && 0 <= r[k].src < REGISTERS
  {
    seq(|code|, k requires 0 <= k < |code| => HwMove(code[k]))
  }

  function HwLoads(loads: seq<Load>): (r: seq<Load>)
    requires LoadsWithin(loads, BIND_MAX_ARGS)
    ensures |r| == |loads|
    ensures forall k :: 0 <= k < |loads| ==> r[k] == Load(Hw(loads[k].reg), loads[k].val)
  {
    seq(|loads|, k requires 0 <= k < |loads| => Load(Hw(loads[k].reg), loads[k].val))
  }

  /** Moves, then loads, then the jump. */
  ghost predicate Laid(mem: seq<Byte>, code: seq<Move>, loads: seq<Load>, f: nat)
    requires ArgMoves(code) && LoadsWithin(loads, BIND_MAX_ARGS)
  {
    && (forall k :: 0 <= k < |code| ==> At(mem, 3 * k, MovBytes(code[k].dst, code[k].src)))
    && (forall k :: 0 <= k < |loads| ==> At(mem, 3 * |code| + 10 * k, MoviBytes(loads[k].reg, loads[k].val)))
    && At(mem, 3 * |code| + 10 * |loads|, JumpBytes(f))
  }

  lemma StepMov(mem: seq<Byte>, pc: nat, regs: Regs, m: Move)
    requires |regs| == REGISTERS && 0 <= m.dst <= TMP && 0 <= m.src <= TMP && At(mem, pc, MovBytes(m.dst, m.src))
    ensures Step(mem, Running(pc, regs)) == Running(pc + 3, regs[HwMove(m).dst := regs[HwMove(m).src]])
  {
    hide Decode, At;
    DecodeMov(mem, pc, m.dst, m.src);
  }

  lemma StepMovi(mem: seq<Byte>, pc: nat, regs: Regs, d: nat, x: nat)
    requires |regs| == REGISTERS && d < TMP && x < USIZE && At(mem, pc, MoviBytes(d, x))
    ensures Step(mem, Running(pc, regs)) == Running(pc + 10, regs[Hw(d) := x])
  {
    hide Decode, At;
    DecodeMovi(mem, pc, d, x);
  }

  lemma StepJump(mem: seq<Byte>, pc: nat, regs: Regs, x: nat)
    requires |regs| == REGISTERS && x < USIZE && At(mem, pc, JumpBytes(x))
    ensures Step(mem, Step(mem, Running(pc, regs))) == Jumped(x, regs[RAX := x])
  {
    hide Decode, At;
    DecodeJump(mem, pc, x);
  }

  lemma RunNext(mem: seq<Byte>, m: Machine, n: nat)
    ensures Run(mem, m, n + 1) == Step(mem, Run(mem, m, n))
  {
  }

  lemma {:induction false} MovesRun(mem: seq<Byte>, code: seq<Move>, loads: seq<Load>, f: nat, regs: Regs, n: nat)
    requires ArgMoves(code) && LoadsWithin(loads, BIND_MAX_ARGS) && Laid(mem, code, loads, f)
    requires n <= |code| && |regs| == REGISTERS
    ensures Run(mem, Running(0, regs), n) == Running(3 * n, RunMoves(HwMoves(code)[..n], regs))
  {
    hide Step, At, HwMove;
    if n > 0 {
      var k := n - 1;
      MovesRun(mem, code, loads, f, regs, k);
      StepMov(mem, 3 * k, RunMoves(HwMoves(code)[..k], regs), code[k]);
      assert HwMoves(code)[..n][..k] == HwMoves(code)[..k];
    }
  }

  lemma {:induction false} LoadsRun(mem: seq<Byte>, code: seq<Move>, loads: seq<Load>, f: nat, regs: Regs, n: nat)
    requires ArgMoves(code) && LoadsWithin(loads, BIND_MAX_ARGS) && Laid(mem, code, loads, f)
    requires n <= |loads| && |regs| == REGISTERS
    ensures Run(mem, Running(0, regs), |code| + n)
            == Running(3 * |code| + 10 * n, RunLoads(HwLoads(loads)[..n], RunMoves(HwMoves(code), regs)))
  {
    hide Step, At, RunMoves, Hw, Run;
    var m := Running(0, regs);
    if n > 0 {
      var k := n - 1;
      LoadsRun(mem, code, loads, f, regs, k);
      RunNext(mem, m, |code| + k);
      StepMovi(mem, 3 * |code| + 10 * k, RunLoads(HwLoads(loads)[..k], RunMoves(HwMoves(code), regs)),
               loads[k].reg, loads[k].val);
      assert HwLoads(loads)[..n][..k] == HwLoads(loads)[..k];
    } else {
      MovesRun(mem, code, loads, f, regs, |code|);
      assert HwMoves(code)[..|code|] == HwMoves(code);
    }
  }

  /** The stub jumps to `f`. */
  lemma StubRuns(mem: seq<Byte>, code: seq<Move>, loads: seq<Load>, f: nat, regs: Regs)
    requires ArgMoves(code) && LoadsWithin(loads, BIND_MAX_ARGS) && Laid(mem, code, loads, f)
    requires |regs| == REGISTERS && f < USIZE
    ensures Run(mem, Running(0, regs), |code| + |loads| + 2)
            == Jumped(f, RunLoads(HwLoads(loads), RunMoves(HwMoves(code), regs))[RAX := f])
  {
    hide Step, At, RunMoves, RunLoads, Hw, Run;
    var m, n := Running(0, regs), |code| + |loads|;
    LoadsRun(mem, code, loads, f, regs, |loads|);
    assert HwLoads(loads)[..|loads|] == HwLoads(loads);
    StepJump(mem, 3 * |code| + 10 * |loads|, RunLoads(HwLoads(loads), RunMoves(HwMoves(code), regs)), f);
    RunNext(mem, m, n);
    RunNext(mem, m, n + 1);
  }

  /** Different indices are different registers. */
  lemma HwDiffer(r: int, t: int)
    requires 0 <= r <= TMP && 0 <= t <= TMP
    ensures Hw(r) == Hw(t) <==> r == t
    ensures Hw(r) == RAX <==> r == TMP
  {
  }

  lemma {:induction false} HwOrigin(code: seq<Move>, r: int)
    requires ArgMoves(code) && 0 <= r <= TMP
    ensures 0 <= RealOrigin(code, r) <= TMP && Origin(HwMoves(code), Hw(r)) == Hw(RealOrigin(code, r))
  {
    if code != [] {
      var n := |code| - 1;
      var m := Effect(code[n]);
      assert HwMoves(code)[..n] == HwMoves(code[..n]);
      HwDiffer(r, m.dst);
      HwOrigin(code[..n], if r == m.dst then m.src else r);
    }
  }

  /** Other registers are not written. */
  lemma {:induction false} HwOthers(code: seq<Move>, h: nat)
    requires ArgMoves(code) && forall r :: 0 <= r <= TMP ==> Hw(r) != h
    ensures Origin(HwMoves(code), h) == h
  {
    if code != [] {
      var n := |code| - 1;
      assert HwMoves(code)[..n] == HwMoves(code[..n]);
      assert Hw(Effect(code[n]).dst) != h;
      HwOthers(code[..n], h);
    }
  }

  // ---------------------------------------------------------------------
  // When the stub is right
  // ---------------------------------------------------------------------

  /** Every argument register holds what was asked for. */
  ghost predicate InPlace(args: seq<Arg>, regs: Regs, regs': Regs)
    requires ValidArgs(args, BIND_MAX_ARGS) && |regs| == REGISTERS
  {
    && |regs'| == REGISTERS
    && forall i :: 0 <= i < |args| ==>
         regs'[Hw(i)] == if args[i].Ldr? then args[i].val else regs[Hw(args[i].reg)]
  }

  /** No other register but rax has changed. */
  ghost predicate OthersKept(args: seq<Arg>, regs: Regs, regs': Regs)
    requires ValidArgs(args, BIND_MAX_ARGS)
  {
    && |regs'| == |regs|
    && forall h :: 0 <= h < |regs| && h != RAX && (forall i :: 0 <= i < |args| ==> Hw(i) != h) ==> regs'[h] == regs[h]
  }

  /** A call of the stub enters `f` with every argument in place. */
  ghost predicate CallEnters(mem: seq<Byte>, args: seq<Arg>, f: nat, steps: nat, regs: Regs)
    requires ValidArgs(args, BIND_MAX_ARGS) && |regs| == REGISTERS
  {
    var m := Run(mem, Running(0, regs), steps);
    m.Jumped? && m.target == f && InPlace(args, regs, m.regs) && OthersKept(args, regs, m.regs)
  }

  /** So does every call, whatever the registers hold. */
  ghost predicate Binds(mem: seq<Byte>, args: seq<Arg>, f: nat, steps: nat)
    requires ValidArgs(args, BIND_MAX_ARGS)
  {
    forall regs: Regs :: |regs| == REGISTERS ==> CallEnters(mem, args, f, steps, regs)
  }

  lemma ArgsAre(args: seq<Arg>)
    requires ValidArgs(args, BIND_MAX_ARGS)
    ensures OnArgs(Moves(args, TMP)) && LoadsWithin(Split(args).loads, BIND_MAX_ARGS)
    ensures forall l :: l in Split(args).loads ==> l.reg < |args|
  {
    MovesInRange(args, BIND_MAX_ARGS, TMP);
    LoadsInRange(args, BIND_MAX_ARGS);
    SplitFacts(args);
    var p := Moves(args, TMP);
    forall k | 0 <= k < |p.dst| ensures 0 <= p.dst[k] < TMP && 0 <= p.src[k] < TMP {
      assert p.dst[k] in p.dst && p.src[k] in p.src;
    }
  }

  lemma CodeOnArgs(p: Problem, code: seq<Move>)
    requires OnArgs(p) && Uses(p, code)
    ensures ArgMoves(code)
  {
  }

  /** The registers that the stub leaves to `f`. */
  function Ends(args: seq<Arg>, code: seq<Move>, regs: Regs): (r: Regs)
    requires ArgMoves(code) && LoadsWithin(Split(args).loads, BIND_MAX_ARGS) && |regs| == REGISTERS
    ensures |r| == REGISTERS
  {
    RunLoads(HwLoads(Split(args).loads), RunMoves(HwMoves(code), regs))
  }

  /** The loads reach their registers, and no others. */
  lemma LoadsEnd(args: seq<Arg>, code: seq<Move>, regs: Regs)
    requires ValidArgs(args, BIND_MAX_ARGS) && ArgMoves(code) && |regs| == REGISTERS
    requires LoadsWithin(Split(args).loads, BIND_MAX_ARGS)
    ensures forall l :: l in Split(args).loads ==> l.reg < TMP && Ends(args, code, regs)[Hw(l.reg)] == l.val
    ensures forall h :: 0 <= h < REGISTERS && (forall l :: l in Split(args).loads ==> l.reg < TMP && Hw(l.reg) != h) ==>
              Ends(args, code, regs)[h] == RunMoves(HwMoves(code), regs)[h]
  {
    hide Hw, RunMoves, RunLoads, HwMoves, Split;
    var loads := Split(args).loads;
    LoadsDistinct(args);
    forall j, k | 0 <= j < k < |loads| ensures HwLoads(loads)[j].reg != HwLoads(loads)[k].reg {
      HwDiffer(loads[j].reg, loads[k].reg);
    }
    RunLoadsAt(HwLoads(loads), RunMoves(HwMoves(code), regs));
    forall l | l in loads ensures l.reg < TMP && Ends(args, code, regs)[Hw(l.reg)] == l.val {
      var k :| 0 <= k < |loads| && loads[k] == l;
      assert HwLoads(loads)[k] == Load(Hw(l.reg), l.val);
    }
  }

  lemma LoadsDistinct(args: seq<Arg>)
    ensures var loads := Split(args).loads;
            forall j, k :: 0 <= j < k < |loads| ==> loads[j].reg != loads[k].reg
  {
    SplitFacts(args);
  }

  /** What an argument register holds in the end. */
  lemma ArgEnds(args: seq<Arg>, code: seq<Move>, regs: Regs, i: nat)
    requires ValidArgs(args, BIND_MAX_ARGS) && ArgMoves(code) && |regs| == REGISTERS && i < TMP
    requires LoadsWithin(Split(args).loads, BIND_MAX_ARGS)
    ensures 0 <= RealOrigin(code, i) <= TMP
    ensures Ends(args, code, regs)[Hw(i)]
            == if i < |args| && args[i].Ldr? then args[i].val else regs[Hw(RealOrigin(code, i))]
  {
    hide Ends, RealOrigin, Effect;
    var loads := Split(args).loads;
    LoadsEnd(args, code, regs);
    HwOrigin(code, i);
    RunMovesOrigin(HwMoves(code), regs, Hw(i));
    SplitFacts(args);
    if i < |args| && args[i].Ldr? {
      assert Load(i, args[i].val) in loads;
    } else {
      forall l | l in loads ensures Hw(l.reg) != Hw(i) {
        HwDiffer(l.reg, i);
      }
    }
  }

  /** Moves that are done put the arguments in place. */
  lemma DoneInPlace(args: seq<Arg>, code: seq<Move>, regs: Regs)
    requires ValidArgs(args, BIND_MAX_ARGS) && ArgMoves(code) && |regs| == REGISTERS
    requires OnArgs(Moves(args, TMP)) && LoadsWithin(Split(args).loads, BIND_MAX_ARGS)
    requires DoesMoves(Moves(args, TMP), code)
    ensures InPlace(args, regs, Ends(args, code, regs))
  {
    hide Ends, RealOrigin, Hw;
    var p, end := Moves(args, TMP), Ends(args, code, regs);
    SplitFacts(args);
    forall i | 0 <= i < |args| ensures end[Hw(i)] == if args[i].Ldr? then args[i].val else regs[Hw(args[i].reg)] {
      ArgEnds(args, code, regs, i);
      if args[i].Mov? {
        var k :| 0 <= k < |p.dst| && p.dst[k] == i;
        assert args[p.dst[k]].reg == p.src[k];
      }
    }
  }

  lemma DoneOthersKept(args: seq<Arg>, code: seq<Move>, regs: Regs)
    requires ValidArgs(args, BIND_MAX_ARGS) && ArgMoves(code) && |regs| == REGISTERS
    requires OnArgs(Moves(args, TMP)) && LoadsWithin(Split(args).loads, BIND_MAX_ARGS)
    requires forall l :: l in Split(args).loads ==> l.reg < |args|
    requires forall r :: 0 <= r < TMP && r !in Moves(args, TMP).dst ==> RealOrigin(code, r) == r
    ensures OthersKept(args, regs, Ends(args, code, regs))
  {
    hide Ends, RealOrigin, DoesMoves;
    var p, end := Moves(args, TMP), Ends(args, code, regs);
    SplitFacts(args);
    LoadsEnd(args, code, regs);
    forall h | 0 <= h < |regs| && h != RAX && (forall i :: 0 <= i < |args| ==> Hw(i) != h) ensures end[h] == regs[h] {
      if r :| |args| <= r < TMP && Hw(r) == h {
        assert r !in p.dst;
        ArgEnds(args, code, regs, r);
      } else {
        forall r | 0 <= r <= TMP ensures Hw(r) != h {
        }
        HwOthers(code, h);
        RunMovesOrigin(HwMoves(code), regs, h);
      }
    }
  }

  /** A move that is not done puts the wrong argument, if no two registers hold
      the same. */
  lemma UndoneNotInPlace(args: seq<Arg>, code: seq<Move>, regs: Regs)
    requires ValidArgs(args, BIND_MAX_ARGS) && ArgMoves(code) && |regs| == REGISTERS
    requires OnArgs(Moves(args, TMP)) && LoadsWithin(Split(args).loads, BIND_MAX_ARGS)
    requires forall g, h :: 0 <= g < h < |regs| ==> regs[g] != regs[h]
    requires !DoesMoves(Moves(args, TMP), code)
    ensures !InPlace(args, regs, Ends(args, code, regs))
  {
    hide Ends, RealOrigin, Hw;
    var p, end := Moves(args, TMP), Ends(args, code, regs);
    SplitFacts(args);
    var k :| 0 <= k < |p.dst| && RealOrigin(code, p.dst[k]) != p.src[k];
    var i := p.dst[k];
    ArgEnds(args, code, regs, i);
    assert args[i].Mov? && args[i].reg == p.src[k];
    HwDiffer(RealOrigin(code, i), p.src[k]);
    assert end[Hw(i)] != regs[Hw(args[i].reg)];
  }

  /** The stub is right if and only if the moves have no cycle. */
  lemma LaidBinds(mem: seq<Byte>, args: seq<Arg>, f: nat, code: seq<Move>)
    requires ValidArgs(args, BIND_MAX_ARGS) && f < USIZE
    requires Compiled(Moves(args, TMP), code) && ArgMoves(code)
    requires LoadsWithin(Split(args).loads, BIND_MAX_ARGS) && Laid(mem, code, Split(args).loads, f)
    ensures Moves(args, TMP).WellFormed()
    ensures Binds(mem, args, f, |code| + |Split(args).loads| + 2) <==> Cycles(Moves(args, TMP)) == {}
  {
    hide Compiled, Laid, Run, DoesMoves, InPlace, OthersKept, Split, RealOrigin, Ends;
    ArgsAre(args);
    MovesIffNoCycle(Moves(args, TMP), code);
    var steps := |code| + |Split(args).loads| + 2;
    if Cycles(Moves(args, TMP)) == {} {
      forall regs: Regs | |regs| == REGISTERS ensures CallEnters(mem, args, f, steps, regs) {
        CallIs(mem, args, f, code, regs);
        DoneInPlace(args, code, regs);
        DoneOthersKept(args, code, regs);
      }
    } else {
      var regs: Regs := seq(REGISTERS, h => h);
      CallIs(mem, args, f, code, regs);
      UndoneNotInPlace(args, code, regs);
      assert !CallEnters(mem, args, f, steps, regs);
    }
  }

  /** What a call of the stub comes to; rax holds `f` in the end. */
  lemma CallIs(mem: seq<Byte>, args: seq<Arg>, f: nat, code: seq<Move>, regs: Regs)
    requires ValidArgs(args, BIND_MAX_ARGS) && f < USIZE && ArgMoves(code) && |regs| == REGISTERS
    requires LoadsWithin(Split(args).loads, BIND_MAX_ARGS) && Laid(mem, code, Split(args).loads, f)
    ensures CallEnters(mem, args, f, |code| + |Split(args).loads| + 2, regs)
            <==> InPlace(args, regs, Ends(args, code, regs)) && OthersKept(args, regs, Ends(args, code, regs))
  {
    hide Laid, Run, RunLoads, RunMoves, HwMoves, HwLoads;
    StubRuns(mem, code, Split(args).loads, f, regs);
    forall i | 0 <= i < |args| ensures Hw(i) != RAX {
      HwDiffer(i, TMP);
    }
  }

  // ---------------------------------------------------------------------
  // The generator
  // ---------------------------------------------------------------------

  /** Writes `bytes` at `a` of `g`. */
  method Put(g: array<Byte>, a: nat, bytes: seq<Byte>)
    requires a + |bytes| <= g.Length
    modifies g
    ensures At(g[..], a, bytes)
    ensures forall k :: 0 <= k < g.Length && !(a <= k < a + |bytes|) ==> g[k] == old(g[k])
  {
    forall k | 0 <= k < |bytes| {
      g[a + k] := bytes[k];
    }
  }

  lemma AtStays(mem: seq<Byte>, mem': seq<Byte>, a: nat, bytes: seq<Byte>)
    requires At(mem, a, bytes) && |mem'| == |mem|
    requires forall k :: a <= k < a + |bytes| ==> mem'[k] == mem[k]
    ensures At(mem', a, bytes)
  {
    assert mem'[a..a + |bytes|] == mem[a..a + |bytes|];
  }

  ghost predicate MovesLaid(mem: seq<Byte>, code: seq<Move>, n: nat)
    requires ArgMoves(code) && n <= |code|
  {
    forall k :: 0 <= k < n ==> At(mem, 3 * k, MovBytes(code[k].dst, code[k].src))
  }

  ghost predicate LoadsLaid(mem: seq<Byte>, a: nat, loads: seq<Load>, n: nat)
    requires LoadsWithin(loads, BIND_MAX_ARGS) && n <= |loads|
  {
    forall k :: 0 <= k < n ==> At(mem, a + 10 * k, MoviBytes(loads[k].reg, loads[k].val))
  }

  /** Writing behind the first `n` moves keeps them. */
  lemma MovesStay(mem: seq<Byte>, mem': seq<Byte>, code: seq<Move>, n: nat)
    requires ArgMoves(code) && n <= |code| && MovesLaid(mem, code, n) && |mem'| == |mem|
    requires forall k :: 0 <= k < 3 * n && k < |mem| ==> mem'[k] == mem[k]
    ensures MovesLaid(mem', code, n)
  {
    forall k | 0 <= k < n ensures At(mem', 3 * k, MovBytes(code[k].dst, code[k].src)) {
      AtStays(mem, mem', 3 * k, MovBytes(code[k].dst, code[k].src));
    }
  }

  lemma LoadsStay(mem: seq<Byte>, mem': seq<Byte>, a: nat, loads: seq<Load>, n: nat)
    requires LoadsWithin(loads, BIND_MAX_ARGS) && n <= |loads| && LoadsLaid(mem, a, loads, n) && |mem'| == |mem|
    requires forall k :: a <= k < a + 10 * n && k < |mem| ==> mem'[k] == mem[k]
    ensures LoadsLaid(mem', a, loads, n)
  {
    forall k | 0 <= k < n ensures At(mem', a + 10 * k, MoviBytes(loads[k].reg, loads[k].val)) {
      AtStays(mem, mem', a + 10 * k, MoviBytes(loads[k].reg, loads[k].val));
    }
  }

  method EmitMoves(g: array<Byte>, code: seq<Move>)
    requires ArgMoves(code) && 3 * |code| <= g.Length
    modifies g
    ensures MovesLaid(g[..], code, |code|)
    ensures forall k :: 3 * |code| <= k < g.Length ==> g[k] == old(g[k])
  {
    hide At, MovBytes, MovesLaid;
    MovesNone(g[..], code);
    for i := 0 to |code|
      invariant MovesLaid(g[..], code, i)
      invariant forall k :: 3 * |code| <= k < g.Length ==> g[k] == old(g[k])
    {
      ghost var mem := g[..];
      var bytes := MovBytes(code[i].dst, code[i].src);
      MovLength(code[i].dst, code[i].src);
      Put(g, 3 * i, bytes);
      MovesStay(mem, g[..], code, i);
      MovesMore(g[..], code, i);
    }
  }

  lemma MovesNone(mem: seq<Byte>, code: seq<Move>)
    requires ArgMoves(code)
    ensures MovesLaid(mem, code, 0)
  {
  }

  lemma MovesMore(mem: seq<Byte>, code: seq<Move>, n: nat)
    requires ArgMoves(code) && n < |code| && MovesLaid(mem, code, n)
    requires At(mem, 3 * n, MovBytes(code[n].dst, code[n].src))
    ensures MovesLaid(mem, code, n + 1)
  {
    hide At, MovBytes;
  }

  lemma MovLength(d: int, s: int)
    requires 0 <= d <= TMP && 0 <= s <= TMP
    ensures |MovBytes(d, s)| == 3
  {
  }

  /** Writes the loads and the jump at `a` of `g`. */
  method EmitLoads(g: array<Byte>, a: nat, loads: seq<Load>, f: nat)
    requires LoadsWithin(loads, BIND_MAX_ARGS) && a + 10 * |loads| + 12 <= g.Length
    modifies g
    ensures LoadsLaid(g[..], a, loads, |loads|) && At(g[..], a + 10 * |loads|, JumpBytes(f))
    ensures forall k :: 0 <= k < g.Length && (k < a || a + 10 * |loads| + 12 <= k) ==> g[k] == old(g[k])
  {
    hide At, MoviBytes, JumpBytes, LoadsLaid;
    LoadsNone(g[..], a, loads);
    for i := 0 to |loads|
      invariant LoadsLaid(g[..], a, loads, i)
      invariant forall k :: 0 <= k < g.Length && (k < a || a + 10 * |loads| + 12 <= k) ==> g[k] == old(g[k])
    {
      ghost var mem := g[..];
      MoviLength(loads[i].reg, loads[i].val, f);
      Put(g, a + 10 * i, MoviBytes(loads[i].reg, loads[i].val));
      LoadsStay(mem, g[..], a, loads, i);
      LoadsMore(g[..], a, loads, i);
    }
    ghost var mem := g[..];
    MoviLength(0, 0, f);
    Put(g, a + 10 * |loads|, JumpBytes(f));
    LoadsStay(mem, g[..], a, loads, |loads|);
  }

  lemma LoadsNone(mem: seq<Byte>, a: nat, loads: seq<Load>)
    requires LoadsWithin(loads, BIND_MAX_ARGS)
    ensures LoadsLaid(mem, a, loads, 0)
  {
  }

  lemma LoadsMore(mem: seq<Byte>, a: nat, loads: seq<Load>, n: nat)
    requires LoadsWithin(loads, BIND_MAX_ARGS) && n < |loads| && LoadsLaid(mem, a, loads, n)
    requires At(mem, a + 10 * n, MoviBytes(loads[n].reg, loads[n].val))
    ensures LoadsLaid(mem, a, loads, n + 1)
  {
    hide At, MoviBytes;
  }

  lemma MoviLength(d: nat, x: nat, f: nat)
    requires d < TMP
    ensures |MoviBytes(d, x)| == 10 && |JumpBytes(f)| == 12
  {
  }

  lemma LaidIs(mem: seq<Byte>, code: seq<Move>, loads: seq<Load>, f: nat)
    requires ArgMoves(code) && LoadsWithin(loads, BIND_MAX_ARGS)
    requires MovesLaid(mem, code, |code|) && LoadsLaid(mem, 3 * |code|, loads, |loads|)
    requires At(mem, 3 * |code| + 10 * |loads|, JumpBytes(f))
    ensures Laid(mem, code, loads, f)
  {
  }

  method EmitStub(g: array<Byte>, code: seq<Move>, loads: seq<Load>, f: nat)
    requires ArgMoves(code) && LoadsWithin(loads, BIND_MAX_ARGS)
    requires 3 * |code| + 10 * |loads| + 12 <= g.Length
    modifies g
    ensures Laid(g[..], code, loads, f)
    ensures forall k :: 3 * |code| + 10 * |loads| + 12 <= k < g.Length ==> g[k] == old(g[k])
  {
    hide Laid, MovesLaid, LoadsLaid, At;
    EmitMoves(g, code);
    ghost var mem := g[..];
    EmitLoads(g, 3 * |code|, loads, f);
    MovesStay(mem, g[..], code, |code|);
    LaidIs(g[..], code, loads, f);
  }

  /** `LAMBDA_BIND_SIZE` of the arguments, self-moves uncounted. */
  ghost function StubSize(args: seq<Arg>): nat
    requires ValidArgs(args, BIND_MAX_ARGS)
  {
    ArgsAre(args);
    BindSize(|Proper(Moves(args, TMP))|, |Split(args).loads|, |Cycles(Moves(args, TMP))|)
  }

  /** `LAMBDA_BIND_MAX_SIZE`, which is said to be enough. */
  function BindMaxSize(n: nat): nat {
    6 * n + 12
  }

  ghost function Constants(args: seq<Arg>): set<nat> {
    set i: nat | i < |args| && args[i].Ldr?
  }

  lemma {:induction false} ConstantsCount(args: seq<Arg>)
    ensures |Constants(args)| == |Split(args).loads| && |Split(args).loads| + |Split(args).dsts| == |args|
  {
    if args == [] {
      assert Constants(args) == {};
    } else {
      var n := |args| - 1;
      ConstantsCount(args[..n]);
      assert Constants(args) == if args[n].Ldr? then Constants(args[..n]) + {n} else Constants(args[..n]);
    }
  }

  /** It is enough exactly when the constants, four bytes each beyond the six,
      fit into what the moves leave of theirs. So it never is for constants
      alone, always is for moves alone, and is for three constants to eight
      moves. */
  lemma MaxSizeIff(args: seq<Arg>)
    requires ValidArgs(args, BIND_MAX_ARGS)
    ensures Moves(args, TMP).WellFormed()
    ensures var c, p := |Constants(args)|, Moves(args, TMP);
            && (StubSize(args) <= BindMaxSize(|args|)
                <==> 4 * c + 3 * (|Proper(p)| + |Cycles(p)|) <= 6 * (|args| - c))
            && (args != [] && c == |args| ==> StubSize(args) == BindMaxSize(|args|) + 4 * |args|)
            && (8 * c <= 3 * (|args| - c) ==> StubSize(args) <= BindMaxSize(|args|))
  {
    ArgsAre(args);
    ConstantsCount(args);
    TwoForACycle(Moves(args, TMP));
  }

  /** Binds `args` to `f` in `g`, and returns how many instructions a call of
      the stub runs before it enters `f`: with the right arguments, whatever
      the registers hold, if and only if the moves have no cycle. The stub
      takes exactly `StubSize` bytes; no other byte of `g` changes. */
  method Bind(g: array<Byte>, f: nat, args: seq<Arg>) returns (steps: nat)
    requires ValidArgs(args, BIND_MAX_ARGS) && f < USIZE
    requires StubSize(args) <= g.Length
    modifies g
    ensures Moves(args, TMP).WellFormed()
    ensures Binds(g[..], args, f, steps) <==> Cycles(Moves(args, TMP)) == {}
    ensures 3 * steps + 7 * |Split(args).loads| + 6 == StubSize(args)
    ensures forall k :: StubSize(args) <= k < g.Length ==> g[k] == old(g[k])
  {
    hide Binds, Laid, Compiled, Split, Decode, Step, Run, OnArgs;
    ArgsAre(args);
    var parts := SplitLoop(args);
    var code := Compile(parts.srcs, parts.dsts, TMP);
    CodeOnArgs(Moves(args, TMP), code);
    EmitStub(g, code, parts.loads, f);
    steps := |code| + |parts.loads| + 2;
    LaidBinds(g[..], args, f, code);
  }

  /** What `BindLdr` binds: constants from index `start` on. */
  ghost predicate BindsLdr(mem: seq<Byte>, start: nat, vals: seq<nat>, f: nat, steps: nat)
    requires start + |vals| <= BIND_MAX_ARGS
  {
    forall regs: Regs :: |regs| == REGISTERS ==>
      var m := Run(mem, Running(0, regs), steps);
      && m.Jumped? && m.target == f && |m.regs| == REGISTERS
      && (forall r :: 0 <= r < TMP ==>
            m.regs[Hw(r)] == if start <= r < start + |vals| then vals[r - start] else regs[Hw(r)])
      && (forall h :: 0 <= h < REGISTERS && (forall r :: 0 <= r <= TMP ==> Hw(r) != h) ==> m.regs[h] == regs[h])
  }

  lemma LaidBindsLdr(mem: seq<Byte>, start: nat, vals: seq<nat>, loads: seq<Load>, f: nat)
    requires start + |vals| <= BIND_MAX_ARGS && f < USIZE
    requires loads == seq(|vals|, i requires 0 <= i < |vals| => Load(start + i, vals[i]))
    requires LoadsWithin(loads, BIND_MAX_ARGS) && Laid(mem, [], loads, f)
    ensures BindsLdr(mem, start, vals, f, |vals| + 2)
  {
    hide Laid, Run, RunLoads, Hw;
    forall regs: Regs | |regs| == REGISTERS
      ensures var m := Run(mem, Running(0, regs), |vals| + 2);
              && m.Jumped? && m.target == f && |m.regs| == REGISTERS
              && (forall r :: 0 <= r < TMP ==>
                    m.regs[Hw(r)] == if start <= r < start + |vals| then vals[r - start] else regs[Hw(r)])
              && (forall h :: 0 <= h < REGISTERS && (forall r :: 0 <= r <= TMP ==> Hw(r) != h) ==>
                    m.regs[h] == regs[h])
    {
      StubRuns(mem, [], loads, f, regs);
      assert RunMoves(HwMoves([]), regs) == regs;
      LoadsLdr(start, vals, loads, regs);
      forall r | 0 <= r < TMP ensures Hw(r) != RAX {
        HwDiffer(r, TMP);
      }
      HwDiffer(TMP, TMP);
    }
  }

  lemma LoadsLdr(start: nat, vals: seq<nat>, loads: seq<Load>, regs: Regs)
    requires start + |vals| <= BIND_MAX_ARGS && |regs| == REGISTERS
    requires loads == seq(|vals|, i requires 0 <= i < |vals| => Load(start + i, vals[i]))
    requires LoadsWithin(loads, BIND_MAX_ARGS)
    ensures forall r :: 0 <= r < TMP ==>
              RunLoads(HwLoads(loads), regs)[Hw(r)]
              == if start <= r < start + |vals| then vals[r - start] else regs[Hw(r)]
    ensures forall h :: 0 <= h < REGISTERS && (forall r :: 0 <= r <= TMP ==> Hw(r) != h) ==>
              RunLoads(HwLoads(loads), regs)[h] == regs[h]
  {
    hide Hw, RunLoads;
    forall j, k | 0 <= j < k < |loads| ensures HwLoads(loads)[j].reg != HwLoads(loads)[k].reg {
      HwDiffer(loads[j].reg, loads[k].reg);
    }
    RunLoadsAt(HwLoads(loads), regs);
    forall r | 0 <= r < TMP
      ensures RunLoads(HwLoads(loads), regs)[Hw(r)]
              == if start <= r < start + |vals| then vals[r - start] else regs[Hw(r)]
    {
      if start <= r < start + |vals| {
        assert HwLoads(loads)[r - start] == Load(Hw(r), vals[r - start]);
      } else {
        forall k | 0 <= k < |loads| ensures HwLoads(loads)[k].reg != Hw(r) {
          HwDiffer(loads[k].reg, r);
        }
      }
    }
  }

  /** Binds the constants `vals` to the arguments of `f` from index `start` on. */
  method BindLdr(g: array<Byte>, f: nat, start: nat, vals: seq<nat>) returns (steps: nat)
    requires start + |vals| <= BIND_MAX_ARGS && f < USIZE
    requires forall i :: 0 <= i < |vals| ==> vals[i] < USIZE
    requires BindSize(0, |vals|, 0) <= g.Length
    modifies g
    ensures BindsLdr(g[..], start, vals, f, steps)
    ensures forall k :: BindSize(0, |vals|, 0) <= k < g.Length ==> g[k] == old(g[k])
  {
    hide BindsLdr, Laid;
    var loads := seq(|vals|, i requires 0 <= i < |vals| => Load(start + i, vals[i]));
    EmitStub(g, [], loads, f);
    steps := |vals| + 2;
    LaidBindsLdr(g[..], start, vals, loads, f);
  }

  /** Swapping two arguments fails: the compiler's code for it gives the first
      what rax held. */
  lemma SwapFails(mem: seq<Byte>, f: nat, regs: Regs)
    requires |regs| == REGISTERS && f < USIZE
    requires LoadsWithin([], BIND_MAX_ARGS) && Laid(mem, [Move(TMP, 1), Move(1, 0), Move(0, TMP)], [], f)
    ensures var m := Run(mem, Running(0, regs), 5);
            && m.Jumped? && m.target == f && |m.regs| == REGISTERS
            && m.regs[Hw(0)] == regs[RAX] && m.regs[Hw(1)] == regs[Hw(0)] && m.regs[Hw(4)] == regs[Hw(1)]
  {
    hide Laid, Run, RunMoves, HwMoves;
    var code := [Move(TMP, 1), Move(1, 0), Move(0, TMP)];
    StubRuns(mem, code, [], f, regs);
    assert HwLoads([]) == [];
    SwapOrigins();
    forall r | 0 <= r <= TMP
      ensures 0 <= RealOrigin(code, r) <= TMP && RunMoves(HwMoves(code), regs)[Hw(r)] == regs[Hw(RealOrigin(code, r))]
    {
      HwOrigin(code, r);
      RunMovesOrigin(HwMoves(code), regs, Hw(r));
    }
  }

  lemma SwapHasCycle()
    ensures var p := Moves([Mov(1), Mov(0)], TMP); p.WellFormed() && Cycles(p) != {}
  {
    var args := [Mov(1), Mov(0)];
    ArgsAre(args);
    assert args[..1] == [Mov(1)] && [Mov(1)][..0] == [];
    assert Moves(args, TMP) == Problem([1, 0], [0, 1], TMP);
    hide Split;
    SwapCycle(Moves(args, TMP));
  }

  lemma SwapCycle(p: Problem)
    requires p.WellFormed() && p.src == [1, 0] && p.dst == [0, 1]
    ensures Cycles(p) != {}
  {
    var c := [0, 1];
    assert Link(p, p.src, c, 0) && Link(p, p.src, c, 1);
    assert CycleList(p, c);
    var all := seq(2, k => k);
    assert all[0] == 0 && all[1] == 1;
    assert ElemSet(c) <= Indices(p);
    assert ElemSet(c) in Cycles(p);
  }

  /** This is what the compiler makes of the swap. */
  lemma SwapCompiled()
    ensures Compiled(Moves([Mov(1), Mov(0)], TMP), [Move(TMP, 1), Move(1, 0), Move(0, TMP)])
  {
    var args := [Mov(1), Mov(0)];
    ArgsAre(args);
    assert args[..1] == [Mov(1)] && [Mov(1)][..0] == [];
    assert Moves(args, TMP) == Problem([1, 0], [0, 1], TMP);
    hide Split;
    SwapRun(Moves(args, TMP));
  }

  /** Both moves are started, the first one's source is saved, and they are
      finished, the second first. */
  lemma SwapRun(p: Problem)
    requires p.WellFormed() && p == Problem([1, 0], [0, 1], TMP)
    ensures Compiled(p, [Move(TMP, 1), Move(1, 0), Move(0, TMP)])
  {
    hide Stage, Initial, Started, Saved, Finished;
    SwapStarts(p);
    var s := Started(Started(Initial(p), 0), 1);
    SwapSaves(s);
    SwapFinishes(Saved(s, 0));
    SwapComplete(p, Finished(Finished(Saved(s, 0))));
  }

  lemma SwapStarts(p: Problem)
    requires p.WellFormed() && p == Problem([1, 0], [0, 1], TMP)
    ensures |Initial(p).status| == |Started(Initial(p), 0).status| == 2
    ensures var s := Started(Started(Initial(p), 0), 1);
            && Stage(s) && s.p == p && s.src == [1, 0] && s.status == [BeingMoved, BeingMoved]
            && s.stack == [0, 1] && s.code == []
  {
    hide Reached, Inv;
    var s := Initial(p);
    InitialStage(p);
    StageInv(s);
    StageStarts(s, 0);
    StageInv(Started(s, 0));
    StageStarts(Started(s, 0), 1);
  }

  lemma StageInv(s: State)
    requires Stage(s)
    ensures Inv(s)
  {
  }

  lemma SwapSaves(s: State)
    requires Stage(s) && s.p == Problem([1, 0], [0, 1], TMP) && s.src == [1, 0] && s.code == []
    requires s.status == [BeingMoved, BeingMoved] && s.stack == [0, 1]
    ensures var t := Saved(s, 0);
            && Stage(t) && t.p == s.p && t.src == [TMP, 0] && t.status == s.status && t.stack == s.stack
            && t.code == [Move(TMP, 1)]
  {
    hide Reached;
    StageSaves(s, 0);
  }

  lemma SwapFinishes(t: State)
    requires Stage(t) && t.p == Problem([1, 0], [0, 1], TMP) && t.src == [TMP, 0] && t.code == [Move(TMP, 1)]
    requires t.status == [BeingMoved, BeingMoved] && t.stack == [0, 1]
    ensures var u := Finished(t);
            && u.stack == [0] && |u.status| == |u.src| == |u.p.dst| == 2
            && Stage(Finished(u)) && Finished(u).p == t.p && Finished(u).stack == []
            && Finished(u).status == [Moved, Moved]
            && Finished(u).code == [Move(TMP, 1), Move(1, 0), Move(0, TMP)]
  {
    hide Reached, Inv;
    StageInv(t);
    StageFinishes(t);
    StageInv(Finished(t));
    StageFinishes(Finished(t));
  }

  lemma SwapComplete(p: Problem, s: State)
    requires Stage(s) && s.p == p && |p.dst| == 2 && s.stack == [] && s.status == [Moved, Moved]
    ensures Complete(s) && Compiled(p, s.code)
  {
    hide Reached;
    assert Complete(s);
  }

  lemma SwapOrigins()
    ensures var code := [Move(TMP, 1), Move(1, 0), Move(0, TMP)];
            RealOrigin(code, 0) == TMP && RealOrigin(code, 1) == 0 && RealOrigin(code, 4) == 1
  {
    RealSnoc([], Move(TMP, 1), TMP);
    RealSnoc([], Move(TMP, 1), 0);
    RealSnoc([], Move(TMP, 1), 4);
    var two := [Move(TMP, 1), Move(1, 0)];
    assert [Move(TMP, 1)] + [Move(1, 0)] == two && [] + [Move(TMP, 1)] == [Move(TMP, 1)];
    RealSnoc([Move(TMP, 1)], Move(1, 0), TMP);
    RealSnoc([Move(TMP, 1)], Move(1, 0), 1);
    RealSnoc([Move(TMP, 1)], Move(1, 0), 4);
    assert two + [Move(0, TMP)] == [Move(TMP, 1), Move(1, 0), Move(0, TMP)];
    RealSnoc(two, Move(0, TMP), 0);
    RealSnoc(two, Move(0, TMP), 1);
    RealSnoc(two, Move(0, TMP), 4);
  }
}
