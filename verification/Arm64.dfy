/** The aarch64 form of the stub: instruction words (section C6.2 of the Arm
    Architecture Reference Manual, DDI 0487), literals behind the code, and a
    machine that fetches, decodes and runs them. */
module Arm64 {
  import opened ParallelMove
  import opened Stub

  const TMP: nat := 16
  const BIND_MAX_ARGS: nat := 8
  /** x0 .. x30. */
  const REGISTERS: nat := 31
  const WORD: nat := 0x1_0000_0000

  type Word = w: int | 0 <= w < WORD

  function BindSize(movs: nat, ldrs: nat, cycles: nat): nat {
    4 * (movs + cycles) + 12 * ldrs + 16
  }

  // ---------------------------------------------------------------------
  // Instruction words
  // ---------------------------------------------------------------------

  /** `mov xd, xs` (an alias of `orr xd, xzr, xs`). */
  function EncodeMov(d: int, s: int): int {
    0xAA0003E0 + s * 0x10000 + d
  }

  /** `ldr xr, pc + offset`; the offset is in bytes. */
  function EncodeLdr(r: int, offset: int): int {
    0x58000000 + offset * 8 + r
  }

  /** `br xr`. */
  function EncodeBr(r: int): int {
    0xD61F0000 + r * 32
  }

  /** `LdrLiteral` carries its offset in words, as the instruction does. */
  datatype Instr = MovReg(d: nat, s: nat) | LdrLiteral(r: nat, words: int) | Branch(r: nat) | Other

  /** The three instruction classes of the architecture that stubs use.
      Register 31 names the zero register and is left as `Other`. */
  function Decode(w: Word): Instr {
    var hi, lo := w / 0x10000, w % 0x10000;
    if hi / 32 == 0x550 && lo / 32 == 31 && hi % 32 != 31 && lo % 32 != 31 then
      MovReg(lo % 32, hi % 32)
    else if w / 0x1000000 == 0x58 && w % 32 != 31 then
      var imm19 := w / 32 % 0x80000;
      LdrLiteral(w % 32, if imm19 < 0x40000 then imm19 else imm19 - 0x80000)
    else if w / 0x400 == 0x3587C0 && w % 32 == 0 && w / 32 % 32 != 31 then
      Branch(w / 32 % 32)
    else Other
  }

  lemma DecodeMov(d: nat, s: nat)
    requires d < REGISTERS && s < REGISTERS
    ensures 0 <= EncodeMov(d, s) < WORD
    ensures Decode(EncodeMov(d, s)) == MovReg(d, s)
  {
    var w: Word := EncodeMov(d, s);
    assert w / 0x10000 == 0xAA00 + s && w % 0x10000 == 0x3E0 + d;
  }

  /** Offsets up to one megabyte, the reach of the instruction. */
  lemma DecodeLdr(r: nat, words: nat)
    requires r < REGISTERS && words < 0x40000
    ensures 0 <= EncodeLdr(r, 4 * words) < WORD
    ensures Decode(EncodeLdr(r, 4 * words)) == LdrLiteral(r, words)
  {
  }

  lemma DecodeBr(r: nat)
    requires r < REGISTERS
    ensures 0 <= EncodeBr(r) < WORD
    ensures Decode(EncodeBr(r)) == Branch(r)
  {
  }

  /** Words of known meaning: mov x1, x0; ldr x16, pc + 8; br x17. */
  lemma KnownWords()
    ensures EncodeMov(1, 0) == 0xAA0003E1 && Decode(0xAA0003E1) == MovReg(1, 0)
    ensures EncodeLdr(16, 8) == 0x58000050 && Decode(0x58000050) == LdrLiteral(16, 2)
    ensures EncodeBr(17) == 0xD61F0220 && Decode(0xD61F0220) == Branch(17)
  {
  }

  // ---------------------------------------------------------------------
  // The machine
  // ---------------------------------------------------------------------

  /** `pc` and the registers while in the stub, then where it jumped. */
  datatype Machine = Running(pc: nat, regs: Regs) | Jumped(target: nat, regs: Regs) | Stuck

  function Step(mem: seq<Word>, m: Machine): Machine {
    if !m.Running? || m.pc >= |mem| || |m.regs| != REGISTERS then
      if m.Jumped? then m else Stuck
    else
      match Decode(mem[m.pc])
      case MovReg(d, s) =>
        if d < REGISTERS && s < REGISTERS then Running(m.pc + 1, m.regs[d := m.regs[s]]) else Stuck
      case LdrLiteral(r, words) =>
        var a := m.pc + words;
        if r < REGISTERS && 0 <= a && a + 1 < |mem| then
          Running(m.pc + 1, m.regs[r := mem[a] + WORD * mem[a + 1]])
        else Stuck
      case Branch(r) => if r < REGISTERS then Jumped(m.regs[r], m.regs) else Stuck
      case Other => Stuck
  }

  function Run(mem: seq<Word>, m: Machine, steps: nat): Machine {
    if steps == 0 then m else Step(mem, Run(mem, m, steps - 1))
  }

  // ---------------------------------------------------------------------
  // The layout of a stub
  // ---------------------------------------------------------------------

  /** Literals are 64 bits wide, the low word first. */
  predicate LiteralAt(mem: seq<Word>, a: nat, val: nat) {
    a + 1 < |mem| && mem[a] == val % WORD && mem[a + 1] == val / WORD
  }

  /** Load `i` and its literal. */
  predicate LoadLaid(mem: seq<Word>, p: nat, loads: seq<Load>, i: nat)
    requires i < |loads|
  {
    && p + i < |mem|
    && mem[p + i] == EncodeLdr(loads[i].reg, 4 * (|loads| + 2 + i))
    && LiteralAt(mem, p + |loads| + 2 + 2 * i, loads[i].val)
  }

  predicate MoveLaid(mem: seq<Word>, code: seq<Move>, k: nat)
    requires k < |code|
  {
    k < |mem| && mem[k] == EncodeMov(code[k].dst, code[k].src)
  }

  /** The two instructions that jump, and the literal they jump to. */
  predicate JumpLaid(mem: seq<Word>, p: nat, n: nat, f: nat) {
    && p + n + 1 < |mem|
    && mem[p + n] == EncodeLdr(TMP, 4 * (2 * n + 2))
    && mem[p + n + 1] == EncodeBr(TMP)
    && LiteralAt(mem, p + 3 * n + 2, f)
  }

  /** Moves, loads and the jump, then one literal a load and the target. */
  ghost predicate Laid(mem: seq<Word>, code: seq<Move>, loads: seq<Load>, f: nat) {
    LaidFacts(mem, code, loads, f) == true
  }

  ghost predicate LaidFacts(mem: seq<Word>, code: seq<Move>, loads: seq<Load>, f: nat) {
    && (forall k :: 0 <= k < |code| ==> MoveLaid(mem, code, k))
    && (forall i :: 0 <= i < |loads| ==> LoadLaid(mem, |code|, loads, i))
    && JumpLaid(mem, |code|, |loads|, f)
  }

  lemma StepMov(mem: seq<Word>, pc: nat, regs: Regs, d: nat, s: nat)
    requires |regs| == REGISTERS && d < REGISTERS && s < REGISTERS
    requires pc < |mem| && mem[pc] == EncodeMov(d, s)
    ensures Step(mem, Running(pc, regs)) == Running(pc + 1, regs[d := regs[s]])
  {
    DecodeMov(d, s);
  }

  lemma StepLdr(mem: seq<Word>, pc: nat, regs: Regs, r: nat, words: nat, val: nat)
    requires |regs| == REGISTERS && r < REGISTERS && words < 0x40000
    requires pc < |mem| && mem[pc] == EncodeLdr(r, 4 * words) && LiteralAt(mem, pc + words, val)
    ensures Step(mem, Running(pc, regs)) == Running(pc + 1, regs[r := val])
  {
    DecodeLdr(r, words);
  }

  lemma StepBr(mem: seq<Word>, pc: nat, regs: Regs, r: nat)
    requires |regs| == REGISTERS && r < REGISTERS
    requires pc < |mem| && mem[pc] == EncodeBr(r)
    ensures Step(mem, Running(pc, regs)) == Jumped(regs[r], regs)
  {
    DecodeBr(r);
  }

  lemma RunNext(mem: seq<Word>, m: Machine, k: nat)
    ensures Run(mem, m, k + 1) == Step(mem, Run(mem, m, k))
  {
  }

  lemma {:induction false} MovesRun(mem: seq<Word>, code: seq<Move>, regs: Regs, k: nat)
    requires |regs| == REGISTERS && MovesWithin(code, regs) && k <= |code|
    requires forall j :: 0 <= j < |code| ==> MoveLaid(mem, code, j)
    ensures Run(mem, Running(0, regs), k) == Running(k, RunMoves(code[..k], regs))
  {
    if k > 0 {
      MovesRun(mem, code, regs, k - 1);
      assert code[..k][..k - 1] == code[..k - 1];
      assert MoveLaid(mem, code, k - 1);
      StepMov(mem, k - 1, RunMoves(code[..k - 1], regs), code[k - 1].dst, code[k - 1].src);
    }
  }

  lemma {:induction false} LoadsRun(mem: seq<Word>, m: Machine, p: nat, loads: seq<Load>, steps: nat, regs: Regs,
                                    i: nat)
    requires LoadsWithin(loads, BIND_MAX_ARGS) && i <= |loads|
    requires forall j :: 0 <= j < |loads| ==> LoadLaid(mem, p, loads, j)
    requires Run(mem, m, steps) == Running(p, regs) && |regs| == REGISTERS
    ensures Run(mem, m, steps + i) == Running(p + i, RunLoads(loads[..i], regs))
  {
    hide Step, EncodeLdr;
    if i > 0 {
      var k := i - 1;
      RunNext(mem, m, steps + k);
      LoadsRun(mem, m, p, loads, steps, regs, k);
      assert loads[..i][..k] == loads[..k];
      assert LoadLaid(mem, p, loads, k);
      StepLdr(mem, p + k, RunLoads(loads[..k], regs), loads[k].reg, |loads| + 2 + k, loads[k].val);
    }
  }

  /** From any register file, the stub runs its moves and loads and jumps to
      `f` with nothing but `TMP` changed since. */
  lemma StubRuns(mem: seq<Word>, code: seq<Move>, loads: seq<Load>, f: nat, regs: Regs)
    requires |regs| == REGISTERS && MovesWithin(code, regs) && LoadsWithin(loads, BIND_MAX_ARGS)
    requires Laid(mem, code, loads, f)
    ensures Run(mem, Running(0, regs), |code| + |loads| + 2)
            == Jumped(f, RunLoads(loads, RunMoves(code, regs))[TMP := f])
  {
    hide Run, Step, Decode, EncodeLdr, EncodeBr, MoveLaid, RunMoves, RunLoads;
    var m, p, n := Running(0, regs), |code|, |loads|;
    MovesRun(mem, code, regs, p);
    assert code[..p] == code && loads[..n] == loads;
    LoadsRun(mem, m, p, loads, p, RunMoves(code, regs), n);
    var before := RunLoads(loads, RunMoves(code, regs));
    StepLdr(mem, p + n, before, TMP, 2 * n + 2, f);
    RunNext(mem, m, p + n);
    StepBr(mem, p + n + 1, before[TMP := f], TMP);
    RunNext(mem, m, p + n + 1);
  }

  /** A call of the stub in `mem` with registers `regs` enters `f` with the
      arguments in place. */
  ghost predicate CallEnters(mem: seq<Word>, args: seq<Arg>, f: nat, steps: nat, regs: Regs)
    requires ValidArgs(args, BIND_MAX_ARGS) && |regs| == REGISTERS
  {
    var m := Run(mem, Running(0, regs), steps);
    m.Jumped? && m.target == f && Enters(args, TMP, regs, m.regs)
  }

  /** So does every call. */
  ghost predicate Binds(mem: seq<Word>, args: seq<Arg>, f: nat, steps: nat)
    requires ValidArgs(args, BIND_MAX_ARGS)
  {
    forall regs: Regs :: |regs| == REGISTERS ==> CallEnters(mem, args, f, steps, regs)
  }

  lemma LaidEnters(mem: seq<Word>, args: seq<Arg>, f: nat, code: seq<Move>, regs: Regs)
    requires ValidArgs(args, BIND_MAX_ARGS) && |regs| == REGISTERS && Implements(args, TMP, code)
    requires Laid(mem, code, Split(args).loads, f)
    ensures CallEnters(mem, args, f, |code| + |Split(args).loads| + 2, regs)
  {
    LoadsInRange(args, BIND_MAX_ARGS);
    CodeWithin(args, BIND_MAX_ARGS, TMP, code, regs);
    StubRuns(mem, code, Split(args).loads, f, regs);
    StubEnters(args, BIND_MAX_ARGS, TMP, code, regs);
  }

  lemma LaidBinds(mem: seq<Word>, args: seq<Arg>, f: nat, code: seq<Move>)
    requires ValidArgs(args, BIND_MAX_ARGS) && Implements(args, TMP, code)
    requires Laid(mem, code, Split(args).loads, f)
    ensures Binds(mem, args, f, |code| + |Split(args).loads| + 2)
  {
    forall regs: Regs | |regs| == REGISTERS
      ensures CallEnters(mem, args, f, |code| + |Split(args).loads| + 2, regs)
    {
      LaidEnters(mem, args, f, code, regs);
    }
  }

  // ---------------------------------------------------------------------
  // The generator
  // ---------------------------------------------------------------------

  ghost predicate LoadsLaid(mem: seq<Word>, p: nat, loads: seq<Load>, n: nat)
    requires n <= |loads|
  {
    forall i :: 0 <= i < n ==> LoadLaid(mem, p, loads, i)
  }

  /** Writing elsewhere keeps the first `n` loads. */
  lemma LoadsStay(mem: seq<Word>, mem': seq<Word>, p: nat, loads: seq<Load>, n: nat)
    requires n <= |loads| && LoadsLaid(mem, p, loads, n) && |mem'| == |mem|
    requires forall k :: 0 <= k < |mem| && (p <= k < p + n || p + |loads| + 2 <= k < p + |loads| + 2 + 2 * n) ==>
               mem'[k] == mem[k]
    ensures LoadsLaid(mem', p, loads, n)
  {
    forall i | 0 <= i < n ensures LoadLaid(mem', p, loads, i) {
      assert LoadLaid(mem, p, loads, i);
    }
  }

  /** Writes the loads and the jump at word `p` of `g`, and their literals
      right behind: `q` is where the next instruction goes, `d` where the next
      literal goes. */
  method EmitLoads(g: array<Word>, p: nat, loads: seq<Load>, f: nat)
    requires LoadsWithin(loads, BIND_MAX_ARGS) && f < USIZE
    requires p + 3 * |loads| + 4 <= g.Length
    modifies g
    ensures LoadsLaid(g[..], p, loads, |loads|)
    ensures JumpLaid(g[..], p, |loads|, f)
    ensures forall k :: 0 <= k < g.Length && (k < p || p + 3 * |loads| + 4 <= k) ==> g[k] == old(g[k])
  {
    hide Decode;
    var q, d := p, p + |loads| + 2;
    for i := 0 to |loads|
      invariant q == p + i && d == p + |loads| + 2 + 2 * i
      invariant LoadsLaid(g[..], p, loads, i)
      invariant forall k :: 0 <= k < g.Length && (k < p || p + 3 * |loads| + 4 <= k) ==> g[k] == old(g[k])
    {
      ghost var mem := g[..];
      DecodeLdr(loads[i].reg, d - q);
      g[q] := EncodeLdr(loads[i].reg, 4 * (d - q));
      q := q + 1;
      g[d], g[d + 1] := loads[i].val % WORD, loads[i].val / WORD;
      d := d + 2;
      LoadsStay(mem, g[..], p, loads, i);
      assert LoadLaid(g[..], p, loads, i);
    }
    ghost var mem := g[..];
    DecodeLdr(TMP, d - q);
    DecodeBr(TMP);
    g[q], g[q + 1] := EncodeLdr(TMP, 4 * (d - q)), EncodeBr(TMP);
    g[d], g[d + 1] := f % WORD, f / WORD;
    LoadsStay(mem, g[..], p, loads, |loads|);
  }

  method EmitMoves(g: array<Word>, ghost args: seq<Arg>, code: seq<Move>)
    requires ValidArgs(args, BIND_MAX_ARGS) && Implements(args, TMP, code)
    requires |code| <= g.Length
    modifies g
    ensures forall k :: 0 <= k < |code| ==> MoveLaid(g[..], code, k)
    ensures forall k :: |code| <= k < g.Length ==> g[k] == old(g[k])
  {
    MovesInRange(args, BIND_MAX_ARGS, TMP);
    for i := 0 to |code|
      invariant forall k :: 0 <= k < i ==> g[k] == EncodeMov(code[k].dst, code[k].src)
      invariant forall k :: i <= k < g.Length ==> g[k] == old(g[k])
    {
      DecodeMov(code[i].dst, code[i].src);
      g[i] := EncodeMov(code[i].dst, code[i].src);
    }
  }

  method EmitStub(g: array<Word>, ghost args: seq<Arg>, code: seq<Move>, loads: seq<Load>, f: nat)
    requires ValidArgs(args, BIND_MAX_ARGS) && Implements(args, TMP, code)
    requires LoadsWithin(loads, BIND_MAX_ARGS) && f < USIZE
    requires |code| + 3 * |loads| + 4 <= g.Length
    modifies g
    ensures Laid(g[..], code, loads, f)
    ensures forall k :: |code| + 3 * |loads| + 4 <= k < g.Length ==> g[k] == old(g[k])
  {
    EmitMoves(g, args, code);
    ghost var mem := g[..];
    EmitLoads(g, |code|, loads, f);
    forall k | 0 <= k < |code| ensures MoveLaid(g[..], code, k) {
      assert MoveLaid(mem, code, k);
    }
  }

  /** `LAMBDA_BIND_SIZE` of the arguments, self-moves uncounted. */
  ghost function StubSize(args: seq<Arg>): nat
    requires ValidArgs(args, BIND_MAX_ARGS)
  {
    MovesInRange(args, BIND_MAX_ARGS, TMP);
    BindSize(|Proper(Moves(args, TMP))|, |Split(args).loads|, |Cycles(Moves(args, TMP))|)
  }

  /** `LAMBDA_BIND_MAX_SIZE`, which is said to be enough. */
  function BindMaxSize(n: nat): nat {
    12 * n + 8
  }

  /** It is enough if and only if some argument is moved. */
  lemma MaxSizeIffMove(args: seq<Arg>)
    requires ValidArgs(args, BIND_MAX_ARGS)
    ensures StubSize(args) <= BindMaxSize(|args|) <==> exists i :: 0 <= i < |args| && args[i].Mov?
  {
    MovesInRange(args, BIND_MAX_ARGS, TMP);
    SplitFacts(args);
    TwoForACycle(Moves(args, TMP));
    if i :| 0 <= i < |args| && args[i].Mov? {
      assert i in Split(args).dsts;
    } else {
      NoMoves(args);
    }
  }

  /** Constants alone take eight bytes more. */
  lemma ConstantsOverrun(args: seq<Arg>)
    requires ValidArgs(args, BIND_MAX_ARGS) && forall i :: 0 <= i < |args| ==> args[i].Ldr?
    ensures StubSize(args) == BindMaxSize(|args|) + 8
  {
    MovesInRange(args, BIND_MAX_ARGS, TMP);
    SplitFacts(args);
    TwoForACycle(Moves(args, TMP));
    NoMoves(args);
  }

  /** Binds `args` to `f` in `g`, and returns how many instructions a call of
      the stub runs before it enters `f`. With the literals, these take
      exactly the bytes of `StubSize`; no other word of `g` changes. */
  method Bind(g: array<Word>, f: nat, args: seq<Arg>) returns (steps: nat)
    requires ValidArgs(args, BIND_MAX_ARGS) && f < USIZE
    requires StubSize(args) <= 4 * g.Length
    modifies g
    ensures Binds(g[..], args, f, steps)
    ensures 4 * steps + 8 * (|Split(args).loads| + 1) == StubSize(args)
    ensures forall k :: StubSize(args) <= 4 * k < 4 * g.Length ==> g[k] == old(g[k])
  {
    hide Binds, Laid, Implements, Split, Decode, Step, Run, Realizes, Uses, Compiled, Saves, Cycles, Proper;
    MovesInRange(args, BIND_MAX_ARGS, TMP);
    LoadsInRange(args, BIND_MAX_ARGS);
    var parts := SplitLoop(args);
    var code := Compile(parts.srcs, parts.dsts, TMP);
    ImplementsIs(args, TMP, code);
    EmitStub(g, args, code, parts.loads, f);
    steps := |code| + |parts.loads| + 2;
    LaidBinds(g[..], args, f, code);
  }

  /** The arguments that `BindLdr` binds: constants from index `start` on. */
  ghost predicate BindsLdr(mem: seq<Word>, start: nat, vals: seq<nat>, f: nat, steps: nat) {
    forall regs: Regs :: |regs| == REGISTERS ==>
      var m := Run(mem, Running(0, regs), steps);
      && m.Jumped? && m.target == f && |m.regs| == REGISTERS
      && forall r :: 0 <= r < REGISTERS && r != TMP ==>
           m.regs[r] == if start <= r < start + |vals| then vals[r - start] else regs[r]
  }

  lemma LaidBindsLdr(mem: seq<Word>, start: nat, vals: seq<nat>, loads: seq<Load>, f: nat)
    requires start + |vals| <= BIND_MAX_ARGS
    requires loads == seq(|vals|, i requires 0 <= i < |vals| => Load(start + i, vals[i]))
    requires forall i :: 0 <= i < |vals| ==> vals[i] < USIZE
    requires Laid(mem, [], loads, f)
    ensures BindsLdr(mem, start, vals, f, |vals| + 2)
  {
    forall regs: Regs | |regs| == REGISTERS
      ensures var m := Run(mem, Running(0, regs), |vals| + 2);
              && m == Jumped(f, RunLoads(loads, regs)[TMP := f])
              && forall r :: 0 <= r < REGISTERS && r != TMP ==>
                   m.regs[r] == if start <= r < start + |vals| then vals[r - start] else regs[r]
    {
      StubRuns(mem, [], loads, f, regs);
      RunLoadsAt(loads, regs);
      forall r | start <= r < start + |vals| ensures RunLoads(loads, regs)[r] == vals[r - start] {
        assert loads[r - start].reg == r;
      }
    }
  }

  /** Binds the constants `vals` to the arguments of `f` from index `start` on. */
  method BindLdr(g: array<Word>, f: nat, start: nat, vals: seq<nat>) returns (steps: nat)
    requires start + |vals| <= BIND_MAX_ARGS && f < USIZE
    requires forall i :: 0 <= i < |vals| ==> vals[i] < USIZE
    requires BindSize(0, |vals|, 0) <= 4 * g.Length
    modifies g
    ensures BindsLdr(g[..], start, vals, f, steps)
    ensures 4 * (steps + 2 * |vals| + 2) == BindSize(0, |vals|, 0)
    ensures forall k :: BindSize(0, |vals|, 0) / 4 <= k < g.Length ==> g[k] == old(g[k])
  {
    var loads := seq(|vals|, i requires 0 <= i < |vals| => Load(start + i, vals[i]));
    EmitLoads(g, 0, loads, f);
    steps := |vals| + 2;
    LaidBindsLdr(g[..], start, vals, loads, f);
  }
}
