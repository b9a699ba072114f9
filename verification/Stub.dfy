/** The stub generator of lambda.h: a stub puts constants and moved arguments
    in the argument registers and jumps to a function. */
module Stub {
  import opened ParallelMove

  /** Argument `i` of the bound function is a constant or the argument at
      index `reg` of the caller. */
  datatype Arg = Ldr(val: nat) | Mov(reg: nat)

  datatype Load = Load(reg: nat, val: nat)

  /** Register files: `regs[r]` is the content of register `r`. */
  type Regs = seq<nat>

  // ---------------------------------------------------------------------
  // Splitting the arguments into moves and loads
  // ---------------------------------------------------------------------

  /** The moves, as sources and destinations, and the loads. */
  datatype Parts = Parts(srcs: seq<int>, dsts: seq<int>, loads: seq<Load>)

  function Extend(parts: Parts, i: nat, arg: Arg): Parts {
    match arg
    case Mov(reg) => parts.(srcs := parts.srcs + [reg], dsts := parts.dsts + [i])
    case Ldr(val) => parts.(loads := parts.loads + [Load(i, val)])
  }

  function Split(args: seq<Arg>): Parts {
    if args == [] then Parts([], [], [])
    else Extend(Split(args[..|args| - 1]), |args| - 1, args[|args| - 1])
  }

  /** Each argument index is the destination of exactly one move or load, and
      that one does what the argument asks for. */
  ghost predicate SplitsArgs(args: seq<Arg>, parts: Parts) {
    && |parts.srcs| == |parts.dsts|
    && |parts.dsts| + |parts.loads| == |args|
    && (forall k :: 0 <= k < |parts.dsts| ==> 0 <= parts.dsts[k] < |args|)
    && (forall k :: 0 <= k < |parts.dsts| ==>
          args[parts.dsts[k]].Mov? && args[parts.dsts[k]].reg == parts.srcs[k])
    && (forall j, k :: 0 <= j < k < |parts.dsts| ==> parts.dsts[j] != parts.dsts[k])
    && (forall k :: 0 <= k < |parts.loads| ==> parts.loads[k].reg < |args|)
    && (forall k :: 0 <= k < |parts.loads| ==>
          args[parts.loads[k].reg].Ldr? && args[parts.loads[k].reg].val == parts.loads[k].val)
    && (forall j, k :: 0 <= j < k < |parts.loads| ==> parts.loads[j].reg != parts.loads[k].reg)
    && (forall i :: 0 <= i < |args| && args[i].Mov? ==> i in parts.dsts)
    && (forall i :: 0 <= i < |args| && args[i].Ldr? ==> Load(i, args[i].val) in parts.loads)
  }

  lemma ExtendSplits(args: seq<Arg>, parts: Parts, arg: Arg)
    requires SplitsArgs(args, parts)
    ensures SplitsArgs(args + [arg], Extend(parts, |args|, arg))
  {
    var args' := args + [arg];
    var parts' := Extend(parts, |args|, arg);
    forall i | 0 <= i < |args'| && args'[i].Mov? ensures i in parts'.dsts {
      if i < |args| {
        assert args[i].Mov?;
      } else {
        assert parts'.dsts[|parts.dsts|] == i;
      }
    }
    forall i | 0 <= i < |args'| && args'[i].Ldr? ensures Load(i, args'[i].val) in parts'.loads {
      if i < |args| {
        assert args[i].Ldr?;
      } else {
        assert parts'.loads[|parts.loads|] == Load(i, arg.val);
      }
    }
  }

  lemma {:induction false} SplitFacts(args: seq<Arg>)
    ensures SplitsArgs(args, Split(args))
  {
    if args != [] {
      var n := |args| - 1;
      SplitFacts(args[..n]);
      ExtendSplits(args[..n], Split(args[..n]), args[n]);
      assert args[..n] + [args[n]] == args;
    }
  }

  /** The loop over the arguments. */
  method SplitLoop(args: seq<Arg>) returns (parts: Parts)
    ensures parts == Split(args)
  {
    parts := Parts([], [], []);
    for i := 0 to |args|
      invariant parts == Split(args[..i])
    {
      assert args[..i + 1][..i] == args[..i];
      parts := Extend(parts, i, args[i]);
    }
    assert args[..|args|] == args;
  }

  lemma {:induction false} NoMoves(args: seq<Arg>)
    requires forall i :: 0 <= i < |args| ==> args[i].Ldr?
    ensures Split(args).dsts == []
  {
    if args != [] {
      NoMoves(args[..|args| - 1]);
    }
  }

  function Moves(args: seq<Arg>, tmp: int): Problem {
    Problem(Split(args).srcs, Split(args).dsts, tmp)
  }

  /** Values are 64 bits wide. */
  const USIZE: nat := 0x1_0000_0000_0000_0000

  /** What the source demands of the arguments: at most `max` of them, moves
      from argument registers only. */
  predicate ValidArgs(args: seq<Arg>, max: nat) {
    && |args| <= max
    && (forall i :: 0 <= i < |args| && args[i].Mov? ==> args[i].reg < max)
    && (forall i :: 0 <= i < |args| && args[i].Ldr? ==> args[i].val < USIZE)
  }

  lemma MovesInRange(args: seq<Arg>, max: nat, tmp: nat)
    requires ValidArgs(args, max) && max <= tmp
    ensures Moves(args, tmp).WellFormed()
    ensures forall s :: s in Moves(args, tmp).src ==> 0 <= s < max
    ensures forall d :: d in Moves(args, tmp).dst ==> 0 <= d < max
  {
    SplitFacts(args);
    var p := Moves(args, tmp);
    forall k | 0 <= k < |p.src| ensures 0 <= p.src[k] < max {
      assert args[p.dst[k]].reg == p.src[k];
    }
  }

  ghost predicate LoadsWithin(loads: seq<Load>, max: nat) {
    |loads| <= max && forall k :: 0 <= k < |loads| ==> loads[k].reg < max && loads[k].val < USIZE
  }

  lemma LoadsInRange(args: seq<Arg>, max: nat)
    requires ValidArgs(args, max)
    ensures LoadsWithin(Split(args).loads, max)
  {
    SplitFacts(args);
  }

  // ---------------------------------------------------------------------
  // Moves, then loads, then the jump
  // ---------------------------------------------------------------------

  function RunMoves(code: seq<Move>, regs: Regs): (regs': Regs)
    requires forall k :: 0 <= k < |code| ==> 0 <= code[k].dst < |regs| && 0 <= code[k].src < |regs|
    ensures |regs'| == |regs|
  {
    if code == [] then regs
    else
      var n := |code| - 1;
      var before := RunMoves(code[..n], regs);
      before[code[n].dst := before[code[n].src]]
  }

  function RunLoads(loads: seq<Load>, regs: Regs): (regs': Regs)
    requires forall k :: 0 <= k < |loads| ==> loads[k].reg < |regs|
    ensures |regs'| == |regs|
  {
    if loads == [] then regs
    else
      var n := |loads| - 1;
      RunLoads(loads[..n], regs)[loads[n].reg := loads[n].val]
  }

  lemma {:induction false} RunMovesOrigin(code: seq<Move>, regs: Regs, r: nat)
    requires forall k :: 0 <= k < |code| ==> 0 <= code[k].dst < |regs| && 0 <= code[k].src < |regs|
    requires r < |regs|
    ensures 0 <= Origin(code, r) < |regs| && RunMoves(code, regs)[r] == regs[Origin(code, r)]
  {
    if code != [] {
      var m := code[|code| - 1];
      RunMovesOrigin(code[..|code| - 1], regs, if r == m.dst then m.src else r);
    }
  }

  lemma {:induction false} RunLoadsAt(loads: seq<Load>, regs: Regs)
    requires forall k :: 0 <= k < |loads| ==> loads[k].reg < |regs|
    requires forall j, k :: 0 <= j < k < |loads| ==> loads[j].reg != loads[k].reg
    ensures forall k :: 0 <= k < |loads| ==> RunLoads(loads, regs)[loads[k].reg] == loads[k].val
    ensures forall r :: 0 <= r < |regs| && (forall k :: 0 <= k < |loads| ==> loads[k].reg != r) ==>
              RunLoads(loads, regs)[r] == regs[r]
  {
    if loads != [] {
      RunLoadsAt(loads[..|loads| - 1], regs);
    }
  }

  /** The bound function is entered with its arguments in place: constants, or
      what the caller passed at the named index; no other register but `tmp`
      has changed. */
  ghost predicate Enters(args: seq<Arg>, tmp: int, regs: Regs, regs': Regs)
    requires ValidArgs(args, |regs|)
  {
    && |regs'| == |regs|
    && (forall i :: 0 <= i < |args| ==> regs'[i] == if args[i].Ldr? then args[i].val else regs[args[i].reg])
    && (forall r :: |args| <= r < |regs| && r != tmp ==> regs'[r] == regs[r])
  }

  ghost predicate MovesWithin(code: seq<Move>, regs: Regs) {
    forall k :: 0 <= k < |code| ==> 0 <= code[k].dst < |regs| && 0 <= code[k].src < |regs|
  }

  /** `code` does the moves that `args` asks for. (One fact for the verifier,
      which does not take `== true` apart.) */
  ghost predicate Implements(args: seq<Arg>, tmp: int, code: seq<Move>) {
    var p := Moves(args, tmp);
    (p.WellFormed() && Realizes(p, code) && Uses(p, code)) == true
  }

  lemma ImplementsIs(args: seq<Arg>, tmp: int, code: seq<Move>)
    requires Moves(args, tmp).WellFormed() && Realizes(Moves(args, tmp), code) && Uses(Moves(args, tmp), code)
    ensures Implements(args, tmp, code)
  {
  }

  lemma CodeWithin(args: seq<Arg>, max: nat, tmp: nat, code: seq<Move>, regs: Regs)
    requires ValidArgs(args, max) && max <= tmp < |regs|
    requires Implements(args, tmp, code)
    ensures MovesWithin(code, regs)
  {
    MovesInRange(args, max, tmp);
  }

  /** Running moves that realize the requested ones, then the loads, puts every
      argument in place: no load destroys what a move still has to read. */
  lemma StubEnters(args: seq<Arg>, max: nat, tmp: nat, code: seq<Move>, regs: Regs)
    requires ValidArgs(args, max) && max <= tmp < |regs|
    requires Implements(args, tmp, code) && MovesWithin(code, regs)
    requires LoadsWithin(Split(args).loads, |regs|)
    ensures Enters(args, tmp, regs, RunLoads(Split(args).loads, RunMoves(code, regs)))
  {
    var p, loads := Moves(args, tmp), Split(args).loads;
    var mid := RunMoves(code, regs);
    var end := RunLoads(loads, mid);
    SplitFacts(args);
    RunLoadsAt(loads, mid);
    forall i | 0 <= i < |args| ensures end[i] == if args[i].Ldr? then args[i].val else regs[args[i].reg] {
      if args[i].Ldr? {
        assert Load(i, args[i].val) in loads;
      } else {
        var k :| 0 <= k < |p.dst| && p.dst[k] == i;
        assert args[p.dst[k]].reg == p.src[k];
        RunMovesOrigin(code, regs, i);
        assert forall l :: 0 <= l < |loads| ==> loads[l].reg != i;
      }
    }
    forall r | |args| <= r < |regs| && r != tmp ensures end[r] == regs[r] {
      assert r !in p.dst;
      RunMovesOrigin(code, regs, r);
    }
  }
}
