/** The parallel-move compiler of lambda.h: `n` simultaneous register moves
    `dst[k] := src[k]` become a sequence of single moves, and each cycle is
    broken by saving one register in a scratch register `tmp`. */
module ParallelMove {

  datatype Move = Move(dst: int, src: int)

  datatype Status = ToMove | BeingMoved | Moved

  /** A set of simultaneous moves. Register `tmp` is free. */
  datatype Problem = Problem(src: seq<int>, dst: seq<int>, tmp: int) {
    ghost predicate WellFormed() {
      && |src| == |dst|
      && (forall j, k :: 0 <= j < k < |dst| ==> dst[j] != dst[k])
      && tmp !in src
      && tmp !in dst
    }
  }

  // ---------------------------------------------------------------------
  // Meaning of a move sequence
  // ---------------------------------------------------------------------

  /** The register file after running `code` in order from `regs`. */
  function Exec<V>(code: seq<Move>, regs: int -> V): int -> V {
    if code == [] then regs
    else
      var m := code[|code| - 1];
      var before := Exec(code[..|code| - 1], regs);
      r => before(if r == m.dst then m.src else r)
  }

  /** The register whose initial content `r` holds after `code`. */
  function Origin(code: seq<Move>, r: int): int {
    if code == [] then r
    else
      var m := code[|code| - 1];
      Origin(code[..|code| - 1], if r == m.dst then m.src else r)
  }

  lemma {:induction false} ExecOrigin<V>(code: seq<Move>, regs: int -> V, r: int)
    ensures Exec(code, regs)(r) == regs(Origin(code, r))
  {
    if code != [] {
      var m := code[|code| - 1];
      ExecOrigin(code[..|code| - 1], regs, if r == m.dst then m.src else r);
    }
  }

  lemma OriginSnoc(code: seq<Move>, m: Move, r: int)
    ensures Origin(code + [m], r) == Origin(code, if r == m.dst then m.src else r)
  {
    assert (code + [m])[..|code|] == code;
  }

  /** How many moves of `code` write `tmp`. */
  function Saves(code: seq<Move>, tmp: int): nat {
    if code == [] then 0
    else Saves(code[..|code| - 1], tmp) + if code[|code| - 1].dst == tmp then 1 else 0
  }

  lemma SavesSnoc(code: seq<Move>, m: Move, tmp: int)
    ensures Saves(code + [m], tmp) == Saves(code, tmp) + if m.dst == tmp then 1 else 0
  {
    assert (code + [m])[..|code|] == code;
  }

  // ---------------------------------------------------------------------
  // Cycles
  // ---------------------------------------------------------------------

  function ElemSet(c: seq<nat>): set<nat> {
    set x | x in c
  }

  ghost predicate Distinct(c: seq<nat>) {
    forall s, t :: 0 <= s < t < |c| ==> c[s] != c[t]
  }

  ghost predicate InRange(p: Problem, c: seq<nat>) {
    forall t :: 0 <= t < |c| ==> c[t] < |p.dst|
  }

  function Before(c: seq<nat>, t: nat): nat
    requires t < |c|
  {
    c[if t == 0 then |c| - 1 else t - 1]
  }

  /** With sources `src`, the move listed at `t` reads what the one listed
      before it writes. */
  ghost predicate Link(p: Problem, src: seq<int>, c: seq<nat>, t: nat)
    requires |src| == |p.dst| && InRange(p, c) && t < |c|
  {
    src[c[t]] == p.dst[Before(c, t)]
  }

  /** `c` lists at least two moves, each reading what the one before it writes,
      the first reading what the last writes. */
  ghost predicate CycleList(p: Problem, c: seq<nat>)
    requires p.WellFormed()
  {
    && 2 <= |c|
    && Distinct(c)
    && InRange(p, c)
    && (forall t :: 0 <= t < |c| ==> Link(p, p.src, c, t))
  }

  ghost predicate IsCycle(p: Problem, C: set<nat>)
    requires p.WellFormed()
  {
    exists c :: CycleList(p, c) && C == ElemSet(c)
  }

  ghost function Indices(p: Problem): set<nat> {
    ElemSet(seq(|p.dst|, k => k))
  }

  /** The disjoint cycles of the problem. */
  ghost function Cycles(p: Problem): set<set<nat>>
    requires p.WellFormed()
  {
    set C: set<nat> | C <= Indices(p) && IsCycle(p, C)
  }

  /** The moves that are not self-moves. */
  ghost function Proper(p: Problem): set<nat>
    requires p.WellFormed()
  {
    set k: nat | k < |p.dst| && p.src[k] != p.dst[k]
  }

  /** Two cycles that share a move share the move before it. */
  lemma SharePredecessor(p: Problem, b: seq<nat>, c: seq<nat>, t: nat)
    requires p.WellFormed() && CycleList(p, b) && CycleList(p, c)
    requires t < |b| && b[t] in c
    ensures Before(b, t) in c
  {
    var u :| 0 <= u < |c| && c[u] == b[t];
    assert Link(p, p.src, b, t) && Link(p, p.src, c, u);
    assert Before(c, u) in c;
  }

  lemma {:induction false} CycleInclusion(p: Problem, b: seq<nat>, c: seq<nat>, start: nat, t: nat)
    requires p.WellFormed() && CycleList(p, b) && CycleList(p, c)
    requires t <= start < |b| && b[start] in c
    ensures b[t] in c
    decreases start - t
  {
    if t < start {
      CycleInclusion(p, b, c, start, t + 1);
      SharePredecessor(p, b, c, t + 1);
    }
  }

  lemma CycleSubset(p: Problem, B: set<nat>, C: set<nat>, j: nat)
    requires p.WellFormed() && IsCycle(p, B) && IsCycle(p, C)
    requires j in B && j in C
    ensures B <= C
  {
    var b :| CycleList(p, b) && B == ElemSet(b);
    var c :| CycleList(p, c) && C == ElemSet(c);
    var s :| 0 <= s < |b| && b[s] == j;
    CycleInclusion(p, b, c, s, 0);
    SharePredecessor(p, b, c, 0);
    forall x | x in B ensures x in C {
      var u :| 0 <= u < |b| && b[u] == x;
      CycleInclusion(p, b, c, |b| - 1, u);
    }
  }

  lemma SameCycle(p: Problem, B: set<nat>, C: set<nat>, j: nat)
    requires p.WellFormed() && IsCycle(p, B) && IsCycle(p, C)
    requires j in B && j in C
    ensures B == C
  {
    CycleSubset(p, B, C, j);
    CycleSubset(p, C, B, j);
  }

  lemma DistinctSize(c: seq<nat>)
    requires Distinct(c)
    ensures |ElemSet(c)| == |c|
  {
    if c != [] {
      var n := |c| - 1;
      DistinctSize(c[..n]);
      assert c == c[..n] + [c[n]];
      assert ElemSet(c) == ElemSet(c[..n]) + {c[n]};
    }
  }

  /** A cycle is at least two moves, none of them a self-move. */
  lemma CycleSize(p: Problem, C: set<nat>)
    requires p.WellFormed() && IsCycle(p, C)
    ensures |C| >= 2 && C <= Proper(p)
  {
    var c :| CycleList(p, c) && C == ElemSet(c);
    DistinctSize(c);
    forall x | x in C ensures x in Proper(p) {
      var t :| 0 <= t < |c| && c[t] == x;
      assert Link(p, p.src, c, t);
    }
  }

  /** The moves of some cycles. */
  ghost function MovesOf(S: set<set<nat>>): set<nat> {
    set C, k | C in S && k in C :: k
  }

  lemma {:induction false} CyclesApart(p: Problem, S: set<set<nat>>)
    requires p.WellFormed() && forall C :: C in S ==> IsCycle(p, C)
    ensures MovesOf(S) <= Proper(p) && |MovesOf(S)| >= 2 * |S|
  {
    hide IsCycle;
    if S != {} {
      var C :| C in S;
      CyclesApart(p, S - {C});
      CycleSize(p, C);
      assert MovesOf(S) == MovesOf(S - {C}) + C;
      forall k | k in MovesOf(S - {C}) ensures k !in C {
        var D :| D in S - {C} && k in D;
        if k in C {
          SameCycle(p, C, D, k);
        }
      }
    }
  }

  /** At least two proper moves for a cycle. */
  lemma TwoForACycle(p: Problem)
    requires p.WellFormed()
    ensures 2 * |Cycles(p)| <= |Proper(p)| <= |p.dst|
  {
    CyclesApart(p, Cycles(p));
    SubsetSize(MovesOf(Cycles(p)), Proper(p));
    SubsetSize(Proper(p), Indices(p)) by {
      forall k | k in Proper(p) ensures k in Indices(p) {
        assert seq(|p.dst|, k => k)[k] == k;
      }
    }
    DistinctSize(seq(|p.dst|, k => k));
  }

  lemma {:induction false} SubsetSize(A: set<nat>, B: set<nat>)
    requires A <= B
    ensures |A| <= |B|
    decreases B
  {
    if A != {} {
      var x :| x in A;
      SubsetSize(A - {x}, B - {x});
    }
  }

  // ---------------------------------------------------------------------
  // The invariant of move_one
  // ---------------------------------------------------------------------

  /** The arrays and the output of the compiler, with three things the proof
      remembers: the moves being moved, outermost first; the moves done, in
      order; for each move redirected so far, the cycle it broke. */
  datatype State = State(p: Problem, src: seq<int>, status: seq<Status>, code: seq<Move>,
                         stack: seq<nat>, done: seq<nat>, broken: map<nat, set<nat>>)

  ghost predicate Shape(s: State) {
    && s.p.WellFormed()
    && |s.src| == |s.status| == |s.p.dst|
    && Distinct(s.stack)
    && Distinct(s.done)
    && InRange(s.p, s.stack)
    && InRange(s.p, s.done)
    && (forall k :: 0 <= k < |s.p.dst| ==> (s.status[k] == BeingMoved <==> k in s.stack))
    && (forall k :: 0 <= k < |s.p.dst| ==> (s.status[k] == Moved <==> k in s.done))
  }

  /** The moves on the stack read one another's destination; only the
      outermost may have been redirected to `tmp`. */
  ghost predicate Chained(s: State)
    requires Shape(s)
  {
    && (forall k :: 0 <= k < |s.p.dst| ==> s.src[k] == s.p.src[k] || s.src[k] == s.p.tmp)
    && (forall k :: 0 <= k < |s.p.dst| && s.status[k] == ToMove ==> s.src[k] == s.p.src[k])
    && (forall k :: 0 <= k < |s.p.dst| && s.status[k] != ToMove ==> s.p.src[k] != s.p.dst[k])
    && (forall t :: 1 <= t < |s.stack| ==> Link(s.p, s.src, s.stack, t))
  }

  ghost predicate Overwritten(p: Problem, done: seq<nat>, r: int)
    requires InRange(p, done)
  {
    exists a :: 0 <= a < |done| && p.dst[done[a]] == r
  }

  /** What the registers hold after the code emitted so far. */
  ghost predicate Holds(s: State)
    requires Shape(s)
  {
    && (forall r :: r != s.p.tmp && !Overwritten(s.p, s.done, r) ==> Origin(s.code, r) == r)
    && (forall a :: 0 <= a < |s.done| ==> Origin(s.code, s.p.dst[s.done[a]]) == s.p.src[s.done[a]])
    && (|s.stack| > 0 && s.src[s.stack[0]] == s.p.tmp ==> Origin(s.code, s.p.tmp) == s.p.src[s.stack[0]])
  }

  /** The move `done[a]` overwrote a register only after the reader `j` of that
      register was done or redirected. */
  ghost predicate ReadBefore(s: State, a: nat, j: nat)
    requires Shape(s) && a < |s.done| && j < |s.p.dst|
  {
    s.p.src[j] == s.p.dst[s.done[a]] ==> s.src[j] == s.p.tmp || j in s.done[..a]
  }

  ghost predicate ReadersFirst(s: State)
    requires Shape(s)
  {
    forall a, j :: 0 <= a < |s.done| && 0 <= j < |s.p.dst| ==> ReadBefore(s, a, j)
  }

  ghost predicate Redirected(p: Problem, src: seq<int>, j: nat) {
    j < |src| && src[j] == p.tmp
  }

  /** Each redirected move belongs to a broken cycle of its own. */
  ghost predicate Witnessed(p: Problem, src: seq<int>, broken: map<nat, set<nat>>)
    requires p.WellFormed()
  {
    && (forall j: nat :: j in broken <==> Redirected(p, src, j))
    && (forall j: nat :: j in broken ==> j in broken[j] && IsCycle(p, broken[j]))
    && (forall j: nat, k: nat :: j in broken && k in broken && j != k ==> broken[j] != broken[k])
  }

  /** `code` reads sources and writes destinations of `p`, or `tmp`. */
  ghost predicate Uses(p: Problem, code: seq<Move>) {
    forall k :: 0 <= k < |code| ==>
      && (code[k].dst == p.tmp || code[k].dst in p.dst)
      && (code[k].src == p.tmp || code[k].src in p.src)
  }

  /** One save per broken cycle, one move per finished move. */
  ghost predicate Counted(s: State)
    requires Shape(s)
  {
    && Uses(s.p, s.code)
    && |s.code| == |s.done| + |s.broken|
    && Saves(s.code, s.p.tmp) == |s.broken|
    && Witnessed(s.p, s.src, s.broken)
  }

  ghost predicate Inv(s: State) {
    && Shape(s)
    && Chained(s)
    && Holds(s)
    && ReadersFirst(s)
    && Counted(s)
  }

  ghost function Top(s: State): nat
    requires s.stack != []
  {
    s.stack[|s.stack| - 1]
  }

  // -- starting a move --------------------------------------------------

  ghost function Started(s: State, i: nat): State
    requires i < |s.status|
  {
    s.(status := s.status[i := BeingMoved], stack := s.stack + [i])
  }

  lemma StartShape(s: State, i: nat)
    requires Shape(s) && Chained(s) && i < |s.p.dst| && s.status[i] == ToMove && s.src[i] != s.p.dst[i]
    requires s.stack != [] ==> s.src[i] == s.p.dst[Top(s)]
    ensures Shape(Started(s, i)) && Chained(Started(s, i))
  {
    var s' := Started(s, i);
    assert forall k :: k in s'.stack <==> k in s.stack || k == i;
    forall t | 1 <= t < |s'.stack| ensures Link(s.p, s'.src, s'.stack, t) {
      if t < |s.stack| {
        assert Link(s.p, s.src, s.stack, t);
      }
    }
  }

  /** The move `i` may be started. */
  ghost predicate CanStart(s: State, i: nat) {
    && Inv(s) && i < |s.p.dst| && s.status[i] == ToMove && s.src[i] != s.p.dst[i]
    && (s.stack != [] ==> s.src[i] == s.p.dst[Top(s)])
  }

  lemma StartKeeps(s: State, i: nat)
    requires CanStart(s, i)
    ensures Inv(Started(s, i))
  {
    var s' := Started(s, i);
    StartShape(s, i);
    forall a, j | 0 <= a < |s'.done| && 0 <= j < |s.p.dst| ensures ReadBefore(s', a, j) {
      assert ReadBefore(s, a, j);
    }
  }

  // -- saving a register ------------------------------------------------

  ghost function Saved(s: State, j: nat): State
    requires j < |s.src|
  {
    s.(src := s.src[j := s.p.tmp], code := s.code + [Move(s.p.tmp, s.src[j])],
       broken := s.broken[j := ElemSet(s.stack)])
  }

  ghost predicate ClosesCycle(s: State, j: nat) {
    && Shape(s) && Chained(s)
    && s.stack != []
    && j < |s.p.dst|
    && s.status[j] == BeingMoved
    && s.src[j] == s.p.dst[Top(s)]
  }

  /** A move on the stack that reads what the innermost move writes is the
      outermost one, and the stack is a cycle. */
  lemma StackIsCycle(s: State, j: nat)
    requires ClosesCycle(s, j)
    ensures j == s.stack[0]
    ensures CycleList(s.p, s.stack)
    ensures forall k :: k in s.stack ==> !Redirected(s.p, s.src, k)
  {
    forall t | 1 <= t < |s.stack| ensures s.stack[t] != j {
      assert Link(s.p, s.src, s.stack, t);
    }
    forall u | 0 <= u < |s.stack|
      ensures s.src[s.stack[u]] == s.p.src[s.stack[u]] && Link(s.p, s.p.src, s.stack, u)
    {
      if u > 0 {
        assert Link(s.p, s.src, s.stack, u);
      }
    }
  }

  lemma SaveHolds(s: State, j: nat)
    requires ClosesCycle(s, j) && Holds(s) && Shape(Saved(s, j))
    ensures Holds(Saved(s, j))
  {
    StackIsCycle(s, j);
    var s' := Saved(s, j);
    var m := Move(s.p.tmp, s.src[j]);
    forall r ensures Origin(s'.code, r) == Origin(s.code, if r == m.dst then m.src else r) {
      OriginSnoc(s.code, m, r);
    }
    assert Top(s) !in s.done;
    assert !Overwritten(s.p, s.done, m.src);
  }

  lemma SaveCounted(s: State, j: nat)
    requires ClosesCycle(s, j) && Counted(s) && Shape(Saved(s, j))
    ensures Counted(Saved(s, j)) && |Saved(s, j).broken| == |s.broken| + 1
  {
    StackIsCycle(s, j);
    SavesSnoc(s.code, Move(s.p.tmp, s.src[j]), s.p.tmp);
    SaveWitnessed(s, j);
    hide Witnessed, CycleList, Chained;
    assert !Redirected(s.p, s.src, j);
  }

  lemma SaveWitnessed(s: State, j: nat)
    requires ClosesCycle(s, j) && Shape(Saved(s, j)) && Witnessed(s.p, s.src, s.broken)
    requires CycleList(s.p, s.stack) && forall k :: k in s.stack ==> !Redirected(s.p, s.src, k)
    ensures Witnessed(s.p, Saved(s, j).src, Saved(s, j).broken) && j !in s.broken
  {
    assert j in s.stack;
    assert IsCycle(s.p, ElemSet(s.stack));
  }

  lemma SaveShape(s: State, j: nat)
    requires ClosesCycle(s, j)
    ensures Shape(Saved(s, j)) && j == s.stack[0]
  {
    StackIsCycle(s, j);
  }

  lemma SaveKeeps(s: State, j: nat)
    requires Inv(s) && ClosesCycle(s, j)
    ensures Inv(Saved(s, j))
    ensures j == s.stack[0]
    ensures |Saved(s, j).broken| == |s.broken| + 1
  {
    hide Counted, Holds;
    SaveShape(s, j);
    SaveChained(s, j);
    SaveHolds(s, j);
    SaveCounted(s, j);
  }

  lemma SaveChained(s: State, j: nat)
    requires Shape(s) && Chained(s) && ReadersFirst(s)
    requires s.stack != [] && j == s.stack[0] && Shape(Saved(s, j))
    ensures Chained(Saved(s, j)) && ReadersFirst(Saved(s, j))
  {
    var s' := Saved(s, j);
    forall t | 1 <= t < |s'.stack| ensures Link(s.p, s'.src, s'.stack, t) {
      assert Link(s.p, s.src, s.stack, t);
    }
    forall a, k | 0 <= a < |s'.done| && 0 <= k < |s.p.dst| ensures ReadBefore(s', a, k) {
      assert ReadBefore(s, a, k);
    }
  }

  // -- finishing a move -------------------------------------------------

  ghost function Finished(s: State): State
    requires s.stack != [] && |s.status| == |s.src| == |s.p.dst| && Top(s) < |s.p.dst|
  {
    var i := Top(s);
    s.(status := s.status[i := Moved], code := s.code + [Move(s.p.dst[i], s.src[i])],
       stack := s.stack[..|s.stack| - 1], done := s.done + [i])
  }

  /** All readers of the register that the innermost move writes are done. */
  ghost predicate ReadyToFinish(s: State) {
    && Inv(s)
    && s.stack != []
    && ReadersDone(s, s.p.dst[Top(s)], |s.p.dst|)
  }

  lemma FinishShape(s: State)
    requires ReadyToFinish(s)
    ensures Shape(Finished(s)) && Chained(Finished(s))
  {
    FinishStatus(s);
    hide Distinct;
    var s' := Finished(s);
    forall t | 1 <= t < |s'.stack| ensures Link(s.p, s'.src, s'.stack, t) {
      assert Link(s.p, s.src, s.stack, t);
    }
  }

  lemma FinishStatus(s: State)
    requires ReadyToFinish(s)
    ensures Shape(Finished(s))
  {
    hide Chained;
    var s' := Finished(s);
    var i := Top(s);
    assert s.stack == s'.stack + [i];
    assert forall k :: k in s.stack <==> k in s'.stack || k == i;
    assert i in s.stack && i !in s'.stack && i !in s.done;
    assert forall k :: k in s'.done <==> k in s.done || k == i;
  }

  /** The innermost move still reads the content it is meant to move. */
  lemma TopReadsOriginal(s: State)
    requires ReadyToFinish(s)
    ensures Origin(s.code, s.src[Top(s)]) == s.p.src[Top(s)]
  {
    var i := Top(s);
    assert i in s.stack;
    if s.src[i] == s.p.tmp {
      forall t | 1 <= t < |s.stack| ensures s.stack[t] != i {
        assert Link(s.p, s.src, s.stack, t);
      }
    } else {
      forall a | 0 <= a < |s.done| ensures s.p.dst[s.done[a]] != s.src[i] {
        assert ReadBefore(s, a, i);
        assert i !in s.done[..a];
      }
    }
  }

  lemma FinishHolds(s: State)
    requires ReadyToFinish(s) && Shape(Finished(s))
    ensures Holds(Finished(s))
  {
    TopReadsOriginal(s);
    var s' := Finished(s);
    var i := Top(s);
    var m := Move(s.p.dst[i], s.src[i]);
    assert i in s.stack && i !in s.done;
    forall r ensures Origin(s'.code, r) == Origin(s.code, if r == m.dst then m.src else r) {
      OriginSnoc(s.code, m, r);
    }
    forall r | r != s.p.tmp && !Overwritten(s.p, s'.done, r) ensures Origin(s'.code, r) == r {
      assert s'.done[|s.done|] == i;
      forall a | 0 <= a < |s.done| ensures s.p.dst[s.done[a]] != r {
        assert s'.done[a] == s.done[a];
      }
    }
    forall a | 0 <= a < |s'.done| ensures Origin(s'.code, s.p.dst[s'.done[a]]) == s.p.src[s'.done[a]] {
      if a < |s.done| {
        assert s'.done[a] == s.done[a];
        assert s.p.dst[s.done[a]] != m.dst;
      }
    }
  }

  lemma FinishReadersFirst(s: State)
    requires ReadyToFinish(s) && Shape(Finished(s))
    ensures ReadersFirst(Finished(s))
  {
    var s' := Finished(s);
    forall a, j | 0 <= a < |s'.done| && 0 <= j < |s.p.dst| ensures ReadBefore(s', a, j) {
      if a < |s.done| {
        assert ReadBefore(s, a, j);
        assert s'.done[..a] == s.done[..a];
      } else {
        assert s'.done[..a] == s.done;
      }
    }
  }

  lemma FinishKeeps(s: State)
    requires ReadyToFinish(s)
    ensures Inv(Finished(s))
  {
    var i := Top(s);
    FinishShape(s);
    FinishHolds(s);
    FinishReadersFirst(s);
    SavesSnoc(s.code, Move(s.p.dst[i], s.src[i]), s.p.tmp);
  }

  // ---------------------------------------------------------------------
  // The steps of the compiler
  // ---------------------------------------------------------------------

  /** The state before the first call. */
  ghost function Initial(p: Problem): State {
    State(p, p.src, seq(|p.dst|, k => ToMove), [], [], [], map[])
  }

  /** One step: a move is started, a register saved, or a move finished. */
  ghost predicate Leads(s: State, t: State) {
    || (exists i: nat :: CanStart(s, i) && t == Started(s, i))
    || (exists j: nat :: Inv(s) && ClosesCycle(s, j) && t == Saved(s, j))
    || (ReadyToFinish(s) && t == Finished(s))
  }

  /** `run` are the states from the first to `s`, step by step. */
  ghost predicate RunTo(run: seq<State>, s: State) {
    && run != [] && run[0] == Initial(s.p) && run[|run| - 1] == s
    && forall k :: 0 <= k < |run| - 1 ==> Leads(run[k], run[k + 1])
  }

  ghost predicate Reached(s: State) {
    exists run :: RunTo(run, s)
  }

  lemma ReachedNext(s: State, t: State)
    requires Reached(s) && Leads(s, t) && t.p == s.p
    ensures Reached(t)
  {
    hide Leads;
    var run :| RunTo(run, s);
    assert RunTo(run + [t], t);
  }

  /** A state that the compiler comes to, with all in order. */
  ghost predicate Stage(s: State) {
    StageFacts(s) == true
  }

  ghost predicate StageFacts(s: State) {
    Inv(s) && Reached(s)
  }

  lemma StageStarts(s: State, i: nat)
    requires Stage(s) && CanStart(s, i)
    ensures Stage(Started(s, i))
  {
    hide Reached;
    StartKeeps(s, i);
    ReachedNext(s, Started(s, i));
  }

  lemma StageSaves(s: State, j: nat)
    requires Stage(s) && ClosesCycle(s, j)
    ensures Stage(Saved(s, j))
  {
    hide Reached, Inv;
    SaveKeeps(s, j);
    ReachedNext(s, Saved(s, j));
  }

  lemma StageFinishes(s: State)
    requires Stage(s) && ReadyToFinish(s)
    ensures Stage(Finished(s))
  {
    hide Reached;
    FinishKeeps(s);
    ReachedNext(s, Finished(s));
  }

  // ---------------------------------------------------------------------
  // The compiler
  // ---------------------------------------------------------------------

  ghost function Pending(s: State): set<int> {
    set k | 0 <= k < |s.status| && s.status[k] == ToMove
  }

  /** The way from `s` to `t` reopens no finished move, starts no move that is
      still in progress, and touches a source only to redirect it. */
  ghost predicate Advances(s: State, t: State) {
    && |s.src| == |t.src| == |s.status| == |t.status|
    && t.p == s.p
    && (forall k :: 0 <= k < |s.src| ==> t.src[k] == s.src[k] || t.src[k] == s.p.tmp)
    && (forall k :: 0 <= k < |s.src| && s.status[k] == Moved ==> t.status[k] == Moved)
    && (forall k :: 0 <= k < |s.src| && t.status[k] == ToMove ==> s.status[k] == ToMove)
  }

  /** The state `s` is what the arrays and the output hold. */
  ghost predicate Matches(s: State, src: array<int>, status: array<Status>, code: seq<Move>)
    reads src, status
  {
    s.src == src[..] && s.status == status[..] && s.code == code
  }

  lemma SaveAdvances(s: State, j: nat)
    requires j < |s.src| == |s.status|
    ensures Advances(s, Saved(s, j))
  {
  }

  lemma FinishAdvances(s: State, i: nat, t: State)
    requires Inv(s) && i < |s.p.dst| && s.status[i] == ToMove
    requires Shape(t) && t.stack == s.stack + [i] && Advances(Started(s, i), t)
    ensures Advances(s, Finished(t))
  {
    assert i in t.stack;
  }

  lemma PendingShrinks(s: State, i: nat, t: State)
    requires i < |s.status| && s.status[i] == ToMove && Advances(Started(s, i), t)
    ensures Pending(t) < Pending(s)
  {
    assert i in Pending(s) && i !in Pending(t);
  }

  lemma AdvancesTrans(s: State, t: State, u: State)
    requires Advances(s, t) && Advances(t, u)
    ensures Advances(s, u)
  {
  }

  /** The first `j` moves that still read register `r` are done. */
  ghost predicate ReadersDone(s: State, r: int, j: nat) {
    |s.src| == |s.status| && forall k :: 0 <= k < j <= |s.src| && s.src[k] == r ==> s.status[k] == Moved
  }

  lemma ReadersStayDone(s: State, t: State, r: int, j: nat)
    requires ReadersDone(s, r, j) && Advances(s, t) && r != s.p.tmp
    requires j < |t.src| && (t.src[j] == r ==> t.status[j] == Moved)
    ensures ReadersDone(t, r, j + 1)
  {
  }

  /** The cycles broken between `s` and `t`: at most one, and then the
      outermost move `root` was redirected on the way. */
  ghost predicate BreaksAtMostOne(s: State, t: State, root: nat)
    requires root < |s.src| && root < |t.src|
  {
    && |s.broken| <= |t.broken| <= |s.broken| + 1
    && (s.src[root] == s.p.tmp ==> |t.broken| == |s.broken|)
    && (|t.broken| > |s.broken| ==> t.src[root] == s.p.tmp)
  }

  /** What a call on the move `i` achieves. */
  ghost predicate CallDone(s: State, i: nat, t: State)
    requires Inv(s) && i < |s.p.dst|
  {
    CallDoneFacts(s, i, t) == true
  }

  ghost predicate CallDoneFacts(s: State, i: nat, t: State)
    requires Inv(s) && i < |s.p.dst|
  {
    && t.stack == s.stack
    && Advances(s, t)
    && t.status[i] == (if s.src[i] == s.p.dst[i] then ToMove else Moved)
    && BreaksAtMostOne(s, t, if s.stack == [] then i else s.stack[0])
  }

  /** The loop over the readers of what `i` writes, begun in `s`, has treated
      the first `j` moves and is in `t`. */
  ghost predicate Reading(s: State, i: nat, t: State, j: nat) {
    && Stage(s) && Stage(t)
    && s.stack != [] && t.stack == s.stack && Top(s) == i && j <= |s.p.dst|
    && t.src[i] != s.p.dst[i]
    && Advances(s, t)
    && ReadersDone(t, s.p.dst[i], j)
    && BreaksAtMostOne(s, t, s.stack[0])
  }

  ghost predicate LoopAt(s: State, i: nat, t: State, j: nat) {
    Reading(s, i, t, j) == true
  }

  lemma ReadersBegin(s: State, i: nat)
    requires Stage(s) && s.stack != [] && Top(s) == i && s.src[i] != s.p.dst[i]
    ensures LoopAt(s, i, s, 0)
  {
    assert i in s.stack;
  }

  lemma ReadersSkip(s: State, i: nat, t: State, j: nat)
    requires LoopAt(s, i, t, j) && j < |s.p.dst|
    requires t.src[j] == s.p.dst[i] ==> t.status[j] == Moved
    ensures LoopAt(s, i, t, j + 1)
  {
  }

  lemma ReadersMove(s: State, i: nat, t: State, j: nat, u: State)
    requires LoopAt(s, i, t, j) && j < |s.p.dst| && t.src[j] == s.p.dst[i]
    requires Stage(u) && CallDone(t, j, u)
    ensures LoopAt(s, i, u, j + 1)
  {
    assert j != i;
    AdvancesTrans(s, t, u);
    ReadersStayDone(t, u, s.p.dst[i], j);
  }

  lemma ReadersSave(s: State, i: nat, t: State, j: nat)
    requires LoopAt(s, i, t, j) && j < |s.p.dst| && t.src[j] == s.p.dst[i] && t.status[j] == BeingMoved
    ensures LoopAt(s, i, Saved(t, j), j + 1)
  {
    SaveKeeps(t, j);
    StageSaves(t, j);
    SaveAdvances(t, j);
    AdvancesTrans(s, t, Saved(t, j));
    ReadersStayDone(t, Saved(t, j), s.p.dst[i], j);
  }

  lemma ReadersEnd(s: State, i: nat, t: State)
    requires Stage(s) && i < |s.p.dst| && s.status[i] == ToMove && s.src[i] != s.p.dst[i]
    requires LoopAt(Started(s, i), i, t, |s.p.dst|)
    ensures Stage(Finished(t)) && CallDone(s, i, Finished(t))
  {
    FinishKeeps(t);
    StageFinishes(t);
    FinishAdvances(s, i, t);
  }

  /** Starts the move `i` and finishes it after all that read its
      destination. The output `code` grows; `s` and `s'` are the whole states
      before and after. */
  method MoveOne(code: seq<Move>, i: nat, src: array<int>, dst: seq<int>, status: array<Status>, tmp: int,
                 ghost s: State)
    returns (code': seq<Move>, ghost s': State)
    requires s.p.dst == dst && s.p.tmp == tmp
    requires Matches(s, src, status, code) && Stage(s)
    requires i < |dst| && s.status[i] == ToMove
    requires s.stack != [] ==> s.src[i] == dst[Top(s)]
    modifies src, status
    ensures Matches(s', src, status, code') && Stage(s')
    ensures CallDone(s, i, s')
    decreases Pending(s)
  {
    code', s' := code, s;
    if src[i] != dst[i] {
      StageStarts(s, i);
      ghost var s1 := Started(s, i);
      status[i] := BeingMoved;
      s' := s1;
      ReadersBegin(s1, i);
      for j := 0 to |dst|
        invariant Matches(s', src, status, code') && LoopAt(s1, i, s', j)
      {
        ghost var t := s';
        if src[j] == dst[i] {
          match status[j]
          case ToMove =>
            PendingShrinks(s, i, t);
            code', s' := MoveOne(code', j, src, dst, status, tmp, t);
            ReadersMove(s1, i, t, j, s');
          case BeingMoved =>
            ReadersSave(s1, i, t, j);
            code' := code' + [Move(tmp, src[j])];
            src[j] := tmp;
            s' := Saved(t, j);
            assert src[..] == t.src[j := tmp];
          case Moved =>
            ReadersSkip(s1, i, t, j);
        } else {
          ReadersSkip(s1, i, t, j);
        }
      }
      ReadersEnd(s, i, s');
      code' := code' + [Move(dst[i], src[i])];
      status[i] := Moved;
      assert status[..] == s'.status[i := Moved];
      s' := Finished(s');
    }
  }

  // ---------------------------------------------------------------------
  // The whole compilation
  // ---------------------------------------------------------------------

  lemma InitialStage(p: Problem)
    requires p.WellFormed()
    ensures Stage(Initial(p))
  {
    InitialInv(p);
    assert RunTo([Initial(p)], Initial(p));
  }

  lemma InitialInv(p: Problem)
    requires p.WellFormed()
    ensures Inv(Initial(p))
  {
    var s := Initial(p);
    forall j: nat ensures !Redirected(p, s.src, j) {
      assert j < |p.src| ==> p.src[j] in p.src;
    }
  }

  /** `code` does the simultaneous moves of `p` and touches no register but
      the destinations and `tmp`. */
  ghost predicate Realizes(p: Problem, code: seq<Move>)
    requires p.WellFormed()
  {
    && (forall k :: 0 <= k < |p.dst| ==> Origin(code, p.dst[k]) == p.src[k])
    && (forall r :: r != p.tmp && r !in p.dst ==> Origin(code, r) == r)
  }

  /** No outermost call is open and no proper move is left. */
  ghost predicate Complete(s: State) {
    && Stage(s)
    && s.stack == []
    && (forall k :: 0 <= k < |s.p.dst| && s.p.src[k] != s.p.dst[k] ==> s.status[k] == Moved)
  }

  lemma CompleteRealizes(s: State)
    requires Complete(s)
    ensures Realizes(s.p, s.code)
  {
    var p := s.p;
    forall k | 0 <= k < |p.dst| ensures Origin(s.code, p.dst[k]) == p.src[k] {
      if s.status[k] == Moved {
        var a :| 0 <= a < |s.done| && s.done[a] == k;
      } else {
        assert p.dst[k] in p.dst;
        assert k !in s.done;
        assert !Overwritten(p, s.done, p.dst[k]);
      }
    }
    forall r | r != p.tmp && r !in p.dst ensures Origin(s.code, r) == r {
      assert !Overwritten(p, s.done, r);
    }
  }

  /** A cycle without a redirected move has no finished move: the first of
      them to finish would have overwritten the register of its reader. */
  lemma {:induction false} UnbrokenUnfinished(s: State, c: seq<nat>, a: nat)
    requires Inv(s) && CycleList(s.p, c)
    requires forall t :: 0 <= t < |c| ==> !Redirected(s.p, s.src, c[t])
    requires a <= |s.done|
    ensures forall t :: 0 <= t < |c| ==> c[t] !in s.done[..a]
  {
    hide Inv, CycleList, Redirected;
    if a > 0 {
      UnbrokenUnfinished(s, c, a - 1);
      assert s.done[..a] == s.done[..a - 1] + [s.done[a - 1]];
      forall t | 0 <= t < |c| ensures c[t] != s.done[a - 1] {
        UnbrokenNext(s, c, a - 1, t);
      }
    }
  }

  /** If no move of the cycle is among the first `a` finished, the next is none
      of them either. */
  lemma UnbrokenNext(s: State, c: seq<nat>, a: nat, t: nat)
    requires Inv(s) && CycleList(s.p, c) && t < |c| && a < |s.done|
    requires forall u :: 0 <= u < |c| ==> !Redirected(s.p, s.src, c[u]) && c[u] !in s.done[..a]
    ensures c[t] != s.done[a]
  {
    hide Holds, Counted, Chained;
    var u := if t == |c| - 1 then 0 else t + 1;
    assert Before(c, u) == c[t] && Link(s.p, s.p.src, c, u);
    assert !Redirected(s.p, s.src, c[u]) && c[u] !in s.done[..a];
    assert ReadBefore(s, a, c[u]);
  }

  lemma CycleFinished(s: State, c: seq<nat>)
    requires Complete(s) && CycleList(s.p, c)
    ensures c[1] in s.done[..|s.done|]
  {
    assert Link(s.p, s.p.src, c, 1) && Before(c, 1) == c[0];
    assert s.p.src[c[1]] != s.p.dst[c[1]];
    assert s.done[..|s.done|] == s.done;
  }

  lemma CycleRedirected(s: State, C: set<nat>) returns (j: nat)
    requires Complete(s) && IsCycle(s.p, C)
    ensures j in C && j in s.broken
  {
    var c :| CycleList(s.p, c) && C == ElemSet(c);
    CycleFinished(s, c);
    if forall t :: 0 <= t < |c| ==> !Redirected(s.p, s.src, c[t]) {
      UnbrokenUnfinished(s, c, |s.done|);
      assert false;
    }
    var t :| 0 <= t < |c| && Redirected(s.p, s.src, c[t]);
    j := c[t];
  }

  lemma CycleBroken(s: State, C: set<nat>)
    requires Complete(s) && IsCycle(s.p, C)
    ensures C in s.broken.Values
  {
    var j := CycleRedirected(s, C);
    SameCycle(s.p, C, s.broken[j], j);
  }

  lemma InjectiveSize(m: map<nat, set<nat>>)
    requires forall j: nat, k: nat :: j in m && k in m && j != k ==> m[j] != m[k]
    ensures |m.Values| == |m|
  {
    if m != map[] {
      var j :| j in m;
      var m' := m - {j};
      InjectiveSize(m');
      assert m.Keys == m'.Keys + {j};
      assert m.Values == m'.Values + {m[j]} by {
        forall v | v in m.Values ensures v in m'.Values + {m[j]} {
          var k :| k in m && m[k] == v;
          assert k == j || k in m';
        }
      }
      assert m[j] !in m'.Values;
    }
  }

  lemma CompleteSize(s: State)
    requires Complete(s)
    ensures |s.code| == |Proper(s.p)| + |Cycles(s.p)|
    ensures Saves(s.code, s.p.tmp) == |Cycles(s.p)|
  {
    var p := s.p;
    DistinctSize(s.done);
    assert ElemSet(s.done) == Proper(p) by {
      forall k: nat | k < |p.dst| ensures k in s.done <==> p.src[k] != p.dst[k] {
        assert s.status[k] == Moved <==> k in s.done;
      }
    }
    InjectiveSize(s.broken);
    forall C | C in s.broken.Values ensures C in Cycles(p) {
      var c :| CycleList(p, c) && C == ElemSet(c);
      assert forall k: nat | k < |p.dst| :: k in Indices(p) by {
        forall k: nat | k < |p.dst| ensures k in Indices(p) {
          assert seq(|p.dst|, k => k)[k] == k;
        }
      }
    }
    forall C | C in Cycles(p) ensures C in s.broken.Values {
      CycleBroken(s, C);
    }
    assert Cycles(p) == s.broken.Values;
  }

  /** The calls made so far: all of the first `k` moves that are not
      self-moves are done. */
  ghost predicate Between(p: Problem, s: State, k: nat) {
    && s.p == p && Stage(s) && s.stack == [] && k <= |p.dst|
    && (forall j :: 0 <= j < k && p.src[j] != p.dst[j] ==> s.status[j] == Moved)
  }

  ghost predicate BetweenCalls(p: Problem, s: State, k: nat) {
    Between(p, s, k) == true
  }

  lemma CallAdvances(p: Problem, s: State, k: nat, t: State)
    requires BetweenCalls(p, s, k) && k < |p.dst|
    requires if s.status[k] == ToMove then Stage(t) && CallDone(s, k, t) else t == s
    ensures BetweenCalls(p, t, k + 1)
    ensures Saves(s.code, p.tmp) <= Saves(t.code, p.tmp) <= Saves(s.code, p.tmp) + 1
  {
  }

  /** `code` is what the compiler makes of `p`, step by step. */
  ghost predicate Compiled(p: Problem, code: seq<Move>) {
    exists s :: Complete(s) && s.p == p && s.code == code
  }

  /** The compiled moves mean what the simultaneous moves mean, in exactly one
      instruction per proper move and one per cycle. */
  method Compile(src0: seq<int>, dst: seq<int>, tmp: int) returns (code: seq<Move>)
    requires Problem(src0, dst, tmp).WellFormed()
    ensures Realizes(Problem(src0, dst, tmp), code)
    ensures Uses(Problem(src0, dst, tmp), code)
    ensures |code| == |Proper(Problem(src0, dst, tmp))| + |Cycles(Problem(src0, dst, tmp))|
    ensures Saves(code, tmp) == |Cycles(Problem(src0, dst, tmp))|
    ensures Compiled(Problem(src0, dst, tmp), code)
  {
    var n := |dst|;
    var src := new int[n](k requires 0 <= k < n => src0[k]);
    var status := new Status[n](_ => ToMove);
    ghost var p := Problem(src0, dst, tmp);
    ghost var s := Initial(p);
    InitialStage(p);
    code := [];
    assert src[..] == src0;
    for k := 0 to n
      invariant Matches(s, src, status, code) && BetweenCalls(p, s, k)
    {
      ghost var t := s;
      if status[k] == ToMove {
        code, s := MoveOne(code, k, src, dst, status, tmp, t);
      }
      CallAdvances(p, t, k, s);
    }
    CompleteRealizes(s);
    CompleteSize(s);
  }

  /** What `Realizes` means for every register file. */
  lemma RealizesRuns<V>(p: Problem, code: seq<Move>, regs: int -> V)
    requires p.WellFormed() && Realizes(p, code)
    ensures forall k :: 0 <= k < |p.dst| ==> Exec(code, regs)(p.dst[k]) == regs(p.src[k])
    ensures forall r :: r != p.tmp && r !in p.dst ==> Exec(code, regs)(r) == regs(r)
  {
    forall r ensures Exec(code, regs)(r) == regs(Origin(code, r)) {
      ExecOrigin(code, regs, r);
    }
  }
}
