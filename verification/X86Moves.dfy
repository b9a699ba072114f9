/** What the x86-64 code of compiled moves does: the encoding takes register 8
    for `rax` wherever `rax` is a destination, and loses the upper half of the
    registers wherever `rax` is a source. */
module X86Moves {
  import opened ParallelMove

  /** The index after those of the six argument registers stands for rax. */
  const TMP: int := 6

  ghost predicate OnArgs(p: Problem) {
    && p.WellFormed() && p.tmp == TMP
    && (forall k :: 0 <= k < |p.dst| ==> 0 <= p.dst[k] < TMP && 0 <= p.src[k] < TMP)
  }

  /** What the bytes of a move do. */
  function Effect(m: Move): Move {
    if m.src == TMP then
      if m.dst == 4 then Move(TMP, TMP) else if m.dst == 5 then Move(3, TMP) else m
    else if m.dst == TMP then Move(4, m.src)
    else m
  }

  /** The register whose initial content `r` holds after the bytes of `code`. */
  function RealOrigin(code: seq<Move>, r: int): int {
    if code == [] then r
    else
      var m := Effect(code[|code| - 1]);
      RealOrigin(code[..|code| - 1], if r == m.dst then m.src else r)
  }

  lemma RealSnoc(code: seq<Move>, m: Move, r: int)
    ensures RealOrigin(code + [m], r) == RealOrigin(code, if r == Effect(m).dst then Effect(m).src else r)
  {
    assert (code + [m])[..|code|] == code;
  }

  // ---------------------------------------------------------------------
  // What every state of the compiler keeps
  // ---------------------------------------------------------------------

  /** Nothing is wrong before the first save. */
  ghost predicate RightBefore(s: State) {
    s.broken == map[] ==> forall r :: 0 <= r < TMP ==> RealOrigin(s.code, r) == Origin(s.code, r)
  }

  /** A move of a saved register to one of the first four gets what rax held. */
  ghost predicate LowGetsRax(s: State)
    requires InRange(s.p, s.done)
  {
    forall a :: 0 <= a < |s.done| && s.done[a] in s.broken && s.p.dst[s.done[a]] <= 3 ==>
      RealOrigin(s.code, s.p.dst[s.done[a]]) == TMP
  }

  /** A move of a saved register to the sixth does not reach it. */
  ghost predicate SixthKept(s: State)
    requires InRange(s.p, s.done)
  {
    (forall a :: 0 <= a < |s.done| && s.p.dst[s.done[a]] == 5 ==> s.done[a] in s.broken) ==>
      RealOrigin(s.code, 5) == 5
  }

  /** If the only save is for a move to the fifth, that has what was saved, and
      so has every register that the fifth is moved to in that cycle. */
  ghost predicate FifthSaved(s: State)
    requires InRange(s.p, s.done) && |s.p.src| == |s.p.dst|
  {
    forall j: nat :: s.broken.Keys == {j} && j < |s.p.dst| && s.p.dst[j] == 4 ==>
      && RealOrigin(s.code, 4) == s.p.src[j]
      && forall a :: 0 <= a < |s.done| && s.p.src[s.done[a]] == 4 && s.done[a] in s.broken[j] ==>
           RealOrigin(s.code, s.p.dst[s.done[a]]) == s.p.src[j]
  }

  ghost predicate RealInv(s: State) {
    RealInvFacts(s) == true
  }

  ghost predicate RealInvFacts(s: State) {
    && Inv(s) && OnArgs(s.p)
    && RealOrigin(s.code, TMP) == TMP
    && RightBefore(s) && LowGetsRax(s) && SixthKept(s) && FifthSaved(s)
  }

  lemma InitialReal(p: Problem)
    requires OnArgs(p)
    ensures RealInv(Initial(p))
  {
    InitialInv(p);
  }

  lemma StartReal(s: State, i: nat)
    requires RealInv(s) && CanStart(s, i)
    ensures RealInv(Started(s, i))
  {
    StartKeeps(s, i);
    hide Inv, OnArgs;
  }

  /** What the register holds that is about to be saved. */
  lemma SavedIsOriginal(s: State, j: nat)
    requires Inv(s) && ClosesCycle(s, j)
    ensures j !in s.broken && s.src[j] == s.p.src[j] && Origin(s.code, s.src[j]) == s.src[j]
    ensures forall k :: k in s.stack ==> k !in s.done
  {
    StackIsCycle(s, j);
    StackNotDone(s, j);
    SavedWitness(s, j);
    hide Chained, ReadersFirst, Counted, CycleList;
    assert !Overwritten(s.p, s.done, s.src[j]);
  }

  lemma StackNotDone(s: State, j: nat)
    requires Inv(s) && ClosesCycle(s, j)
    ensures forall k :: k in s.stack ==> k !in s.done
  {
    hide Holds, Counted, ReadersFirst, Chained;
  }

  lemma SavedWitness(s: State, j: nat)
    requires Inv(s) && ClosesCycle(s, j) && !Redirected(s.p, s.src, j)
    ensures j !in s.broken && s.src[j] == s.p.src[j] && s.src[j] != s.p.tmp
  {
    hide Holds, ReadersFirst;
    assert s.src[j] in s.p.src;
  }

  lemma SaveReal(s: State, j: nat)
    requires RealInv(s) && ClosesCycle(s, j)
    ensures RealInv(Saved(s, j))
  {
    hide Inv, ClosesCycle, OnArgs, RightBefore, LowGetsRax, SixthKept, FifthSaved;
    SaveKeeps(s, j);
    SavedIsOriginal(s, j);
    SaveEffect(s, j);
    SaveParts(s, j);
    SaveFifth(s, j);
  }

  lemma SaveEffect(s: State, j: nat)
    requires RealInv(s) && ClosesCycle(s, j)
    ensures forall r :: RealOrigin(Saved(s, j).code, r) == RealOrigin(s.code, if r == 4 then s.src[j] else r)
  {
    SavedIsOriginal(s, j);
    assert 0 <= s.p.src[j] < TMP;
    forall r ensures RealOrigin(Saved(s, j).code, r) == RealOrigin(s.code, if r == 4 then s.src[j] else r) {
      RealSnoc(s.code, Move(TMP, s.src[j]), r);
    }
  }

  lemma SaveParts(s: State, j: nat)
    requires RealInv(s) && ClosesCycle(s, j)
    ensures var t := Saved(s, j);
            RealOrigin(t.code, TMP) == TMP && RightBefore(t) && LowGetsRax(t) && SixthKept(t)
  {
    hide FifthSaved, RealOrigin, Holds, Counted, ReadersFirst, Chained;
    SaveEffect(s, j);
    SavedIsOriginal(s, j);
    assert s.status[j] == BeingMoved && j in s.stack;
    assert j in Saved(s, j).broken;
  }

  lemma SaveFifth(s: State, j: nat)
    requires RealInv(s) && ClosesCycle(s, j)
    ensures FifthSaved(Saved(s, j))
  {
    hide RealOrigin, Holds, Counted, ReadersFirst, Chained, LowGetsRax, SixthKept;
    var t := Saved(s, j);
    SaveEffect(s, j);
    SavedIsOriginal(s, j);
    assert j in t.broken && t.broken[j] == ElemSet(s.stack);
    if s.broken != map[] {
      var k :| k in s.broken;
      assert k in t.broken && k != j;
    } else {
      assert RealOrigin(t.code, 4) == RealOrigin(s.code, s.p.src[j]) == Origin(s.code, s.p.src[j]);
    }
  }

  /** What a finished move writes. */
  lemma TopFacts(s: State)
    requires RealInv(s) && ReadyToFinish(s)
    ensures s.stack != [] && |s.status| == |s.src| == |s.p.dst| && Top(s) < |s.p.dst|
    ensures var i := Top(s);
            && Finished(s).done == s.done + [i] && i < |s.p.dst| == |s.p.src| && i !in s.done && InRange(s.p, s.done)
            && (if i in s.broken then s.src[i] == TMP else s.src[i] == s.p.src[i])
            && 0 <= s.p.dst[i] < TMP && 0 <= s.p.src[i] < TMP && s.p.src[i] != s.p.dst[i]
            && (forall a :: 0 <= a < |s.done| ==> s.p.dst[s.done[a]] != s.p.dst[i])
            && (forall j :: j in s.broken ==> j < |s.p.dst| && (j != i ==> s.p.dst[j] != s.p.dst[i]))
  {
    hide RightBefore, LowGetsRax, SixthKept, FifthSaved, Holds, ReadersFirst;
    var i := Top(s);
    assert i in s.stack && s.status[i] == BeingMoved;
    assert Redirected(s.p, s.src, i) <==> i in s.broken;
    forall j | j in s.broken ensures j < |s.p.dst| && (j != i ==> s.p.dst[j] != s.p.dst[i]) {
      assert Redirected(s.p, s.src, j);
    }
  }

  lemma FinishEffect(s: State)
    requires RealInv(s) && ReadyToFinish(s)
    ensures var m := Effect(Move(s.p.dst[Top(s)], s.src[Top(s)]));
            forall r :: RealOrigin(Finished(s).code, r) == RealOrigin(s.code, if r == m.dst then m.src else r)
  {
    var m := Move(s.p.dst[Top(s)], s.src[Top(s)]);
    forall r
      ensures RealOrigin(Finished(s).code, r) == RealOrigin(s.code, if r == Effect(m).dst then Effect(m).src else r)
    {
      RealSnoc(s.code, m, r);
    }
  }

  lemma FinishReal(s: State)
    requires RealInv(s) && ReadyToFinish(s)
    ensures RealInv(Finished(s))
  {
    hide RightBefore, LowGetsRax, SixthKept, FifthSaved, Inv, OnArgs, ReadyToFinish;
    FinishKeeps(s);
    TopFacts(s);
    FinishEffect(s);
    FinishRight(s);
    FinishLow(s);
    FinishSixth(s);
    FinishFifth(s);
  }

  lemma FinishRight(s: State)
    requires RealInv(s) && ReadyToFinish(s)
    ensures RightBefore(Finished(s)) && RealOrigin(Finished(s).code, TMP) == TMP
  {
    hide LowGetsRax, SixthKept, FifthSaved, Inv, OnArgs, ReadyToFinish, RealOrigin, Origin;
    TopFacts(s);
    FinishEffect(s);
    var i := Top(s);
    if s.broken == map[] {
      forall r | 0 <= r < TMP ensures RealOrigin(Finished(s).code, r) == Origin(Finished(s).code, r) {
        OriginSnoc(s.code, Move(s.p.dst[i], s.src[i]), r);
      }
    }
  }

  lemma FinishLow(s: State)
    requires RealInv(s) && ReadyToFinish(s)
    ensures InRange(Finished(s).p, Finished(s).done) && LowGetsRax(Finished(s))
  {
    hide RightBefore, SixthKept, FifthSaved, Inv, OnArgs, ReadyToFinish, RealOrigin;
    TopFacts(s);
    FinishEffect(s);
  }

  lemma FinishSixth(s: State)
    requires RealInv(s) && ReadyToFinish(s)
    ensures InRange(Finished(s).p, Finished(s).done) && SixthKept(Finished(s))
  {
    hide RightBefore, LowGetsRax, FifthSaved, Inv, OnArgs, ReadyToFinish, RealOrigin;
    TopFacts(s);
    FinishEffect(s);
    var t := Finished(s);
    if forall a :: 0 <= a < |t.done| && t.p.dst[t.done[a]] == 5 ==> t.done[a] in t.broken {
      assert t.done[|s.done|] == Top(s);
      forall a | 0 <= a < |s.done| && s.p.dst[s.done[a]] == 5 ensures s.done[a] in s.broken {
        assert t.done[a] == s.done[a];
      }
    }
  }

  lemma FinishFifth(s: State)
    requires RealInv(s) && ReadyToFinish(s)
    ensures InRange(Finished(s).p, Finished(s).done) && |s.p.src| == |s.p.dst| && FifthSaved(Finished(s))
  {
    hide RightBefore, LowGetsRax, SixthKept, Inv, OnArgs, ReadyToFinish, RealOrigin;
    TopFacts(s);
    FinishEffect(s);
    var t, i := Finished(s), Top(s);
    forall j: nat | t.broken.Keys == {j} && j < |s.p.dst| && s.p.dst[j] == 4
      ensures RealOrigin(t.code, 4) == s.p.src[j]
      ensures forall a :: 0 <= a < |t.done| && s.p.src[t.done[a]] == 4 && t.done[a] in t.broken[j] ==>
                RealOrigin(t.code, s.p.dst[t.done[a]]) == s.p.src[j]
    {
      assert s.broken.Keys == {j} && (i in s.broken <==> i == j);
      assert RealOrigin(s.code, 4) == s.p.src[j];
    }
  }

  // ---------------------------------------------------------------------
  // What the whole code does
  // ---------------------------------------------------------------------

  lemma LeadsReal(s: State, t: State)
    requires RealInv(s) && Leads(s, t)
    ensures RealInv(t) && t.p == s.p
  {
    hide RealInv, Holds, ReadersFirst, Counted;
    if i: nat :| CanStart(s, i) && t == Started(s, i) {
      StartReal(s, i);
    } else if j: nat :| Inv(s) && ClosesCycle(s, j) && t == Saved(s, j) {
      SaveReal(s, j);
    } else {
      FinishReal(s);
    }
  }

  lemma {:induction false} RunReal(run: seq<State>, s: State, k: nat)
    requires RunTo(run, s) && OnArgs(s.p) && k < |run|
    ensures RealInv(run[k]) && run[k].p == s.p
  {
    hide RealInv, Leads, OnArgs;
    if k == 0 {
      InitialReal(s.p);
    } else {
      RunReal(run, s, k - 1);
      LeadsReal(run[k - 1], run[k]);
    }
  }

  lemma ReachedReal(s: State)
    requires Reached(s) && OnArgs(s.p)
    ensures RealInv(s)
  {
    hide RealInv, OnArgs, Leads;
    var run :| RunTo(run, s);
    RunReal(run, s, |run| - 1);
  }

  /** The code does the moves. */
  ghost predicate DoesMoves(p: Problem, code: seq<Move>)
    requires p.WellFormed()
  {
    forall k :: 0 <= k < |p.dst| ==> RealOrigin(code, p.dst[k]) == p.src[k]
  }

  /** A redirected move is done, at the end. */
  lemma RedirectedDone(s: State, j: nat)
    requires Complete(s) && j in s.broken
    ensures j in s.done && j < |s.p.dst| && s.p.src[j] != s.p.dst[j]
    ensures j in s.broken[j] && IsCycle(s.p, s.broken[j])
  {
    assert Redirected(s.p, s.src, j);
    assert s.p.src[j] in s.p.src;
  }

  /** In a cycle, some other move reads what a move writes. */
  lemma CycleReader(p: Problem, C: set<nat>, j: nat) returns (e: nat)
    requires p.WellFormed() && IsCycle(p, C) && j in C
    ensures e in C && e != j && j < |p.dst| && e < |p.dst| && p.src[e] == p.dst[j] && p.src[e] != p.dst[e]
  {
    var c :| CycleList(p, c) && C == ElemSet(c);
    var t :| 0 <= t < |c| && c[t] == j;
    var u := if t == |c| - 1 then 0 else t + 1;
    e := c[u];
    assert Link(p, p.src, c, u) && Before(c, u) == j;
  }

  /** A redirected move goes wrong, unless it is the only one and is to the
      fifth register. */
  lemma RedirectedWrong(s: State, j: nat)
    requires Complete(s) && RealInv(s) && j in s.broken
    requires j < |s.p.dst| ==> s.p.dst[j] != 4
    ensures !DoesMoves(s.p, s.code)
  {
    RedirectedDone(s, j);
    hide Stage, RightBefore, FifthSaved, RealOrigin;
    var a :| 0 <= a < |s.done| && s.done[a] == j;
    if s.p.dst[j] == 5 {
      forall b | 0 <= b < |s.done| && s.p.dst[s.done[b]] == 5 ensures s.done[b] in s.broken {
        assert s.done[b] == j;
      }
    }
    assert RealOrigin(s.code, s.p.dst[j]) != s.p.src[j];
  }

  lemma FifthWrong(s: State, j: nat)
    requires Complete(s) && RealInv(s) && s.broken.Keys == {j}
    requires j < |s.p.dst| && s.p.dst[j] == 4
    ensures !DoesMoves(s.p, s.code)
  {
    RedirectedDone(s, j);
    var e := CycleReader(s.p, s.broken[j], j);
    assert s.status[e] == Moved && e in s.done;
    hide Stage, RightBefore, LowGetsRax, SixthKept, RealOrigin;
    var a :| 0 <= a < |s.done| && s.done[a] == e;
    assert RealOrigin(s.code, s.p.dst[s.done[a]]) == s.p.src[j];
    assert RealOrigin(s.code, s.p.dst[e]) != s.p.src[e];
  }

  lemma BrokenWrong(s: State)
    requires Complete(s) && RealInv(s) && s.broken != map[]
    ensures !DoesMoves(s.p, s.code)
  {
    hide RealInv, DoesMoves;
    if k: nat :| k in s.broken && k < |s.p.dst| && s.p.dst[k] != 4 {
      RedirectedWrong(s, k);
    } else {
      var j :| j in s.broken;
      RedirectedDone(s, j);
      forall k | k in s.broken ensures k == j {
        RedirectedDone(s, k);
      }
      assert s.broken.Keys == {j};
      FifthWrong(s, j);
    }
  }

  lemma UnbrokenRight(s: State)
    requires Complete(s) && RealInv(s) && s.broken == map[]
    ensures DoesMoves(s.p, s.code)
    ensures forall r :: 0 <= r < TMP && r !in s.p.dst ==> RealOrigin(s.code, r) == r
  {
    CompleteRealizes(s);
    hide Stage, LowGetsRax, SixthKept, FifthSaved, RealOrigin;
  }

  /** The bytes do the moves if and only if the moves have no cycle; then they
      change no other register. rax is kept in any case. */
  lemma MovesIffNoCycle(p: Problem, code: seq<Move>)
    requires OnArgs(p) && Compiled(p, code)
    ensures DoesMoves(p, code) <==> Cycles(p) == {}
    ensures Cycles(p) == {} ==> forall r :: 0 <= r < TMP && r !in p.dst ==> RealOrigin(code, r) == r
    ensures RealOrigin(code, TMP) == TMP
  {
    var s :| Complete(s) && s.p == p && s.code == code;
    ReachedReal(s);
    BrokenAreCycles(s);
    hide Complete, RealInv, OnArgs, Compiled, DoesMoves, RealOrigin;
    if s.broken == map[] {
      UnbrokenRight(s);
    } else {
      BrokenWrong(s);
    }
    RaxKept(s);
  }

  lemma RaxKept(s: State)
    requires RealInv(s)
    ensures RealOrigin(s.code, TMP) == TMP
  {
  }

  lemma BrokenAreCycles(s: State)
    requires Complete(s)
    ensures s.broken == map[] <==> Cycles(s.p) == {}
  {
    CompleteSize(s);
    assert |s.broken| == |Cycles(s.p)|;
  }
}
