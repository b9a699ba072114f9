/** No value that a receive took is lost, unless its cord is. */
module ChannelDelivery {
  import opened Sched
  import opened SchedRuns
  import opened Channels

  /** The cord is runnable and about to go on where it was suspended at `at`. */
  ghost predicate GoesOn(s: State, at: Point, id: nat) {
    exists k :: k in s.runable && k.id == id && k.at == at
  }

  function RecvPoint(c: Chan, a: nat): Point {
    AfterBlock(OnRecv(c.id, a))
  }

  /** The receive `i` has an answer in its element, and its cord is about to
      return it, or can no longer run. */
  ghost predicate Pending(c: Chan, i: nat) {
    && i in c.eltOf && c.eltOf[i] in c.elts && c.eltOf[i] in c.noOf && c.noOf[c.eltOf[i]] == i
    && !c.elts[c.eltOf[i]].send
    && (CannotRun(c.sched, c.elts[c.eltOf[i]].cord)
        || GoesOn(c.sched, RecvPoint(c, c.eltOf[i]), c.elts[c.eltOf[i]].cord))
  }

  predicate IsAnswered(f: Fate) {
    f.Paired? || f.Shut?
  }

  /** Every receive that was answered has returned, or is pending. */
  ghost predicate AllHeld(c: Chan) {
    forall i :: 0 <= i < |c.fates| && IsAnswered(c.fates[i]) ==> i in c.outcomes || Pending(c, i)
  }

  /** The queued receives know their elements. */
  ghost predicate QueueKnown(c: Chan) {
    forall j :: 0 <= j < |c.queue| && c.queue[j] in c.elts && !c.elts[c.queue[j]].send && c.queue[j] in c.noOf ==>
      c.noOf[c.queue[j]] in c.eltOf && c.eltOf[c.noOf[c.queue[j]]] == c.queue[j]
  }

  ghost predicate Held(c: Chan) {
    AllHeld(c) && QueueKnown(c)
  }

  // ---------------------------------------------------------------------
  // What the scheduler does to pending receives
  // ---------------------------------------------------------------------

  lemma CannotRunMeans(s: State, id: nat)
    ensures CannotRun(s, id) <==>
              && id < s.count && Executing(s.exec, id) == 0
              && (forall k :: k in s.runable ==> k.id != id) && (forall k :: k in s.blocked ==> k.id != id)
  {
    Somewhere(s.runable, id);
    Somewhere(s.blocked, id);
  }

  /** No cord that is ended or goes on is taken out of its place. */
  ghost predicate Spared(s: State, t: State, at: Point, id: nat) {
    (CannotRun(s, id) ==> CannotRun(t, id)) && (GoesOn(s, at, id) ==> CannotRun(t, id) || GoesOn(t, at, id))
  }

  lemma WakeSpares(s: State, woken: nat, val: nat, at: Point, id: nat)
    requires Counted(s)
    ensures Spared(s, Wake(s, woken, val), at, id)
  {
    WakeSets(s, woken, val);
    CannotRunMeans(s, id);
    CannotRunMeans(Wake(s, woken, val), id);
  }

  lemma HaltSpares(s: State, halted: nat, at: Point, id: nat)
    requires Inv(s) && Enabled(s, Halt(halted))
    ensures Spared(s, HaltCord(s, halted), at, id)
  {
    var t := HaltCord(s, halted);
    if CannotRun(s, id) {
      StepCannot(s, Halt(halted), id);
    }
    if GoesOn(s, at, id) {
      var k :| k in s.runable && k.id == id && k.at == at;
      HaltOther(s, halted, k);
    }
  }

  /** A runnable cord stays so unless it is the one halted. */
  lemma HaltOther(s: State, halted: nat, k: Cord)
    requires Inv(s) && k in s.runable
    ensures CannotRun(HaltCord(s, halted), k.id) || k in HaltCord(s, halted).runable
  {
    hide CannotRun;
    var t := HaltCord(s, halted);
    var i :| 0 <= i < |s.runable| && s.runable[i] == k;
    var f := Find(s.runable, halted);
    OnlyThere(s, AsRunable, i);
    assert CordsAt(s, AsRunable)[i] == k;
    if f == i {
      CannotRunMeans(t, k.id);
      assert CordsAt(s, AsBlocked) == s.blocked;
    } else if f < |s.runable| {
      assert t.runable[if i < f then i else i - 1] == k;
    }
  }

  /** Up to a switch. */
  lemma SuspendSpares(s: State, step: Step, at: Point, id: nat)
    requires Inv(s) && Enabled(s, step) && Switches(step)
    ensures Spared(s, Suspended(s, step), at, id)
  {
    var t := Suspended(s, step);
    CannotRunMeans(s, id);
    CannotRunMeans(t, id);
    if GoesOn(s, at, id) {
      var k :| k in s.runable && k.id == id && k.at == at;
      var i :| 0 <= i < |s.runable| && s.runable[i] == k;
      OnlyThere(s, AsRunable, i);
      assert CordsAt(s, AsRunable)[i] == k && CordsAt(s, AsBlocked) == s.blocked;
    }
  }

  lemma StepSpares(s: State, step: Step, at: Point, id: nat)
    requires Inv(s) && Enabled(s, step) && !Switches(step)
    ensures Spared(s, Next(s, step), at, id)
  {
    if CannotRun(s, id) {
      StepCannot(s, step, id);
    }
    match step
    case Unblock(woken, val) => WakeSpares(s, woken, val, at, id);
    case Halt(halted) => HaltSpares(s, halted, at, id);
    case Finish =>
      StepKeeps(s, step);
      CannotRunMeans(Next(s, step), id);
      if GoesOn(s, at, id) {
        var k :| k in s.runable && k.id == id;
        var i :| 0 <= i < |s.runable| && s.runable[i] == k;
        OnlyThere(s, AsRunable, i);
        assert CordsAt(s, AsRunable)[i] == k;
      }
    case _ =>
  }

  // ---------------------------------------------------------------------
  // Every step keeps what is pending
  // ---------------------------------------------------------------------

  /** The element of a pending receive is not in the queue. */
  lemma PendingOff(c: Chan, i: nat)
    requires QueueOk(c) && Unmatched(c) && i < |c.fates| && IsAnswered(c.fates[i]) && Pending(c, i)
    ensures c.eltOf[i] !in c.queue
  {
    forall j | 0 <= j < |c.queue| ensures c.queue[j] != c.eltOf[i] {
      assert c.queue[j] in c.elts;
    }
  }

  lemma PendingKept(c: Chan, d: Chan, i: nat)
    requires Pending(c, i)
    requires i in d.eltOf && d.eltOf[i] == c.eltOf[i]
    requires var a := c.eltOf[i];
             && a in d.elts && d.elts[a].cord == c.elts[a].cord && !d.elts[a].send
             && a in d.noOf && d.noOf[a] == i
             && d.id == c.id && Spared(c.sched, d.sched, RecvPoint(c, a), c.elts[a].cord)
    ensures Pending(d, i)
  {
  }

  /** A switch: the receive that goes on returns, the others stay pending. */
  lemma SwitchHolds(c: Chan)
    requires AtSwitch(c) && Held(c)
    ensures Held(Settle(Dispatched(c)))
  {
    hide Dispatch, Counted, Settle;
    var d := Dispatched(c);
    var e := Settle(d);
    SettleLeaves(d);
    DispatchSets(c.sched);
    RunableDiffer(c.sched);
    forall i | 0 <= i < |e.fates| && IsAnswered(e.fates[i]) && i !in e.outcomes ensures Pending(e, i) {
      assert i !in c.outcomes && Pending(c, i);
      var a := c.eltOf[i];
      var id := c.elts[a].cord;
      if CannotRun(c.sched, id) {
        CannotRunMeans(c.sched, id);
        CannotRunMeans(d.sched, id);
        KeepsOther(c, d, a);
      } else {
        var k :| k in c.sched.runable && k.id == id && k.at == RecvPoint(c, a);
        assert RunOk(c, k);
        GoesOnStill(c, d, a, k);
      }
    }
    SwitchKnows(c);
  }

  lemma SwitchKnows(c: Chan)
    requires QueueOk(c) && QueueKnown(c)
    ensures QueueKnown(Settle(Dispatched(c)))
  {
    hide Dispatch, Settle;
    var e := Settle(Dispatched(c));
    SettleLeaves(Dispatched(c));
    forall j | 0 <= j < |e.queue| && e.queue[j] in e.elts && !e.elts[e.queue[j]].send && e.queue[j] in e.noOf
      ensures e.noOf[e.queue[j]] in e.eltOf && e.eltOf[e.noOf[e.queue[j]]] == e.queue[j]
    {
      assert c.queue[j] in c.elts;
    }
  }

  /** The cord that goes on frees its own element only. */
  lemma KeepsOther(c: Chan, d: Chan, a: nat)
    requires CordsOk(c) && d == Dispatched(c) && a in c.elts
    requires d.sched.exec.Running? ==> d.sched.exec.cord in c.sched.runable
    requires forall k :: k in c.sched.runable ==> k.id != c.elts[a].cord
    ensures a in Settle(d).elts && Settle(d).elts[a] == c.elts[a]
  {
    hide Dispatch, Settle;
    SettleLeaves(d);
    if d.sched.exec.Running? {
      assert RunOk(c, d.sched.exec.cord);
    }
  }

  lemma GoesOnStill(c: Chan, d: Chan, a: nat, k: Cord)
    requires CordsOk(c) && d == Dispatched(c) && RunOk(c, k)
    requires k in c.sched.runable && k.at == RecvPoint(c, a)
    requires d.sched.exec.Running? ==> HasNext(c.sched) && d.sched.exec.cord == c.sched.runable[0]
                                       && d.sched.runable == c.sched.runable[1..]
    requires !d.sched.exec.Running? ==> d.sched.runable == c.sched.runable
    requires forall i, j :: 0 <= i < j < |c.sched.runable| ==> c.sched.runable[i].id != c.sched.runable[j].id
    ensures var e := Settle(d);
            c.noOf[a] in e.outcomes
            || (k in e.sched.runable && a in e.elts && e.elts[a] == c.elts[a])
  {
    hide Dispatch, Settle;
    SettleLeaves(d);
    var i :| 0 <= i < |c.sched.runable| && c.sched.runable[i] == k;
    if d.sched.exec.Running? {
      assert RunOk(c, d.sched.exec.cord);
      if i > 0 {
        assert d.sched.runable[i - 1] == k;
      }
    }
  }

  lemma QueueHolds(c: Chan, v: nat, send: bool)
    requires ChanInv(c) && Held(c) && c.sched.exec.Running? && !c.gone
    requires if send then !Receiving(c) && !c.closed else !Sending(c) && !(c.closed && c.queue == [])
    ensures Held(Enqueue(c, v, send))
  {
    hide Dispatch, Settle;
    QueueKeeps(c, v, send);
    QueuePends(c, v, send);
    QueueKnows(c, v, send);
    SwitchHolds(Queue(c, v, send));
  }

  lemma QueuePends(c: Chan, v: nat, send: bool)
    requires Inv(c.sched) && MemoryOk(c) && AllHeld(c) && c.sched.exec.Running?
    ensures AllHeld(Queue(c, v, send))
  {
    var d := Queue(c, v, send);
    var step := Block(if send then OnSend(c.id, c.top) else OnRecv(c.id, c.top));
    forall i | 0 <= i < |d.fates| && IsAnswered(d.fates[i]) && i !in d.outcomes ensures Pending(d, i) {
      assert i < |c.fates| && Pending(c, i);
      SuspendSpares(c.sched, step, RecvPoint(c, c.eltOf[i]), c.elts[c.eltOf[i]].cord);
      PendingKept(c, d, i);
    }
  }

  lemma QueueKnows(c: Chan, v: nat, send: bool)
    requires MemoryOk(c) && QueueOk(c) && Unmatched(c) && QueueKnown(c) && c.sched.exec.Running?
    requires if send then !Receiving(c) else !Sending(c)
    ensures QueueKnown(Queue(c, v, send))
  {
    var d := Queue(c, v, send);
    forall j | 0 <= j < |d.queue| && d.queue[j] in d.elts && !d.elts[d.queue[j]].send && d.queue[j] in d.noOf
      ensures d.noOf[d.queue[j]] in d.eltOf && d.eltOf[d.noOf[d.queue[j]]] == d.queue[j]
    {
      if j < |c.queue| {
        assert c.queue[j] in c.elts && c.queue[j] in c.noOf;
      }
    }
  }

  lemma SkipHolds(c: Chan)
    requires ChanInv(c) && Held(c) && Receiving(c)
    ensures Held(Skip(c))
  {
    var d := Skip(c);
    assert QueueOk(c) && MemoryOk(c) && Unmatched(c);
    hide Inv, CordsOk;
    forall i | 0 <= i < |d.fates| && IsAnswered(d.fates[i]) && i !in d.outcomes ensures Pending(d, i) {
      assert Pending(c, i);
      PendingOff(c, i);
      PendingKept(c, d, i);
    }
  }

  lemma HandHolds(c: Chan, v: nat)
    requires ChanInv(c) && Held(c) && Receiving(c) && FirstWaits(c)
    ensures Held(Hand(c, v))
  {
    var d, a := Hand(c, v), c.queue[0];
    assert QueueOk(c) && MemoryOk(c) && Unmatched(c) && OutcomesOk(c);
    WakeSets(c.sched, c.elts[a].cord, 1);
    assert c.sched.blocked[Find(c.sched.blocked, c.elts[a].cord)] in c.sched.blocked;
    forall i | 0 <= i < |d.fates| && IsAnswered(d.fates[i]) && i !in d.outcomes ensures Pending(d, i) {
      if i == c.noOf[a] {
        HandedGoesOn(c, v);
      } else {
        assert Pending(c, i);
        PendingOff(c, i);
        WakeSpares(c.sched, c.elts[a].cord, 1, RecvPoint(c, c.eltOf[i]), c.elts[c.eltOf[i]].cord);
        PendingKept(c, d, i);
      }
    }
  }

  /** The receiver that is handed a value goes on in its `chrecv`. */
  lemma HandedGoesOn(c: Chan, v: nat)
    requires ChanInv(c) && Receiving(c) && FirstWaits(c)
    ensures GoesOn(Hand(c, v).sched, RecvPoint(c, c.queue[0]), c.elts[c.queue[0]].cord)
  {
    var a := c.queue[0];
    var id := c.elts[a].cord;
    var b := c.sched.blocked[Find(c.sched.blocked, id)];
    assert b in c.sched.blocked && b.id == id;
    assert WaiterOk(c.sched, c.id, a, c.elts[a]);
    WakeSets(c.sched, id, 1);
    assert b.(val := 1) in Hand(c, v).sched.runable;
  }

  lemma TakeHolds(c: Chan)
    requires ChanInv(c) && Held(c) && Sending(c)
    ensures Held(Take(c))
  {
    var d, a := Take(c), c.queue[0];
    assert QueueOk(c) && MemoryOk(c) && Unmatched(c);
    forall i | 0 <= i < |d.fates| && IsAnswered(d.fates[i]) && i !in d.outcomes ensures Pending(d, i) {
      assert Pending(c, i);
      PendingOff(c, i);
      WakeSpares(c.sched, c.elts[a].cord, 0, RecvPoint(c, c.eltOf[i]), c.elts[c.eltOf[i]].cord);
      PendingKept(c, d, i);
    }
  }

  lemma CloseHolds(c: Chan)
    requires ChanInv(c) && Held(c) && c.sched.exec.Running? && !c.gone
    ensures Held(Close(c))
  {
    if Receiving(c) {
      var d := Close(c);
      WakeAllSets(c.sched, c.elts, c.queue);
      hide Inv, WakeAll, Wake;
      forall i | 0 <= i < |d.fates| && IsAnswered(d.fates[i]) && i !in d.outcomes ensures Pending(d, i) {
        if IsAnswered(c.fates[i]) {
          assert Pending(c, i);
          CloseSpares(c, RecvPoint(c, c.eltOf[i]), c.elts[c.eltOf[i]].cord);
          PendingKept(c, d, i);
        } else {
          assert Unmatched(c);
          ClosedGoesOn(c, i - (|c.fates| - |c.queue|));
        }
      }
    }
  }

  lemma CloseSpares(c: Chan, at: Point, id: nat)
    requires ChanInv(c) && Receiving(c) && c.sched.exec.Running?
    ensures Spared(c.sched, Close(c).sched, at, id)
  {
    WakeAllSets(c.sched, c.elts, c.queue);
    hide Inv, WakeAll, Wake;
    CannotRunMeans(c.sched, id);
    CannotRunMeans(Close(c).sched, id);
  }

  /** A receive that is turned away is pending. */
  lemma ClosedGoesOn(c: Chan, j: nat)
    requires ChanInv(c) && QueueKnown(c) && Receiving(c) && c.sched.exec.Running? && j < |c.queue|
    ensures |c.queue| <= |c.fates| && Pending(Close(c), |c.fates| - |c.queue| + j)
  {
    hide Inv, WakeAll, Wake, TakenInOrder, OutcomesOk, RunOk, BlockOk;
    var a := c.queue[j];
    assert QueueOk(c) && MemoryOk(c) && Unmatched(c);
    assert WaiterOk(c.sched, c.id, a, c.elts[a]);
    WakeAllSets(c.sched, c.elts, c.queue);
    var id, t := c.elts[a].cord, Close(c).sched;
    CannotRunMeans(t, id);
    if k :| k in c.sched.blocked && k.id == id {
      assert k.(val := 0) in t.runable;
    }
  }

  lemma RefusedHolds(c: Chan)
    requires Held(c)
    ensures Held(c.(fates := c.fates + [Shut], outcomes := c.outcomes[|c.fates| := NotOk]))
  {
    var d := c.(fates := c.fates + [Shut], outcomes := c.outcomes[|c.fates| := NotOk]);
    forall i | 0 <= i < |d.fates| && IsAnswered(d.fates[i]) && i !in d.outcomes ensures Pending(d, i) {
      assert Pending(c, i);
    }
  }

  lemma ElsewhereHolds(c: Chan, step: Step)
    requires ChanInv(c) && Held(c) && Possible(c, Other(step))
    ensures Held(Elsewhere(c, step))
  {
    var s := c.sched;
    var t := if Switches(step) then Suspended(s, step) else Next(s, step);
    var d := c.(sched := t);
    forall i | 0 <= i < |d.fates| && IsAnswered(d.fates[i]) && i !in d.outcomes ensures Pending(d, i) {
      assert Pending(c, i);
      if Switches(step) {
        SuspendSpares(s, step, RecvPoint(c, c.eltOf[i]), c.elts[c.eltOf[i]].cord);
      } else {
        StepSpares(s, step, RecvPoint(c, c.eltOf[i]), c.elts[c.eltOf[i]].cord);
      }
      PendingKept(c, d, i);
    }
    if Switches(step) {
      SuspendedKeeps(s, step);
      ElsewhereMoves(c, step, t);
      OthersMoved(c, t);
      SchedOnly(c, t);
      SwitchHolds(d);
    }
  }

  lemma {:induction false} SendHolds(c: Chan, v: nat)
    requires ChanInv(c) && Held(c) && c.sched.exec.Running? && !c.gone && !c.closed
    ensures Held(Send(c, v))
    decreases |c.queue|
  {
    hide ChanInv, Held;
    if Receiving(c) {
      if FirstWaits(c) {
        HandHolds(c, v);
      } else {
        SkipKeeps(c);
        SkipHolds(c);
        SendHolds(Skip(c), v);
      }
    } else {
      QueueHolds(c, v, true);
    }
  }

  lemma PerformHolds(c: Chan, call: Call)
    requires ChanInv(c) && Held(c) && Possible(c, call)
    ensures Held(Perform(c, call))
  {
    hide ChanInv, Held;
    match call
    case Sent(v) => if !c.closed { SendHolds(c, v); }
    case Received =>
      if c.closed && c.queue == [] {
        RefusedHolds(c);
      } else if Sending(c) {
        TakeHolds(c);
      } else {
        QueueHolds(c, 0, false);
      }
    case Closed => CloseHolds(c);
    case Other(step) => ElsewhereHolds(c, step);
  }

  lemma {:induction false} CallsHold(c: Chan, calls: seq<Call>)
    requires ChanInv(c) && Held(c) && Runs(c, calls)
    ensures Held(AfterCalls(c, calls))
    decreases |calls|
  {
    if calls != [] {
      PerformKeeps(c, calls[0]);
      PerformHolds(c, calls[0]);
      CallsHold(Perform(c, calls[0]), calls[1..]);
    }
  }

  /** In every run, a receive that took a value, or was turned away, has
      returned just that, or its cord is runnable and about to, or its cord was
      destroyed or is a zombie: no value that was taken is lost otherwise. */
  lemma DeliveredOrDead(id: nat, s: State, calls: seq<Call>, i: nat)
    requires Inv(s) && forall k :: k in s.runable || k in s.blocked ==> !OnChannel(k.at, id)
    requires Runs(Open(id, s), calls)
    requires i < |AfterCalls(Open(id, s), calls).fates| && IsAnswered(AfterCalls(Open(id, s), calls).fates[i])
    ensures var t := AfterCalls(Open(id, s), calls);
            (i in t.outcomes && Fits(t, i, t.outcomes[i]))
            || (i in t.eltOf && t.eltOf[i] in t.elts
                && (CannotRun(t.sched, t.elts[t.eltOf[i]].cord)
                    || exists k :: k in t.sched.runable && k.id == t.elts[t.eltOf[i]].cord
                                   && k.at == RecvPoint(t, t.eltOf[i])
                                   && Fits(t, i, if k.val != 0 then Value(t.elts[t.eltOf[i]].val) else NotOk)))
  {
    var c := Open(id, s);
    OpenInv(id, s);
    CallsKeep(c, calls);
    CallsHold(c, calls);
    var t := AfterCalls(c, calls);
    if i !in t.outcomes {
      assert Pending(t, i);
      if !CannotRun(t.sched, t.elts[t.eltOf[i]].cord) {
        var k :| k in t.sched.runable && k.id == t.elts[t.eltOf[i]].cord && k.at == RecvPoint(t, t.eltOf[i]);
        assert CordsOk(t) && RunOk(t, k);
      }
    } else {
      assert OutcomesOk(t);
    }
  }
}
