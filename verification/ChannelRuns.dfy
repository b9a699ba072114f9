/** What holds of every run of the cords that use one channel. */
module ChannelRuns {
  import opened Sched
  import opened Channels

  // ---------------------------------------------------------------------
  // Every run
  // ---------------------------------------------------------------------

  /** The queue holds senders only or receivers only, and is the end of the
      longer history that has no match: the values sent and not taken, or the
      receives that got nothing yet. */
  lemma QueueIsUnmatched(c: Chan, calls: seq<Call>)
    requires ChanInv(c) && Runs(c, calls)
    ensures var t := AfterCalls(c, calls);
            && (forall i :: 0 <= i < |t.queue| ==> t.queue[i] in t.elts && t.elts[t.queue[i]].send == Sending(t))
            && (Sending(t) ==>
                  && |t.takers| + |t.queue| == |t.sends|
                  && (forall i :: 0 <= i < |t.queue| ==> t.elts[t.queue[i]].val == t.sends[|t.takers| + i])
                  && (forall i :: 0 <= i < |t.fates| ==> !t.fates[i].Queued?))
            && (!Sending(t) ==>
                  && |t.takers| == |t.sends|
                  && (forall i :: 0 <= i < |t.fates| ==> (t.fates[i].Queued? <==> i >= |t.fates| - |t.queue|)))
  {
    hide ChanInv, Runs, AfterCalls;
    CallsKeep(c, calls);
    UnmatchedMeans(AfterCalls(c, calls));
  }

  lemma UnmatchedMeans(t: Chan)
    requires ChanInv(t)
    ensures forall i :: 0 <= i < |t.queue| ==> t.queue[i] in t.elts && t.elts[t.queue[i]].send == Sending(t)
    ensures Sending(t) ==>
              && |t.takers| + |t.queue| == |t.sends|
              && (forall i :: 0 <= i < |t.queue| ==> t.elts[t.queue[i]].val == t.sends[|t.takers| + i])
              && (forall i :: 0 <= i < |t.fates| ==> !t.fates[i].Queued?)
    ensures !Sending(t) ==>
              && |t.takers| == |t.sends|
              && (forall i :: 0 <= i < |t.fates| ==> (t.fates[i].Queued? <==> i >= |t.fates| - |t.queue|))
  {
    hide Inv, CordsOk, TakenInOrder, OutcomesOk;
  }

  /** The cords blocked on the channel are those of the queued elements, each on
      its own; a queued element of any other cord is of one that cannot run. */
  lemma WaitersAreQueued(c: Chan, calls: seq<Call>)
    requires ChanInv(c) && Runs(c, calls)
    ensures var t := AfterCalls(c, calls);
            && (forall k :: k in t.sched.blocked && OnChannel(k.at, t.id) ==>
                  && k.at.why.elt in t.queue && k.at.why.elt in t.elts
                  && t.elts[k.at.why.elt].cord == k.id && t.elts[k.at.why.elt].send == k.at.why.OnSend?)
            && (forall i :: 0 <= i < |t.queue| ==>
                  && t.queue[i] in t.elts
                  && Executing(t.sched.exec, t.elts[t.queue[i]].cord) == 0
                  && (forall k :: k in t.sched.runable ==> k.id != t.elts[t.queue[i]].cord)
                  && (forall k :: k in t.sched.blocked && k.id == t.elts[t.queue[i]].cord ==>
                        k.at == WaitPoint(t.id, t.queue[i], t.elts[t.queue[i]].send)))
  {
    CallsKeep(c, calls);
    var t := AfterCalls(c, calls);
    forall k | k in t.sched.blocked && OnChannel(k.at, t.id) ensures BlockOk(t, k) {
      assert CordsOk(t);
    }
    forall i | 0 <= i < |t.queue|
      ensures t.queue[i] in t.elts && WaiterOk(t.sched, t.id, t.queue[i], t.elts[t.queue[i]])
    {
      assert CordsOk(t) && QueueOk(t);
    }
  }

  /** The m-th value sent is taken once, by a receive that is later than the
      one that took the value before; what a receive returns is the value it
      took, and it returns not-ok only if it was turned away. */
  lemma TakenOnceInOrder(c: Chan, calls: seq<Call>)
    requires ChanInv(c) && Runs(c, calls)
    ensures var t := AfterCalls(c, calls);
            && (forall m, n :: 0 <= m < n < |t.takers| ==> t.takers[m] < t.takers[n])
            && (forall m :: 0 <= m < |t.takers| ==> t.takers[m] < |t.fates| && t.fates[t.takers[m]] == Paired(m))
            && (forall i :: 0 <= i < |t.fates| && t.fates[i].Paired? ==>
                  t.fates[i].send < |t.takers| <= |t.sends| && t.takers[t.fates[i].send] == i)
            && (forall i :: i in t.outcomes ==>
                  && i < |t.fates|
                  && t.outcomes[i] == match t.fates[i]
                                      case Paired(m) => Value(t.sends[m])
                                      case _ => NotOk)
  {
    CallsKeep(c, calls);
    var t := AfterCalls(c, calls);
    assert TakenInOrder(t) && Unmatched(t) && OutcomesOk(t);
    forall i | i in t.outcomes ensures Fits(t, i, t.outcomes[i]) {
    }
  }

  /** No queue element is freed twice, or used after it was freed. */
  lemma FreedOnce(c: Chan, calls: seq<Call>)
    requires ChanInv(c) && Runs(c, calls)
    ensures var t := AfterCalls(c, calls);
            && (forall i, j :: 0 <= i < j < |t.freed| ==> t.freed[i] != t.freed[j])
            && (forall i :: 0 <= i < |t.freed| ==> t.freed[i] !in t.elts && t.freed[i] !in t.queue)
            && (forall k :: k in t.sched.runable && Receives(k.at, t.id) ==> k.at.why.elt in t.elts)
  {
    CallsKeep(c, calls);
    var t := AfterCalls(c, calls);
    assert MemoryOk(t) && QueueOk(t) && CordsOk(t);
    forall k | k in t.sched.runable && Receives(k.at, t.id) ensures k.at.why.elt in t.elts {
      assert RunOk(t, k);
    }
  }

  /** A `chsend` that blocked returns 0, and only after its value was taken; a
      cord about to return from it is about to return just that. */
  lemma SenderReturnsZero(c: Chan, calls: seq<Call>)
    requires ChanInv(c) && Runs(c, calls)
    ensures var t := AfterCalls(c, calls);
            && (forall n :: n in t.replies ==> t.replies[n] == 0 && n < |t.takers|)
            && (forall k :: k in t.sched.runable && Sends(k.at, t.id) ==>
                  k.val == 0 && k.at.why.elt in t.noOf && t.noOf[k.at.why.elt] < |t.takers|)
  {
    CallsKeep(c, calls);
    var t := AfterCalls(c, calls);
    assert OutcomesOk(t);
    forall k | k in t.sched.runable && Sends(k.at, t.id) ensures RepliesWell(t, k) {
      assert CordsOk(t) && RunOk(t, k);
    }
  }

  // ---------------------------------------------------------------------
  // Runs without halts and closes
  // ---------------------------------------------------------------------

  predicate Smoothly(calls: seq<Call>) {
    forall k :: 0 <= k < |calls| ==> !calls[k].Closed? && !(calls[k].Other? && calls[k].step.Halt?)
  }

  ghost predicate Blocked(s: State, id: nat) {
    exists k :: k in s.blocked && k.id == id
  }

  /** The cords of the queued elements are blocked. */
  ghost predicate AllWait(c: Chan) {
    forall i :: 0 <= i < |c.queue| && c.queue[i] in c.elts ==> Blocked(c.sched, c.elts[c.queue[i]].cord)
  }

  ghost predicate Matched(c: Chan) {
    && !c.closed
    && (forall m :: 0 <= m < |c.takers| ==> c.takers[m] == m)
    && (forall i :: 0 <= i < |c.fates| ==> c.fates[i].Paired? || c.fates[i].Queued?)
  }

  ghost predicate Smooth(c: Chan) {
    && ChanInv(c) && Matched(c)
    && (!c.sched.exec.Finished? ==> AllWait(c))
  }

  lemma OpenSmooth(id: nat, s: State)
    requires Inv(s) && forall k :: k in s.runable || k in s.blocked ==> !OnChannel(k.at, id)
    ensures Smooth(Open(id, s))
  {
  }

  lemma BlockedIsFound(s: State, id: nat)
    requires Blocked(s, id)
    ensures IsBlocked(s, id)
  {
    var k :| k in s.blocked && k.id == id;
    var i :| 0 <= i < |s.blocked| && s.blocked[i] == k;
  }

  /** How many receives are answered. */
  function Answered(c: Chan): int {
    |c.fates| - if Sending(c) then 0 else |c.queue|
  }

  lemma AnsweredTakes(c: Chan, i: nat)
    requires ChanInv(c) && Matched(c) && i < Answered(c)
    ensures i < |c.takers|
  {
    assert TakenInOrder(c) && Unmatched(c) && c.fates[i].Paired?;
  }

  lemma TakerAnswered(c: Chan, m: nat)
    requires ChanInv(c) && Matched(c) && m < |c.takers|
    ensures m < Answered(c)
  {
    assert TakenInOrder(c) && Unmatched(c) && c.takers[m] == m;
  }

  lemma AnsweredCount(c: Chan)
    requires ChanInv(c) && Matched(c)
    ensures |c.takers| == Answered(c)
  {
    assert Unmatched(c);
    if Answered(c) > 0 {
      AnsweredTakes(c, Answered(c) - 1);
    }
    if |c.takers| > 0 {
      TakerAnswered(c, |c.takers| - 1);
    }
  }

  lemma SmoothSend(c: Chan, v: nat)
    requires Smooth(c) && c.sched.exec.Running? && !c.gone
    ensures Matched(Send(c, v)) && AllWait(Send(c, v))
  {
    hide Channels.Enqueue;
    AnsweredCount(c);
    if Receiving(c) {
      SmoothHand(c, v);
    } else {
      SmoothQueue(c, v, true);
    }
  }

  lemma SmoothHand(c: Chan, v: nat)
    requires Smooth(c) && c.sched.exec.Running? && !c.gone && Receiving(c)
    ensures Matched(Send(c, v)) && AllWait(Send(c, v))
  {
    AnsweredCount(c);
    var id := c.elts[c.queue[0]].cord;
    BlockedIsFound(c.sched, id);
    WakeSets(c.sched, id, 1);
    StillWait(c, Hand(c, v), id);
  }

  /** The others in the queue still wait when the first is woken. */
  lemma StillWait(c: Chan, d: Chan, id: nat)
    requires ChanInv(c) && AllWait(c) && c.queue != [] && c.queue[0] in c.elts && id == c.elts[c.queue[0]].cord
    requires d.queue == c.queue[1..]
    requires forall i :: 0 <= i < |d.queue| && d.queue[i] in d.elts ==>
               d.queue[i] in c.elts && d.elts[d.queue[i]].cord == c.elts[d.queue[i]].cord
    requires forall k :: k in d.sched.blocked <==> k in c.sched.blocked && k.id != id
    ensures AllWait(d)
  {
    hide Inv, InOrder, MemoryOk;
    forall i | 0 <= i < |d.queue| && d.queue[i] in d.elts ensures Blocked(d.sched, d.elts[d.queue[i]].cord) {
      var a, b := c.queue[0], c.queue[i + 1];
      assert Blocked(c.sched, c.elts[b].cord);
      var k :| k in c.sched.blocked && k.id == c.elts[b].cord;
      assert k.at == WaitPoint(c.id, b, c.elts[b].send);
      assert k.id == id ==> k.at == WaitPoint(c.id, a, c.elts[a].send);
    }
  }

  lemma SmoothQueue(c: Chan, v: nat, send: bool)
    requires Smooth(c) && c.sched.exec.Running?
    ensures Matched(Enqueue(c, v, send)) && AllWait(Enqueue(c, v, send))
  {
    hide Settle, Dispatch;
    var d := Queue(c, v, send);
    var t := Enqueue(c, v, send);
    SettleLeaves(Dispatched(d));
    var me := d.sched.blocked[|c.sched.blocked|];
    DispatchSets(d.sched);
    assert t.sched.blocked == c.sched.blocked + [me];
    forall i | 0 <= i < |t.queue| && t.queue[i] in t.elts ensures Blocked(t.sched, t.elts[t.queue[i]].cord) {
      if i < |c.queue| {
        assert c.queue[i] in c.elts && Blocked(c.sched, c.elts[c.queue[i]].cord);
        var k :| k in c.sched.blocked && k.id == c.elts[c.queue[i]].cord;
        assert k in t.sched.blocked;
      } else {
        assert me in t.sched.blocked;
      }
    }
  }

  lemma SmoothRecv(c: Chan)
    requires Smooth(c) && c.sched.exec.Running? && !c.gone
    ensures Matched(Recv(c)) && AllWait(Recv(c))
  {
    AnsweredCount(c);
    if Sending(c) {
      var id := c.elts[c.queue[0]].cord;
      WakeSets(c.sched, id, 0);
      StillWait(c, Take(c), id);
    } else {
      SmoothQueue(c, 0, false);
    }
  }

  lemma SmoothElsewhere(c: Chan, step: Step)
    requires Smooth(c) && Possible(c, Other(step)) && !step.Halt?
    ensures Matched(Elsewhere(c, step))
    ensures step.Finish? || AllWait(Elsewhere(c, step))
  {
    hide Settle, Dispatch, Next;
    var t := Elsewhere(c, step);
    SettleLeaves(c.(sched := Next(c.sched, step)));
    if !step.Finish? {
      forall i | 0 <= i < |t.queue| && t.queue[i] in t.elts
        ensures Blocked(t.sched, t.elts[t.queue[i]].cord)
      {
        assert c.queue[i] in c.elts && Blocked(c.sched, c.elts[c.queue[i]].cord);
        var k :| k in c.sched.blocked && k.id == c.elts[c.queue[i]].cord;
        assert k.at == WaitPoint(c.id, c.queue[i], c.elts[c.queue[i]].send);
        StaysBlocked(c, step, k);
      }
    }
  }

  /** A cord that waits on the channel stays blocked. */
  lemma StaysBlocked(c: Chan, step: Step, k: Cord)
    requires ChanInv(c) && Possible(c, Other(step)) && !step.Halt? && !step.Finish?
    requires k in c.sched.blocked && OnChannel(k.at, c.id)
    ensures k in Next(c.sched, step).blocked
  {
    if Switches(step) {
      SuspendedKeeps(c.sched, step);
      DispatchSets(Suspended(c.sched, step));
    } else if step.Unblock? {
      WakeSets(c.sched, step.id, step.val);
    }
  }

  lemma SmoothPerform(c: Chan, call: Call)
    requires Smooth(c) && Possible(c, call)
    requires !call.Closed? && !(call.Other? && call.step.Halt?)
    ensures Smooth(Perform(c, call))
  {
    PerformKeeps(c, call);
    match call
    case Sent(v) => SmoothSend(c, v);
    case Received => SmoothRecv(c);
    case Other(step) => SmoothElsewhere(c, step);
  }

  lemma {:induction false} SmoothCalls(c: Chan, calls: seq<Call>)
    requires Smooth(c) && Runs(c, calls) && Smoothly(calls)
    ensures Smooth(AfterCalls(c, calls))
    decreases |calls|
  {
    if calls != [] {
      SmoothPerform(c, calls[0]);
      assert Smoothly(calls[1..]);
      SmoothCalls(Perform(c, calls[0]), calls[1..]);
    }
  }

  /** While the channel is open and no cord is halted, the i-th receive takes
      the i-th send, in call order, and returns its value. */
  lemma ReceivesWhatWasSent(c: Chan, calls: seq<Call>, i: nat)
    requires Smooth(c) && Runs(c, calls) && Smoothly(calls)
    ensures var t := AfterCalls(c, calls);
            && (i < |t.sends| && i < |t.fates| <==> i < |t.fates| && t.fates[i] == Paired(i))
            && (i in t.outcomes ==> i < |t.sends| && t.outcomes[i] == Value(t.sends[i]))
  {
    SmoothCalls(c, calls);
    var t := AfterCalls(c, calls);
    AnsweredCount(t);
    assert TakenInOrder(t) && Unmatched(t) && OutcomesOk(t);
    if i in t.outcomes {
      assert Fits(t, i, t.outcomes[i]);
      assert t.takers[t.fates[i].send] == i;
    }
    if i < |t.takers| {
      assert t.takers[i] == i;
    }
  }

  /** So it is of every run from the opening of a channel. */
  lemma OpenedReceives(id: nat, s: State, calls: seq<Call>, i: nat)
    requires Inv(s) && forall k :: k in s.runable || k in s.blocked ==> !OnChannel(k.at, id)
    requires Runs(Open(id, s), calls) && Smoothly(calls)
    ensures var t := AfterCalls(Open(id, s), calls);
            && (i < |t.sends| && i < |t.fates| <==> i < |t.fates| && t.fates[i] == Paired(i))
            && (i in t.outcomes ==> i < |t.sends| && t.outcomes[i] == Value(t.sends[i]))
  {
    hide Smooth, Runs, AfterCalls;
    OpenSmooth(id, s);
    ReceivesWhatWasSent(Open(id, s), calls, i);
  }

  // ---------------------------------------------------------------------
  // Dead receivers
  // ---------------------------------------------------------------------

  /** The first `n` receivers are found dead. */
  ghost function SkipSome(c: Chan, n: nat): Chan {
    if n == 0 then c
    else
      var t := SkipSome(c, n - 1);
      if t.queue == [] then t else Skip(t)
  }

  lemma {:induction false} SkipSomeIs(c: Chan, v: nat, n: nat)
    requires ChanInv(c) && c.sched.exec.Running? && n <= |c.queue|
    requires n > 0 ==> Receiving(c) && forall i :: 0 <= i < n ==> !Alive(c, i)
    ensures var t := SkipSome(c, n);
            && ChanInv(t) && t.queue == c.queue[n..] && t.freed == c.freed + c.queue[..n]
            && (t.queue != [] && n > 0 ==> Receiving(t))
            && t.sched == c.sched && t.sends == c.sends && t.noOf == c.noOf
            && (forall a :: a in t.elts ==> a in c.elts && t.elts[a] == c.elts[a])
            && Send(c, v) == Send(t, v)
  {
    hide ChanInv, Send, Skip, IsBlocked;
    if n == 0 {
      assert c.queue[0..] == c.queue && c.freed + c.queue[..0] == c.freed;
    } else {
      SkipSomeIs(c, v, n - 1);
      var t := SkipSome(c, n - 1);
      assert !Alive(c, n - 1);
      assert c.queue[n - 1] == t.queue[0] && t.queue[1..] == c.queue[n..];
      assert c.queue[..n] == c.queue[..n - 1] + [c.queue[n - 1]];
      SkipFirst(t, v);
    }
  }

  lemma SkipFirst(c: Chan, v: nat)
    requires ChanInv(c) && Receiving(c) && !Alive(c, 0) && c.sched.exec.Running?
    ensures var d := Skip(c);
            && ChanInv(d) && d.queue == c.queue[1..] && d.freed == c.freed + [c.queue[0]]
            && (d.queue != [] ==> Receiving(d))
            && d.sched == c.sched && d.sends == c.sends && d.noOf == c.noOf
            && (forall a :: a in d.elts ==> a in c.elts && d.elts[a] == c.elts[a])
            && Send(c, v) == Send(d, v)
  {
    SkipKeeps(c);
    assert QueueOk(c) && QueueOk(Skip(c));
  }

  /** Whether the receiver at place `i` of the queue is still blocked. */
  predicate Alive(c: Chan, i: nat)
    requires i < |c.queue|
  {
    c.queue[i] in c.elts && IsBlocked(c.sched, c.elts[c.queue[i]].cord)
  }

  /** A send frees exactly the dead receivers in front and hands its value to
      the first one alive; if there is none, the sender queues itself. */
  lemma SendSkipsTheDead(c: Chan, v: nat, n: nat)
    requires ChanInv(c) && Receiving(c) && c.sched.exec.Running? && !c.gone && !c.closed
    requires n <= |c.queue| && (forall i :: 0 <= i < n ==> !Alive(c, i)) && (n < |c.queue| ==> Alive(c, n))
    ensures var t, d := Send(c, v), SkipSome(c, n);
            if n < |c.queue| then
              var a := c.queue[n];
              && t.queue == c.queue[n + 1..] && t.freed == c.freed + c.queue[..n]
              && t.sched == Wake(c.sched, c.elts[a].cord, 1)
              && t.elts == d.elts[a := c.elts[a].(val := v)]
              && t.sends == c.sends + [v] && a in c.noOf
              && c.noOf[a] < |t.fates| && t.fates[c.noOf[a]] == Paired(|c.sends|)
            else
              && d.queue == [] && d.freed == c.freed + c.queue && d.sched == c.sched
              && t == Enqueue(d, v, true)
  {
    hide ChanInv, Hand, Wake, Channels.Enqueue;
    SkipSomeIs(c, v, n);
    var d := SkipSome(c, n);
    if n < |c.queue| {
      HandIs(d, v);
      assert d.queue[0] == c.queue[n] && c.queue[n..][1..] == c.queue[n + 1..];
    } else {
      assert c.queue[..n] == c.queue;
    }
  }

  /** What a hand-over to the first receiver does. */
  lemma HandIs(c: Chan, v: nat)
    requires ChanInv(c) && Receiving(c)
    ensures var t, a := Hand(c, v), c.queue[0];
            && t.queue == c.queue[1..] && t.freed == c.freed && t.sends == c.sends + [v]
            && a in c.elts && t.elts == c.elts[a := c.elts[a].(val := v)]
            && t.sched == Wake(c.sched, c.elts[a].cord, 1)
            && a in c.noOf && c.noOf[a] < |t.fates| && t.fates[c.noOf[a]] == Paired(|c.sends|)
  {
    hide Wake, Inv;
    assert QueueOk(c) && MemoryOk(c) && Unmatched(c);
  }

  // ---------------------------------------------------------------------
  // Closing
  // ---------------------------------------------------------------------

  /** Closing a channel with waiting receivers wakes every one alive; it goes
      on in `chrecv` and returns not-ok. */
  lemma CloseWakesReceivers(c: Chan, i: nat, k: Cord)
    requires ChanInv(c) && Receiving(c) && c.sched.exec.Running?
    requires i < |c.queue| && k in c.sched.blocked && k.id == c.elts[c.queue[i]].cord
    ensures k.(val := 0) in Close(c).sched.runable && k.at == AfterBlock(OnRecv(c.id, c.queue[i]))
    ensures Fits(Close(c), c.noOf[c.queue[i]], NotOk)
  {
    WakeAllSets(c.sched, c.elts, c.queue);
    assert BlockOk(c, k) && WaiterOk(c.sched, c.id, c.queue[i], c.elts[c.queue[i]]);
    assert Unmatched(c);
  }

  /** The fates of the receives of `t` after the closed channel `c`. */
  ghost predicate Drains(c: Chan, t: Chan) {
    && t.sends == c.sends && t.closed
    && c.fates <= t.fates && c.outcomes.Keys <= t.outcomes.Keys
    && (forall j :: |c.fates| <= j < |t.fates| ==>
          && j in t.outcomes
          && t.fates[j] == if |c.takers| + j - |c.fates| < |c.sends| then Paired(|c.takers| + j - |c.fates|) else Shut)
  }

  lemma ClosedStep(c: Chan, call: Call)
    requires ChanInv(c) && c.closed && Possible(c, call)
    ensures var d := Perform(c, call);
            && Drains(c, d) && d.closed
            && |d.fates| <= |c.fates| + 1
            && |c.takers| <= |c.sends|
            && (|c.takers| < |c.sends| ==> |d.takers| - |c.takers| == |d.fates| - |c.fates|)
            && (|c.takers| == |c.sends| ==> |d.takers| == |c.takers|)
  {
    hide Settle, Dispatch, Next, Wake;
    assert QueueOk(c) && Unmatched(c) && MemoryOk(c);
    if call.Other? {
      SettleLeaves(c.(sched := Next(c.sched, call.step)));
    }
  }

  lemma {:induction false} ClosedRun(c: Chan, calls: seq<Call>)
    requires ChanInv(c) && c.closed && Runs(c, calls)
    ensures Drains(c, AfterCalls(c, calls)) && ChanInv(AfterCalls(c, calls))
    decreases |calls|
  {
    hide ChanInv, Perform;
    if calls != [] {
      var d := Perform(c, calls[0]);
      PerformKeeps(c, calls[0]);
      ClosedStep(c, calls[0]);
      ClosedRun(d, calls[1..]);
    }
  }

  /** Once the channel is closed, with or without pending senders, every send
      fails, the receives get the pending values in order, and then not-ok. */
  lemma ClosedDrains(c: Chan, calls: seq<Call>, j: nat)
    requires ChanInv(c) && c.closed && Runs(c, calls)
    requires j < |AfterCalls(c, calls).fates| - |c.fates|
    ensures var t, m := AfterCalls(c, calls), |c.takers| + j;
            && t.sends == c.sends && |c.fates| + j in t.outcomes
            && t.outcomes[|c.fates| + j] == if m < |c.sends| then Value(c.sends[m]) else NotOk
  {
    hide AfterCalls, ChanInv;
    ClosedRun(c, calls);
    OutcomeFits(AfterCalls(c, calls), |c.fates| + j);
  }

  lemma OutcomeFits(t: Chan, i: nat)
    requires ChanInv(t) && i in t.outcomes
    ensures Fits(t, i, t.outcomes[i])
  {
    assert OutcomesOk(t);
  }

  /** A close leaves a channel closed if anything is queued, and frees it unless
      senders are; then it changes nothing else. */
  lemma CloseIs(c: Chan)
    requires ChanInv(c) && Possible(c, Closed)
    ensures var t := Perform(c, Closed);
            && (t.closed <==> c.closed || c.queue != [])
            && (t.gone <==> c.queue == [] || !c.elts[c.queue[0]].send)
            && (!t.gone ==> t == c.(closed := true))
            && t.sends == c.sends && t.takers == c.takers && |t.fates| == |c.fates|
  {
    assert QueueOk(c);
  }

  /** From the close of a channel with senders queued: no value is added, every
      send fails, no receive blocks, and the receives get the pending values in
      order and then not-ok. */
  lemma ClosingDrains(c: Chan, calls: seq<Call>, j: nat, v: nat)
    requires ChanInv(c) && Possible(c, Closed) && Sending(c)
    requires Runs(Perform(c, Closed), calls)
    ensures var t, m := AfterCalls(Perform(c, Closed), calls), |c.takers| + j;
            && t.sends == c.sends && SendResult(t) == Some(-1) && RecvResult(t).Some?
            && (Possible(t, Sent(v)) ==> Perform(t, Sent(v)) == t)
            && (j < |t.fates| - |c.fates| ==>
                  |c.fates| + j in t.outcomes
                  && t.outcomes[|c.fates| + j] == if m < |c.sends| then Value(c.sends[m]) else NotOk)
  {
    hide AfterCalls, ChanInv, Runs;
    var d := Perform(c, Closed);
    CloseIs(c);
    SendingIs(c);
    PerformKeeps(c, Closed);
    ClosedRun(d, calls);
    ClosedAnswers(AfterCalls(d, calls));
    if j < |AfterCalls(d, calls).fates| - |c.fates| {
      ClosedDrains(d, calls, j);
    }
  }

  lemma SendingIs(c: Chan)
    ensures Sending(c) ==> c.queue != [] && c.queue[0] in c.elts && c.elts[c.queue[0]].send
  {
  }

  lemma ClosedAnswers(t: Chan)
    requires ChanInv(t) && t.closed
    ensures SendResult(t) == Some(-1) && RecvResult(t).Some?
  {
    assert QueueOk(t);
  }

  // ---------------------------------------------------------------------
  // What the calls return at once
  // ---------------------------------------------------------------------

  /** The cord waits in a call on the element at `a`. */
  ghost predicate WaitsAt(s: State, id: nat, at: Point) {
    exists k :: k in s.blocked && k.id == id && k.at == at
  }

  /** On a channel just opened, a send and a receive both wait. */
  lemma OpenedWaits(id: nat, s: State, v: nat)
    requires Inv(s) && forall k :: k in s.runable || k in s.blocked ==> !OnChannel(k.at, id)
    requires s.exec.Running?
    ensures var c := Open(id, s);
            && c.sched == s && Possible(c, Sent(v)) && Possible(c, Received) && Possible(c, Closed)
            && SendResult(c) == None && RecvResult(c) == None && Perform(c, Closed).gone
            && WaitsAt(Perform(c, Sent(v)).sched, s.exec.cord.id, AfterBlock(OnSend(id, c.top)))
            && WaitsAt(Perform(c, Received).sched, s.exec.cord.id, AfterBlock(OnRecv(id, c.top)))
  {
    hide Settle, Dispatch;
    EnqueueBlocks(Open(id, s), v, true);
    EnqueueBlocks(Open(id, s), 0, false);
  }

  /** A receive that returns at once returns its outcome; it returns later if
      and only if its cord is blocked on a new element. */
  lemma RecvAnswers(c: Chan)
    requires ChanInv(c) && Possible(c, Received)
    ensures var t, r := Perform(c, Received), RecvResult(c);
            && |t.fates| == |c.fates| + 1
            && (r.Some? ==> |c.fates| in t.outcomes && t.outcomes[|c.fates|] == r.value && t.top == c.top)
            && (r.None? ==> t.top == c.top + 1)
            && (r.None? ==> WaitsAt(t.sched, c.sched.exec.cord.id, AfterBlock(OnRecv(c.id, c.top))))
  {
    hide Settle, Dispatch, Wake;
    assert QueueOk(c) && MemoryOk(c) && Unmatched(c);
    if RecvResult(c).None? {
      EnqueueBlocks(c, 0, false);
    }
  }

  /** A send returns -1 if and only if the channel is closed, and then changes
      nothing; 0 if and only if a receiver takes the value at once; and later if
      and only if its cord is blocked on a new element. */
  lemma {:induction false} SendAnswers(c: Chan, v: nat)
    requires ChanInv(c) && Possible(c, Sent(v))
    ensures var t, r := Perform(c, Sent(v)), SendResult(c);
            && (r == Some(-1) <==> c.closed) && (c.closed ==> t == c)
            && (r == Some(0) <==> |t.takers| > |c.takers|)
            && (r == Some(0) ==> t.sends == c.sends + [v] && t.top == c.top)
            && (r.None? <==> t.top == c.top + 1)
            && (r.None? ==> WaitsAt(t.sched, c.sched.exec.cord.id, AfterBlock(OnSend(c.id, c.top))))
            && (r.Some? ==> r.value == -1 || r.value == 0)
    decreases |c.queue|
  {
    hide Settle, Dispatch, Wake;
    if !c.closed {
      if !Receiving(c) {
        EnqueueBlocks(c, v, true);
      } else if !FirstWaits(c) {
        SkipKeeps(c);
        SkipLeaves(c);
        SendAnswers(Skip(c), v);
      }
    }
  }

  lemma SkipLeaves(c: Chan)
    requires c.queue != []
    ensures var d := Skip(c);
            && d.sched == c.sched && d.id == c.id && d.closed == c.closed && d.gone == c.gone && d.top == c.top
            && d.takers == c.takers && d.sends == c.sends && |d.queue| < |c.queue|
  {
  }

  lemma EnqueueBlocks(c: Chan, v: nat, send: bool)
    requires c.sched.exec.Running?
    ensures var t := Enqueue(c, v, send);
            && t.top == c.top + 1 && t.takers == c.takers
            && |t.fates| == |c.fates| + (if send then 0 else 1)
            && WaitsAt(t.sched, c.sched.exec.cord.id, WaitPoint(c.id, c.top, send))
  {
    hide Settle, Dispatch;
    var d := Queue(c, v, send);
    SettleLeaves(Dispatched(d));
    DispatchSets(d.sched);
    assert d.sched.blocked[|c.sched.blocked|]
           == c.sched.exec.cord.(at := AfterBlock(if send then OnSend(c.id, c.top) else OnRecv(c.id, c.top)));
  }

  /** A cord that is resumed in a send returns 0 from it, and its value was taken. */
  lemma ResumeReplies(c: Chan)
    requires AtSwitch(c)
    ensures var d := Dispatched(c);
            d.sched.exec.Running? && Sends(d.sched.exec.cord.at, c.id) ==>
              var a := d.sched.exec.cord.at.why.elt;
              && d.sched.exec.cord.val == 0 && a in c.noOf && c.noOf[a] < |c.takers|
              && c.noOf[a] in Settle(d).replies && Settle(d).replies[c.noOf[a]] == 0
  {
    hide MemoryOk, QueueOk, CordsOk, InOrder, Inv, Counted;
    SwitchParts(c);
    hide Dispatch;
  }

  /** A receive that a resumed cord returns from returns its outcome, to the cord
      whose element it is. */
  lemma ResumeAnswers(c: Chan)
    requires AtSwitch(c)
    ensures var d := Dispatched(c);
            match Result(d)
            case Some(out) =>
              && d.sched.exec.Running? && Receives(d.sched.exec.cord.at, c.id)
              && var a := d.sched.exec.cord.at.why.elt;
                 && a in c.elts && c.elts[a].cord == d.sched.exec.cord.id && a in c.noOf
                 && c.noOf[a] in Settle(d).outcomes && Settle(d).outcomes[c.noOf[a]] == out
                 && (d.sched.exec.cord.val != 0 <==> out == Outcome.Value(c.elts[a].val))
                 && (d.sched.exec.cord.val == 0 <==> out == NotOk)
            case None => !(d.sched.exec.Running? && Receives(d.sched.exec.cord.at, c.id))
  {
    hide MemoryOk, QueueOk, CordsOk, InOrder, Inv, Counted;
    SwitchParts(c);
    hide Dispatch;
    SwitchKeeps(c);
  }

  /** A receive that takes the first pending value wakes its sender, if that
      is still blocked, with 0. */
  lemma TakeWakesSender(c: Chan, k: Cord)
    requires ChanInv(c) && Sending(c) && c.sched.exec.Running?
    requires k in c.sched.blocked && k.id == c.elts[c.queue[0]].cord
    ensures k.(val := 0) in Recv(c).sched.runable && k.at == AfterBlock(OnSend(c.id, c.queue[0]))
    ensures |c.fates| in Recv(c).outcomes && Recv(c).outcomes[|c.fates|] == Value(c.sends[|c.takers|])
    ensures c.queue[0] !in Recv(c).elts && Recv(c).queue == c.queue[1..]
  {
    WakeSets(c.sched, k.id, 0);
    assert WaiterOk(c.sched, c.id, c.queue[0], c.elts[c.queue[0]]) && Unmatched(c) && MemoryOk(c);
  }
}
